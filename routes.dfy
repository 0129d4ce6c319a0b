/** The HTTP handlers. Each handler is a method over the store (or, when it
    touches no table, a function) that returns the reply it sends: a JSON
    body with status 200, or an error status with its message. The caller's
    identity comes from the session middleware and is a parameter; the
    payment provider, the language model and the file system are oracle
    parameters, each a function of the request sent to it. */
module Routes {
  import opened Wrappers
  import opened Rows
  import opened Schema
  import opened Storage
  import opened Gateway
  import opened Params
  import Account

  datatype Response<T> = Ok(body: T) | Err(status: int, message: string)

  const DayMs := 86_400_000

  // ------------------------------------------------------------ messages

  const Unauthorized := "Unauthorized"
  const UserMissing := "User not found"
  const InvalidPlan := "خطة اشتراك غير صالحة"
  const UserNotFound := "المستخدم غير موجود"
  const EmailRequired := "البريد الإلكتروني مطلوب"
  const SubscriptionFailed := "فشل في إنشاء الاشتراك: "
  const NoSessionsLeft := "لا توجد جلسات متبقية. يرجى تجديد الاشتراك."
  const SessionCreateFailed := "فشل في إنشاء جلسة المحادثة"
  const SessionNotFound := "جلسة المحادثة غير موجودة"
  const SessionFetchFailed := "فشل في جلب جلسة المحادثة"
  const MessageFailed := "فشل في إرسال الرسالة"
  const NoFileUploaded := "لم يتم رفع أي ملف"
  const UnsupportedFileType := "نوع الملف غير مدعوم. يرجى رفع ملفات PDF أو Word فقط."
  const FileTooLarge := "File too large"
  const UploadFailed := "فشل في رفع الملف"
  const UploadedAndAnalyzed := "تم رفع الملف وتحليله بنجاح"
  const UploadedNotAnalyzed := "تم رفع الملف ولكن فشل في تحليله"
  const Uploaded := "تم رفع الملف بنجاح"
  const TranslationContentRequired := "المحتوى مطلوب للترجمة"
  const TranslationRouteFailed := "فشل في الترجمة"
  const SubjectRequired := "الموضوع مطلوب"
  const QuestionsFailed := "فشل في توليد الأسئلة التقييمية"
  const SubjectAndAnswersRequired := "الموضوع والإجابات مطلوبة"
  const AnalysisFailed := "فشل في تحليل الأداء"
  const SummaryContentRequired := "المحتوى مطلوب لإنشاء الملخص"
  const SummaryFailed := "فشل في إنشاء الملخص"
  const TicketFailed := "فشل في إرسال طلب الدعم"

  // --------------------------------------------------------- current user

  /** The signed-in user's row: 401 without an identity, 404 without a row. */
  method CurrentUser(store: Store, caller: Option<string>) returns (resp: Response<User>)
    requires store.Valid()
    ensures !Truthy(caller) ==> resp == Err(401, Unauthorized)
    ensures Truthy(caller) && !HasUser(store.users, caller.value) ==> resp == Err(404, UserMissing)
    ensures resp.Ok? <==> Truthy(caller) && HasUser(store.users, caller.value)
    ensures resp.Ok? ==> resp.body in store.users && resp.body.id == caller.value
  {
    if !Truthy(caller) {
      return Err(401, Unauthorized);
    }
    var user := store.GetUser(caller.value);
    if user.None? {
      return Err(404, UserMissing);
    }
    resp := Ok(user.value);
  }

  // ------------------------------------------------------- subscriptions

  /** The plan a request names, read as the catalogue guard intends: exactly
      the three catalogue keys. */
  function PlanFromRequest(planId: Option<string>): (r: Option<Plan>)
    ensures r.Some? <==> planId.Some? && planId.value in {"emergency", "basic", "premium"}
    ensures r.Some? ==> PlanKey(r.value) == planId.value
  {
    if Truthy(planId) then ParsePlanKey(planId.value) else None
  }

  /** The plan guard as written: a catalogue lookup by the raw id, which
      also finds the inherited members, and those are truthy functions. */
  predicate PlanGuardAsWritten(planId: Option<string>) {
    Truthy(planId) && (planId.value in {"emergency", "basic", "premium"} || planId.value in InheritedKeys)
  }

  /** The guard as written lets an inherited name through as if it were a plan. */
  lemma {:induction false} InheritedNamePassesPlanGuard()
    ensures PlanGuardAsWritten(Some("constructor")) && PlanFromRequest(Some("constructor")).None?
    ensures PlanGuardAsWritten(Some("toString")) && PlanFromRequest(Some("toString")).None?
  {
  }

  /** Apart from the inherited names, the guard as written and the intended
      one accept the same plan ids. */
  lemma {:induction false} PlanGuardsAgree(planId: Option<string>)
    ensures PlanFromRequest(planId).Some? ==> PlanGuardAsWritten(planId)
    ensures PlanGuardAsWritten(planId) && planId.value !in InheritedKeys ==> PlanFromRequest(planId).Some?
  {
  }

  /** A subscription as the payment provider reports it. */
  datatype StripeSubscription = StripeSubscription(id: string, status: string, clientSecret: Option<string>)

  datatype CustomerRequest = CustomerRequest(email: string, name: string)

  /** A monthly recurring price, in halalas, for one product. */
  datatype ChargeRequest = ChargeRequest(
    customer: string, currency: string, interval: string, product: string, unitAmount: int)

  /** The payment provider: each call's outcome is a function of what is sent. */
  datatype Stripe = Stripe(
    retrieve: string -> Result<StripeSubscription>,
    createCustomer: CustomerRequest -> Result<string>,
    createSubscription: ChargeRequest -> Result<StripeSubscription>)

  datatype SubscriptionReply = SubscriptionReply(subscriptionId: string, clientSecret: Option<string>)

  /** First and last name joined by a space, a missing part empty, trimmed. */
  function CustomerName(u: User): string {
    Trim(OrDefault(u.firstName, "") + " " + OrDefault(u.lastName, ""))
  }

  /** The plan's price is charged monthly in riyals, converted to halalas. */
  function ChargeFor(plan: Plan, customer: string): (c: ChargeRequest)
    ensures c.unitAmount == PlanOf(plan).price * 100 && c.unitAmount > 0
    ensures c.currency == "sar" && c.customer == customer
  {
    ChargeRequest(customer, "sar", "month", PlanName(plan), PlanOf(plan).price * 100)
  }

  /** The user's stored subscription is still active with the provider. */
  predicate StillActive(u: User, stripe: Stripe) {
    Truthy(u.stripeSubscriptionId)
    && stripe.retrieve(u.stripeSubscriptionId.value).Success?
    && stripe.retrieve(u.stripeSubscriptionId.value).value.status == "active"
  }

  /** The customer a new subscription is billed to: the stored one, or one
      the provider creates from the user's email and name. */
  function BillingCustomer(u: User, stripe: Stripe): Result<string>
    requires Truthy(u.email)
  {
    if Truthy(u.stripeCustomerId) then Success(u.stripeCustomerId.value)
    else stripe.createCustomer(CustomerRequest(u.email.value, CustomerName(u)))
  }

  /** A plan's duration in milliseconds: at least one day. */
  function PlanDurationMs(plan: Plan): (ms: int)
    ensures ms >= DayMs
  {
    PlanOf(plan).duration * DayMs
  }

  /** The row after a purchase: billing ids, the plan, an expiry `duration`
      days from now, and the plan's session credit replacing the old balance. */
  function Subscribed(u: User, customerId: string, subscriptionId: string, plan: Plan, now: int): (r: User)
    ensures r.id == u.id && r.currentPlan == Some(plan)
    ensures r.subscriptionExpiresAt == Some(now + PlanDurationMs(plan))
    ensures r.subscriptionExpiresAt.value > now
    ensures r.sessionsRemaining == Some(PlanOf(plan).sessions as int)
  {
    u.(stripeCustomerId := Some(customerId), stripeSubscriptionId := Some(subscriptionId),
       currentPlan := Some(plan), subscriptionExpiresAt := Some(now + PlanDurationMs(plan)),
       sessionsRemaining := Some(PlanOf(plan).sessions as int), updatedAt := now)
  }

  /** What is left when the provider accepts a new customer and then refuses
      the subscription: the customer id, an empty subscription id, and nothing else. */
  function CustomerRecorded(u: User, customerId: string, now: int): User {
    u.(stripeCustomerId := Some(customerId), stripeSubscriptionId := Some(""), updatedAt := now)
  }

  /** The stored subscription id names one the provider cannot retrieve. */
  predicate RetrieveFailed(u: User, stripe: Stripe) {
    Truthy(u.stripeSubscriptionId) && stripe.retrieve(u.stripeSubscriptionId.value).Failure?
  }

  /** There is no stored subscription, or the provider reports it as not active:
      the route goes on to buy a new one. */
  predicate NeedsNewSubscription(u: User, stripe: Stripe) {
    !Truthy(u.stripeSubscriptionId)
    || (stripe.retrieve(u.stripeSubscriptionId.value).Success?
        && stripe.retrieve(u.stripeSubscriptionId.value).value.status != "active")
  }

  /** The tables once the billing customer is settled: unchanged for a stored
      customer, otherwise the new customer recorded in row `k`. */
  function CustomerWritten(db: Tables, k: nat, u: User, customerId: string, now: int): (r: Tables)
    requires k < |db.users|
    ensures Truthy(u.stripeCustomerId) ==> r == db
    ensures |r.users| == |db.users| && r.sessions == db.sessions
    ensures !Truthy(u.stripeCustomerId) ==> r.users[k].stripeCustomerId == Some(customerId)
  {
    if Truthy(u.stripeCustomerId) then db
    else db.(users := db.users[k := CustomerRecorded(u, customerId, now)])
  }

  /** How buying `plan` for the row `u` at position `k` ends: a failed customer
      lookup changes nothing; a refused subscription leaves only the new
      customer recorded; an accepted one is replied with and recorded as `Subscribed`. */
  ghost predicate PurchaseOutcome(db: Tables, after: Tables, k: nat, u: User, plan: Plan, now: int, stripe: Stripe,
                                  resp: Response<SubscriptionReply>)
    requires k < |db.users| && Truthy(u.email)
  {
    match BillingCustomer(u, stripe)
    case Failure(e) => resp == Err(500, SubscriptionFailed + e) && after == db
    case Success(c) =>
      match stripe.createSubscription(ChargeFor(plan, c))
      case Failure(e) => resp == Err(500, SubscriptionFailed + e) && after == CustomerWritten(db, k, u, c, now)
      case Success(sub) =>
        && resp == Ok(SubscriptionReply(sub.id, sub.clientSecret))
        && after == db.(users := db.users[k := Subscribed(u, c, sub.id, plan, now)])
  }

  method CreateSubscription(store: Store, caller: string, planId: Option<string>, now: int, stripe: Stripe)
    returns (resp: Response<SubscriptionReply>)
    requires store.Valid()
    modifies store
    ensures store.Valid()
    ensures PlanFromRequest(planId).None? ==> resp == Err(400, InvalidPlan) && store.Db() == old(store.Db())
    ensures PlanFromRequest(planId).Some? && !HasUser(old(store.users), caller) ==>
              resp == Err(404, UserNotFound) && store.Db() == old(store.Db())
    ensures PlanFromRequest(planId).Some? && HasUser(old(store.users), caller) ==>
              var k := UserIndex(old(store.users), caller).value;
              var u := old(store.users)[k];
              && (RetrieveFailed(u, stripe) ==>
                    && resp == Err(500, SubscriptionFailed + stripe.retrieve(u.stripeSubscriptionId.value).error)
                    && store.Db() == old(store.Db()))
              && (StillActive(u, stripe) ==>
                    var existing := stripe.retrieve(u.stripeSubscriptionId.value).value;
                    && resp == Ok(SubscriptionReply(existing.id, existing.clientSecret))
                    && store.Db() == old(store.Db()))
              && (NeedsNewSubscription(u, stripe) && !Truthy(u.email) ==>
                    resp == Err(400, EmailRequired) && store.Db() == old(store.Db()))
              && (NeedsNewSubscription(u, stripe) && Truthy(u.email) ==>
                    PurchaseOutcome(old(store.Db()), store.Db(), k, u, PlanFromRequest(planId).value, now, stripe, resp))
  {
    var plan := PlanFromRequest(planId);
    if plan.None? {
      return Err(400, InvalidPlan);
    }
    var user := store.GetUser(caller);
    if user.None? {
      return Err(404, UserNotFound);
    }
    var u := user.value;
    if Truthy(u.stripeSubscriptionId) {
      var existing := stripe.retrieve(u.stripeSubscriptionId.value);
      if existing.Failure? {
        return Err(500, SubscriptionFailed + existing.error);
      }
      if existing.value.status == "active" {
        return Ok(SubscriptionReply(existing.value.id, existing.value.clientSecret));
      }
    }
    if !Truthy(u.email) {
      return Err(400, EmailRequired);
    }
    resp := Purchase(store, caller, u, plan.value, now, stripe);
  }

  /** A new subscription for a user with an email: find or create the billing
      customer, create the subscription, then record ids, plan, expiry and credit. */
  method Purchase(store: Store, caller: string, u: User, plan: Plan, now: int, stripe: Stripe)
    returns (resp: Response<SubscriptionReply>)
    requires store.Valid() && Truthy(u.email)
    requires UserById(store.users, caller) == Some(u)
    modifies store
    ensures store.Valid()
    ensures UserIndex(old(store.users), caller).Some?
    ensures PurchaseOutcome(old(store.Db()), store.Db(), UserIndex(old(store.users), caller).value, u, plan, now,
                            stripe, resp)
  {
    ghost var k := UserIndex(store.users, caller).value;
    var customer := EnsureCustomer(store, caller, u, now, stripe);
    if customer.Failure? {
      return Err(500, SubscriptionFailed + customer.error);
    }
    var customerId := customer.value;
    var created := stripe.createSubscription(ChargeFor(plan, customerId));
    if created.Failure? {
      return Err(500, SubscriptionFailed + created.error);
    }
    var sub := created.value;
    ghost var mid := store.Db();
    RecordPurchase(store, caller, customerId, sub.id, plan, now);
    PurchaseAfterCustomer(old(store.Db()), mid, store.Db(), k, u, customerId, sub.id, plan, now);
    resp := Ok(SubscriptionReply(sub.id, sub.clientSecret));
  }

  /** The stored customer id, or a new one recorded together with an empty
      subscription id. The user keeps its position. */
  method EnsureCustomer(store: Store, caller: string, u: User, now: int, stripe: Stripe)
    returns (customer: Result<string>)
    requires store.Valid() && Truthy(u.email)
    requires UserById(store.users, caller) == Some(u)
    modifies store
    ensures store.Valid()
    ensures customer == BillingCustomer(u, stripe)
    ensures UserIndex(store.users, caller) == UserIndex(old(store.users), caller)
    ensures customer.Failure? || Truthy(u.stripeCustomerId) ==> store.Db() == old(store.Db())
    ensures customer.Success? && !Truthy(u.stripeCustomerId) ==>
              store.Db() == old(store.Db()).(users := old(store.users)[UserIndex(old(store.users), caller).value :=
                CustomerRecorded(u, customer.value, now)])
  {
    if Truthy(u.stripeCustomerId) {
      return Success(u.stripeCustomerId.value);
    }
    customer := stripe.createCustomer(CustomerRequest(u.email.value, CustomerName(u)));
    if customer.Success? {
      ghost var k := UserIndex(store.users, caller).value;
      var _ := store.UpdateUserStripeInfo(caller, customer.value, "", now);
      IndexWhereUpdate(old(store.users), UserIdIs(caller), k, CustomerRecorded(u, customer.value, now));
    }
  }

  /** The two writes after the provider accepts: billing ids, then plan, expiry and credit. */
  method RecordPurchase(store: Store, caller: string, customerId: string, subscriptionId: string, plan: Plan, now: int)
    requires store.Valid() && HasUser(store.users, caller)
    modifies store
    ensures store.Valid()
    ensures UserIndex(old(store.users), caller).Some?
    ensures var k := UserIndex(old(store.users), caller).value;
            store.Db() == old(store.Db()).(users := old(store.users)[k :=
              Subscribed(old(store.users)[k], customerId, subscriptionId, plan, now)])
  {
    ghost var k := UserIndex(store.users, caller).value;
    ghost var users0 := store.users;
    var r1 := store.UpdateUserStripeInfo(caller, customerId, subscriptionId, now);
    IndexWhereUpdate(users0, UserIdIs(caller), k, r1.value);
    ghost var users1 := store.users;
    var r2 := store.UpdateUserSubscription(caller, Some(plan), Some(now + PlanDurationMs(plan)),
                                           PlanOf(plan).sessions, now);
    PurchaseWrites(old(store.Db()), users1, store.Db(), k, r1.value, r2.value, customerId, subscriptionId, plan, now);
  }

  /** Whether or not a customer id was recorded first, the purchase leaves
      the caller's row as `Subscribed` from the row the request started with. */
  lemma {:induction false} PurchaseAfterCustomer(db: Tables, mid: Tables, after: Tables, k: nat, u: User,
                                                 customerId: string, subscriptionId: string, plan: Plan, now: int)
    requires k < |db.users| && db.users[k] == u
    requires mid == db || mid == db.(users := db.users[k := CustomerRecorded(u, customerId, now)])
    requires after == mid.(users := mid.users[k := Subscribed(mid.users[k], customerId, subscriptionId, plan, now)])
    ensures after == db.(users := db.users[k := Subscribed(u, customerId, subscriptionId, plan, now)])
  {
    if mid != db {
      assert Subscribed(mid.users[k], customerId, subscriptionId, plan, now) == Subscribed(u, customerId, subscriptionId, plan, now);
      assert mid.users[k := Subscribed(u, customerId, subscriptionId, plan, now)]
          == db.users[k := Subscribed(u, customerId, subscriptionId, plan, now)];
    }
  }

  /** The billing write followed by the plan write of one user's row leave
      that row as `Subscribed` and every other table as it was. */
  lemma {:induction false} PurchaseWrites(db: Tables, mid: seq<User>, after: Tables, k: nat,
                                          billed: User, planned: User, customerId: string,
                                          subscriptionId: string, plan: Plan, now: int)
    requires k < |db.users|
    requires billed == db.users[k].(stripeCustomerId := Some(customerId),
                                    stripeSubscriptionId := Some(subscriptionId), updatedAt := now)
    requires mid == db.users[k := billed]
    requires planned == mid[k].(currentPlan := Some(plan), subscriptionExpiresAt := Some(now + PlanDurationMs(plan)),
                                sessionsRemaining := Some(PlanOf(plan).sessions as int), updatedAt := now)
    requires after == db.(users := mid).(users := mid[k := planned])
    ensures after == db.(users := db.users[k := Subscribed(db.users[k], customerId, subscriptionId, plan, now)])
  {
    assert planned == Subscribed(db.users[k], customerId, subscriptionId, plan, now);
    assert mid[k := planned] == db.users[k := planned];
  }

  // -------------------------------------------------------- chat sessions

  /** What the session route lets through: a row with a positive balance. */
  function HasCredit(u: Option<User>): (r: bool)
    ensures r <==> Account.SessionsRemainingShown(u) > 0
  {
    u.Some? && u.value.sessionsRemaining.Some? && u.value.sessionsRemaining.value > 0
  }

  /** The balance shown for a user: absent or null counts as none. */
  function Remaining(users: seq<User>, id: string): int {
    match UserById(users, id)
    case None => 0
    case Some(u) => u.sessionsRemaining.GetOr(0)
  }

  function OwnedSessions(sessions: seq<ChatSession>, id: string): nat {
    |Select(sessions, SessionOwnedBy(id))|
  }

  /** The row after a session is opened: one credit fewer; plan and expiry
      are written back unchanged. */
  function Debited(u: User, now: int): User
    requires u.sessionsRemaining.Some?
  {
    u.(sessionsRemaining := Some(u.sessionsRemaining.value - 1), updatedAt := now)
  }

  /** Opening a session moves one credit from the user's balance to the
      user's list of sessions: their sum is unchanged. */
  lemma {:induction false} SessionCreditConserved(users: seq<User>, sessions: seq<ChatSession>, id: string,
                                                  now: int, row: ChatSession)
    requires UserById(users, id).Some? && UserById(users, id).value.sessionsRemaining.Some?
    requires row.userId == id
    ensures var k := UserIndex(users, id).value;
            var users' := users[k := Debited(users[k], now)];
            && Remaining(users', id) == Remaining(users, id) - 1
            && OwnedSessions(sessions + [row], id) == OwnedSessions(sessions, id) + 1
            && Remaining(users', id) + OwnedSessions(sessions + [row], id)
               == Remaining(users, id) + OwnedSessions(sessions, id)
  {
    var k := UserIndex(users, id).value;
    IndexWhereUpdate(users, UserIdIs(id), k, Debited(users[k], now));
    SelectAppend(sessions, row, SessionOwnedBy(id));
  }

  method StartChatSession(store: Store, caller: string, title: Option<string>, subject: Option<string>,
                          isActive: Option<bool>, now: int)
    returns (resp: Response<ChatSession>)
    requires store.Valid()
    modifies store
    ensures store.Valid()
    ensures !HasCredit(UserById(old(store.users), caller)) ==>
              resp == Err(403, NoSessionsLeft) && store.Db() == old(store.Db())
    ensures HasCredit(UserById(old(store.users), caller)) && title.None? ==>
              resp == Err(500, SessionCreateFailed) && store.Db() == old(store.Db())
    ensures HasCredit(UserById(old(store.users), caller)) && title.Some? ==>
              var k := UserIndex(old(store.users), caller).value;
              && resp == Ok(NewChatSession(|old(store.sessions)| + 1,
                                           InsertChatSession(caller, title.value, subject, isActive), now))
              && store.Db() == old(store.Db()).(users := old(store.users)[k := Debited(old(store.users)[k], now)],
                                                sessions := old(store.sessions) + [resp.body])
    ensures resp.Ok? ==>
              && Remaining(store.users, caller) == Remaining(old(store.users), caller) - 1 >= 0
              && Remaining(store.users, caller) + OwnedSessions(store.sessions, caller)
                 == Remaining(old(store.users), caller) + OwnedSessions(old(store.sessions), caller)
  {
    var user := store.GetUser(caller);
    if !HasCredit(user) {
      return Err(403, NoSessionsLeft);
    }
    if title.None? {
      return Err(500, SessionCreateFailed);
    }
    var session := OpenSession(store, caller, user.value, InsertChatSession(caller, title.value, subject, isActive), now);
    SessionCreditConserved(old(store.users), old(store.sessions), caller, now, session);
    resp := Ok(session);
  }

  /** Creates the session, then writes the user's balance back one lower. */
  method OpenSession(store: Store, caller: string, u: User, s: InsertChatSession, now: int)
    returns (session: ChatSession)
    requires store.Valid() && UserById(store.users, caller) == Some(u) && s.userId == caller
    requires u.sessionsRemaining.Some?
    modifies store
    ensures store.Valid()
    ensures UserIndex(old(store.users), caller).Some?
    ensures var k := UserIndex(old(store.users), caller).value;
            && session == NewChatSession(|old(store.sessions)| + 1, s, now)
            && store.Db() == old(store.Db()).(users := old(store.users)[k := Debited(u, now)],
                                              sessions := old(store.sessions) + [session])
  {
    ghost var k := UserIndex(store.users, caller).value;
    var created := store.CreateChatSession(s, now);
    session := created.value;
    ghost var mid := store.Db();
    var _ := store.UpdateUserSubscription(caller, u.currentPlan, u.subscriptionExpiresAt,
                                          u.sessionsRemaining.value - 1, now);
    SessionOpenedWrites(old(store.Db()), mid, store.Db(), k, u, session, now);
  }

  /** The session row appended and then the caller's row debited. */
  lemma {:induction false} SessionOpenedWrites(db: Tables, mid: Tables, after: Tables, k: nat, u: User,
                                               session: ChatSession, now: int)
    requires k < |db.users| && db.users[k] == u && u.sessionsRemaining.Some?
    requires mid == db.(sessions := db.sessions + [session])
    requires after == mid.(users := mid.users[k := mid.users[k].(currentPlan := u.currentPlan,
                             subscriptionExpiresAt := u.subscriptionExpiresAt,
                             sessionsRemaining := Some(u.sessionsRemaining.value - 1), updatedAt := now)])
    ensures after == db.(users := db.users[k := Debited(u, now)], sessions := db.sessions + [session])
  {
  }

  /** The path id, parsed with `parseInt`, as the database receives it: NaN
      and values outside an integer column make the query fail. */
  function PathId(raw: string): (r: Option<int>)
    ensures r.Some? <==> ParseInt(raw).Some? && Int4(ParseInt(raw).value)
    ensures r.Some? ==> r == ParseInt(raw)
  {
    match ParseInt(raw)
    case None => None
    case Some(n) => if Int4(n) then Some(n) else None
  }

  /** The session with this id exists and belongs to the caller. */
  predicate OwnsSession(sessions: seq<ChatSession>, caller: string, id: int) {
    1 <= id <= |sessions| && sessions[id - 1].userId == caller
  }

  datatype SessionView = SessionView(session: ChatSession, messages: seq<ChatMessage>)

  /** A session and its history, to its owner only: another user's session
      is reported missing, exactly like one that does not exist. */
  method ViewChatSession(store: Store, caller: string, rawId: string) returns (resp: Response<SessionView>)
    requires store.Valid()
    ensures PathId(rawId).None? ==> resp == Err(500, SessionFetchFailed)
    ensures PathId(rawId).Some? && !OwnsSession(store.sessions, caller, PathId(rawId).value) ==>
              resp == Err(404, SessionNotFound)
    ensures resp.Ok? <==> PathId(rawId).Some? && OwnsSession(store.sessions, caller, PathId(rawId).value)
    ensures resp.Ok? ==>
              var id := PathId(rawId).value;
              && resp.body.session == store.sessions[id - 1]
              && resp.body.session.userId == caller
              && resp.body.messages == SessionMessages(store.messages, id)
              && (forall m :: m in resp.body.messages <==> m in store.messages && m.sessionId == id)
  {
    var id := PathId(rawId);
    if id.None? {
      return Err(500, SessionFetchFailed);
    }
    var session := store.GetChatSession(id.value);
    if session.None? || session.value.userId != caller {
      return Err(404, SessionNotFound);
    }
    var messages := store.GetSessionMessages(id.value);
    resp := Ok(SessionView(session.value, messages));
  }

  // -------------------------------------------------------- chat messages

  /** The model is told the session's subject when it has a non-empty one. */
  function ChatRequestFor(content: string, session: ChatSession): (r: ChatRequest)
    ensures r.message == content && r.context == ""
    ensures Truthy(session.subject) <==> r.subject.Some?
    ensures r.subject.Some? ==> r.subject == session.subject
  {
    ChatRequest(content, "", if Truthy(session.subject) then session.subject else None)
  }

  datatype Exchange = Exchange(userMessage: ChatMessage, aiMessage: ChatMessage)

  /** The student's message as stored: always with the user role, whatever
      role the body names. */
  function Asked(messages: seq<ChatMessage>, sessionId: int, content: string, now: int): ChatMessage {
    NewChatMessage(|messages| + 1, InsertChatMessage(sessionId, UserRole, content, None), now)
  }

  function Answered(messages: seq<ChatMessage>, sessionId: int, reply: ChatResponse, now: int): ChatMessage {
    NewChatMessage(|messages| + 2, InsertChatMessage(sessionId, AssistantRole, reply.content, Some(reply.metadata)), now)
  }

  /** Stores the student's message, asks the model, stores its answer. A
      failing model leaves the student's message stored. The session's own
      row, `updatedAt` included, is not touched. */
  method PostChatMessage(store: Store, caller: string, rawId: string, content: Option<string>, now: int,
                         model: ChatRequest -> Result<Option<string>>)
    returns (resp: Response<Exchange>)
    requires store.Valid()
    modifies store
    ensures store.Valid()
    ensures PathId(rawId).None? ==> resp == Err(500, MessageFailed) && store.Db() == old(store.Db())
    ensures PathId(rawId).Some? && !OwnsSession(old(store.sessions), caller, PathId(rawId).value) ==>
              resp == Err(404, SessionNotFound) && store.Db() == old(store.Db())
    ensures PathId(rawId).Some? && OwnsSession(old(store.sessions), caller, PathId(rawId).value) && content.None? ==>
              resp == Err(500, MessageFailed) && store.Db() == old(store.Db())
    ensures PathId(rawId).Some? && OwnsSession(old(store.sessions), caller, PathId(rawId).value) && content.Some? ==>
              var id := PathId(rawId).value;
              var req := ChatRequestFor(content.value, old(store.sessions)[id - 1]);
              var asked := Asked(old(store.messages), id, content.value, now);
              && (model(req).Failure? ==>
                    && resp == Err(500, MessageFailed)
                    && store.Db() == old(store.Db()).(messages := old(store.messages) + [asked]))
              && (model(req).Success? ==>
                    var answered := Answered(old(store.messages), id, GenerateChatResponse(model(req), req.subject, now).value, now);
                    && resp == Ok(Exchange(asked, answered))
                    && store.Db() == old(store.Db()).(messages := old(store.messages) + [asked, answered]))
  {
    var id := PathId(rawId);
    if id.None? {
      return Err(500, MessageFailed);
    }
    var session := store.GetChatSession(id.value);
    if session.None? || session.value.userId != caller {
      return Err(404, SessionNotFound);
    }
    if content.None? {
      return Err(500, MessageFailed);
    }
    resp := Converse(store, session.value, content.value, now, model);
  }

  /** The chat turn proper, once the session is known to be the caller's. */
  method Converse(store: Store, session: ChatSession, content: string, now: int,
                  model: ChatRequest -> Result<Option<string>>)
    returns (resp: Response<Exchange>)
    requires store.Valid() && 1 <= session.id <= |store.sessions| && store.sessions[session.id - 1] == session
    modifies store
    ensures store.Valid()
    ensures var req := ChatRequestFor(content, session);
            var asked := Asked(old(store.messages), session.id, content, now);
            && (model(req).Failure? ==>
                  && resp == Err(500, MessageFailed)
                  && store.Db() == old(store.Db()).(messages := old(store.messages) + [asked]))
            && (model(req).Success? ==>
                  var answered := Answered(old(store.messages), session.id,
                                           GenerateChatResponse(model(req), req.subject, now).value, now);
                  && resp == Ok(Exchange(asked, answered))
                  && store.Db() == old(store.Db()).(messages := old(store.messages) + [asked, answered]))
  {
    assert HasSession(store.sessions, session.id);
    var asked := store.CreateChatMessage(InsertChatMessage(session.id, UserRole, content, None), now);
    ghost var mid := store.Db();
    var req := ChatRequestFor(content, session);
    var reply := GenerateChatResponse(model(req), req.subject, now);
    if reply.Failure? {
      return Err(500, MessageFailed);
    }
    var answered := store.CreateChatMessage(
      InsertChatMessage(session.id, AssistantRole, reply.value.content, Some(reply.value.metadata)), now);
    MessagesAppendedTwice(old(store.Db()), mid, store.Db(), asked.value, answered.value);
    resp := Ok(Exchange(asked.value, answered.value));
  }

  /** The question and then the answer, appended one after the other. */
  lemma {:induction false} MessagesAppendedTwice(db: Tables, mid: Tables, after: Tables, a: ChatMessage, b: ChatMessage)
    requires mid == db.(messages := db.messages + [a])
    requires after == mid.(messages := mid.messages + [b])
    ensures after == db.(messages := db.messages + [a, b])
  {
    assert db.messages + [a] + [b] == db.messages + [a, b];
  }

  /** A message stamped no earlier than any stored one ends its session's
      history. */
  lemma {:induction false} AppendEndsHistory(messages: seq<ChatMessage>, a: ChatMessage)
    requires forall m :: m in messages ==> m.createdAt <= a.createdAt
    ensures SessionMessages(messages + [a], a.sessionId) == SessionMessages(messages, a.sessionId) + [a]
  {
    var p := MessageInSession(a.sessionId);
    var sel := Select(messages, p);
    SelectAppend(messages, a, p);
    forall y | y in sel ensures MessageAge(y) >= MessageAge(a) {
      var i :| 0 <= i < |sel| && sel[i] == y;
    }
    SortDescAppendSmallest(sel, a, MessageAge);
  }

  /** A message of one session leaves every other session's history as it was. */
  lemma {:induction false} AppendKeepsOtherHistory(messages: seq<ChatMessage>, a: ChatMessage, other: int)
    requires other != a.sessionId
    ensures SessionMessages(messages + [a], other) == SessionMessages(messages, other)
  {
    var p := MessageInSession(other);
    SelectAppend(messages, a, p);
    assert !p(a);
    assert Select(messages, p) + [] == Select(messages, p);
  }

  /** With a clock that does not run backwards, a chat turn appends exactly
      the question and the answer to the end of its session's history and
      leaves every other session's history as it was. */
  lemma {:induction false} ExchangeEndsHistory(messages: seq<ChatMessage>, a: ChatMessage, b: ChatMessage)
    requires a.sessionId == b.sessionId
    requires forall m :: m in messages ==> m.createdAt <= a.createdAt
    requires a.createdAt <= b.createdAt
    ensures SessionMessages(messages + [a, b], a.sessionId) == SessionMessages(messages, a.sessionId) + [a, b]
    ensures forall other :: other != a.sessionId ==>
              SessionMessages(messages + [a, b], other) == SessionMessages(messages, other)
  {
    assert messages + [a, b] == (messages + [a]) + [b];
    AppendEndsHistory(messages, a);
    AppendEndsHistory(messages + [a], b);
    forall other | other != a.sessionId
      ensures SessionMessages(messages + [a, b], other) == SessionMessages(messages, other)
    {
      AppendKeepsOtherHistory(messages, a, other);
      AppendKeepsOtherHistory(messages + [a], b, other);
    }
  }

  // ------------------------------------------------------------- uploads

  /** The multipart file part as the upload middleware saved it. */
  datatype UploadedPart = UploadedPart(originalName: string, path: string, size: int, mimeType: string)

  datatype UploadReply = UploadReply(file: UploadedFile, analysis: Option<PdfAnalysisResult>, message: string)

  const PdfType := "application/pdf"
  const AllowedTypes: set<string> := {
    "application/pdf", "application/msword",
    "application/vnd.openxmlformats-officedocument.wordprocessingml.document"}
  const MaxUploadBytes := 10 * 1024 * 1024

  /** The two Word formats: the legacy binary one and the OpenXML one. */
  predicate IsWordType(mimeType: string) {
    mimeType == "application/msword"
    || mimeType == "application/vnd.openxmlformats-officedocument.wordprocessingml.document"
  }

  /** What the upload middleware lets through: PDF or Word, at most 10 MiB. */
  function Accepted(p: UploadedPart): (r: bool)
    ensures r ==> p.size <= 10_485_760
    ensures r <==> (p.mimeType == PdfType || IsWordType(p.mimeType)) && p.size <= 10_485_760
  {
    p.mimeType in AllowedTypes && p.size <= MaxUploadBytes
  }

  /** An optional id column as the database takes it: None when the value
      is NaN or outside an integer column (the insert fails), otherwise the
      nullable id. */
  function IdColumn(id: ParsedId): (r: Option<Option<int>>)
    ensures r.Some? <==> id == NullId || (id.IntId? && Int4(id.n))
    ensures r == Some(None) <==> id == NullId
  {
    match id
    case NullId => Some(None)
    case IntId(n) => if Int4(n) then Some(Some(n)) else None
    case NaNId => None
  }

  function FileInsert(caller: string, p: UploadedPart, sessionId: Option<int>): InsertUploadedFile {
    InsertUploadedFile(caller, sessionId, p.originalName, p.path, p.size, p.mimeType)
  }

  /** The analysis of an uploaded file: only a PDF is read and shown to the
      model, and a failure anywhere in that is no analysis. */
  function PdfAnalysisOf(p: UploadedPart, readFile: string -> Result<string>,
                         model: PdfRequest -> Result<ParsedPdf>): (r: Option<PdfAnalysisResult>)
    ensures r.Some? ==> p.mimeType == PdfType && readFile(p.path).Success?
    ensures r.Some? ==> r.value.subject != "" && r.value.summary != ""
  {
    if p.mimeType != PdfType then None
    else match readFile(p.path)
      case Failure(_) => None
      case Success(text) =>
        match AnalyzePdfContent(model(PdfRequestOf(text, p.originalName)))
        case Failure(_) => None
        case Success(a) => Some(a)
  }

  function UploadMessage(p: UploadedPart, analysis: Option<PdfAnalysisResult>): string {
    if p.mimeType != PdfType then Uploaded
    else if analysis.Some? then UploadedAndAnalyzed
    else UploadedNotAnalyzed
  }

  /** Flagging the file just appended changes only that file. */
  lemma {:induction false} ProcessedFileWrite(db: Tables, mid: Tables, after: Tables, f: UploadedFile)
    requires f.id == |db.files| + 1
    requires mid == db.(files := db.files + [f])
    requires after == mid.(files := mid.files[f.id - 1 := mid.files[f.id - 1].(isProcessed := true)])
    ensures after == db.(files := db.files + [f.(isProcessed := true)])
  {
    assert mid.files[f.id - 1] == f;
    assert (db.files + [f])[f.id - 1 := f.(isProcessed := true)] == db.files + [f.(isProcessed := true)];
  }

  /** Stores the file's row; a PDF that is read and analysed is then flagged
      processed. The reply carries the row as first inserted. A multipart
      form field arrives as text, so `sessionField` is absent or `Text`. */
  method UploadFile(store: Store, caller: string, part: Option<UploadedPart>, sessionField: BodyValue, now: int,
                    readFile: string -> Result<string>, model: PdfRequest -> Result<ParsedPdf>)
    returns (resp: Response<UploadReply>)
    requires store.Valid()
    modifies store
    ensures store.Valid()
    ensures part.Some? && part.value.mimeType !in AllowedTypes ==>
              resp == Err(500, UnsupportedFileType) && store.Db() == old(store.Db())
    ensures part.Some? && part.value.mimeType in AllowedTypes && part.value.size > MaxUploadBytes ==>
              resp == Err(500, FileTooLarge) && store.Db() == old(store.Db())
    ensures part.None? ==> resp == Err(400, NoFileUploaded) && store.Db() == old(store.Db())
    ensures resp.Err? ==> store.Db() == old(store.Db())
    ensures resp.Ok? <==>
              && part.Some? && Accepted(part.value)
              && IdColumn(OptionalId(sessionField)).Some?
              && HasUser(old(store.users), caller)
              && var sid := IdColumn(OptionalId(sessionField)).value;
                 sid.Some? ==> HasSession(old(store.sessions), sid.value)
    ensures resp.Ok? ==>
              var f := NewUploadedFile(|old(store.files)| + 1,
                                       FileInsert(caller, part.value, IdColumn(OptionalId(sessionField)).value), now);
              && resp.body.file == f && !resp.body.file.isProcessed
              && resp.body.analysis == PdfAnalysisOf(part.value, readFile, model)
              && resp.body.message == UploadMessage(part.value, resp.body.analysis)
              && store.Db() == old(store.Db()).(files := old(store.files) + [f.(isProcessed := resp.body.analysis.Some?)])
  {
    if part.Some? && part.value.mimeType !in AllowedTypes {
      return Err(500, UnsupportedFileType);
    }
    if part.Some? && part.value.size > MaxUploadBytes {
      return Err(500, FileTooLarge);
    }
    if part.None? {
      return Err(400, NoFileUploaded);
    }
    var p := part.value;
    var sid := IdColumn(OptionalId(sessionField));
    if sid.None? {
      return Err(500, UploadFailed);
    }
    var file := store.CreateUploadedFile(FileInsert(caller, p, sid.value), now);
    if file.None? {
      return Err(500, UploadFailed);
    }
    var analysis := PdfAnalysisOf(p, readFile, model);
    if analysis.Some? {
      ghost var mid := store.Db();
      var _ := store.UpdateFileProcessStatus(file.value.id, true);
      ProcessedFileWrite(old(store.Db()), mid, store.Db(), file.value);
    }
    resp := Ok(UploadReply(file.value, analysis, UploadMessage(p, analysis)));
  }

  // ---------------------------------------------------------- translation

  /** `targetLanguage` defaults to "ar"; the reply is never empty. */
  function Translate(content: Option<string>, targetLanguage: Option<string>,
                     model: TranslationRequest -> Result<Option<string>>): (r: Response<string>)
    ensures !Truthy(content) <==> r == Err(400, TranslationContentRequired)
    ensures Truthy(content) ==>
              var req := TranslationRequestOf(content.value, targetLanguage.GetOr("ar"));
              && (r.Ok? <==> model(req).Success?)
              && (r.Ok? ==> r.body == OrDefault(model(req).value, TranslationFailed) && r.body != "")
              && (r.Err? ==> r == Err(500, TranslationRouteFailed))
  {
    if !Truthy(content) then Err(400, TranslationContentRequired)
    else
      match TranslateContent(model(TranslationRequestOf(content.value, targetLanguage.GetOr("ar"))))
      case Failure(_) => Err(500, TranslationRouteFailed)
      case Success(text) => Ok(text)
  }

  /** Without a target language the text is translated into Arabic. */
  lemma {:induction false} TranslateDefaultsToArabic(content: Option<string>,
                                                    model: TranslationRequest -> Result<Option<string>>)
    requires Truthy(content)
    ensures Translate(content, None, model) == Translate(content, Some("ar"), model)
    ensures TranslationRequestOf(content.value, None.GetOr("ar")).language == Some("العربية")
  {
  }

  // ---------------------------------------------------------- assessments

  function GenerateQuestions(subject: Option<string>, chapter: Option<string>, difficulty: Option<string>,
                             count: Option<int>, model: QuestionRequest -> Result<Option<seq<AssessmentQuestion>>>)
    : (r: Response<seq<AssessmentQuestion>>)
    ensures !Truthy(subject) <==> r == Err(400, SubjectRequired)
    ensures Truthy(subject) ==>
              var req := QuestionRequestOf(subject.value, chapter, difficulty, count);
              && (r.Ok? <==> model(req).Success?)
              && (r.Ok? ==> r.body == model(req).value.GetOr([]))
              && (r.Err? ==> r == Err(500, QuestionsFailed))
  {
    if !Truthy(subject) then Err(400, SubjectRequired)
    else
      match GenerateAssessmentQuestions(model(QuestionRequestOf(subject.value, chapter, difficulty, count)))
      case Failure(_) => Err(500, QuestionsFailed)
      case Success(qs) => Ok(qs)
  }

  /** The guard as written: a non-empty subject and an answer list, any
      answer list, the empty one included. */
  predicate AnswersGuardAsWritten(subject: Option<string>, answers: Option<seq<Answer>>) {
    Truthy(subject) && answers.Some?
  }

  /** The guard as intended: a subject and at least one answer to score. */
  predicate AnswersGuard(subject: Option<string>, answers: Option<seq<Answer>>) {
    Truthy(subject) && answers.Some? && |answers.value| > 0
  }

  /** An empty answer list gets past the written guard and is scored 0 / 0. */
  lemma {:induction false} EmptyAnswersPassGuard()
    ensures AnswersGuardAsWritten(Some("math"), Some([]))
    ensures !AnswersGuard(Some("math"), Some([]))
    ensures ScoreAsWritten([]) == NaN
  {
    EmptyAnswersScoreNaN();
  }

  /** The two guards differ on the empty list only. */
  lemma {:induction false} AnswersGuardsAgree(subject: Option<string>, answers: Option<seq<Answer>>)
    ensures AnswersGuard(subject, answers) ==> AnswersGuardAsWritten(subject, answers)
    ensures AnswersGuardAsWritten(subject, answers) && |answers.value| > 0 ==> AnswersGuard(subject, answers)
  {
  }

  function AnalyticsInsert(caller: string, sessionId: Option<int>, a: WeaknessAnalysis): InsertPerformanceAnalytics {
    InsertPerformanceAnalytics(caller, sessionId, a.subject, a.chapter, a.score, a.totalQuestions,
                               a.correctAnswers, a.weakAreas, a.recommendations)
  }

  /** Scores the answers, asks the model for weak areas, stores the result
      as an analytics row of the caller's and returns it. */
  method AnalyzeAnswers(store: Store, caller: string, subject: Option<string>, chapter: Option<string>,
                        answers: Option<seq<Answer>>, sessionField: BodyValue, now: int,
                        model: AnalysisRequest -> Result<ParsedAnalysis>)
    returns (resp: Response<WeaknessAnalysis>)
    requires store.Valid()
    modifies store
    ensures store.Valid()
    ensures !AnswersGuard(subject, answers) ==>
              resp == Err(400, SubjectAndAnswersRequired) && store.Db() == old(store.Db())
    ensures resp.Err? ==> store.Db() == old(store.Db())
    ensures resp.Ok? ==>
              && AnswersGuard(subject, answers)
              && model(AnalysisRequestOf(subject.value, answers.value, chapter)).Success?
              && IdColumn(OptionalId(sessionField)).Some?
              && resp.body == AnalyzePerformance(subject.value, answers.value, chapter,
                                                 model(AnalysisRequestOf(subject.value, answers.value, chapter))).value
              && 0.0 <= resp.body.score <= 100.0
              && store.Db() == old(store.Db()).(analytics := old(store.analytics) + [
                   NewPerformanceAnalytics(|old(store.analytics)| + 1,
                     AnalyticsInsert(caller, IdColumn(OptionalId(sessionField)).value, resp.body), now)])
    ensures AnswersGuard(subject, answers) ==>
              (resp.Ok? <==>
                 && model(AnalysisRequestOf(subject.value, answers.value, chapter)).Success?
                 && IdColumn(OptionalId(sessionField)).Some?
                 && HasUser(old(store.users), caller)
                 && var sid := IdColumn(OptionalId(sessionField)).value;
                    sid.Some? ==> HasSession(old(store.sessions), sid.value))
  {
    if !AnswersGuard(subject, answers) {
      return Err(400, SubjectAndAnswersRequired);
    }
    var analysis := AnalyzePerformance(subject.value, answers.value, chapter,
                                       model(AnalysisRequestOf(subject.value, answers.value, chapter)));
    if analysis.Failure? {
      return Err(500, AnalysisFailed);
    }
    var sid := IdColumn(OptionalId(sessionField));
    if sid.None? {
      return Err(500, AnalysisFailed);
    }
    var row := store.CreatePerformanceAnalytics(AnalyticsInsert(caller, sid.value, analysis.value), now);
    if row.None? {
      return Err(500, AnalysisFailed);
    }
    resp := Ok(analysis.value);
  }

  // -------------------------------------------------------------- summary

  /** `summaryType` defaults to "general"; the reply is never empty. */
  function Summarize(content: Option<string>, focusAreas: Option<seq<string>>, summaryType: Option<string>,
                     model: SummaryPrompt -> Result<Option<string>>): (r: Response<string>)
    ensures !Truthy(content) <==> r == Err(400, SummaryContentRequired)
    ensures Truthy(content) ==>
              var prompt := SummaryPromptOf(content.value, focusAreas, summaryType.GetOr("general"));
              && (r.Ok? <==> model(prompt).Success?)
              && (r.Ok? ==> r.body == OrDefault(model(prompt).value, NoSummary) && r.body != "")
              && (r.Err? ==> r == Err(500, SummaryFailed))
  {
    if !Truthy(content) then Err(400, SummaryContentRequired)
    else
      match GenerateSummary(model(SummaryPromptOf(content.value, focusAreas, summaryType.GetOr("general"))))
      case Failure(_) => Err(500, SummaryFailed)
      case Success(text) => Ok(text)
  }

  // ------------------------------------------------------------ analytics

  /** The caller's analytics, narrowed to one subject when the query names one. */
  method PerformanceReport(store: Store, caller: string, subject: Option<string>)
    returns (r: seq<PerformanceAnalytics>)
    ensures !Truthy(subject) ==> r == UserAnalytics(store.analytics, caller)
    ensures Truthy(subject) ==> r == Select(UserAnalytics(store.analytics, caller), AnalyticsSubjectIs(subject.value))
    ensures SortedDesc(r, AnalyticsRecency)
    ensures forall a :: a in r ==> a in store.analytics && a.userId == caller
  {
    QueryMembers(store.analytics, AnalyticsOwnedBy(caller), AnalyticsRecency);
    if Truthy(subject) {
      r := store.GetSubjectPerformanceAnalytics(caller, subject.value);
    } else {
      r := store.GetUserPerformanceAnalytics(caller);
    }
  }

  // ------------------------------------------------------ support tickets

  /** The fields of the contact form; the route needs no sign-in and takes
      `userId` from the body. */
  datatype TicketForm = TicketForm(
    userId: Option<string>, firstName: Option<string>, lastName: Option<string>, email: Option<string>,
    category: Option<string>, subject: Option<string>, message: Option<string>)

  /** The insert schema accepts the form when every NOT NULL column is present. */
  predicate Complete(f: TicketForm) {
    f.firstName.Some? && f.lastName.Some? && f.email.Some? && f.category.Some? && f.subject.Some? && f.message.Some?
  }

  /** The insert with the status forced to open, whatever the body said. */
  function TicketInsert(f: TicketForm): InsertSupportTicket
    requires Complete(f)
  {
    InsertSupportTicket(f.userId, f.firstName.value, f.lastName.value, f.email.value, f.category.value,
                        f.subject.value, f.message.value, Some(Open))
  }

  method SubmitSupportTicket(store: Store, form: TicketForm, now: int) returns (resp: Response<SupportTicket>)
    requires store.Valid()
    modifies store
    ensures store.Valid()
    ensures resp.Err? ==> resp == Err(500, TicketFailed) && store.Db() == old(store.Db())
    ensures resp.Ok? <==> Complete(form) && (form.userId.Some? ==> HasUser(old(store.users), form.userId.value))
    ensures resp.Ok? ==>
              && resp.body.status == Open
              && resp.body == NewSupportTicket(|old(store.tickets)| + 1, TicketInsert(form), now)
              && store.Db() == old(store.Db()).(tickets := old(store.tickets) + [resp.body])
  {
    if !Complete(form) {
      return Err(500, TicketFailed);
    }
    var ticket := store.CreateSupportTicket(TicketInsert(form), now);
    if ticket.None? {
      return Err(500, TicketFailed);
    }
    resp := Ok(ticket.value);
  }
}
