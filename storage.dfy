/** The persistence service: one store holding the six tables, with an
    insert, a lookup by id, a listing by owner and, where the source has one,
    an update per table. Serial ids start at 1 and rows are never deleted,
    and in this model an id is drawn only by an insert that succeeds, so a
    row's id is its position plus one. Foreign keys are enforced: an insert
    naming a missing user or session fails (the database rejects it) and
    changes nothing. User emails are unique. The wall clock is the parameter `now`. */
module Storage {
  import opened Wrappers
  import opened Rows
  import opened Schema

  /** The six tables at one moment. */
  datatype Tables = Tables(
    users: seq<User>,
    sessions: seq<ChatSession>,
    messages: seq<ChatMessage>,
    files: seq<UploadedFile>,
    analytics: seq<PerformanceAnalytics>,
    tickets: seq<SupportTicket>)

  // Sort keys of the ORDER BY clauses. Message history is ascending in
  // `createdAt`, i.e. descending in its negation.
  function SessionRecency(s: ChatSession): int { s.updatedAt }
  function MessageAge(m: ChatMessage): int { -m.createdAt }
  function FileRecency(f: UploadedFile): int { f.createdAt }
  function AnalyticsRecency(a: PerformanceAnalytics): int { a.createdAt }
  function TicketRecency(t: SupportTicket): int { t.createdAt }

  // WHERE clauses.
  function UserIdIs(id: string): User -> bool { (u: User) => u.id == id }
  function SessionIdIs(id: int): ChatSession -> bool { (s: ChatSession) => s.id == id }
  function SessionOwnedBy(userId: string): ChatSession -> bool { (s: ChatSession) => s.userId == userId }
  function MessageInSession(sessionId: int): ChatMessage -> bool { (m: ChatMessage) => m.sessionId == sessionId }
  function FileIdIs(id: int): UploadedFile -> bool { (f: UploadedFile) => f.id == id }
  function FileOwnedBy(userId: string): UploadedFile -> bool { (f: UploadedFile) => f.userId == userId }
  function AnalyticsOwnedBy(userId: string): PerformanceAnalytics -> bool { (a: PerformanceAnalytics) => a.userId == userId }
  function AnalyticsSubjectIs(subject: string): PerformanceAnalytics -> bool { (a: PerformanceAnalytics) => a.subject == subject }
  function AnalyticsOwnedByIn(userId: string, subject: string): PerformanceAnalytics -> bool {
    (a: PerformanceAnalytics) => a.userId == userId && a.subject == subject
  }
  function TicketIdIs(id: int): SupportTicket -> bool { (t: SupportTicket) => t.id == id }
  function TicketOwnedBy(userId: string): SupportTicket -> bool { (t: SupportTicket) => t.userId == Some(userId) }

  ghost predicate HasUser(users: seq<User>, id: string) {
    exists i :: 0 <= i < |users| && users[i].id == id
  }

  ghost predicate HasSession(sessions: seq<ChatSession>, id: int) {
    exists i :: 0 <= i < |sessions| && sessions[i].id == id
  }

  /** Position of the row carrying `id`, if any. */
  function UserIndex(users: seq<User>, id: string): (r: Option<nat>)
    ensures r.Some? <==> HasUser(users, id)
    ensures r.Some? ==> r.value < |users| && users[r.value].id == id
  {
    IndexWhere(users, UserIdIs(id))
  }

  /** The row carrying `id`, if any. */
  function UserById(users: seq<User>, id: string): (r: Option<User>)
    ensures r.Some? <==> HasUser(users, id)
    ensures r.Some? ==> r.value in users && r.value.id == id
  {
    match UserIndex(users, id)
    case None => None
    case Some(k) => Some(users[k])
  }

  /** The `email` column is unique: no two rows hold the same address. Null
      is not a value the constraint compares, so any number of rows may lack one. */
  ghost predicate DistinctEmails(users: seq<User>) {
    forall i, j :: 0 <= i < |users| && 0 <= j < |users| && i != j && users[i].email.Some? ==>
      users[i].email != users[j].email
  }

  /** The error the database raises for a second row with the same email. */
  const EmailTaken := "duplicate key value violates unique constraint \"users_email_unique\""

  /** The position of a row, other than the one carrying `id`, that already
      holds the non-null `email`; None when the address is free for `id`. */
  function EmailHolder(users: seq<User>, id: string, email: Option<string>): (r: Option<nat>)
    ensures r.None? <==> email.None? || forall i :: 0 <= i < |users| && users[i].id != id ==> users[i].email != email
    ensures r.Some? ==> r.value < |users| && users[r.value].id != id && users[r.value].email == email
  {
    if email.None? then None else IndexWhere(users, (x: User) => x.id != id && x.email == email)
  }

  /** The chat-history query: one session's messages, oldest first. */
  function SessionMessages(messages: seq<ChatMessage>, sessionId: int): seq<ChatMessage> {
    SortDesc(Select(messages, MessageInSession(sessionId)), MessageAge)
  }

  /** The analytics query for one user, newest first. */
  function UserAnalytics(analytics: seq<PerformanceAnalytics>, userId: string): seq<PerformanceAnalytics> {
    SortDesc(Select(analytics, AnalyticsOwnedBy(userId)), AnalyticsRecency)
  }

  /** What an upsert writes over an existing row: the supplied profile fields,
      nulls included, and a fresh `updatedAt`; plan, billing and credit
      columns are kept. */
  function Upserted(old_: User, u: UpsertUser, now: int): User {
    old_.(email := u.email, firstName := u.firstName, lastName := u.lastName,
          profileImageUrl := u.profileImageUrl, updatedAt := now)
  }

  /** The partial update `updateChatSession` accepts: a field left None is not written. */
  datatype SessionUpdate = SessionUpdate(
    title: Option<string>, subject: Option<Option<string>>, isActive: Option<bool>)

  function ApplySessionUpdate(s: ChatSession, upd: SessionUpdate, now: int): ChatSession {
    s.(title := upd.title.GetOr(s.title),
       subject := upd.subject.GetOr(s.subject),
       isActive := upd.isActive.GetOr(s.isActive),
       updatedAt := now)
  }

  class Store {
    var users: seq<User>
    var sessions: seq<ChatSession>
    var messages: seq<ChatMessage>
    var files: seq<UploadedFile>
    var analytics: seq<PerformanceAnalytics>
    var tickets: seq<SupportTicket>

    ghost function Db(): Tables
      reads this
    {
      Tables(users, sessions, messages, files, analytics, tickets)
    }

    /** Unique user ids and emails, serial row ids, and every foreign key resolving. */
    ghost predicate Valid()
      reads this
    {
      UniqueUserIds() && DistinctEmails(users) && SerialIds() && KeysResolve()
    }

    ghost predicate UniqueUserIds()
      reads this
    {
      forall i, j :: 0 <= i < j < |users| ==> users[i].id != users[j].id
    }

    /** Each table's ids are 1, 2, 3, ... in insertion order. */
    ghost predicate SerialIds()
      reads this
    {
      && (forall i :: 0 <= i < |sessions| ==> sessions[i].id == i + 1)
      && (forall i :: 0 <= i < |messages| ==> messages[i].id == i + 1)
      && (forall i :: 0 <= i < |files| ==> files[i].id == i + 1)
      && (forall i :: 0 <= i < |analytics| ==> analytics[i].id == i + 1)
      && (forall i :: 0 <= i < |tickets| ==> tickets[i].id == i + 1)
    }

    /** Every user and session a row refers to exists. */
    ghost predicate KeysResolve()
      reads this
    {
      && (forall i :: 0 <= i < |sessions| ==> HasUser(users, sessions[i].userId))
      && (forall i :: 0 <= i < |messages| ==> HasSession(sessions, messages[i].sessionId))
      && (forall i :: 0 <= i < |files| ==> HasUser(users, files[i].userId))
      && (forall i :: 0 <= i < |files| && files[i].sessionId.Some? ==>
            HasSession(sessions, files[i].sessionId.value))
      && (forall i :: 0 <= i < |analytics| ==> HasUser(users, analytics[i].userId))
      && (forall i :: 0 <= i < |analytics| && analytics[i].sessionId.Some? ==>
            HasSession(sessions, analytics[i].sessionId.value))
      && (forall i :: 0 <= i < |tickets| && tickets[i].userId.Some? ==>
            HasUser(users, tickets[i].userId.value))
    }

    constructor ()
      ensures Valid()
      ensures Db() == Tables([], [], [], [], [], [])
    {
      users, sessions, messages, files, analytics, tickets := [], [], [], [], [], [];
    }

    // ---------------------------------------------------------------- users

    /** A missing id is an absent result, not an error. */
    method GetUser(id: string) returns (r: Option<User>)
      requires Valid()
      ensures r == UserById(users, id)
      ensures r.Some? <==> HasUser(users, id)
      ensures r.Some? ==> r.value in users && r.value.id == id
    {
      match UserIndex(users, id)
      case None =>
        r := None;
      case Some(k) =>
        r := Some(users[k]);
    }

    /** Insert on a new id, otherwise overwrite the supplied fields; either way
        exactly one row carries the id afterwards. The conflict target is the
        id alone, so an email already held by another row violates the
        unique email column: the statement fails and nothing is written. */
    method UpsertUser(u: UpsertUser, now: int) returns (r: Result<User>)
      requires Valid()
      modifies this
      ensures Valid()
      ensures r.Failure? <==> EmailHolder(old(users), u.id, u.email).Some?
      ensures r.Failure? ==> r.error == EmailTaken && Db() == old(Db())
      ensures r.Success? ==> r.value in users && r.value.id == u.id
      ensures forall i, j :: (0 <= i < |users| && 0 <= j < |users| && users[i].id == u.id
                && users[j].id == u.id) ==> i == j
      ensures r.Success? && !HasUser(old(users), u.id) ==>
                r.value == NewUser(u, now) && Db() == old(Db()).(users := old(users) + [r.value])
      ensures r.Success? && HasUser(old(users), u.id) ==>
                var k := UserIndex(old(users), u.id).value;
                && r.value == Upserted(old(users)[k], u, now)
                && Db() == old(Db()).(users := old(users)[k := r.value])
    {
      if EmailHolder(users, u.id, u.email).Some? {
        return Failure(EmailTaken);
      }
      match UserIndex(users, u.id)
      case None =>
        var row := NewUser(u, now);
        AppendUserRow(row);
        assert users[|users| - 1] == row;
        r := Success(row);
      case Some(k) =>
        var row := Upserted(users[k], u, now);
        ReplaceUserRow(k, row);
        assert users[k] == row;
        r := Success(row);
    }

    /** The insert branch of the upsert: a row for an id and an email no row holds. */
    method AppendUserRow(row: User)
      requires Valid() && !HasUser(users, row.id) && EmailHolder(users, row.id, row.email).None?
      modifies this
      ensures Valid()
      ensures Db() == old(Db()).(users := old(users) + [row])
    {
      users := users + [row];
      assert users[|users| - 1] == row;
      UserAppendedKeepsKeys(old(users), row);
      EmailAppendedKeepsDistinct(old(users), row);
    }

    /** The update branch of the upsert: the row of that id rewritten, with an
        email no row of another id holds. */
    method ReplaceUserRow(k: nat, row: User)
      requires Valid() && k < |users| && users[k].id == row.id && EmailHolder(users, row.id, row.email).None?
      modifies this
      ensures Valid()
      ensures Db() == old(Db()).(users := old(users)[k := row])
    {
      users := users[k := row];
      assert users[k] == row;
      UserUpdatedKeepsKeys(old(users), k, row);
      EmailUpsertedKeepsDistinct(old(users), k, row);
    }

    /** Writes the billing ids and refreshes `updatedAt`; a missing id writes nothing. */
    method UpdateUserStripeInfo(id: string, customerId: string, subscriptionId: string, now: int)
      returns (r: Option<User>)
      requires Valid()
      modifies this
      ensures Valid()
      ensures r.Some? <==> HasUser(old(users), id)
      ensures r.None? ==> Db() == old(Db())
      ensures r.Some? ==>
                var k := UserIndex(old(users), id).value;
                && r.value == old(users)[k].(stripeCustomerId := Some(customerId),
                                             stripeSubscriptionId := Some(subscriptionId),
                                             updatedAt := now)
                && Db() == old(Db()).(users := old(users)[k := r.value])
    {
      match UserIndex(users, id)
      case None =>
        r := None;
      case Some(k) =>
        var v := users[k].(stripeCustomerId := Some(customerId),
                           stripeSubscriptionId := Some(subscriptionId),
                           updatedAt := now);
        users := users[k := v];
        UserUpdatedKeepsKeys(old(users), k, v);
        EmailKeptKeepsDistinct(old(users), k, v);
        r := Some(v);
    }

    /** Writes plan, expiry and session credit and refreshes `updatedAt` of
        the one matching user; nothing else changes. */
    method UpdateUserSubscription(id: string, plan: Option<Plan>, expiresAt: Option<int>,
                                  sessionCount: int, now: int)
      returns (r: Option<User>)
      requires Valid()
      modifies this
      ensures Valid()
      ensures r.Some? <==> HasUser(old(users), id)
      ensures r.None? ==> Db() == old(Db())
      ensures r.Some? ==>
                var k := UserIndex(old(users), id).value;
                && r.value == old(users)[k].(currentPlan := plan,
                                             subscriptionExpiresAt := expiresAt,
                                             sessionsRemaining := Some(sessionCount),
                                             updatedAt := now)
                && Db() == old(Db()).(users := old(users)[k := r.value])
    {
      match UserIndex(users, id)
      case None =>
        r := None;
      case Some(k) =>
        var v := users[k].(currentPlan := plan, subscriptionExpiresAt := expiresAt,
                           sessionsRemaining := Some(sessionCount), updatedAt := now);
        users := users[k := v];
        UserUpdatedKeepsKeys(old(users), k, v);
        EmailKeptKeepsDistinct(old(users), k, v);
        r := Some(v);
    }

    // -------------------------------------------------------- chat sessions

    method CreateChatSession(s: InsertChatSession, now: int) returns (r: Option<ChatSession>)
      requires Valid()
      modifies this
      ensures Valid()
      ensures r.Some? <==> HasUser(users, s.userId)
      ensures r.None? ==> Db() == old(Db())
      ensures r.Some? ==> r.value == NewChatSession(|old(sessions)| + 1, s, now)
                          && Db() == old(Db()).(sessions := old(sessions) + [r.value])
    {
      match IndexWhere(users, UserIdIs(s.userId))
      case None =>
        r := None;
      case Some(k) =>
        var row := NewChatSession(|sessions| + 1, s, now);
        sessions := sessions + [row];
        SessionsGrowKeepsKeys(old(sessions), row);
        r := Some(row);
    }

    method GetChatSession(id: int) returns (r: Option<ChatSession>)
      requires Valid()
      ensures r.Some? <==> HasSession(sessions, id)
      ensures r.Some? <==> 1 <= id <= |sessions|
      ensures r.Some? ==> r.value == sessions[id - 1] && r.value.id == id
    {
      SessionIdIsIndex(sessions, id);
      match IndexWhere(sessions, SessionIdIs(id))
      case None =>
        r := None;
      case Some(k) =>
        r := Some(sessions[k]);
    }

    /** Exactly the user's sessions, most recently updated first. */
    method GetUserChatSessions(userId: string) returns (r: seq<ChatSession>)
      ensures multiset(r) == multiset(Select(sessions, SessionOwnedBy(userId)))
      ensures SortedDesc(r, SessionRecency)
      ensures forall s :: s in r <==> s in sessions && s.userId == userId
    {
      r := SortDesc(Select(sessions, SessionOwnedBy(userId)), SessionRecency);
      SortDescPermutes(Select(sessions, SessionOwnedBy(userId)), SessionRecency);
      SortDescSorted(Select(sessions, SessionOwnedBy(userId)), SessionRecency);
      QueryMembers(sessions, SessionOwnedBy(userId), SessionRecency);
    }

    /** Applies the given fields and refreshes `updatedAt` of that one row. */
    method UpdateChatSession(id: int, upd: SessionUpdate, now: int) returns (r: Option<ChatSession>)
      requires Valid()
      modifies this
      ensures Valid()
      ensures r.Some? <==> HasSession(old(sessions), id)
      ensures r.None? ==> Db() == old(Db())
      ensures r.Some? ==> r.value == ApplySessionUpdate(old(sessions)[id - 1], upd, now)
                          && Db() == old(Db()).(sessions := old(sessions)[id - 1 := r.value])
    {
      SessionIdIsIndex(sessions, id);
      match IndexWhere(sessions, SessionIdIs(id))
      case None =>
        r := None;
      case Some(k) =>
        var row := ApplySessionUpdate(sessions[k], upd, now);
        sessions := sessions[k := row];
        SessionUpdatedKeepsKeys(old(sessions), k, row);
        r := Some(row);
    }

    // -------------------------------------------------------- chat messages

    method CreateChatMessage(m: InsertChatMessage, now: int) returns (r: Option<ChatMessage>)
      requires Valid()
      modifies this
      ensures Valid()
      ensures r.Some? <==> HasSession(sessions, m.sessionId)
      ensures r.None? ==> Db() == old(Db())
      ensures r.Some? ==> r.value == NewChatMessage(|old(messages)| + 1, m, now)
                          && Db() == old(Db()).(messages := old(messages) + [r.value])
    {
      match IndexWhere(sessions, SessionIdIs(m.sessionId))
      case None =>
        r := None;
      case Some(k) =>
        var row := NewChatMessage(|messages| + 1, m, now);
        messages := messages + [row];
        r := Some(row);
    }

    /** Exactly that session's messages, in ascending `createdAt`. */
    method GetSessionMessages(sessionId: int) returns (r: seq<ChatMessage>)
      ensures r == SessionMessages(messages, sessionId)
      ensures multiset(r) == multiset(Select(messages, MessageInSession(sessionId)))
      ensures forall i, j :: 0 <= i < j < |r| ==> r[i].createdAt <= r[j].createdAt
      ensures forall m :: m in r <==> m in messages && m.sessionId == sessionId
    {
      r := SessionMessages(messages, sessionId);
      SortDescPermutes(Select(messages, MessageInSession(sessionId)), MessageAge);
      SortDescSorted(Select(messages, MessageInSession(sessionId)), MessageAge);
      QueryMembers(messages, MessageInSession(sessionId), MessageAge);
      forall i, j | 0 <= i < j < |r| ensures r[i].createdAt <= r[j].createdAt {
        assert MessageAge(r[i]) >= MessageAge(r[j]);
      }
    }

    // ------------------------------------------------------- uploaded files

    method CreateUploadedFile(f: InsertUploadedFile, now: int) returns (r: Option<UploadedFile>)
      requires Valid()
      modifies this
      ensures Valid()
      ensures r.Some? <==> HasUser(users, f.userId)
                           && (f.sessionId.Some? ==> HasSession(sessions, f.sessionId.value))
      ensures r.None? ==> Db() == old(Db())
      ensures r.Some? ==> r.value == NewUploadedFile(|old(files)| + 1, f, now)
                          && Db() == old(Db()).(files := old(files) + [r.value])
    {
      var owner := IndexWhere(users, UserIdIs(f.userId));
      var session := if f.sessionId.Some? then IndexWhere(sessions, SessionIdIs(f.sessionId.value)) else None;
      if owner.None? || (f.sessionId.Some? && session.None?) {
        r := None;
      } else {
        var row := NewUploadedFile(|files| + 1, f, now);
        files := files + [row];
        r := Some(row);
      }
    }

    method GetUploadedFile(id: int) returns (r: Option<UploadedFile>)
      requires Valid()
      ensures r.Some? <==> exists i :: 0 <= i < |files| && files[i].id == id
      ensures r.Some? ==> r.value in files && r.value.id == id
    {
      FileIdIsIndex(files, id);
      match IndexWhere(files, FileIdIs(id))
      case None =>
        r := None;
      case Some(k) =>
        r := Some(files[k]);
    }

    /** Exactly the user's files, newest first. */
    method GetUserFiles(userId: string) returns (r: seq<UploadedFile>)
      ensures multiset(r) == multiset(Select(files, FileOwnedBy(userId)))
      ensures SortedDesc(r, FileRecency)
      ensures forall f :: f in r <==> f in files && f.userId == userId
    {
      r := SortDesc(Select(files, FileOwnedBy(userId)), FileRecency);
      SortDescPermutes(Select(files, FileOwnedBy(userId)), FileRecency);
      SortDescSorted(Select(files, FileOwnedBy(userId)), FileRecency);
      QueryMembers(files, FileOwnedBy(userId), FileRecency);
    }

    /** Changes only the flag: the table has no `updatedAt` and `createdAt` is kept. */
    method UpdateFileProcessStatus(id: int, isProcessed: bool) returns (r: Option<UploadedFile>)
      requires Valid()
      modifies this
      ensures Valid()
      ensures r.Some? <==> 1 <= id <= |old(files)|
      ensures r.None? ==> Db() == old(Db())
      ensures r.Some? ==> r.value == old(files)[id - 1].(isProcessed := isProcessed)
                          && Db() == old(Db()).(files := old(files)[id - 1 := r.value])
    {
      FileIdIsIndex(files, id);
      match IndexWhere(files, FileIdIs(id))
      case None =>
        r := None;
      case Some(k) =>
        var row := files[k].(isProcessed := isProcessed);
        FileUpdatedKeepsKeys(files, k, row, users, sessions);
        files := files[k := row];
        r := Some(row);
    }

    // ------------------------------------------------ performance analytics

    method CreatePerformanceAnalytics(a: InsertPerformanceAnalytics, now: int)
      returns (r: Option<PerformanceAnalytics>)
      requires Valid()
      modifies this
      ensures Valid()
      ensures r.Some? <==> HasUser(users, a.userId)
                           && (a.sessionId.Some? ==> HasSession(sessions, a.sessionId.value))
      ensures r.None? ==> Db() == old(Db())
      ensures r.Some? ==> r.value == NewPerformanceAnalytics(|old(analytics)| + 1, a, now)
                          && Db() == old(Db()).(analytics := old(analytics) + [r.value])
    {
      var owner := IndexWhere(users, UserIdIs(a.userId));
      var session := if a.sessionId.Some? then IndexWhere(sessions, SessionIdIs(a.sessionId.value)) else None;
      if owner.None? || (a.sessionId.Some? && session.None?) {
        r := None;
      } else {
        var row := NewPerformanceAnalytics(|analytics| + 1, a, now);
        analytics := analytics + [row];
        r := Some(row);
      }
    }

    /** Exactly the user's analytics rows, newest first. */
    method GetUserPerformanceAnalytics(userId: string) returns (r: seq<PerformanceAnalytics>)
      ensures r == UserAnalytics(analytics, userId)
      ensures multiset(r) == multiset(Select(analytics, AnalyticsOwnedBy(userId)))
      ensures SortedDesc(r, AnalyticsRecency)
    {
      r := UserAnalytics(analytics, userId);
      SortDescPermutes(Select(analytics, AnalyticsOwnedBy(userId)), AnalyticsRecency);
      SortDescSorted(Select(analytics, AnalyticsOwnedBy(userId)), AnalyticsRecency);
    }

    /** The per-subject query is the per-user listing filtered to that
        subject, in the same newest-first order. */
    method GetSubjectPerformanceAnalytics(userId: string, subject: string)
      returns (r: seq<PerformanceAnalytics>)
      ensures r == Select(UserAnalytics(analytics, userId), AnalyticsSubjectIs(subject))
      ensures SortedDesc(r, AnalyticsRecency)
    {
      r := SortDesc(Select(analytics, AnalyticsOwnedByIn(userId, subject)), AnalyticsRecency);
      SelectSortDesc(Select(analytics, AnalyticsOwnedBy(userId)), AnalyticsSubjectIs(subject), AnalyticsRecency);
      SelectSelect(analytics, AnalyticsOwnedBy(userId), AnalyticsSubjectIs(subject),
                   AnalyticsOwnedByIn(userId, subject));
      SortDescSorted(Select(analytics, AnalyticsOwnedByIn(userId, subject)), AnalyticsRecency);
    }

    // ------------------------------------------------------ support tickets

    method CreateSupportTicket(t: InsertSupportTicket, now: int) returns (r: Option<SupportTicket>)
      requires Valid()
      modifies this
      ensures Valid()
      ensures r.Some? <==> (t.userId.Some? ==> HasUser(users, t.userId.value))
      ensures r.None? ==> Db() == old(Db())
      ensures r.Some? ==> r.value == NewSupportTicket(|old(tickets)| + 1, t, now)
                          && Db() == old(Db()).(tickets := old(tickets) + [r.value])
    {
      var owner := if t.userId.Some? then IndexWhere(users, UserIdIs(t.userId.value)) else None;
      if t.userId.Some? && owner.None? {
        r := None;
      } else {
        var row := NewSupportTicket(|tickets| + 1, t, now);
        tickets := tickets + [row];
        r := Some(row);
      }
    }

    method GetSupportTicket(id: int) returns (r: Option<SupportTicket>)
      requires Valid()
      ensures r.Some? <==> exists i :: 0 <= i < |tickets| && tickets[i].id == id
      ensures r.Some? ==> r.value in tickets && r.value.id == id
    {
      TicketIdIsIndex(tickets, id);
      match IndexWhere(tickets, TicketIdIs(id))
      case None =>
        r := None;
      case Some(k) =>
        r := Some(tickets[k]);
    }

    /** Exactly the tickets filed under the user, newest first; anonymous
        tickets belong to nobody. */
    method GetUserSupportTickets(userId: string) returns (r: seq<SupportTicket>)
      ensures multiset(r) == multiset(Select(tickets, TicketOwnedBy(userId)))
      ensures SortedDesc(r, TicketRecency)
      ensures forall t :: t in r <==> t in tickets && t.userId == Some(userId)
    {
      r := SortDesc(Select(tickets, TicketOwnedBy(userId)), TicketRecency);
      SortDescPermutes(Select(tickets, TicketOwnedBy(userId)), TicketRecency);
      SortDescSorted(Select(tickets, TicketOwnedBy(userId)), TicketRecency);
      QueryMembers(tickets, TicketOwnedBy(userId), TicketRecency);
    }

    /** Writes the status and refreshes `updatedAt` of that one ticket. */
    method UpdateSupportTicketStatus(id: int, status: TicketStatus, now: int)
      returns (r: Option<SupportTicket>)
      requires Valid()
      modifies this
      ensures Valid()
      ensures r.Some? <==> 1 <= id <= |old(tickets)|
      ensures r.None? ==> Db() == old(Db())
      ensures r.Some? ==> r.value == old(tickets)[id - 1].(status := status, updatedAt := now)
                          && Db() == old(Db()).(tickets := old(tickets)[id - 1 := r.value])
    {
      TicketIdIsIndex(tickets, id);
      match IndexWhere(tickets, TicketIdIs(id))
      case None =>
        r := None;
      case Some(k) =>
        var row := tickets[k].(status := status, updatedAt := now);
        tickets := tickets[k := row];
        r := Some(row);
    }
  }

  // ------------------------------------------------------- serial lookups

  /** With serial ids, the row carrying `id` is the one at position `id - 1`. */
  lemma {:induction false} SessionIdIsIndex(sessions: seq<ChatSession>, id: int)
    requires forall i :: 0 <= i < |sessions| ==> sessions[i].id == i + 1
    ensures IndexWhere(sessions, SessionIdIs(id)).Some? <==> 1 <= id <= |sessions|
    ensures IndexWhere(sessions, SessionIdIs(id)).Some? ==> IndexWhere(sessions, SessionIdIs(id)).value == id - 1
  {
    if 1 <= id <= |sessions| {
      assert SessionIdIs(id)(sessions[id - 1]);
    }
  }

  lemma {:induction false} FileIdIsIndex(files: seq<UploadedFile>, id: int)
    requires forall i :: 0 <= i < |files| ==> files[i].id == i + 1
    ensures IndexWhere(files, FileIdIs(id)).Some? <==> 1 <= id <= |files|
    ensures IndexWhere(files, FileIdIs(id)).Some? ==> IndexWhere(files, FileIdIs(id)).value == id - 1
  {
    if 1 <= id <= |files| {
      assert FileIdIs(id)(files[id - 1]);
    }
  }

  lemma {:induction false} TicketIdIsIndex(tickets: seq<SupportTicket>, id: int)
    requires forall i :: 0 <= i < |tickets| ==> tickets[i].id == i + 1
    ensures IndexWhere(tickets, TicketIdIs(id)).Some? <==> 1 <= id <= |tickets|
    ensures IndexWhere(tickets, TicketIdIs(id)).Some? ==> IndexWhere(tickets, TicketIdIs(id)).value == id - 1
  {
    if 1 <= id <= |tickets| {
      assert TicketIdIs(id)(tickets[id - 1]);
    }
  }

  // ------------------------------------------------------------ frame lemmas

  /** Membership in a query result: exactly the rows the WHERE clause selects. */
  lemma {:induction false} QueryMembers<T>(s: seq<T>, p: T -> bool, key: T -> int)
    ensures forall x :: x in SortDesc(Select(s, p), key) <==> x in s && p(x)
  {
    var q := Select(s, p);
    var r := SortDesc(q, key);
    SortDescPermutes(q, key);
    forall x ensures x in r <==> x in s && p(x) {
      assert x in r <==> x in multiset(r);
      assert x in q <==> x in multiset(q);
      if x in q {
        var i :| 0 <= i < |q| && q[i] == x;
      }
      if x in s && p(x) {
        var i :| 0 <= i < |s| && s[i] == x;
      }
    }
  }

  lemma {:induction false} UserAppendedKeepsKeys(users: seq<User>, r: User)
    ensures forall id :: HasUser(users, id) ==> HasUser(users + [r], id)
  {
    forall id | HasUser(users, id) ensures HasUser(users + [r], id) {
      var i :| 0 <= i < |users| && users[i].id == id;
      assert (users + [r])[i].id == id;
    }
  }

  /** A new id whose email no row holds keeps the addresses distinct. */
  lemma {:induction false} EmailAppendedKeepsDistinct(users: seq<User>, r: User)
    requires DistinctEmails(users)
    requires EmailHolder(users, r.id, r.email).None? && !HasUser(users, r.id)
    ensures DistinctEmails(users + [r])
  {
  }

  /** Overwriting a row with an email no row of another id holds keeps the
      addresses distinct, since every other row has another id. */
  lemma {:induction false} EmailUpsertedKeepsDistinct(users: seq<User>, k: nat, r: User)
    requires DistinctEmails(users) && k < |users| && users[k].id == r.id
    requires forall i, j :: 0 <= i < j < |users| ==> users[i].id != users[j].id
    requires EmailHolder(users, r.id, r.email).None?
    ensures DistinctEmails(users[k := r])
  {
    assert forall i :: 0 <= i < |users| && i != k ==> users[i].id != r.id;
  }

  /** Rewriting a row without touching its email keeps the addresses distinct. */
  lemma {:induction false} EmailKeptKeepsDistinct(users: seq<User>, k: nat, r: User)
    requires DistinctEmails(users) && k < |users| && r.email == users[k].email
    ensures DistinctEmails(users[k := r])
  {
  }

  lemma {:induction false} UserUpdatedKeepsKeys(users: seq<User>, k: nat, r: User)
    requires k < |users| && r.id == users[k].id
    ensures forall id :: HasUser(users, id) ==> HasUser(users[k := r], id)
  {
    forall id | HasUser(users, id) ensures HasUser(users[k := r], id) {
      var i :| 0 <= i < |users| && users[i].id == id;
      assert users[k := r][i].id == id;
    }
  }

  lemma {:induction false} SessionsGrowKeepsKeys(sessions: seq<ChatSession>, r: ChatSession)
    ensures forall id :: HasSession(sessions, id) ==> HasSession(sessions + [r], id)
  {
    forall id | HasSession(sessions, id) ensures HasSession(sessions + [r], id) {
      var i :| 0 <= i < |sessions| && sessions[i].id == id;
      assert (sessions + [r])[i].id == id;
    }
  }

  lemma {:induction false} SessionUpdatedKeepsKeys(sessions: seq<ChatSession>, k: nat, r: ChatSession)
    requires k < |sessions| && r.id == sessions[k].id
    ensures forall id :: HasSession(sessions, id) ==> HasSession(sessions[k := r], id)
  {
    forall id | HasSession(sessions, id) ensures HasSession(sessions[k := r], id) {
      var i :| 0 <= i < |sessions| && sessions[i].id == id;
      assert sessions[k := r][i].id == id;
    }
  }

  /** Rewriting one file row without touching its id, owner or session keeps
      the files table serial and its keys resolving. */
  lemma {:induction false} FileUpdatedKeepsKeys(files: seq<UploadedFile>, k: nat, row: UploadedFile,
                                                users: seq<User>, sessions: seq<ChatSession>)
    requires k < |files|
    requires row.id == files[k].id && row.userId == files[k].userId && row.sessionId == files[k].sessionId
    requires forall i :: 0 <= i < |files| ==> files[i].id == i + 1
    requires forall i :: 0 <= i < |files| ==> HasUser(users, files[i].userId)
    requires forall i :: 0 <= i < |files| && files[i].sessionId.Some? ==> HasSession(sessions, files[i].sessionId.value)
    ensures var updated := files[k := row];
            && (forall i :: 0 <= i < |updated| ==> updated[i].id == i + 1)
            && (forall i :: 0 <= i < |updated| ==> HasUser(users, updated[i].userId))
            && (forall i :: 0 <= i < |updated| && updated[i].sessionId.Some? ==>
                  HasSession(sessions, updated[i].sessionId.value))
  {
  }
}
