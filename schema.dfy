/** The tables, enumerations, column defaults and the fixed plan catalogue
    shared by the server and the client. Times are integer milliseconds
    since the epoch. */
module Schema {
  import opened Wrappers

  /** The three subscription plans; `currentPlan` holds one of their keys. */
  datatype Plan = Emergency | Basic | Premium

  /** One entry of the plan catalogue: price in riyals, duration in days,
      number of tutoring sessions credited, and whether it is the special plan. */
  datatype PlanInfo = PlanInfo(price: nat, duration: nat, sessions: nat, isSpecial: bool)

  /** The key under which a plan is stored in the catalogue and in `currentPlan`. */
  function PlanKey(p: Plan): string {
    match p
    case Emergency => "emergency"
    case Basic => "basic"
    case Premium => "premium"
  }

  /** Catalogue lookup by key: exactly the three keys are plans. */
  function ParsePlanKey(key: string): (r: Option<Plan>)
    ensures r.Some? <==> key in {"emergency", "basic", "premium"}
    ensures r.Some? ==> PlanKey(r.value) == key
  {
    if key == "emergency" then Some(Emergency)
    else if key == "basic" then Some(Basic)
    else if key == "premium" then Some(Premium)
    else None
  }

  /** The plan catalogue. */
  function PlanOf(p: Plan): (info: PlanInfo)
    ensures info.isSpecial <==> p == Emergency
    ensures info.sessions > 0 && info.duration > 0 && info.price > 0
  {
    match p
    case Emergency => PlanInfo(20, 30, 2, true)
    case Basic => PlanInfo(35, 90, 4, false)
    case Premium => PlanInfo(60, 180, 6, false)
  }

  /** The catalogue's display name; the payment provider is sent it as the product. */
  function PlanName(p: Plan): string {
    match p
    case Emergency => "الخطة الطارئة"
    case Basic => "الخطة الأساسية"
    case Premium => "الخطة المميزة"
  }

  /** Catalogue order: emergency < basic < premium. */
  function Rank(p: Plan): nat {
    match p
    case Emergency => 0
    case Basic => 1
    case Premium => 2
  }

  /** Every key names its own plan and nothing else does. */
  lemma {:induction false} PlanKeyRoundTrip(p: Plan, key: string)
    ensures ParsePlanKey(PlanKey(p)) == Some(p)
    ensures ParsePlanKey(key) == Some(p) ==> key == PlanKey(p)
  {
  }

  /** The catalogue values, plan by plan. */
  lemma {:induction false} PlanCatalogue()
    ensures PlanOf(Emergency) == PlanInfo(20, 30, 2, true)
    ensures PlanOf(Basic) == PlanInfo(35, 90, 4, false)
    ensures PlanOf(Premium) == PlanInfo(60, 180, 6, false)
  {
  }

  /** A higher plan costs more, lasts longer and credits more sessions. */
  lemma {:induction false} PlanMonotone(p: Plan, q: Plan)
    requires Rank(p) < Rank(q)
    ensures PlanOf(p).price < PlanOf(q).price
    ensures PlanOf(p).duration < PlanOf(q).duration
    ensures PlanOf(p).sessions < PlanOf(q).sessions
  {
  }

  /** The range of an `integer` column: the database refuses any other value. */
  predicate Int4(n: int) {
    -0x8000_0000 <= n < 0x8000_0000
  }

  datatype Role = UserRole | AssistantRole

  datatype TicketStatus = Open | InProgress | Resolved | Closed

  /** `users`: one row per external identity. Nullable columns are options. */
  datatype User = User(
    id: string,
    email: Option<string>,
    firstName: Option<string>,
    lastName: Option<string>,
    profileImageUrl: Option<string>,
    stripeCustomerId: Option<string>,
    stripeSubscriptionId: Option<string>,
    currentPlan: Option<Plan>,
    subscriptionExpiresAt: Option<int>,
    sessionsRemaining: Option<int>,
    createdAt: int,
    updatedAt: int)

  /** The profile fields an identity login supplies; all other columns are
      left out of the upsert and keep their defaults or stored values. Every
      profile field is present in the upsert: `None` is an explicit null,
      which the upsert writes, not a field left out. */
  datatype UpsertUser = UpsertUser(
    id: string,
    email: Option<string>,
    firstName: Option<string>,
    lastName: Option<string>,
    profileImageUrl: Option<string>)

  datatype ChatSession = ChatSession(
    id: int,
    userId: string,
    title: string,
    subject: Option<string>,
    isActive: bool,
    createdAt: int,
    updatedAt: int)

  /** What the chat gateway records with an assistant message. */
  datatype MessageMetadata = MessageMetadata(model: string, timestamp: int, subject: Option<string>)

  datatype ChatMessage = ChatMessage(
    id: int,
    sessionId: int,
    role: Role,
    content: string,
    metadata: Option<MessageMetadata>,
    createdAt: int)

  datatype UploadedFile = UploadedFile(
    id: int,
    userId: string,
    sessionId: Option<int>,
    fileName: string,
    filePath: string,
    fileSize: int,
    mimeType: string,
    isProcessed: bool,
    createdAt: int)

  /** `score` is the exact percentage; the `decimal(5,2)` column's rounding is
      not part of this model. */
  datatype PerformanceAnalytics = PerformanceAnalytics(
    id: int,
    userId: string,
    sessionId: Option<int>,
    subject: string,
    chapter: Option<string>,
    score: Option<real>,
    totalQuestions: Option<int>,
    correctAnswers: Option<int>,
    weakAreas: Option<seq<string>>,
    recommendations: Option<seq<string>>,
    createdAt: int)

  /** `userId` is nullable: a ticket may be submitted without an account. */
  datatype SupportTicket = SupportTicket(
    id: int,
    userId: Option<string>,
    firstName: string,
    lastName: string,
    email: string,
    category: string,
    subject: string,
    message: string,
    status: TicketStatus,
    createdAt: int,
    updatedAt: int)

  // Insert schemas: the columns a caller supplies. `id`, `createdAt` and,
  // where the table has one, `updatedAt` are omitted and assigned by the store.

  /** `isActive` absent takes the column default. */
  datatype InsertChatSession = InsertChatSession(
    userId: string, title: string, subject: Option<string>, isActive: Option<bool>)

  datatype InsertChatMessage = InsertChatMessage(
    sessionId: int, role: Role, content: string, metadata: Option<MessageMetadata>)

  datatype InsertUploadedFile = InsertUploadedFile(
    userId: string, sessionId: Option<int>, fileName: string, filePath: string,
    fileSize: int, mimeType: string)

  datatype InsertPerformanceAnalytics = InsertPerformanceAnalytics(
    userId: string, sessionId: Option<int>, subject: string, chapter: Option<string>,
    score: real, totalQuestions: int, correctAnswers: int,
    weakAreas: seq<string>, recommendations: seq<string>)

  /** `status` absent takes the column default. */
  datatype InsertSupportTicket = InsertSupportTicket(
    userId: Option<string>, firstName: string, lastName: string, email: string,
    category: string, subject: string, message: string, status: Option<TicketStatus>)

  /** A first login: the profile fields, no plan, no billing ids, no expiry,
      the default of zero sessions, both timestamps now. */
  function NewUser(u: UpsertUser, now: int): (r: User)
    ensures r.id == u.id && r.sessionsRemaining == Some(0)
    ensures r.currentPlan.None? && r.subscriptionExpiresAt.None?
    ensures r.stripeCustomerId.None? && r.stripeSubscriptionId.None?
    ensures r.createdAt == now && r.updatedAt == now
  {
    User(u.id, u.email, u.firstName, u.lastName, u.profileImageUrl,
         None, None, None, None, Some(0), now, now)
  }

  /** A new chat session is active unless the insert says otherwise. */
  function NewChatSession(id: int, s: InsertChatSession, now: int): (r: ChatSession)
    ensures r.id == id && r.userId == s.userId && r.title == s.title && r.subject == s.subject
    ensures s.isActive.None? ==> r.isActive
    ensures s.isActive.Some? ==> r.isActive == s.isActive.value
    ensures r.createdAt == now && r.updatedAt == now
  {
    ChatSession(id, s.userId, s.title, s.subject, s.isActive.GetOr(true), now, now)
  }

  function NewChatMessage(id: int, m: InsertChatMessage, now: int): (r: ChatMessage)
    ensures r.id == id && r.sessionId == m.sessionId && r.role == m.role
    ensures r.content == m.content && r.metadata == m.metadata && r.createdAt == now
  {
    ChatMessage(id, m.sessionId, m.role, m.content, m.metadata, now)
  }

  /** A new uploaded file is never processed yet. */
  function NewUploadedFile(id: int, f: InsertUploadedFile, now: int): (r: UploadedFile)
    ensures !r.isProcessed
    ensures r.id == id && r.userId == f.userId && r.sessionId == f.sessionId
    ensures r.fileSize == f.fileSize && r.mimeType == f.mimeType && r.createdAt == now
  {
    UploadedFile(id, f.userId, f.sessionId, f.fileName, f.filePath, f.fileSize, f.mimeType, false, now)
  }

  function NewPerformanceAnalytics(id: int, a: InsertPerformanceAnalytics, now: int): (r: PerformanceAnalytics)
    ensures r.id == id && r.userId == a.userId && r.subject == a.subject && r.score == Some(a.score)
    ensures r.weakAreas == Some(a.weakAreas) && r.createdAt == now
  {
    PerformanceAnalytics(id, a.userId, a.sessionId, a.subject, a.chapter, Some(a.score),
                         Some(a.totalQuestions), Some(a.correctAnswers),
                         Some(a.weakAreas), Some(a.recommendations), now)
  }

  /** A new ticket is open unless the insert says otherwise. */
  function NewSupportTicket(id: int, t: InsertSupportTicket, now: int): (r: SupportTicket)
    ensures t.status.None? ==> r.status == Open
    ensures t.status.Some? ==> r.status == t.status.value
    ensures r.id == id && r.userId == t.userId && r.createdAt == now && r.updatedAt == now
  {
    SupportTicket(id, t.userId, t.firstName, t.lastName, t.email, t.category, t.subject,
                  t.message, t.status.GetOr(Open), now, now)
  }
}
