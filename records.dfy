/**
 * The records of the datastore and the values that cross the handlers'
 * boundaries: replies of server actions, errors thrown by tRPC procedures,
 * and the platform functions the handlers call but do not define.
 */
module Records {
  import opened Wrappers

  /** Record identifiers, generated by the datastore. */
  type Id = string

  /** A point in time, in milliseconds; `new Date()` is always passed in as `now`. */
  type Time = int

  const DAY: Time := 24 * 60 * 60 * 1000

  /** JavaScript truthiness of an optional string: present and not "". */
  predicate Truthy(s: Option<string>) {
    s.Some? && s.value != ""
  }

  /** A single-use collection token (table `testimonialToken`). */
  datatype Token = Token(
    id: Id,
    token: string,
    projectId: Id,
    description: Option<string>,
    createdBy: string,
    used: bool,
    cancelled: bool,
    expiresAt: Option<Time>,
    createdAt: Time)

  datatype Testimonial = Testimonial(
    id: Id,
    projectId: Id,
    customerName: string,
    customerCompany: Option<string>,
    customerTitle: Option<string>,
    rating: int,
    text: string,
    isApproved: bool,
    isFeatured: bool,
    createdAt: Time)

  /** Per-project widget settings, including the embedding allow-list. */
  datatype WidgetConfig = WidgetConfig(
    id: Id,
    projectId: Id,
    primaryColor: string,
    backgroundColor: string,
    textColor: string,
    displayLayout: string,
    displayOrder: string,
    showRating: bool,
    showAvatar: bool,
    gridColumns: int,
    gridGap: int,
    allowedDomains: Option<seq<string>>)

  /** A project owned by a user (`userId`) or by an organisation. */
  datatype Project = Project(
    id: Id,
    name: string,
    slug: string,
    userId: Option<Id>,
    organizationId: Option<Id>)

  datatype Member = Member(id: Id, userId: Id, projectId: Id, role: string)

  datatype Invitation = Invitation(
    id: Id,
    projectId: Id,
    email: string,
    role: string,
    status: string,
    expiresAt: Time,
    inviterId: Id)

  /** A project's public collection link (tables `collectLink` and `testimonialLink`). */
  datatype CollectLink = CollectLink(
    id: Id,
    projectId: Id,
    slug: string,
    isActive: bool,
    thankYouMessage: string)

  /** An authenticated user, as the session and the auth provider's user table hold it. */
  datatype User = User(id: Id, name: string, email: string, activeProjectId: Option<Id>)

  /**
   * Column defaults declared in the datastore schema, which the handlers rely
   * on when they create a record without giving these fields.
   */
  datatype SchemaDefaults = SchemaDefaults(
    tokenUsed: bool,
    tokenCancelled: bool,
    testimonialApproved: bool,
    testimonialFeatured: bool,
    invitationStatus: string,
    projectOrganizationId: Option<Id>)

  /**
   * Functions of the platform that the handlers call but do not define:
   * the WHATWG URL parser's `hostname` (None where `new URL(s)` throws) and
   * the input validators `z.url()`, `z.uuid()` and `z.email()`.
   */
  datatype Env = Env(
    hostname: string -> Option<string>,
    isUrl: string -> bool,
    isUuid: string -> bool,
    isEmail: string -> bool)

  /** The reply object of a server action: `{ success, message?, errors? }`. */
  datatype Reply = Reply(success: bool, message: Option<string>, errors: set<string>)

  function Ok(): Reply { Reply(true, None, {}) }

  function OkWith(message: string): Reply { Reply(true, Some(message), {}) }

  function Fail(message: string): Reply { Reply(false, Some(message), {}) }

  /** `{ success: false, message: "Invalid data", errors }`, errors keyed by field name. */
  function InvalidData(fields: set<string>): Reply { Reply(false, Some("Invalid data"), fields) }

  /** The tRPC error codes the procedures throw. */
  datatype TrpcCode = BadRequest | NotFound | Unauthorized | Forbidden

  /** Why a procedure threw instead of returning. */
  datatype Failure =
    | Trpc(code: TrpcCode, message: string)   // a `TRPCError` thrown by the handler
    | InvalidInput(fields: set<string>)       // the zod input schema rejected the input (BAD_REQUEST)
    | StoreError                              // the datastore threw (uncaught in the handler)
    | UrlError                                // `new URL(...)` threw a TypeError

  /** The outcome of a tRPC procedure: a value, or a thrown error. */
  datatype Procedure<+T> = Returned(value: T) | Threw(failure: Failure)
}
