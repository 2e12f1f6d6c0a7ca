/**
 * The token procedures of the tRPC router: listing, counting, issuing and
 * cancelling the collection tokens of the caller's active project.
 */
module TokenRouter {
  import opened Wrappers
  import opened Records
  import opened Datastore
  import opened TokenLifecycle

  const NO_ACTIVE_PROJECT: Failure := Trpc(BadRequest, "No active project selected")

  function TokenCreatedAt(t: Token): int { t.createdAt }

  /** `getAll`: the tokens of the active project and no other, newest first. */
  method GetAll(db: Db, user: User) returns (r: Procedure<seq<Token>>)
    requires db.Valid()
    ensures !Truthy(user.activeProjectId) ==> r == Threw(NO_ACTIVE_PROJECT)
    ensures Truthy(user.activeProjectId) ==>
              && r.Returned?
              && Lists(r.value, db.tokens, OfProject(user.activeProjectId.value))
              && SortedBy(r.value, TokenCreatedAt, Descending)
  {
    if !Truthy(user.activeProjectId) {
      return Threw(NO_ACTIVE_PROJECT);
    }
    var keep := OfProject(user.activeProjectId.value);
    var tokens := FindMany(db.tokens, keep);
    SortedListing(tokens, db.tokens, keep, TokenCreatedAt, Descending);
    r := Returned(SortBy(tokens, TokenCreatedAt, Descending));
  }

  /**
   * `getStats`: the four counters over the active project's tokens, each the
   * number of the project's tokens in the table with that property.
   */
  method GetProjectStats(db: Db, user: User) returns (r: Procedure<Stats>)
    requires db.Valid()
    ensures !Truthy(user.activeProjectId) ==> r == Threw(NO_ACTIVE_PROJECT)
    ensures Truthy(user.activeProjectId) ==>
              var keep := OfProject(user.activeProjectId.value);
              && r.Returned?
              && r.value.total == |Selected(db.tokens, keep)|
              && r.value.active == |SelectedWith(db.tokens, keep, IsActive)|
              && r.value.used == |SelectedWith(db.tokens, keep, IsUsed)|
              && r.value.cancelled == |SelectedWith(db.tokens, keep, IsCancelled)|
              && r.value.active <= r.value.total
  {
    if !Truthy(user.activeProjectId) {
      return Threw(NO_ACTIVE_PROJECT);
    }
    var keep := OfProject(user.activeProjectId.value);
    var tokens := FindMany(db.tokens, keep);
    StatsOfListing(tokens, db.tokens, user.activeProjectId.value);
    r := Returned(GetStats(tokens));
  }

  /**
   * `create`: a token of the active project, created by the caller's name
   * (or e-mail when the name is empty), whose value joins two random base-36
   * fragments. A datastore refusal propagates as an internal error.
   */
  method Create(db: Db, user: User, description: Option<string>, f1: string, f2: string, newId: Id, now: Time)
    returns (r: Procedure<Token>)
    requires db.Valid()
    requires IsFragment(f1) && IsFragment(f2)
    modifies db`tokens
    ensures db.Valid()
    ensures !Truthy(user.activeProjectId) ==> r == Threw(NO_ACTIVE_PROJECT) && db.tokens == old(db.tokens)
    ensures Truthy(user.activeProjectId) ==>
              var i := Issue(old(db.tokens), user.activeProjectId.value, description, CreatedBy(user),
                             TokenValue(f1, f2), newId, now, db.defaults);
              && db.tokens == i.tokens
              && r == (if i.issued.Some? then Returned(i.issued.value) else Threw(StoreError))
  {
    if !Truthy(user.activeProjectId) {
      return Threw(NO_ACTIVE_PROJECT);
    }
    var i := Issue(db.tokens, user.activeProjectId.value, description, CreatedBy(user),
                   TokenValue(f1, f2), newId, now, db.defaults);
    if i.issued.None? {
      return Threw(StoreError);
    }
    db.tokens := i.tokens;
    r := Returned(i.issued.value);
  }

  /**
   * `cancel`: a non-empty id, an active project, an existing token of that
   * project; then only its `cancelled` flag is set, whatever `used` says.
   */
  method CancelToken(db: Db, user: User, id: Id) returns (r: Procedure<Reply>)
    requires db.Valid()
    modifies db`tokens
    ensures db.Valid()
    ensures id == "" ==> r == Threw(InvalidInput({"id"})) && db.tokens == old(db.tokens)
    ensures id != "" && !Truthy(user.activeProjectId) ==> r == Threw(NO_ACTIVE_PROJECT) && db.tokens == old(db.tokens)
    ensures id != "" && Truthy(user.activeProjectId) ==>
              var c := Cancel(old(db.tokens), id, user.activeProjectId.value);
              && db.tokens == c.tokens
              && r == match c.outcome
                      case TokenNotFound => Threw(Trpc(NotFound, "Token not found"))
                      case OtherProject => Threw(Trpc(Unauthorized, "Unauthorized"))
                      case TokenCancelled => Returned(Ok())
  {
    if id == "" {
      return Threw(InvalidInput({"id"}));
    }
    if !Truthy(user.activeProjectId) {
      return Threw(NO_ACTIVE_PROJECT);
    }
    if id !in db.tokens {
      return Threw(Trpc(NotFound, "Token not found"));
    }
    var token := db.tokens[id];
    if token.projectId != user.activeProjectId.value {
      return Threw(Trpc(Unauthorized, "Unauthorized"));
    }
    db.tokens := db.tokens[id := token.(cancelled := true)];
    r := Returned(Ok());
  }
}
