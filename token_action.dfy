/**
 * The server actions behind the dashboard's token buttons. The active project
 * comes from a cookie, not from the session user, and every failure is a
 * result rather than an exception.
 */
module TokenAction {
  import opened Wrappers
  import opened Records
  import opened Datastore
  import opened TokenLifecycle

  /**
   * `createToken`: a session, then an active project, then the insert; the
   * created token is handed back beside the reply.
   */
  method CreateToken(db: Db, session: Option<User>, activeProjectId: Option<Id>, description: Option<string>,
                     f1: string, f2: string, newId: Id, now: Time)
    returns (r: Reply, token: Option<Token>)
    requires db.Valid()
    requires IsFragment(f1) && IsFragment(f2)
    modifies db`tokens
    ensures db.Valid()
    ensures session.None? ==> r == Fail("Unauthorized") && token.None? && db.tokens == old(db.tokens)
    ensures session.Some? && !Truthy(activeProjectId) ==>
              r == Fail("No active project selected") && token.None? && db.tokens == old(db.tokens)
    ensures session.Some? && Truthy(activeProjectId) ==>
              var i := Issue(old(db.tokens), activeProjectId.value, description, CreatedBy(session.value),
                             TokenValue(f1, f2), newId, now, db.defaults);
              && db.tokens == i.tokens && token == i.issued
              && r == (if i.issued.Some? then Ok() else Fail("Failed to create token"))
  {
    token := None;
    if session.None? {
      return Fail("Unauthorized"), token;
    }
    if !Truthy(activeProjectId) {
      return Fail("No active project selected"), token;
    }
    var i := Issue(db.tokens, activeProjectId.value, description, CreatedBy(session.value),
                   TokenValue(f1, f2), newId, now, db.defaults);
    if i.issued.None? {
      return Fail("Failed to create token"), token;
    }
    db.tokens := i.tokens;
    token := i.issued;
    r := Ok();
  }

  /** The reply of `cancelToken` for each outcome of the cancellation. */
  function CancelReply(o: CancelOutcome): (r: Reply)
    ensures r.success <==> o == TokenCancelled
  {
    match o
    case TokenNotFound => Fail("Token not found")
    case OtherProject => Fail("Unauthorized")
    case TokenCancelled => Ok()
  }

  /** `cancelToken`: session, active project, existence, same project, in that order. */
  method CancelToken(db: Db, session: Option<User>, activeProjectId: Option<Id>, tokenId: Id) returns (r: Reply)
    requires db.Valid()
    modifies db`tokens
    ensures db.Valid()
    ensures session.None? ==> r == Fail("Unauthorized") && db.tokens == old(db.tokens)
    ensures session.Some? && !Truthy(activeProjectId) ==>
              r == Fail("No active project selected") && db.tokens == old(db.tokens)
    ensures session.Some? && Truthy(activeProjectId) ==>
              var c := Cancel(old(db.tokens), tokenId, activeProjectId.value);
              db.tokens == c.tokens && r == CancelReply(c.outcome)
  {
    if session.None? {
      return Fail("Unauthorized");
    }
    if !Truthy(activeProjectId) {
      return Fail("No active project selected");
    }
    if tokenId !in db.tokens {
      return Fail("Token not found");
    }
    var token := db.tokens[tokenId];
    if token.projectId != activeProjectId.value {
      return Fail("Unauthorized");
    }
    db.tokens := db.tokens[tokenId := token.(cancelled := true)];
    r := Ok();
  }
}
