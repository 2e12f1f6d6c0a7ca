/**
 * The session helpers: reading the active project off the session, and
 * switching it to one of the caller's projects.
 */
module AuthServer {
  import opened Wrappers
  import opened Records
  import opened Datastore
  import ProjectRouter

  /** `getActiveProjectId`: the session user's active project; nothing without a session. */
  function GetActiveProjectId(session: Option<User>): (r: Option<Id>)
    ensures session.None? ==> r.None?
    ensures session.Some? ==> r == session.value.activeProjectId
  {
    if session.Some? then session.value.activeProjectId else None
  }

  datatype SwitchOutcome = ProjectNotFound | Switched

  /**
   * `setActiveProjectId`: refuse (throw "Project not found") a project that
   * is not among the caller's projects; otherwise request the update of the
   * caller's `activeProjectId`. The update is not awaited, so a caller
   * missing from the user table is a refusal nobody observes.
   */
  method SetActiveProjectId(db: Db, user: User, projectId: Id) returns (r: SwitchOutcome)
    requires db.Valid()
    modifies db`users
    ensures db.Valid()
    ensures r == ProjectNotFound <==>
              !exists p :: p in db.projects.Values && ProjectRouter.VisibleTo(db.members, user.id, p) && p.id == projectId
    ensures r == ProjectNotFound ==> db.users == old(db.users)
    ensures r == Switched && user.id in old(db.users) ==>
              db.users == old(db.users)[user.id := old(db.users)[user.id].(activeProjectId := Some(projectId))]
    ensures r == Switched && user.id !in old(db.users) ==> db.users == old(db.users)
  {
    var userProjects := ProjectRouter.All(db, user);
    var found := exists i :: 0 <= i < |userProjects| && userProjects[i].id == projectId;
    if !found {
      return ProjectNotFound;
    }
    if user.id in db.users {
      db.users := db.users[user.id := db.users[user.id].(activeProjectId := Some(projectId))];
    }
    r := Switched;
  }
}
