/**
 * `removeMember`: the project's owner may remove any member, and a member
 * may remove themselves (leave); nobody else may remove anyone.
 */
module MemberAction {
  import opened Wrappers
  import opened Records
  import opened Datastore

  /** The owner-or-self rule. */
  predicate MayRemove(ownerId: Option<Id>, callerId: Id, memberUserId: Id) {
    ownerId == Some(callerId) || memberUserId == callerId
  }

  datatype RemoveOutcome = NotSignedIn | MemberNotFound | ProjectMissing | NotPermitted | Removed

  datatype Removal = Removal(outcome: RemoveOutcome, members: map<Id, Member>)

  /**
   * The guard chain and the delete. The member's project comes from the
   * relation; a member whose project row is missing makes the handler fail
   * inside its `try`.
   */
  function Remove(session: Option<User>, members: map<Id, Member>, projects: map<Id, Project>, memberId: Id)
    : (r: Removal)
    ensures r.outcome == NotSignedIn <==> session.None?
    ensures r.outcome == MemberNotFound <==> session.Some? && memberId !in members
    ensures r.outcome == Removed <==>
              && session.Some? && memberId in members && members[memberId].projectId in projects
              && MayRemove(projects[members[memberId].projectId].userId, session.value.id, members[memberId].userId)
    ensures r.outcome == Removed ==> r.members == members - {memberId}
    ensures r.outcome != Removed ==> r.members == members
  {
    if session.None? then Removal(NotSignedIn, members)
    else if memberId !in members then Removal(MemberNotFound, members)
    else
      var member := members[memberId];
      if member.projectId !in projects then Removal(ProjectMissing, members)
      else if !MayRemove(projects[member.projectId].userId, session.value.id, member.userId) then Removal(NotPermitted, members)
      else Removal(Removed, members - {memberId})
  }

  /** A removal deletes exactly the named member and keeps every other one as it was. */
  lemma RemovesExactlyOne(session: Option<User>, members: map<Id, Member>, projects: map<Id, Project>, memberId: Id)
    requires Remove(session, members, projects, memberId).outcome == Removed
    ensures var after := Remove(session, members, projects, memberId).members;
            && |after| == |members| - 1
            && memberId !in after
            && forall k :: k != memberId ==> (k in after <==> k in members) && (k in after ==> after[k] == members[k])
  {
    var after := Remove(session, members, projects, memberId).members;
    assert after.Keys == members.Keys - {memberId};
  }

  /** Leaving is always permitted: a signed-in member may remove their own membership. */
  lemma MayLeave(session: Option<User>, members: map<Id, Member>, projects: map<Id, Project>, memberId: Id)
    requires session.Some? && memberId in members && members[memberId].userId == session.value.id
    requires members[memberId].projectId in projects
    ensures Remove(session, members, projects, memberId).outcome == Removed
  {
  }

  function RemoveReply(o: RemoveOutcome): (r: Reply)
    ensures r.success <==> o == Removed
  {
    match o
    case NotSignedIn => Fail("Unauthorized")
    case MemberNotFound => Fail("Member not found")
    case ProjectMissing => Fail("Failed to remove member")
    case NotPermitted => Fail("Unauthorized")
    case Removed => Ok()
  }

  method RemoveMember(db: Db, session: Option<User>, memberId: Id) returns (r: Reply)
    requires db.Valid()
    modifies db`members
    ensures db.Valid()
    ensures var s := Remove(session, old(db.members), db.projects, memberId);
            db.members == s.members && r == RemoveReply(s.outcome)
  {
    if session.None? {
      return Fail("Unauthorized");
    }
    if memberId !in db.members {
      return Fail("Member not found");
    }
    var memberToRemove := db.members[memberId];
    if memberToRemove.projectId !in db.projects {
      return Fail("Failed to remove member");
    }
    var project := db.projects[memberToRemove.projectId];
    var isProjectOwner := project.userId == Some(session.value.id);
    var isSelf := memberToRemove.userId == session.value.id;
    if !isProjectOwner && !isSelf {
      return Fail("Unauthorized");
    }
    db.members := db.members - {memberId};
    r := Ok();
  }
}
