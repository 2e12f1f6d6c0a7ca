/**
 * The invitation actions: inviting someone to a project by e-mail, accepting
 * an invitation addressed to oneself, and cancelling one.
 */
module InvitationAction {
  import opened Wrappers
  import opened Records
  import opened Datastore

  const PENDING: string := "pending"
  const ACCEPTED: string := "accepted"

  // ----- inviteUser -----

  /** The form fields as `FormData.get` returns them (None for a missing field). */
  datatype InviteForm = InviteForm(email: Option<string>, projectId: Option<string>, role: Option<string>)

  /** `formData.get("role") || "member"`. */
  function RoleOf(role: Option<string>): (r: string)
    ensures Truthy(role) ==> r == role.value
    ensures !Truthy(role) ==> r == "member"
  {
    if Truthy(role) then role.value else "member"
  }

  /** The schema: an e-mail address and a project id, both present. */
  function InviteErrors(env: Env, form: InviteForm): (errs: set<string>)
    ensures "email" in errs <==> form.email.None? || !env.isEmail(form.email.value)
    ensures "projectId" in errs <==> form.projectId.None?
    ensures errs <= {"email", "projectId"}
  {
    (if form.email.Some? && env.isEmail(form.email.value) then {} else {"email"})
    + (if form.projectId.Some? then {} else {"projectId"})
  }

  /** The caller is a member of the project or owns it. */
  predicate MayInvite(members: map<Id, Member>, projects: map<Id, Project>, callerId: Id, projectId: Id) {
    || (exists k :: k in members && members[k].userId == callerId && members[k].projectId == projectId)
    || (projectId in projects && projects[projectId].userId == Some(callerId))
  }

  /** Some member of the project is a user with this e-mail address. */
  predicate AlreadyMember(members: map<Id, Member>, users: map<Id, User>, projectId: Id, email: string) {
    exists k :: k in members && members[k].projectId == projectId
                && members[k].userId in users && users[members[k].userId].email == email
  }

  predicate PendingFor(invitations: map<Id, Invitation>, projectId: Id, email: string) {
    exists k :: k in invitations && invitations[k].projectId == projectId
                && invitations[k].email == email && invitations[k].status == PENDING
  }

  /** At most one pending invitation per project and e-mail address. */
  ghost predicate AtMostOnePending(invitations: map<Id, Invitation>) {
    forall a, b :: a in invitations && b in invitations
                   && invitations[a].status == PENDING && invitations[b].status == PENDING
                   && invitations[a].projectId == invitations[b].projectId
                   && invitations[a].email == invitations[b].email
                   ==> a == b
  }

  datatype InviteOutcome =
    | InviteUnauthorized
    | InviteInvalid(fields: set<string>)
    | NotPermittedToInvite
    | AlreadyAMember
    | AlreadyPending
    | InviteStoreFailed
    | Invited(invitation: Invitation)

  datatype Inviting = Inviting(outcome: InviteOutcome, invitations: map<Id, Invitation>)

  /**
   * The guard chain (session, data, permission, membership, pending
   * invitation) and the insert of an invitation that expires seven days
   * after `now`, with the schema's default status.
   */
  function Invite(env: Env, session: Option<User>, form: InviteForm, members: map<Id, Member>,
                  projects: map<Id, Project>, users: map<Id, User>, invitations: map<Id, Invitation>,
                  now: Time, newId: Id, d: SchemaDefaults): (r: Inviting)
    requires InvitationsValid(invitations)
    ensures InvitationsValid(r.invitations)
    ensures r.outcome == InviteUnauthorized <==> session.None?
    ensures r.outcome.InviteInvalid? <==> session.Some? && InviteErrors(env, form) != {}
    ensures r.outcome.InviteInvalid? ==> r.outcome.fields == InviteErrors(env, form)
    ensures r.outcome == NotPermittedToInvite <==>
              session.Some? && InviteErrors(env, form) == {}
              && !MayInvite(members, projects, session.value.id, form.projectId.value)
    ensures r.outcome == AlreadyAMember <==>
              session.Some? && InviteErrors(env, form) == {}
              && MayInvite(members, projects, session.value.id, form.projectId.value)
              && AlreadyMember(members, users, form.projectId.value, form.email.value)
    ensures r.outcome == AlreadyPending <==>
              session.Some? && InviteErrors(env, form) == {}
              && MayInvite(members, projects, session.value.id, form.projectId.value)
              && !AlreadyMember(members, users, form.projectId.value, form.email.value)
              && PendingFor(invitations, form.projectId.value, form.email.value)
    ensures r.outcome == InviteStoreFailed <==>
              session.Some? && InviteErrors(env, form) == {}
              && MayInvite(members, projects, session.value.id, form.projectId.value)
              && !AlreadyMember(members, users, form.projectId.value, form.email.value)
              && !PendingFor(invitations, form.projectId.value, form.email.value)
              && newId in invitations
    ensures !r.outcome.Invited? ==> r.invitations == invitations
    ensures r.outcome.Invited? ==>
              var i := r.outcome.invitation;
              && session.Some? && InviteErrors(env, form) == {}
              && MayInvite(members, projects, session.value.id, form.projectId.value)
              && !AlreadyMember(members, users, form.projectId.value, form.email.value)
              && !PendingFor(invitations, form.projectId.value, form.email.value)
              && newId !in invitations && r.invitations == invitations[newId := i]
              && i == Invitation(newId, form.projectId.value, form.email.value, RoleOf(form.role),
                                 d.invitationStatus, now + 7 * DAY, session.value.id)
  {
    if session.None? then Inviting(InviteUnauthorized, invitations)
    else if InviteErrors(env, form) != {} then Inviting(InviteInvalid(InviteErrors(env, form)), invitations)
    else
      var email, projectId, role := form.email.value, form.projectId.value, RoleOf(form.role);
      if !MayInvite(members, projects, session.value.id, projectId) then Inviting(NotPermittedToInvite, invitations)
      else if AlreadyMember(members, users, projectId, email) then Inviting(AlreadyAMember, invitations)
      else if PendingFor(invitations, projectId, email) then Inviting(AlreadyPending, invitations)
      else if newId in invitations then Inviting(InviteStoreFailed, invitations)
      else
        var i := Invitation(newId, projectId, email, role, d.invitationStatus, now + 7 * DAY, session.value.id);
        Inviting(Invited(i), invitations[newId := i])
  }

  /** Inviting never creates a second pending invitation for the same project and address. */
  lemma InvitePreservesOnePending(env: Env, session: Option<User>, form: InviteForm, members: map<Id, Member>,
                                  projects: map<Id, Project>, users: map<Id, User>,
                                  invitations: map<Id, Invitation>, now: Time, newId: Id, d: SchemaDefaults)
    requires InvitationsValid(invitations) && AtMostOnePending(invitations)
    ensures AtMostOnePending(Invite(env, session, form, members, projects, users, invitations, now, newId, d).invitations)
  {
    var r := Invite(env, session, form, members, projects, users, invitations, now, newId, d);
    if r.outcome.Invited? {
      assert !PendingFor(invitations, form.projectId.value, form.email.value);
    }
  }

  function InviteReply(o: InviteOutcome): (r: Reply)
    ensures r.success <==> o.Invited?
  {
    match o
    case InviteUnauthorized => Fail("Unauthorized")
    case InviteInvalid(fields) => InvalidData(fields)
    case NotPermittedToInvite => Fail("Unauthorized to invite")
    case AlreadyAMember => Fail("User is already a member")
    case AlreadyPending => Fail("Invitation already pending")
    case InviteStoreFailed => Fail("Failed to invite user")
    case Invited(_) => OkWith("Invitation sent")
  }

  method InviteUser(db: Db, env: Env, session: Option<User>, form: InviteForm, now: Time, newId: Id) returns (r: Reply)
    requires db.Valid()
    modifies db`invitations
    ensures db.Valid()
    ensures var s := Invite(env, session, form, db.members, db.projects, db.users, old(db.invitations), now, newId, db.defaults);
            db.invitations == s.invitations && r == InviteReply(s.outcome)
  {
    if session.None? {
      return Fail("Unauthorized");
    }
    var errs := InviteErrors(env, form);
    if errs != {} {
      return InvalidData(errs);
    }
    var email, projectId, role := form.email.value, form.projectId.value, RoleOf(form.role);
    var membership := exists k :: k in db.members && db.members[k].userId == session.value.id
                                  && db.members[k].projectId == projectId;
    var isOwner := projectId in db.projects && db.projects[projectId].userId == Some(session.value.id);
    if !membership && !isOwner {
      return Fail("Unauthorized to invite");
    }
    if AlreadyMember(db.members, db.users, projectId, email) {
      return Fail("User is already a member");
    }
    if PendingFor(db.invitations, projectId, email) {
      return Fail("Invitation already pending");
    }
    if newId in db.invitations {
      return Fail("Failed to invite user");
    }
    var expiresAt := now + 7 * DAY;
    db.invitations := db.invitations[newId := Invitation(newId, projectId, email, role, db.defaults.invitationStatus,
                                                         expiresAt, session.value.id)];
    r := OkWith("Invitation sent");
  }

  // ----- cancelInvitation -----

  datatype CancelOutcome = CancelUnauthorized | CancelFailed | Cancelled

  datatype Cancelling = Cancelling(outcome: CancelOutcome, invitations: map<Id, Invitation>)

  /** Any signed-in user may delete any invitation; deleting a missing one fails. */
  function Cancel(session: Option<User>, invitations: map<Id, Invitation>, invitationId: Id): (r: Cancelling)
    ensures r.outcome == CancelUnauthorized <==> session.None?
    ensures r.outcome == Cancelled <==> session.Some? && invitationId in invitations
    ensures r.outcome == Cancelled ==> r.invitations == invitations - {invitationId}
    ensures r.outcome != Cancelled ==> r.invitations == invitations
  {
    if session.None? then Cancelling(CancelUnauthorized, invitations)
    else if invitationId !in invitations then Cancelling(CancelFailed, invitations)
    else Cancelling(Cancelled, invitations - {invitationId})
  }

  method CancelInvitation(db: Db, session: Option<User>, invitationId: Id) returns (r: Reply)
    requires db.Valid()
    modifies db`invitations
    ensures db.Valid()
    ensures var s := Cancel(session, old(db.invitations), invitationId);
            && db.invitations == s.invitations
            && r == match s.outcome
                    case CancelUnauthorized => Fail("Unauthorized")
                    case CancelFailed => Fail("Failed to cancel")
                    case Cancelled => Ok()
  {
    if session.None? {
      return Fail("Unauthorized");
    }
    if invitationId !in db.invitations {
      return Fail("Failed to cancel");
    }
    db.invitations := db.invitations - {invitationId};
    r := Ok();
  }

  // ----- acceptInvitation -----

  datatype AcceptOutcome = AcceptUnauthorized | InvalidInvitation | NotForYou | InvitationExpired | AcceptFailed | Joined

  datatype Acceptance = Acceptance(outcome: AcceptOutcome, invitations: map<Id, Invitation>, members: map<Id, Member>)

  /**
   * The guard chain (session, pending invitation, addressee, expiry) and
   * the two writes: the new member, then the invitation marked accepted.
   */
  function Accept(session: Option<User>, invitations: map<Id, Invitation>, members: map<Id, Member>,
                  invitationId: Id, now: Time, newMemberId: Id): (r: Acceptance)
    requires InvitationsValid(invitations) && MembersValid(members)
    ensures InvitationsValid(r.invitations) && MembersValid(r.members)
    ensures r.outcome == AcceptUnauthorized <==> session.None?
    ensures r.outcome == InvalidInvitation <==>
              session.Some? && (invitationId !in invitations || invitations[invitationId].status != PENDING)
    ensures r.outcome == NotForYou <==>
              session.Some? && invitationId in invitations && invitations[invitationId].status == PENDING
              && invitations[invitationId].email != session.value.email
    ensures r.outcome == InvitationExpired <==>
              session.Some? && invitationId in invitations && invitations[invitationId].status == PENDING
              && invitations[invitationId].email == session.value.email && now > invitations[invitationId].expiresAt
    ensures r.outcome == AcceptFailed <==>
              session.Some? && invitationId in invitations && invitations[invitationId].status == PENDING
              && invitations[invitationId].email == session.value.email && now <= invitations[invitationId].expiresAt
              && newMemberId in members
    ensures r.outcome != Joined ==> r.invitations == invitations && r.members == members
    ensures r.outcome == Joined ==>
              var i := invitations[invitationId];
              && newMemberId !in members
              && r.members == members[newMemberId := Member(newMemberId, session.value.id, i.projectId, i.role)]
              && r.invitations == invitations[invitationId := i.(status := ACCEPTED)]
  {
    if session.None? then Acceptance(AcceptUnauthorized, invitations, members)
    else if invitationId !in invitations || invitations[invitationId].status != PENDING then
      Acceptance(InvalidInvitation, invitations, members)
    else
      var i := invitations[invitationId];
      if i.email != session.value.email then Acceptance(NotForYou, invitations, members)
      else if now > i.expiresAt then Acceptance(InvitationExpired, invitations, members)
      else if newMemberId in members then Acceptance(AcceptFailed, invitations, members)
      else
        Acceptance(Joined,
                   invitations[invitationId := i.(status := ACCEPTED)],
                   members[newMemberId := Member(newMemberId, session.value.id, i.projectId, i.role)])
  }

  /** An accepted invitation cannot be accepted again. */
  lemma AcceptOnce(session: Option<User>, invitations: map<Id, Invitation>, members: map<Id, Member>,
                   invitationId: Id, now: Time, newMemberId: Id,
                   session': Option<User>, now': Time, newMemberId': Id)
    requires InvitationsValid(invitations) && MembersValid(members)
    requires Accept(session, invitations, members, invitationId, now, newMemberId).outcome == Joined
    requires session'.Some?
    ensures var a := Accept(session, invitations, members, invitationId, now, newMemberId);
            Accept(session', a.invitations, a.members, invitationId, now', newMemberId').outcome == InvalidInvitation
  {
  }

  /** Expiry is inclusive of its instant: an invitation can be accepted at exactly `expiresAt`. */
  lemma AcceptAtExpiry(session: Option<User>, invitations: map<Id, Invitation>, members: map<Id, Member>,
                       invitationId: Id, newMemberId: Id)
    requires InvitationsValid(invitations) && MembersValid(members)
    requires session.Some? && invitationId in invitations && newMemberId !in members
    requires invitations[invitationId].status == PENDING && invitations[invitationId].email == session.value.email
    ensures Accept(session, invitations, members, invitationId, invitations[invitationId].expiresAt, newMemberId).outcome
            == Joined
  {
  }

  function AcceptReply(o: AcceptOutcome): (r: Reply)
    ensures r.success <==> o == Joined
  {
    match o
    case AcceptUnauthorized => Fail("Unauthorized")
    case InvalidInvitation => Fail("Invalid invitation")
    case NotForYou => Fail("This invitation is not for you")
    case InvitationExpired => Fail("Invitation expired")
    case AcceptFailed => Fail("Failed to accept invitation")
    case Joined => Ok()
  }

  method AcceptInvitation(db: Db, session: Option<User>, invitationId: Id, now: Time, newMemberId: Id)
    returns (r: Reply)
    requires db.Valid()
    modifies db`invitations, db`members
    ensures db.Valid()
    ensures var s := Accept(session, old(db.invitations), old(db.members), invitationId, now, newMemberId);
            db.invitations == s.invitations && db.members == s.members && r == AcceptReply(s.outcome)
  {
    if session.None? {
      return Fail("Unauthorized");
    }
    if invitationId !in db.invitations || db.invitations[invitationId].status != PENDING {
      return Fail("Invalid invitation");
    }
    var invitation := db.invitations[invitationId];
    if invitation.email != session.value.email {
      return Fail("This invitation is not for you");
    }
    if now > invitation.expiresAt {
      return Fail("Invitation expired");
    }
    if newMemberId in db.members {
      return Fail("Failed to accept invitation");
    }
    db.members := db.members[newMemberId := Member(newMemberId, session.value.id, invitation.projectId, invitation.role)];
    db.invitations := db.invitations[invitationId := invitation.(status := ACCEPTED)];
    r := Ok();
  }
}
