/**
 * The settings page's member list: one row per member with the remove or
 * leave control where the viewer may use it, and the pending invitations.
 */
module MembersList {
  import opened Wrappers
  import opened Records
  import MemberAction

  /** A member as the list receives it, joined with its user. */
  datatype MemberView = MemberView(id: Id, role: string, userId: Id, name: Option<string>, email: string)

  datatype InvitationView = InvitationView(id: Id, email: string, role: string, status: string)

  /** `isOwner || member.user.id === currentUserId`. */
  function CanRemove(isOwner: bool, memberUserId: Id, currentUserId: Id): (allowed: bool)
    ensures isOwner ==> allowed
    ensures memberUserId == currentUserId ==> allowed
    ensures !isOwner && memberUserId != currentUserId ==> !allowed
  {
    isOwner || memberUserId == currentUserId
  }

  /** The control agrees with the server's rule when `isOwner` says whether the viewer owns the project. */
  lemma MirrorsServerRule(ownerId: Option<Id>, memberUserId: Id, currentUserId: Id)
    ensures CanRemove(ownerId == Some(currentUserId), memberUserId, currentUserId)
            <==> MemberAction.MayRemove(ownerId, currentUserId, memberUserId)
  {
  }

  /** `member.user.name?.[0] || "U"`. */
  function AvatarFallback(name: Option<string>): (r: string)
    ensures |r| == 1
    ensures name.Some? && name.value != "" ==> r == name.value[..1]
    ensures name.None? || name.value == "" ==> r == "U"
  {
    if name.Some? && name.value != "" then name.value[..1] else "U"
  }

  datatype Row = Row(key: Id, avatar: string, title: string, email: string, role: string, action: Option<string>)

  /** The name, " (You)" on one's own row, and "Leave" or "Remove" only where removal is allowed. */
  function MemberRow(m: MemberView, currentUserId: Id, isOwner: bool): (r: Row)
    ensures r.key == m.id && r.email == m.email && r.role == m.role
    ensures r.action.Some? <==> CanRemove(isOwner, m.userId, currentUserId)
    ensures r.action.Some? ==> r.action.value == (if m.userId == currentUserId then "Leave" else "Remove")
    ensures r.title == m.name.GetOr("") + (if m.userId == currentUserId then " (You)" else "")
    ensures r.avatar == AvatarFallback(m.name)
  {
    var self := m.userId == currentUserId;
    Row(m.id, AvatarFallback(m.name), m.name.GetOr("") + (if self then " (You)" else ""), m.email, m.role,
        if CanRemove(isOwner, m.userId, currentUserId) then Some(if self then "Leave" else "Remove") else None)
  }

  function MemberRows(members: seq<MemberView>, currentUserId: Id, isOwner: bool): (rows: seq<Row>)
    ensures |rows| == |members|
    ensures forall i :: 0 <= i < |members| ==> rows[i] == MemberRow(members[i], currentUserId, isOwner)
  {
    if members == [] then [] else [MemberRow(members[0], currentUserId, isOwner)] + MemberRows(members[1..], currentUserId, isOwner)
  }

  datatype Listing = Listing(members: seq<Row>, pending: Option<seq<InvitationView>>)

  /** The member rows in order, and the pending section only for a non-empty invitation list. */
  function Render(members: seq<MemberView>, invitations: seq<InvitationView>, currentUserId: Id, isOwner: bool)
    : (l: Listing)
    ensures l.members == MemberRows(members, currentUserId, isOwner)
    ensures l.pending.Some? <==> |invitations| > 0
    ensures l.pending.Some? ==> l.pending.value == invitations
  {
    Listing(MemberRows(members, currentUserId, isOwner), if |invitations| > 0 then Some(invitations) else None)
  }

  /** Only the viewer's own rows carry " (You)", and a viewer who is not the owner can act only on those. */
  lemma OnlyOwnRowsForNonOwner(members: seq<MemberView>, currentUserId: Id)
    ensures var rows := MemberRows(members, currentUserId, false);
            forall i :: 0 <= i < |members| ==> (rows[i].action.Some? <==> members[i].userId == currentUserId)
  {
  }
}
