/**
 * The collection-link procedures of the tRPC router: the active project's
 * link, and switching a link on or off.
 */
module CollectLinkRouter {
  import opened Wrappers
  import opened Records
  import opened Datastore

  /** `currentProject`: null without an active project or without a link for it. */
  method CurrentProject(db: Db, user: User) returns (r: Option<CollectLink>)
    requires db.Valid()
    ensures !Truthy(user.activeProjectId) ==> r.None?
    ensures Truthy(user.activeProjectId) ==> r == LinkOfProject(db.collectLinks, user.activeProjectId.value)
    ensures r.Some? ==> Truthy(user.activeProjectId) && r.value.projectId == user.activeProjectId.value
                        && r.value.id in db.collectLinks && db.collectLinks[r.value.id] == r.value
  {
    if !Truthy(user.activeProjectId) {
      return None;
    }
    var link := LinkOfProject(db.collectLinks, user.activeProjectId.value);
    if link.None? {
      return None;
    }
    r := link;
  }

  /** The link table with `isActive` of `id` negated; None for an unknown id. */
  function Flip(links: map<Id, CollectLink>, id: Id): (r: Option<map<Id, CollectLink>>)
    ensures r.None? <==> id !in links
    ensures r.Some? ==> r.value.Keys == links.Keys && r.value[id].isActive == !links[id].isActive
    ensures r.Some? ==> r.value[id] == links[id].(isActive := r.value[id].isActive)
    ensures r.Some? ==> forall k :: k in links && k != id ==> r.value[k] == links[k]
  {
    if id !in links then None else Some(links[id := links[id].(isActive := !links[id].isActive)])
  }

  /** Two toggles restore the link. */
  lemma FlipTwice(links: map<Id, CollectLink>, id: Id)
    requires id in links
    ensures Flip(Flip(links, id).value, id) == Some(links)
  {
    var once := Flip(links, id).value;
    assert once[id := once[id].(isActive := !once[id].isActive)] == links;
  }

  /** `toggleStatus`: a non-empty id; an unknown one fails and writes nothing. */
  method ToggleStatus(db: Db, id: Id) returns (r: Procedure<Reply>)
    requires db.Valid()
    modifies db`collectLinks
    ensures db.Valid()
    ensures id == "" ==> r == Threw(InvalidInput({"id"})) && db.collectLinks == old(db.collectLinks)
    ensures id != "" && id !in old(db.collectLinks) ==>
              r == Returned(Fail("Collect Link not found")) && db.collectLinks == old(db.collectLinks)
    ensures id != "" && id in old(db.collectLinks) ==>
              r == Returned(Ok()) && Some(db.collectLinks) == Flip(old(db.collectLinks), id)
  {
    if id == "" {
      return Threw(InvalidInput({"id"}));
    }
    if id !in db.collectLinks {
      return Returned(Fail("Collect Link not found"));
    }
    var link := db.collectLinks[id];
    db.collectLinks := db.collectLinks[id := link.(isActive := !link.isActive)];
    r := Returned(Ok());
  }
}
