/**
 * The project procedures of the tRPC router: the caller's visible projects,
 * creating a project (with its owner membership, its default collection link
 * and the caller's active project), and reading the active project's link.
 */
module ProjectRouter {
  import opened Wrappers
  import opened Records
  import opened Datastore

  const THANK_YOU: string := "Thank you for sharing your experience"
  const OWNER: string := "owner"

  // ----- all -----

  /** `OR: [{ userId }, { members: { some: { userId } } }]`. */
  predicate VisibleTo(members: map<Id, Member>, userId: Id, p: Project) {
    || p.userId == Some(userId)
    || exists k :: k in members && members[k].projectId == p.id && members[k].userId == userId
  }

  function Visible(members: map<Id, Member>, userId: Id): Project -> bool {
    (p: Project) => VisibleTo(members, userId, p)
  }

  /** `all`: exactly the projects the caller owns or is a member of. */
  method All(db: Db, user: User) returns (projects: seq<Project>)
    requires db.Valid()
    ensures Lists(projects, db.projects, Visible(db.members, user.id))
    ensures forall p :: p in projects <==> p in db.projects.Values && VisibleTo(db.members, user.id, p)
  {
    projects := FindMany(db.projects, Visible(db.members, user.id));
  }

  // ----- create -----

  /** Name and slug of 3 to 50 characters each. */
  function NameSlugErrors(name: string, slug: string): (errs: set<string>)
    ensures "name" in errs <==> !(3 <= |name| <= 50)
    ensures "slug" in errs <==> !(3 <= |slug| <= 50)
    ensures errs <= {"name", "slug"}
  {
    (if 3 <= |name| <= 50 then {} else {"name"}) + (if 3 <= |slug| <= 50 then {} else {"slug"})
  }

  /** The tables `create` writes. */
  datatype Tables = Tables(
    projects: map<Id, Project>,
    members: map<Id, Member>,
    links: map<Id, CollectLink>,
    users: map<Id, User>)

  ghost predicate TablesValid(t: Tables) {
    ProjectsValid(t.projects) && MembersValid(t.members) && LinksValid(t.links) && UsersValid(t.users)
  }

  datatype CreateOutcome = SlugTaken | Created(project: Project, link: CollectLink) | CreateFailed

  datatype Creation = Creation(outcome: CreateOutcome, tables: Tables)

  /**
   * Four writes in a row, with no transaction around them: the project, the
   * owner membership, the default link, the caller's active project. Each
   * write can be refused by the datastore (a clash on a generated id, on the
   * link's project, or an unknown caller); the writes before it stay.
   */
  function Create(t: Tables, user: User, name: string, slug: string,
                  projectId: Id, memberId: Id, linkId: Id, d: SchemaDefaults): (r: Creation)
    requires TablesValid(t)
    ensures TablesValid(r.tables)
    ensures r.outcome == SlugTaken <==> exists k :: k in t.projects && t.projects[k].slug == slug
    ensures r.outcome == SlugTaken ==> r.tables == t
    ensures r.outcome.Created? <==>
              && !(exists k :: k in t.projects && t.projects[k].slug == slug)
              && projectId !in t.projects && memberId !in t.members
              && linkId !in t.links && LinkOfProject(t.links, projectId).None?
              && user.id in t.users
    ensures r.outcome == CreateFailed && projectId in t.projects ==> r.tables == t
    ensures r.outcome == CreateFailed && projectId !in t.projects ==>
              && r.tables.projects
                 == t.projects[projectId := Project(projectId, name, slug, Some(user.id), d.projectOrganizationId)]
              && r == AfterProject(t.(projects := r.tables.projects), user,
                                   Project(projectId, name, slug, Some(user.id), d.projectOrganizationId),
                                   memberId, linkId)
    ensures r.outcome.Created? ==>
              var p := r.outcome.project;
              var l := r.outcome.link;
              && p == Project(projectId, name, slug, Some(user.id), d.projectOrganizationId)
              && projectId !in t.projects && r.tables.projects == t.projects[projectId := p]
              && memberId !in t.members
              && r.tables.members == t.members[memberId := Member(memberId, user.id, projectId, OWNER)]
              && l == CollectLink(linkId, projectId, slug, false, THANK_YOU)
              && r.tables.links == t.links[linkId := l]
              && user.id in t.users
              && r.tables.users == t.users[user.id := t.users[user.id].(activeProjectId := Some(projectId))]
  {
    if ProjectBySlug(t.projects, slug).Some? then Creation(SlugTaken, t)
    else if projectId in t.projects then Creation(CreateFailed, t)
    else
      var p := Project(projectId, name, slug, Some(user.id), d.projectOrganizationId);
      AfterProject(t.(projects := t.projects[projectId := p]), user, p, memberId, linkId)
  }

  /** The three writes that follow the project's: membership, link, active project. */
  function AfterProject(t: Tables, user: User, p: Project, memberId: Id, linkId: Id): (r: Creation)
    requires TablesValid(t)
    ensures TablesValid(r.tables)
    ensures r.outcome != SlugTaken && r.tables.projects == t.projects
    ensures r.outcome.Created? <==>
              memberId !in t.members && linkId !in t.links && LinkOfProject(t.links, p.id).None? && user.id in t.users
    ensures memberId in t.members ==> r == Creation(CreateFailed, t)
    ensures memberId !in t.members && (linkId in t.links || LinkOfProject(t.links, p.id).Some?) ==>
              && r.outcome == CreateFailed
              && r.tables == t.(members := t.members[memberId := Member(memberId, user.id, p.id, OWNER)])
    ensures memberId !in t.members && linkId !in t.links && LinkOfProject(t.links, p.id).None? && user.id !in t.users ==>
              && r.outcome == CreateFailed
              && r.tables == t.(members := t.members[memberId := Member(memberId, user.id, p.id, OWNER)],
                                links := t.links[linkId := CollectLink(linkId, p.id, p.slug, false, THANK_YOU)])
    ensures r.outcome.Created? ==>
              var l := r.outcome.link;
              && r.outcome.project == p
              && memberId !in t.members
              && r.tables.members == t.members[memberId := Member(memberId, user.id, p.id, OWNER)]
              && l == CollectLink(linkId, p.id, p.slug, false, THANK_YOU)
              && r.tables.links == t.links[linkId := l]
              && user.id in t.users
              && r.tables.users == t.users[user.id := t.users[user.id].(activeProjectId := Some(p.id))]
  {
    if memberId in t.members then Creation(CreateFailed, t)
    else
      var t1 := t.(members := t.members[memberId := Member(memberId, user.id, p.id, OWNER)]);
      if linkId in t.links || LinkOfProject(t.links, p.id).Some? then Creation(CreateFailed, t1)
      else
        var l := CollectLink(linkId, p.id, p.slug, false, THANK_YOU);
        var t2 := t1.(links := t.links[linkId := l]);
        if user.id !in t.users then Creation(CreateFailed, t2)
        else Creation(Created(p, l), t2.(users := t.users[user.id := t.users[user.id].(activeProjectId := Some(p.id))]))
  }

  /** After a creation the caller owns the new project, is its member, and sees it among their projects. */
  lemma CreatedIsVisible(t: Tables, user: User, name: string, slug: string,
                         projectId: Id, memberId: Id, linkId: Id, d: SchemaDefaults)
    requires TablesValid(t)
    requires Create(t, user, name, slug, projectId, memberId, linkId, d).outcome.Created?
    ensures var r := Create(t, user, name, slug, projectId, memberId, linkId, d);
            && r.tables.projects[projectId] in r.tables.projects.Values
            && VisibleTo(r.tables.members, user.id, r.tables.projects[projectId])
            && r.tables.users[user.id].activeProjectId == Some(projectId)
            && LinkOfProject(r.tables.links, projectId) == Some(r.outcome.link)
  {
    var r := Create(t, user, name, slug, projectId, memberId, linkId, d);
    assert r.tables.links[linkId] == r.outcome.link;
  }

  /** A slug once taken stays unique: a second creation with the same slug is refused. */
  lemma SlugStaysUnique(t: Tables, user: User, name: string, slug: string, projectId: Id, memberId: Id, linkId: Id,
                        d: SchemaDefaults, user': User, name': string, projectId': Id, memberId': Id, linkId': Id)
    requires TablesValid(t)
    requires Create(t, user, name, slug, projectId, memberId, linkId, d).outcome.Created?
    ensures var r := Create(t, user, name, slug, projectId, memberId, linkId, d);
            Create(r.tables, user', name', slug, projectId', memberId', linkId', d).outcome == SlugTaken
  {
    var r := Create(t, user, name, slug, projectId, memberId, linkId, d);
    assert r.tables.projects[projectId].slug == slug;
  }

  /** The result of `create` as the procedure returns it. */
  datatype CreateReply = CreateReply(reply: Reply, project: Option<Project>, link: Option<CollectLink>)

  method CreateProject(db: Db, user: User, name: string, slug: string, projectId: Id, memberId: Id, linkId: Id)
    returns (r: Procedure<CreateReply>)
    requires db.Valid()
    modifies db`projects, db`members, db`testimonialLinks, db`users
    ensures db.Valid()
    ensures NameSlugErrors(name, slug) != {} ==>
              && r == Threw(InvalidInput(NameSlugErrors(name, slug)))
              && db.projects == old(db.projects) && db.members == old(db.members)
              && db.testimonialLinks == old(db.testimonialLinks) && db.users == old(db.users)
    ensures NameSlugErrors(name, slug) == {} ==>
              var c := Create(Tables(old(db.projects), old(db.members), old(db.testimonialLinks), old(db.users)),
                              user, name, slug, projectId, memberId, linkId, db.defaults);
              && Tables(db.projects, db.members, db.testimonialLinks, db.users) == c.tables
              && r == match c.outcome
                      case SlugTaken =>
                        Returned(CreateReply(Fail("Project with this slug already exists"), None, None))
                      case CreateFailed => Threw(StoreError)
                      case Created(p, l) => Returned(CreateReply(Ok(), Some(p), Some(l)))
  {
    var errs := NameSlugErrors(name, slug);
    if errs != {} {
      return Threw(InvalidInput(errs));
    }
    var existingProject := ProjectBySlug(db.projects, slug);
    if existingProject.Some? {
      return Returned(CreateReply(Fail("Project with this slug already exists"), None, None));
    }
    if projectId in db.projects {
      return Threw(StoreError);
    }
    var newProject := Project(projectId, name, slug, Some(user.id), db.defaults.projectOrganizationId);
    db.projects := db.projects[projectId := newProject];
    var outcome := AddOwnerLinkUser(db, user, newProject, memberId, linkId);
    r := match outcome
         case Created(p, l) => Returned(CreateReply(Ok(), Some(p), Some(l)))
         case _ => Threw(StoreError);
  }

  /** The membership, link and user writes of `create`, each refused write ending the chain. */
  method AddOwnerLinkUser(db: Db, user: User, p: Project, memberId: Id, linkId: Id) returns (outcome: CreateOutcome)
    requires db.Valid()
    modifies db`members, db`testimonialLinks, db`users
    ensures db.Valid()
    ensures var c := AfterProject(Tables(db.projects, old(db.members), old(db.testimonialLinks), old(db.users)),
                                  user, p, memberId, linkId);
            Tables(db.projects, db.members, db.testimonialLinks, db.users) == c.tables && outcome == c.outcome
  {
    ghost var c := AfterProject(Tables(db.projects, db.members, db.testimonialLinks, db.users), user, p, memberId, linkId);
    if memberId in db.members {
      return CreateFailed;
    }
    db.members := db.members[memberId := Member(memberId, user.id, p.id, OWNER)];
    if linkId in db.testimonialLinks || LinkOfProject(db.testimonialLinks, p.id).Some? {
      assert c.tables == Tables(db.projects, db.members, db.testimonialLinks, db.users);
      return CreateFailed;
    }
    var testimonialLink := CollectLink(linkId, p.id, p.slug, false, THANK_YOU);
    db.testimonialLinks := db.testimonialLinks[linkId := testimonialLink];
    if user.id !in db.users {
      assert c.tables == Tables(db.projects, db.members, db.testimonialLinks, db.users);
      return CreateFailed;
    }
    db.users := db.users[user.id := db.users[user.id].(activeProjectId := Some(p.id))];
    assert c.tables == Tables(db.projects, db.members, db.testimonialLinks, db.users);
    outcome := Created(p, testimonialLink);
  }

  // ----- getCollectLink -----

  /**
   * `getCollectLink`: the active project's link. Without an active project
   * the unique lookup has no key, which the datastore refuses.
   */
  method GetCollectLink(db: Db, user: User) returns (r: Procedure<Reply>, link: Option<CollectLink>)
    requires db.Valid()
    ensures user.activeProjectId.None? ==> r == Threw(StoreError) && link.None?
    ensures user.activeProjectId.Some? ==>
              && link == LinkOfProject(db.testimonialLinks, user.activeProjectId.value)
              && r == Returned(if link.Some? then OkWith("Collect link fetched successfully")
                               else Fail("No collect link found"))
  {
    link := None;
    if user.activeProjectId.None? {
      return Threw(StoreError), link;
    }
    link := LinkOfProject(db.testimonialLinks, user.activeProjectId.value);
    if link.None? {
      return Returned(Fail("No collect link found")), link;
    }
    r := Returned(OkWith("Collect link fetched successfully"));
  }
}
