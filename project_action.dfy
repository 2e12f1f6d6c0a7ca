/**
 * `createProject`, the server action behind the onboarding form: a project
 * owned by the caller or by an organisation, and its default collection link.
 */
module ProjectAction {
  import opened Wrappers
  import opened Records
  import opened Datastore
  import ProjectRouter

  /** The form fields as `FormData.get` returns them (None for a missing field). */
  datatype ProjectForm = ProjectForm(name: Option<string>, slug: Option<string>, organizationId: Option<string>)

  /** The schema: a name and a slug of 3 to 50 characters each, both present. */
  function FormErrors(form: ProjectForm): (errs: set<string>)
    ensures "name" in errs <==> form.name.None? || !(3 <= |form.name.value| <= 50)
    ensures "slug" in errs <==> form.slug.None? || !(3 <= |form.slug.value| <= 50)
    ensures errs <= {"name", "slug"}
  {
    (if form.name.Some? && 3 <= |form.name.value| <= 50 then {} else {"name"})
    + (if form.slug.Some? && 3 <= |form.slug.value| <= 50 then {} else {"slug"})
  }

  /**
   * The owner columns: an organisation's project has no owning user; a
   * personal project is the caller's and has no organisation ("" counts as none).
   */
  function Owners(callerId: Id, organizationId: Option<string>): (r: (Option<Id>, Option<Id>))
    ensures r.0.None? <==> Truthy(organizationId)
    ensures r.0.Some? ==> r.0.value == callerId
    ensures r.1 == (if Truthy(organizationId) then organizationId else None)
  {
    if Truthy(organizationId) then (None, organizationId) else (Some(callerId), None)
  }

  datatype CreateOutcome = NotSignedIn | InvalidForm(fields: set<string>) | SlugExists | CreateFailed | Created(project: Project)

  datatype Creation = Creation(outcome: CreateOutcome, projects: map<Id, Project>, links: map<Id, CollectLink>)

  /**
   * The guard chain (session, data, free slug) and two writes in a row, the
   * project and then its inactive default link; a refused link leaves the
   * project in place.
   */
  function Create(session: Option<User>, form: ProjectForm, projects: map<Id, Project>, links: map<Id, CollectLink>,
                  projectId: Id, linkId: Id): (r: Creation)
    requires ProjectsValid(projects) && LinksValid(links)
    ensures ProjectsValid(r.projects) && LinksValid(r.links)
    ensures r.outcome == NotSignedIn <==> session.None?
    ensures r.outcome.InvalidForm? <==> session.Some? && FormErrors(form) != {}
    ensures r.outcome.InvalidForm? ==> r.outcome.fields == FormErrors(form)
    ensures r.outcome == SlugExists <==>
              session.Some? && FormErrors(form) == {}
              && exists k :: k in projects && projects[k].slug == form.slug.value
    ensures r.outcome == CreateFailed <==>
              session.Some? && FormErrors(form) == {}
              && !(exists k :: k in projects && projects[k].slug == form.slug.value)
              && (projectId in projects || linkId in links || LinkOfProject(links, projectId).Some?)
    ensures r.outcome.Created? <==>
              session.Some? && FormErrors(form) == {}
              && !(exists k :: k in projects && projects[k].slug == form.slug.value)
              && projectId !in projects && linkId !in links && LinkOfProject(links, projectId).None?
    ensures r.outcome != CreateFailed && !r.outcome.Created? ==> r.projects == projects && r.links == links
    ensures r.outcome == CreateFailed && projectId in projects ==> r.projects == projects && r.links == links
    ensures r.outcome == CreateFailed && projectId !in projects ==>
              && r.projects == projects[projectId := Project(projectId, form.name.value, form.slug.value,
                                                             Owners(session.value.id, form.organizationId).0,
                                                             Owners(session.value.id, form.organizationId).1)]
              && r.links == links
    ensures r.outcome.Created? ==>
              var p := r.outcome.project;
              && p == Project(projectId, form.name.value, form.slug.value,
                              Owners(session.value.id, form.organizationId).0,
                              Owners(session.value.id, form.organizationId).1)
              && projectId !in projects && r.projects == projects[projectId := p]
              && r.links == links[linkId := CollectLink(linkId, projectId, p.slug, false, ProjectRouter.THANK_YOU)]
  {
    if session.None? then Creation(NotSignedIn, projects, links)
    else if FormErrors(form) != {} then Creation(InvalidForm(FormErrors(form)), projects, links)
    else
      var name, slug := form.name.value, form.slug.value;
      if ProjectBySlug(projects, slug).Some? then Creation(SlugExists, projects, links)
      else if projectId in projects then Creation(CreateFailed, projects, links)
      else
        var owners := Owners(session.value.id, form.organizationId);
        var p := Project(projectId, name, slug, owners.0, owners.1);
        if linkId in links || LinkOfProject(links, projectId).Some? then
          Creation(CreateFailed, projects[projectId := p], links)
        else
          Creation(Created(p), projects[projectId := p],
                   links[linkId := CollectLink(linkId, projectId, slug, false, ProjectRouter.THANK_YOU)])
  }

  /** A created project's default link carries its slug and starts inactive. */
  lemma DefaultLinkInactive(session: Option<User>, form: ProjectForm, projects: map<Id, Project>,
                            links: map<Id, CollectLink>, projectId: Id, linkId: Id)
    requires ProjectsValid(projects) && LinksValid(links)
    requires Create(session, form, projects, links, projectId, linkId).outcome.Created?
    ensures var r := Create(session, form, projects, links, projectId, linkId);
            var l := LinkOfProject(r.links, projectId);
            l.Some? && l.value.slug == r.outcome.project.slug && !l.value.isActive
  {
    var r := Create(session, form, projects, links, projectId, linkId);
    assert r.links[linkId].projectId == projectId;
  }

  function CreateReply(o: CreateOutcome): (r: Reply)
    ensures r.success <==> o.Created?
  {
    match o
    case NotSignedIn => Fail("Unauthorized")
    case InvalidForm(fields) => InvalidData(fields)
    case SlugExists => Fail("Slug already exists")
    case CreateFailed => Fail("Failed to create project")
    case Created(_) => Ok()
  }

  /** `createProject`; the created project is handed back beside the reply. */
  method CreateProject(db: Db, session: Option<User>, form: ProjectForm, projectId: Id, linkId: Id)
    returns (r: Reply, project: Option<Project>)
    requires db.Valid()
    modifies db`projects, db`testimonialLinks
    ensures db.Valid()
    ensures var c := Create(session, form, old(db.projects), old(db.testimonialLinks), projectId, linkId);
            && db.projects == c.projects && db.testimonialLinks == c.links
            && r == CreateReply(c.outcome)
            && project == (if c.outcome.Created? then Some(c.outcome.project) else None)
  {
    project := None;
    if session.None? {
      return Fail("Unauthorized"), project;
    }
    var errs := FormErrors(form);
    if errs != {} {
      return InvalidData(errs), project;
    }
    ghost var c := Create(session, form, db.projects, db.testimonialLinks, projectId, linkId);
    var name, slug := form.name.value, form.slug.value;
    var existingProject := ProjectBySlug(db.projects, slug);
    if existingProject.Some? {
      return Fail("Slug already exists"), project;
    }
    if projectId in db.projects {
      return Fail("Failed to create project"), project;
    }
    var organizationId := form.organizationId;
    var created := Project(projectId, name, slug,
                           if Truthy(organizationId) then None else Some(session.value.id),
                           if Truthy(organizationId) then organizationId else None);
    db.projects := db.projects[projectId := created];
    assert db.projects == c.projects;
    var linked := AddDefaultLink(db, created, linkId);
    if !linked {
      return Fail("Failed to create project"), project;
    }
    project := Some(created);
    r := Ok();
  }

  /** The default link's insert; a clash on its id or on its project refuses the write. */
  method AddDefaultLink(db: Db, p: Project, linkId: Id) returns (linked: bool)
    requires db.Valid()
    modifies db`testimonialLinks
    ensures db.Valid()
    ensures linked <==> linkId !in old(db.testimonialLinks) && LinkOfProject(old(db.testimonialLinks), p.id).None?
    ensures linked ==>
              db.testimonialLinks == old(db.testimonialLinks)[linkId := CollectLink(linkId, p.id, p.slug, false,
                                                                                    ProjectRouter.THANK_YOU)]
    ensures !linked ==> db.testimonialLinks == old(db.testimonialLinks)
  {
    if linkId in db.testimonialLinks || LinkOfProject(db.testimonialLinks, p.id).Some? {
      return false;
    }
    db.testimonialLinks := db.testimonialLinks[linkId := CollectLink(linkId, p.id, p.slug, false,
                                                                     ProjectRouter.THANK_YOU)];
    linked := true;
  }
}
