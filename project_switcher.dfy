/**
 * The sidebar's project switcher: which project is shown as active, the
 * trigger's label, and one menu entry per project.
 */
module ProjectSwitcher {
  import opened Wrappers
  import opened Records

  /** `projects.find(p => p.id === activeProjectId)`: the first project with that id. */
  function Find(projects: seq<Project>, activeProjectId: Option<Id>): (r: Option<Project>)
    ensures r.None? <==> forall i :: 0 <= i < |projects| ==> Some(projects[i].id) != activeProjectId
    ensures r.Some? ==> exists i :: 0 <= i < |projects| && projects[i] == r.value
                                   && Some(r.value.id) == activeProjectId
                                   && forall j :: 0 <= j < i ==> Some(projects[j].id) != activeProjectId
  {
    if projects == [] then None
    else if Some(projects[0].id) == activeProjectId then Some(projects[0])
    else
      var rest := Find(projects[1..], activeProjectId);
      assert forall i :: 1 <= i < |projects| ==> projects[1..][i - 1] == projects[i];
      rest
  }

  /** `find(...) || projects[0]`: the matching project, else the first, else none. */
  function ActiveProject(projects: seq<Project>, activeProjectId: Option<Id>): (r: Option<Project>)
    ensures r.None? <==> projects == []
    ensures Find(projects, activeProjectId).Some? ==> r == Find(projects, activeProjectId)
    ensures Find(projects, activeProjectId).None? && projects != [] ==> r == Some(projects[0])
  {
    var found := Find(projects, activeProjectId);
    if found.Some? then found
    else if projects != [] then Some(projects[0])
    else None
  }

  /** The active project is always one of the listed projects. */
  lemma ActiveIsListed(projects: seq<Project>, activeProjectId: Option<Id>)
    requires projects != []
    ensures ActiveProject(projects, activeProjectId).value in projects
  {
  }

  /** `activeProject?.name || "Select Project"`. */
  function Label(active: Option<Project>): (l: string)
    ensures active.Some? && active.value.name != "" ==> l == active.value.name
    ensures active.None? || active.value.name == "" ==> l == "Select Project"
  {
    if active.Some? && active.value.name != "" then active.value.name else "Select Project"
  }

  datatype MenuItem = MenuItem(key: Id, title: string)

  /** `projects.map(...)`: one entry per project, in list order. */
  function MenuItems(projects: seq<Project>): (items: seq<MenuItem>)
    ensures |items| == |projects|
    ensures forall i :: 0 <= i < |projects| ==> items[i] == MenuItem(projects[i].id, projects[i].name)
  {
    if projects == [] then [] else [MenuItem(projects[0].id, projects[0].name)] + MenuItems(projects[1..])
  }
}
