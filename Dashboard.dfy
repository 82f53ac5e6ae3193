/** The dashboard: the project list kept under `projects`, the tasks of all
    projects gathered for the summary figures, the choice between the list
    and one project's page, and the profile reminders in the header. */
module Dashboard {
  import opened Common
  import opened Entities
  import opened Storage

  /** The tasks of every project, project by project, in list order; a
      project without a stored task list adds none. */
  function AllTasks(projects: seq<Project>, entries: map<string, Entry>): (r: seq<Task>)
    ensures forall t :: t in r <==> exists p :: p in projects && t in SavedTasks(entries, p.id)
  {
    if projects == [] then []
    else
      var rest := AllTasks(projects[1..], entries);
      assert forall p :: p in projects[1..] ==> p in projects;
      assert forall p :: p in projects ==> p == projects[0] || p in projects[1..];
      SavedTasks(entries, projects[0].id) + rest
  }

  lemma {:induction false} AllTasksAppend(ps: seq<Project>, qs: seq<Project>, entries: map<string, Entry>)
    ensures AllTasks(ps + qs, entries) == AllTasks(ps, entries) + AllTasks(qs, entries)
  {
    if ps == [] {
      assert ps + qs == qs;
    } else {
      assert (ps + qs)[0] == ps[0] && (ps + qs)[1..] == ps[1..] + qs;
      AllTasksAppend(ps[1..], qs, entries);
    }
  }

  /** The number of tasks stored for the listed projects, project by
      project. */
  function StoredTaskCount(projects: seq<Project>, entries: map<string, Entry>): nat {
    if projects == [] then 0
    else |SavedTasks(entries, projects[0].id)| + StoredTaskCount(projects[1..], entries)
  }

  /** The gathered list is as long as all the stored lists together. */
  lemma {:induction false} AllTasksLength(ps: seq<Project>, entries: map<string, Entry>)
    ensures |AllTasks(ps, entries)| == StoredTaskCount(ps, entries)
  {
    if ps != [] {
      AllTasksLength(ps[1..], entries);
    }
  }

  /** A project with no `tasks-<id>` entry contributes nothing: leaving it
      out gives the same list. */
  lemma UnsavedProjectAddsNothing(ps: seq<Project>, i: nat, entries: map<string, Entry>)
    requires i < |ps| && TasksKey(ps[i].id) !in entries
    ensures AllTasks(ps[..i] + ps[i + 1..], entries) == AllTasks(ps, entries)
  {
    assert ps == ps[..i] + ([ps[i]] + ps[i + 1..]);
    AllTasksAppend(ps[..i], [ps[i]] + ps[i + 1..], entries);
    AllTasksAppend(ps[..i], ps[i + 1..], entries);
    assert ([ps[i]] + ps[i + 1..])[1..] == ps[i + 1..];
  }

  /** Writing an entry under any key other than a listed project's task key
      does not change the gathered tasks. */
  lemma {:induction false} AllTasksFrame(ps: seq<Project>, entries: map<string, Entry>, key: string, value: Entry)
    requires forall p :: p in ps ==> TasksKey(p.id) != key
    ensures AllTasks(ps, entries[key := value]) == AllTasks(ps, entries)
  {
    if ps != [] {
      assert ps[0] in ps;
      AllTasksFrame(ps[1..], entries, key, value);
    }
  }

  /** What the dashboard shows: one project's page or the project list. */
  datatype Page = ProjectPage(projectId: string) | ProjectListPage

  /** The header's greeting: the first word of the full name, or "User" when
      that word is empty or there is no user. */
  function HeaderName(user: Option<User>): (r: string)
    ensures r != [] && ' ' !in r
    ensures r == "User" || (user.Some? && IsFirstWord(r, user.value.fullName))
    ensures user.Some? && user.value.fullName != [] && user.value.fullName[0] != ' '
            ==> IsFirstWord(r, user.value.fullName)
  {
    if user.None? then "User"
    else
      var first := BeforeFirst(user.value.fullName, ' ');
      if first == "" then "User" else first
  }

  /** `w` is `f` up to its first space (all of `f` if it has none). */
  ghost predicate IsFirstWord(w: string, f: string) {
    |w| <= |f| && f[..|w|] == w && ' ' !in w && (|w| < |f| ==> f[|w|] == ' ')
  }

  /** `missingFields`: "full name" when the user has no full name or a blank
      one, then "profile picture" when the user has no avatar or an empty
      one; the reminder shows exactly when the list is not empty. */
  method MissingFields(user: Option<User>) returns (fields: seq<string>)
    ensures "full name" in fields <==> user.None? || IsBlank(user.value.fullName)
    ensures "profile picture" in fields <==> user.None? || !Truthy(user.value.avatar)
    ensures forall f :: f in fields ==> f == "full name" || f == "profile picture"
    ensures |fields| <= 2 && (|fields| == 2 ==> fields == ["full name", "profile picture"])
    ensures |fields| > 0 <==> user.None? || IsBlank(user.value.fullName) || !Truthy(user.value.avatar)
  {
    fields := [];
    if user.None? || user.value.fullName == "" || Trim(user.value.fullName) == "" {
      fields := fields + ["full name"];
    }
    if user.None? || !Truthy(user.value.avatar) {
      fields := fields + ["profile picture"];
    }
  }

  class Dashboard {
    const store: LocalStore
    var projects: seq<Project>
    var selectedProject: Option<string>
    var showCreateModal: bool

    /** Mounting loads the saved project list (none saved: empty list). */
    constructor (store: LocalStore)
      ensures this.store == store
      ensures projects == SavedProjects(store.entries) && selectedProject.None? && !showCreateModal
    {
      this.store := store;
      projects := SavedProjects(store.entries);
      selectedProject := None;
      showCreateModal := false;
    }

    /** The "New Project" button opens the dialog. */
    method OpenCreateModal()
      modifies this`showCreateModal
      ensures showCreateModal
    {
      showCreateModal := true;
    }

    /** `getAllTasks`: for each project in turn, append its stored tasks. */
    method GetAllTasks() returns (allTasks: seq<Task>)
      ensures allTasks == AllTasks(projects, store.entries)
    {
      allTasks := [];
      for i := 0 to |projects|
        invariant allTasks == AllTasks(projects[..i], store.entries)
      {
        var key := TasksKey(projects[i].id);
        if key in store.entries && store.entries[key].TasksEntry? {
          allTasks := allTasks + store.entries[key].tasks;
        }
        AllTasksAppend(projects[..i], [projects[i]], store.entries);
        assert projects[..i + 1] == projects[..i] + [projects[i]];
      }
      assert projects[..|projects|] == projects;
    }

    /** `saveProjects` */
    method SaveProjects(updated: seq<Project>)
      modifies this`projects, store
      ensures projects == updated
      ensures store.entries == old(store.entries)[ProjectsKey := ProjectsEntry(updated)]
      ensures SavedProjects(store.entries) == projects
    {
      projects := updated;
      store.SetItem(ProjectsKey, ProjectsEntry(updated));
    }

    /** `handleProjectCreated`: the dialog closes, the new project goes
        first and the whole list is saved; the tasks gathered over all
        projects stay what they were unless the new id already has a stored
        task list. */
    method HandleProjectCreated(newProject: Project)
      modifies this`projects, this`showCreateModal, store
      ensures projects == [newProject] + old(projects) && !showCreateModal
      ensures store.entries == old(store.entries)[ProjectsKey := ProjectsEntry(projects)]
      ensures SavedProjects(store.entries) == projects
      ensures TasksKey(newProject.id) !in old(store.entries)
              ==> AllTasks(projects, store.entries) == AllTasks(old(projects), old(store.entries))
    {
      ghost var before := store.entries;
      showCreateModal := false;
      SaveProjects([newProject] + projects);
      forall p | p in projects ensures TasksKey(p.id) != ProjectsKey {
        KeysDistinct(p.id, p.id);
      }
      AllTasksFrame(projects, before, ProjectsKey, ProjectsEntry(projects));
      assert projects[1..] == old(projects);
    }

    /** `handleProjectSelect` */
    method HandleProjectSelect(projectId: string)
      modifies this`selectedProject
      ensures selectedProject == Some(projectId)
      ensures projectId != "" ==> Shown() == ProjectPage(projectId)
    {
      selectedProject := Some(projectId);
    }

    /** `handleBackToProjects` */
    method HandleBackToProjects()
      modifies this`selectedProject
      ensures selectedProject.None? && Shown() == ProjectListPage
    {
      selectedProject := None;
    }

    /** `if (selectedProject)`: the chosen project's page, unless no
        project is chosen or its id is empty. */
    function Shown(): (p: Page)
      reads this
      ensures p.ProjectPage? <==> selectedProject.Some? && selectedProject.value != ""
      ensures p.ProjectPage? ==> p.projectId == selectedProject.value
    {
      if Truthy(selectedProject) then ProjectPage(selectedProject.value) else ProjectListPage
    }
  }
}
