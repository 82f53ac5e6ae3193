/** The "New Project" dialog: it builds a project from the trimmed form
    fields and hands it to the dashboard, which puts it first and saves the
    list. */
module CreateProjectModal {
  import opened Common
  import opened Entities
  import opened Storage
  import Dashboard

  /** The project `handleSubmit` builds: trimmed name, a trimmed description
      or none when that is blank, and both timestamps the same instant. */
  function NewProject(id: string, name: string, description: string, now: string): (p: Project)
    ensures p.id == id && p.name == Trim(name)
    ensures p.description.None? <==> IsBlank(description)
    ensures p.description.Some? ==> p.description.value == Trim(description) && p.description.value != []
    ensures p.createdAt == now && p.updatedAt == now
  {
    var d := Trim(description);
    Project(id, Trim(name), if d == "" then None else Some(d), now, now)
  }

  /** A built project's text fields are already trimmed, and a name the
      submit button accepts gives a non-empty project name. */
  lemma NewProjectTrimmed(id: string, name: string, description: string, now: string)
    ensures var p := NewProject(id, name, description, now);
            Trim(p.name) == p.name
            && (p.description.Some? ==> Trim(p.description.value) == p.description.value)
            && (!IsBlank(name) ==> p.name != [])
  {
    TrimIdempotent(name);
    TrimIdempotent(description);
  }

  /** `disabled={loading || !name.trim()}` */
  predicate CanSubmit(name: string, loading: bool) {
    !loading && !IsBlank(name)
  }

  /** While the button is enabled, the project it would create has a
      non-blank name. */
  lemma SubmittableNameIsKept(id: string, name: string, description: string, now: string, loading: bool)
    requires CanSubmit(name, loading)
    ensures var p := NewProject(id, name, description, now);
            p.name != [] && !IsBlank(p.name)
  {
    NewProjectTrimmed(id, name, description, now);
    var n := NewProject(id, name, description, now).name;
    assert !IsWhitespace(n[0]);
  }

  class Modal {
    const dashboard: Dashboard.Dashboard
    var name: string
    var description: string
    var loading: bool
    var error: string

    constructor (dashboard: Dashboard.Dashboard)
      ensures this.dashboard == dashboard
      ensures name == "" && description == "" && !loading && error == ""
      ensures !CanSubmit(name, loading)
    {
      this.dashboard := dashboard;
      name := "";
      description := "";
      loading := false;
      error := "";
    }

    method SetName(value: string)
      modifies this`name
      ensures name == value
    {
      name := value;
    }

    method SetDescription(value: string)
      modifies this`description
      ensures description == value
    {
      description := value;
    }

    /** `handleSubmit`: with nobody signed in nothing happens; otherwise the
        error is cleared, the project is passed to the dashboard's
        `handleProjectCreated` (which closes the dialog) and loading ends.
        A blank name is not checked here; only the disabled button keeps it
        out. */
    method HandleSubmit(user: Option<User>, id: string, now: string) returns (created: Option<Project>)
      modifies this`loading, this`error, dashboard`projects, dashboard`showCreateModal, dashboard.store
      ensures user.None? ==>
                created.None? && loading == old(loading) && error == old(error)
                && dashboard.projects == old(dashboard.projects)
                && dashboard.showCreateModal == old(dashboard.showCreateModal)
                && dashboard.store.entries == old(dashboard.store.entries)
      ensures user.Some? ==>
                && created == Some(NewProject(id, old(name), old(description), now))
                && dashboard.projects == [created.value] + old(dashboard.projects)
                && !dashboard.showCreateModal
                && dashboard.store.entries
                   == old(dashboard.store.entries)[ProjectsKey := ProjectsEntry(dashboard.projects)]
                && error == "" && !loading
    {
      if user.None? {
        return None;
      }
      error := "";
      loading := true;
      var p := NewProject(id, name, description, now);
      dashboard.HandleProjectCreated(p);
      created := Some(p);
      loading := false;
    }
  }
}
