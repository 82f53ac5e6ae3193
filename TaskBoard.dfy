/** The task board of one project: the project's task list, the three
    mutations the board applies to it (create, change status, delete), each
    written back whole to `tasks-<projectId>`, and the search / priority /
    status filter that decides which tasks the four status columns show. */
module TaskBoard {
  import opened Common
  import opened Entities
  import opened Storage

  // ---------------------------------------------------------------------
  // The whole-list mutations

  /** `tasks.map(t => t.id === id ? { ...t, status } : t)` */
  function WithStatus(tasks: seq<Task>, id: string, status: Status): (r: seq<Task>)
    ensures |r| == |tasks|
    ensures forall i :: 0 <= i < |tasks| ==> r[i].(status := tasks[i].status) == tasks[i]
    ensures forall i :: 0 <= i < |tasks| ==>
              r[i].status == if tasks[i].id == id then status else tasks[i].status
  {
    if tasks == [] then []
    else
      var t := tasks[0];
      [if t.id == id then t.(status := status) else t] + WithStatus(tasks[1..], id, status)
  }

  /** `tasks.filter(t => t.id !== id)` */
  function WithoutTask(tasks: seq<Task>, id: string): (r: seq<Task>)
    ensures IsSubsequence(r, tasks)
    ensures forall t :: t in r <==> t in tasks && t.id != id
    ensures forall x :: multiset(r)[x] == if x.id != id then multiset(tasks)[x] else 0
  {
    Filter(tasks, (t: Task) => t.id != id)
  }

  /** How many tasks carry the id `id` (ids are random, so this is normally
      zero or one). */
  function CountId(tasks: seq<Task>, id: string): nat {
    Count(tasks, (t: Task) => t.id == id)
  }

  /** Deleting drops exactly the tasks with that id: the list shrinks by
      their number, and an id no task has leaves the list as it was. */
  lemma {:induction false} DeleteAccounting(tasks: seq<Task>, id: string)
    ensures |WithoutTask(tasks, id)| == |tasks| - CountId(tasks, id)
    ensures CountId(tasks, id) == 0 ==> WithoutTask(tasks, id) == tasks
  {
    if tasks != [] {
      DeleteAccounting(tasks[1..], id);
    }
  }

  /** After a status change every task with that id sits in the column of
      the new status and in no other column. */
  lemma StatusChangeMovesColumn(tasks: seq<Task>, id: string, status: Status)
    ensures forall t :: t in tasks && t.id == id ==> t.(status := status) in OfStatus(WithStatus(tasks, id, status), status)
    ensures forall t, s :: t in OfStatus(WithStatus(tasks, id, status), s) && t.id == id ==> s == status
  {
    ChangedTasksJoinColumn(tasks, id, status);
    ChangedTasksLeaveOtherColumns(tasks, id, status);
  }

  lemma ChangedTasksJoinColumn(tasks: seq<Task>, id: string, status: Status)
    ensures forall t :: t in tasks && t.id == id ==> t.(status := status) in OfStatus(WithStatus(tasks, id, status), status)
  {
    var r := WithStatus(tasks, id, status);
    forall t | t in tasks && t.id == id
      ensures t.(status := status) in OfStatus(r, status)
    {
      var i :| 0 <= i < |tasks| && tasks[i] == t;
      assert r[i] == t.(status := status);
    }
  }

  lemma ChangedTasksLeaveOtherColumns(tasks: seq<Task>, id: string, status: Status)
    ensures forall t, s :: t in OfStatus(WithStatus(tasks, id, status), s) && t.id == id ==> s == status
  {
    var r := WithStatus(tasks, id, status);
    forall t, s | t in OfStatus(r, s) && t.id == id
      ensures s == status
    {
      assert t in r && t.status == s;
      var i :| 0 <= i < |r| && r[i] == t;
      assert r[i].(status := tasks[i].status) == tasks[i];
    }
  }

  // ---------------------------------------------------------------------
  // The filter

  /** `!filter || value === filter`: an unset (`null`) or empty filter
      accepts every value. */
  predicate FilterAccepts(filter: Option<string>, value: string) {
    !Truthy(filter) || value == filter.value
  }

  /** The lower-cased title contains the lower-cased query, or the task has a
      description whose lower-cased form does. */
  predicate MatchesSearch(t: Task, query: string) {
    var q := Lower(query);
    Contains(Lower(t.title), q) || (t.description.Some? && Contains(Lower(t.description.value), q))
  }

  predicate IsVisible(t: Task, query: string, priority: Option<string>, status: Option<string>) {
    && MatchesSearch(t, query)
    && FilterAccepts(priority, PriorityName(t.priority))
    && FilterAccepts(status, StatusName(t.status))
  }

  /** `filteredTasks`: the tasks that pass all three parts of the filter, in
      board order. */
  function FilteredTasks(tasks: seq<Task>, query: string, priority: Option<string>, status: Option<string>): (r: seq<Task>)
    ensures IsSubsequence(r, tasks)
    ensures forall t :: t in r <==> t in tasks && IsVisible(t, query, priority, status)
    ensures forall x :: multiset(r)[x] == if IsVisible(x, query, priority, status) then multiset(tasks)[x] else 0
  {
    Filter(tasks, (t: Task) => IsVisible(t, query, priority, status))
  }

  /** With no query and neither filter set, the board shows every task. */
  lemma NoFilterShowsAll(tasks: seq<Task>, priority: Option<string>, status: Option<string>)
    requires !Truthy(priority) && !Truthy(status)
    ensures FilteredTasks(tasks, "", priority, status) == tasks
  {
    forall t | t in tasks ensures IsVisible(t, "", priority, status) {
      EmptyQueryMatches(t);
    }
    FilterAll(tasks, (t: Task) => IsVisible(t, "", priority, status));
  }

  /** The empty query matches every task. */
  lemma EmptyQueryMatches(t: Task)
    ensures MatchesSearch(t, "")
  {
    assert OccursAt(Lower(t.title), Lower(""), 0);
  }

  /** Choosing a status, with no query and no priority, shows exactly the
      tasks of that status: the status's column. */
  lemma StatusFilterSelectsColumn(tasks: seq<Task>, st: Status)
    ensures FilteredTasks(tasks, "", None, Some(StatusName(st))) == OfStatus(tasks, st)
  {
    var visible := (t: Task) => IsVisible(t, "", None, Some(StatusName(st)));
    var ofStatus := (t: Task) => t.status == st;
    forall t | t in tasks ensures visible(t) == ofStatus(t) {
      EmptyQueryMatches(t);
      StatusNamesDistinct(t.status, st);
    }
    FilterSame(tasks, visible, ofStatus);
  }

  /** Choosing a priority, with no query and no status, shows exactly the
      tasks of that priority, in board order. */
  lemma PriorityFilterSelects(tasks: seq<Task>, pr: Priority)
    ensures FilteredTasks(tasks, "", Some(PriorityName(pr)), None)
         == Filter(tasks, (t: Task) => t.priority == pr)
  {
    var visible := (t: Task) => IsVisible(t, "", Some(PriorityName(pr)), None);
    var ofPriority := (t: Task) => t.priority == pr;
    forall t | t in tasks ensures visible(t) == ofPriority(t) {
      EmptyQueryMatches(t);
      PriorityNamesDistinct(t.priority, pr);
    }
    FilterSame(tasks, visible, ofPriority);
  }

  /** A set filter whose value names no priority, or no status, hides every
      task. */
  lemma UnknownFilterHidesAll(tasks: seq<Task>, query: string, priority: Option<string>, status: Option<string>)
    requires || (Truthy(priority) && forall pr :: PriorityName(pr) != priority.value)
             || (Truthy(status) && forall st :: StatusName(st) != status.value)
    ensures FilteredTasks(tasks, query, priority, status) == []
  {
    FilterNone(tasks, (t: Task) => IsVisible(t, query, priority, status));
  }

  /** Both sides are lower-cased before comparing, so the case of the query
      does not matter: a lower-cased query shows the same tasks. */
  lemma SearchIgnoresCase(tasks: seq<Task>, query: string, priority: Option<string>, status: Option<string>)
    ensures FilteredTasks(tasks, Lower(query), priority, status) == FilteredTasks(tasks, query, priority, status)
  {
    LowerIdempotent(query);
    FilterSame(tasks, (t: Task) => IsVisible(t, Lower(query), priority, status),
               (t: Task) => IsVisible(t, query, priority, status));
  }

  /** A new task at the front of the list shows up at the front of the board
      exactly when it passes the filter; the rest of the board is unchanged. */
  lemma CreatedTaskOnBoard(t: Task, tasks: seq<Task>, query: string, priority: Option<string>, status: Option<string>)
    ensures FilteredTasks([t] + tasks, query, priority, status)
         == (if IsVisible(t, query, priority, status) then [t] else []) + FilteredTasks(tasks, query, priority, status)
  {
    assert ([t] + tasks)[0] == t && ([t] + tasks)[1..] == tasks;
  }

  /** The four columns split the visible tasks: each visible task is in the
      column of its own status and in no other, and the column sizes add up
      to the number of visible tasks. */
  lemma ColumnsPartitionVisible(tasks: seq<Task>, query: string, priority: Option<string>, status: Option<string>)
    ensures var v := FilteredTasks(tasks, query, priority, status);
            forall t, s :: t in v ==> (t in OfStatus(v, s) <==> s == t.status)
    ensures var v := FilteredTasks(tasks, query, priority, status);
            |OfStatus(v, Todo)| + |OfStatus(v, InProgress)| + |OfStatus(v, Review)| + |OfStatus(v, Done)| == |v|
  {
    StatusPartition(FilteredTasks(tasks, query, priority, status));
  }

  /** Filtering by status `done` and priority `urgent`. */
  lemma DoneAndUrgentExample(a: Task, b: Task, c: Task)
    requires a.status == Done && a.priority == Urgent
    requires b.status == Done && b.priority == Low
    requires c.status == Todo && c.priority == Urgent
    ensures FilteredTasks([a, b, c], "", Some("urgent"), Some("done")) == [a]
  {
    assert OccursAt(Lower(a.title), Lower(""), 0);
    assert IsVisible(a, "", Some("urgent"), Some("done"));
    assert !IsVisible(b, "", Some("urgent"), Some("done"));
    assert !IsVisible(c, "", Some("urgent"), Some("done"));
    var p := (t: Task) => IsVisible(t, "", Some("urgent"), Some("done"));
    assert [a, b, c][1..] == [b, c] && [b, c][1..] == [c] && [c][1..] == [];
    calc {
      Filter([a, b, c], p);
      [a] + Filter([b, c], p);
      [a] + Filter([c], p);
      [a] + Filter([], p);
    }
  }

  // ---------------------------------------------------------------------
  // The board component

  class Board {
    const projectId: string
    const store: LocalStore
    var tasks: seq<Task>
    var searchQuery: string
    var priorityFilter: Option<string>
    var statusFilter: Option<string>
    var showCreateModal: bool

    /** Mounting the board loads `tasks-<projectId>` (an absent entry leaves
        the empty list) with all filters cleared. */
    constructor (projectId: string, store: LocalStore)
      ensures this.projectId == projectId && this.store == store
      ensures tasks == SavedTasks(store.entries, projectId)
      ensures searchQuery == "" && priorityFilter == None && statusFilter == None
      ensures !showCreateModal
    {
      this.projectId := projectId;
      this.store := store;
      tasks := SavedTasks(store.entries, projectId);
      searchQuery := "";
      priorityFilter := None;
      statusFilter := None;
      showCreateModal := false;
    }

    /** The "New Task" button opens the dialog. */
    method OpenCreateModal()
      modifies this`showCreateModal
      ensures showCreateModal
    {
      showCreateModal := true;
    }

    /** The stored entry is the in-memory list, so reloading the board reads
        back the same tasks. */
    ghost predicate Persisted()
      reads this, store
    {
      && TasksKey(projectId) in store.entries
      && store.entries[TasksKey(projectId)] == TasksEntry(tasks)
      && SavedTasks(store.entries, projectId) == tasks
    }

    /** `saveTasks`: replace the list in memory and in storage. */
    method SaveTasks(updated: seq<Task>)
      modifies this`tasks, store
      ensures tasks == updated
      ensures store.entries == old(store.entries)[TasksKey(projectId) := TasksEntry(updated)]
      ensures Persisted()
    {
      tasks := updated;
      store.SetItem(TasksKey(projectId), TasksEntry(updated));
    }

    /** `handleTaskCreated`: the dialog closes and the new task goes first. */
    method HandleTaskCreated(newTask: Task)
      modifies this`tasks, this`showCreateModal, store
      ensures tasks == [newTask] + old(tasks) && !showCreateModal
      ensures store.entries == old(store.entries)[TasksKey(projectId) := TasksEntry(tasks)]
      ensures Persisted()
    {
      showCreateModal := false;
      SaveTasks([newTask] + tasks);
    }

    /** `handleStatusChange` */
    method HandleStatusChange(taskId: string, newStatus: Status)
      modifies this`tasks, store
      ensures tasks == WithStatus(old(tasks), taskId, newStatus)
      ensures store.entries == old(store.entries)[TasksKey(projectId) := TasksEntry(tasks)]
      ensures Persisted()
    {
      SaveTasks(WithStatus(tasks, taskId, newStatus));
    }

    /** `handleTaskDelete` */
    method HandleTaskDelete(taskId: string)
      modifies this`tasks, store
      ensures tasks == WithoutTask(old(tasks), taskId)
      ensures store.entries == old(store.entries)[TasksKey(projectId) := TasksEntry(tasks)]
      ensures Persisted()
    {
      SaveTasks(WithoutTask(tasks, taskId));
    }

    function VisibleTasks(): seq<Task>
      reads this
    {
      FilteredTasks(tasks, searchQuery, priorityFilter, statusFilter)
    }

    /** `hasActiveFilters` as a truth value: while it is false the board
        shows every task. */
    predicate HasActiveFilters(): (active: bool)
      reads this
      ensures !active ==> VisibleTasks() == tasks
    {
      if searchQuery != "" || Truthy(priorityFilter) || Truthy(statusFilter) then true
      else
        NoFilterShowsAll(tasks, priorityFilter, statusFilter);
        false
    }

    /** The search box's `onChange`. */
    method SetSearchQuery(query: string)
      modifies this`searchQuery
      ensures searchQuery == query
    {
      searchQuery := query;
    }

    /** The priority select: its empty option means no filter (`value || null`). */
    method SetPriorityFilter(value: string)
      modifies this`priorityFilter
      ensures priorityFilter == if value == "" then None else Some(value)
    {
      priorityFilter := if value == "" then None else Some(value);
    }

    /** The status select: its empty option means no filter (`value || null`). */
    method SetStatusFilter(value: string)
      modifies this`statusFilter
      ensures statusFilter == if value == "" then None else Some(value)
    {
      statusFilter := if value == "" then None else Some(value);
    }

    /** `handleClearFilters`: afterwards no filter is active and the board
        shows every task. */
    method HandleClearFilters()
      modifies this`searchQuery, this`priorityFilter, this`statusFilter
      ensures searchQuery == "" && priorityFilter == None && statusFilter == None
      ensures !HasActiveFilters()
      ensures VisibleTasks() == tasks
    {
      searchQuery := "";
      priorityFilter := None;
      statusFilter := None;
      NoFilterShowsAll(tasks, None, None);
    }
  }
}
