/** The records the application keeps: the signed-in user, projects, the
    tasks of a project and the chat messages of a project. Timestamps and
    ids are opaque strings. */
module Entities {
  import opened Common

  /** `MockUser`: `id`, `email` and `fullName` are always present, the rest
      are optional profile fields. */
  datatype User = User(
    id: string,
    email: string,
    fullName: string,
    avatar: Option<string>,
    bio: Option<string>,
    location: Option<string>,
    role: Option<string>,
    phone: Option<string>,
    timezone: Option<string>,
    department: Option<string>,
    joinDate: Option<string>,
    title: Option<string>,
    company: Option<string>,
    website: Option<string>)

  datatype Project = Project(
    id: string,
    name: string,
    description: Option<string>,
    createdAt: string,
    updatedAt: string)

  datatype Status = Todo | InProgress | Review | Done

  datatype Priority = Low | Medium | High | Urgent

  /** The string a status is stored and compared as. */
  function StatusName(s: Status): string {
    match s
    case Todo => "todo"
    case InProgress => "in_progress"
    case Review => "review"
    case Done => "done"
  }

  /** The string a priority is stored and compared as. */
  function PriorityName(p: Priority): string {
    match p
    case Low => "low"
    case Medium => "medium"
    case High => "high"
    case Urgent => "urgent"
  }

  lemma StatusNamesDistinct(a: Status, b: Status)
    ensures StatusName(a) == StatusName(b) <==> a == b
  {
  }

  lemma PriorityNamesDistinct(a: Priority, b: Priority)
    ensures PriorityName(a) == PriorityName(b) <==> a == b
  {
  }

  datatype Task = Task(
    id: string,
    title: string,
    description: Option<string>,
    status: Status,
    priority: Priority,
    dueDate: Option<string>,
    createdAt: string)

  datatype Message = Message(
    id: string,
    content: string,
    userId: string,
    displayName: string,
    createdAt: string)

  /** `tasks.filter(t => t.status === status)`: one board column, and the
      count behind each status figure of the statistics. It keeps every task
      of that status, as often as the list has it, and no other task; its
      length is the number of positions holding a task of that status. */
  function OfStatus(tasks: seq<Task>, status: Status): (r: seq<Task>)
    ensures IsSubsequence(r, tasks)
    ensures forall t :: t in r <==> t in tasks && t.status == status
    ensures forall x :: multiset(r)[x] == if x.status == status then multiset(tasks)[x] else 0
    ensures |r| == |set i | 0 <= i < |tasks| && tasks[i].status == status|
  {
    var p := (t: Task) => t.status == status;
    FilterSize(tasks, p);
    assert Positions(tasks, p) == set i | 0 <= i < |tasks| && tasks[i].status == status;
    Filter(tasks, p)
  }

  lemma OfStatusCons(t: Task, rest: seq<Task>, status: Status)
    ensures OfStatus([t] + rest, status)
         == (if t.status == status then [t] else []) + OfStatus(rest, status)
  {
    assert ([t] + rest)[0] == t && ([t] + rest)[1..] == rest;
  }

  /** A list whose tasks all have the status is its own group; a list
      with no task of the status has an empty group. */
  lemma {:induction false} OfStatusAllOrNone(tasks: seq<Task>, status: Status)
    ensures (forall t :: t in tasks ==> t.status == status) ==> OfStatus(tasks, status) == tasks
    ensures (forall t :: t in tasks ==> t.status != status) ==> OfStatus(tasks, status) == []
  {
    if tasks != [] {
      var t, rest := tasks[0], tasks[1..];
      assert tasks == [t] + rest;
      OfStatusAllOrNone(rest, status);
      OfStatusCons(t, rest, status);
    }
  }

  /** A status group is non-empty exactly when some task has the status,
      and is as long as the list exactly when every task has it. */
  lemma OfStatusSomeOrAll(tasks: seq<Task>, status: Status)
    ensures |OfStatus(tasks, status)| <= |tasks|
    ensures |OfStatus(tasks, status)| > 0 <==> exists t :: t in tasks && t.status == status
    ensures |OfStatus(tasks, status)| == |tasks| <==> forall t :: t in tasks ==> t.status == status
  {
    var group := OfStatus(tasks, status);
    SubsequenceLength(group, tasks);
    OfStatusAllOrNone(tasks, status);
    if group != [] {
      assert group[0] in group;
    }
  }

  /** Every task lies in exactly one status group: the four groups together
      hold each task exactly as often as the list does. */
  lemma {:induction false} StatusPartition(tasks: seq<Task>)
    ensures multiset(OfStatus(tasks, Todo)) + multiset(OfStatus(tasks, InProgress))
          + multiset(OfStatus(tasks, Review)) + multiset(OfStatus(tasks, Done))
         == multiset(tasks)
    ensures |OfStatus(tasks, Todo)| + |OfStatus(tasks, InProgress)|
          + |OfStatus(tasks, Review)| + |OfStatus(tasks, Done)| == |tasks|
  {
    GroupsMultiset(tasks);
    assert |multiset(tasks)| == |tasks|;
  }

  lemma GroupsMultiset(tasks: seq<Task>)
    ensures multiset(OfStatus(tasks, Todo)) + multiset(OfStatus(tasks, InProgress))
          + multiset(OfStatus(tasks, Review)) + multiset(OfStatus(tasks, Done))
         == multiset(tasks)
  {
    var groups := multiset(OfStatus(tasks, Todo)) + multiset(OfStatus(tasks, InProgress))
                + multiset(OfStatus(tasks, Review)) + multiset(OfStatus(tasks, Done));
    forall x ensures groups[x] == multiset(tasks)[x] {
    }
  }
}
