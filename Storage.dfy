/** The browser's key-value store as the application uses it: one record or
    list per key, each read and written whole. The JSON encoding is not
    modelled: an entry holds the value that was serialised. */
module Storage {
  import opened Common
  import opened Entities

  datatype Entry =
    | UserEntry(user: User)
    | ProjectsEntry(projects: seq<Project>)
    | TasksEntry(tasks: seq<Task>)
    | MessagesEntry(messages: seq<Message>)

  const MockUserKey: string := "mockUser"
  const ProjectsKey: string := "projects"

  /** `tasks-<projectId>` */
  function TasksKey(projectId: string): (k: string)
    ensures |k| == 6 + |projectId| && k[..6] == "tasks-" && k[6..] == projectId
  {
    "tasks-" + projectId
  }

  /** `messages-<projectId>` */
  function MessagesKey(projectId: string): (k: string)
    ensures |k| == 9 + |projectId| && k[..9] == "messages-" && k[9..] == projectId
  {
    "messages-" + projectId
  }

  /** The four kinds of key never collide, and one project's task or message
      key is never another project's. */
  lemma KeysDistinct(a: string, b: string)
    ensures TasksKey(a) != MessagesKey(b)
    ensures TasksKey(a) != MockUserKey && TasksKey(a) != ProjectsKey
    ensures MessagesKey(a) != MockUserKey && MessagesKey(a) != ProjectsKey
    ensures MockUserKey != ProjectsKey
    ensures TasksKey(a) == TasksKey(b) <==> a == b
    ensures MessagesKey(a) == MessagesKey(b) <==> a == b
  {
    assert TasksKey(a)[0] == 't' && MessagesKey(b)[0] == 'm';
    assert MessagesKey(a)[1] == 'e' && MockUserKey[1] == 'o';
  }

  /** The user saved under `mockUser`, if any. */
  function SavedUser(entries: map<string, Entry>): Option<User> {
    if MockUserKey in entries && entries[MockUserKey].UserEntry? then Some(entries[MockUserKey].user)
    else None
  }

  /** The list saved under `key` when it is a task list, otherwise none:
      what `localStorage.getItem(key)` followed by `JSON.parse` yields, with
      a missing entry read as the empty list. */
  function SavedTasks(entries: map<string, Entry>, projectId: string): seq<Task> {
    var key := TasksKey(projectId);
    if key in entries && entries[key].TasksEntry? then entries[key].tasks else []
  }

  function SavedProjects(entries: map<string, Entry>): seq<Project> {
    if ProjectsKey in entries && entries[ProjectsKey].ProjectsEntry? then entries[ProjectsKey].projects
    else []
  }

  function SavedMessages(entries: map<string, Entry>, projectId: string): seq<Message> {
    var key := MessagesKey(projectId);
    if key in entries && entries[key].MessagesEntry? then entries[key].messages else []
  }

  /** `window.localStorage`, shared by every component. */
  class LocalStore {
    var entries: map<string, Entry>

    constructor (initial: map<string, Entry>)
      ensures entries == initial
    {
      entries := initial;
    }

    /** `setItem(key, JSON.stringify(value))` */
    method SetItem(key: string, value: Entry)
      modifies this
      ensures entries == old(entries)[key := value]
    {
      entries := entries[key := value];
    }

    /** `removeItem(key)` */
    method RemoveItem(key: string)
      modifies this
      ensures entries == old(entries) - {key}
    {
      entries := entries - {key};
    }
  }
}
