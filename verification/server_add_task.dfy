/**
 * The `POST` handler of `src/server-api/add-task/route.ts`: it checks the title, fills in
 * the defaults and hands the task to `addTask` of `src/lib/data.ts`, whose model is
 * `DataStore.Store.AddTask`. The tasks file, the rebuilt data, the clock and the id stamp
 * are parameters, as they are there.
 */
module ServerAddTask {
  import opened Strings
  import opened Requests
  import Types
  import DataStore

  /** The request body as parsed, or the message of the parse failure. */
  datatype Request =
    | Parsed(title: Field, section: Option<string>, priority: Option<Types.Priority>, description: Option<string>)
    | Unparsable(message: string)

  /** The JSON answer: a refusal (400), a failure (500), or the task added (200). */
  datatype Reply =
    | Refused(error: string)
    | Failed(error: string, details: string)
    | AddedOk(task: Types.Task, message: string)

  function Status(r: Reply): nat {
    match r
    case Refused(_) => 400
    case Failed(_, _) => 500
    case AddedOk(_, _) => 200
  }

  const TitleRequired := "Title is required"
  const AddFailed := "Failed to add task"

  /** The message of the error `trim` throws on a title that is not a string. */
  const NotTrimmable := "title.trim is not a function"

  /** The message of the error `addTask` throws when the tasks file is missing. */
  const TasksFileNotFound := "active-tasks.md not found"

  /**
   * `!title || title.trim() === ''`: a falsy title (absent, `null`, `false`, `0`, empty) or a
   * blank one; a truthy title that is not a string makes `trim` throw instead.
   */
  predicate TitleRefused(title: Field) {
    Falsy(title) || (title.Text? && AllSpace(title.value))
  }

  /** The task given to `addTask`: the trimmed title, then `To Do`, `medium`, `''` and `todo` by default. */
  function TaskOf(title: string, section: Option<string>, priority: Option<Types.Priority>,
                  description: Option<string>): (t: DataStore.NewTask)
    ensures t.title == Trim(title) && t.status == Types.Todo && t.agent.None?
    ensures DataStore.SectionOf(t) == t.section
    ensures t.priority.Some? && (priority.Some? ==> t.priority == priority)
    ensures t.description.Some?
  {
    DataStore.NewTask(Trim(title), Types.Todo, None,
      if priority.Some? then priority else Some(Types.Medium),
      Some(OrDefault(description, "")), OrDefault(section, "To Do"))
  }

  /**
   * Every task the route adds carries a priority tag, ` [MEDIUM]` when none was asked for,
   * and lands in `To Do` when no section was given.
   */
  lemma DefaultsTagged(title: string, description: Option<string>)
    ensures var t := TaskOf(title, None, None, description);
      DataStore.PriorityTag(t.priority) == " [MEDIUM]" && DataStore.SectionOf(t) == "To Do"
  {
  }

  /** The task line always holds the trimmed title in bold, then a priority tag. */
  lemma EntryTagged(title: string, section: Option<string>, priority: Option<Types.Priority>, description: Option<string>)
    ensures var t := TaskOf(title, section, priority, description);
      var head := "- [ ] **" + Trim(title) + "**";
      var e := DataStore.TaskEntry(t);
      |e| > |head| && e[..|head|] == head && e[|head|] == ' ' &&
      DataStore.PriorityTag(t.priority) != []
  {
    var t := TaskOf(title, section, priority, description);
    var head := "- [ ] **" + Trim(title) + "**";
    var tag := DataStore.PriorityTag(t.priority);
    assert t.title == Trim(title) && tag != [] && tag[0] == ' ';
    var s1 := head + tag;
    var s2 := s1 + DataStore.AgentTag(t.agent);
    var s3 := s2 + DataStore.DescriptionTag(t.description);
    assert DataStore.TaskEntry(t) == s3 + DataStore.EscapedNewline;
    HeadThen(head, tag);
    PrefixKept(s1, DataStore.AgentTag(t.agent), |head|);
    PrefixKept(s2, DataStore.DescriptionTag(t.description), |head|);
    PrefixKept(s3, DataStore.EscapedNewline, |head|);
  }

  /** A text put in front of a non-empty one is its prefix, and the other starts right after it. */
  lemma HeadThen(head: string, x: string)
    requires x != []
    ensures |head + x| > |head| && (head + x)[..|head|] == head && (head + x)[|head|] == x[0]
  {
  }

  /** Appending keeps the first `k + 1` characters. */
  lemma PrefixKept(s: string, x: string, k: nat)
    requires k < |s|
    ensures |s + x| > k && (s + x)[..k] == s[..k] && (s + x)[k] == s[k]
  {
  }

  /**
   * `POST`: a missing or blank title is refused, a title that is not a string makes `trim`
   * throw; otherwise the task is added and echoed, with the title as given in the message,
   * and the text `addTask` writes to the tasks file is returned beside the reply.
   */
  method Post(store: DataStore.Store, body: Request, file: Option<string>, built: Types.MissionControlData,
              later: int, stamp: nat) returns (r: Reply, written: Option<string>)
    modifies store
    ensures Status(r) == 400 <==> body.Parsed? && TitleRefused(body.title)
    ensures Status(r) == 200 <==> body.Parsed? && body.title.Text? && !AllSpace(body.title.value) && file.Some?
    ensures r.AddedOk? ==>
      var t := TaskOf(body.title.value, body.section, body.priority, body.description);
      r.task == DataStore.ReturnedTask(built, t, stamp) &&
      r.message == "Task \"" + body.title.value + "\" added successfully" &&
      written == Some(DataStore.AddedText(file.value, t)) &&
      store.State() == DataStore.CacheState(Some(built), later)
    ensures !r.AddedOk? ==> written.None? && store.State() == old(store.State())
    ensures r.Failed? && body.Parsed? && body.title.Text? ==> r.details == TasksFileNotFound
    ensures body.Parsed? && body.title.TruthyValue? ==> r == Failed(AddFailed, NotTrimmable)
  {
    written := None;
    if body.Unparsable? {
      return Failed(AddFailed, body.message), None;
    }
    if TitleRefused(body.title) {
      return Refused(TitleRequired), None;
    }
    if body.title.TruthyValue? {
      return Failed(AddFailed, NotTrimmable), None;
    }
    var task := TaskOf(body.title.value, body.section, body.priority, body.description);
    var added := store.AddTask(file, task, built, later, stamp);
    if added.TasksFileMissing? {
      return Failed(AddFailed, TasksFileNotFound), None;
    }
    r := AddedOk(added.task, "Task \"" + body.title.value + "\" added successfully");
    written := Some(added.written);
  }
}
