/**
 * The `POST` handler of `src/app/api/spawn-agent/route.ts`: it checks the agent against the
 * five allowed names, then the task, and answers with a message that quotes the task cut
 * to fifty characters. No agent is started. The parsed body, or its failure, is a parameter.
 */
module SpawnRoute {
  import opened Strings
  import opened Requests

  /** The five agents a spawn request may name. */
  const AllowedAgents: seq<string> := ["quinn", "dex", "mantis", "echo", "hawthorne"]

  /** The 400 message lists the allowed agents, joined by a comma and a space. */
  const InvalidAgent := "Invalid agent. Must be one of: " + Join(AllowedAgents, ", ")
  const TaskRequired := "Task is required and must be a non-empty string"

  /** The request body's two fields. */
  datatype Body = Body(agent: Field, task: Field)

  /** The agent check: a string that is one of the allowed names. */
  predicate ValidAgent(f: Field) {
    f.Text? && f.value in AllowedAgents
  }

  /** How much of the task the message quotes. */
  const ShownLength := 50

  /** `task.substring(0, 50)`, followed by `...` when the task is longer. */
  function ShortTask(task: string): (r: string)
    ensures |r| <= ShownLength + 3
  {
    Prefix(task, ShownLength) + (if |task| > ShownLength then "..." else "")
  }

  /**
   * The shortened task is the whole task exactly when it has at most fifty characters, or
   * when, at fifty-three, its last three are the dots; otherwise it is the first fifty and
   * three dots.
   */
  lemma ShortTaskCases(task: string)
    ensures |task| <= ShownLength ==> ShortTask(task) == task
    ensures |task| > ShownLength ==>
      |ShortTask(task)| == ShownLength + 3 && ShortTask(task) == task[..ShownLength] + "..."
    ensures ShortTask(task) == task <==>
      |task| <= ShownLength || (|task| == ShownLength + 3 && task[ShownLength..] == "...")
  {
    if |task| > ShownLength && |task| == ShownLength + 3 && task[ShownLength..] == "..." {
      assert task == task[..ShownLength] + task[ShownLength..];
    }
  }

  /** `Agent A spawned successfully for task: T` with the task shortened. */
  function Spawned(agent: string, task: string): string {
    "Agent " + agent + " spawned successfully for task: " + ShortTask(task)
  }

  /** `POST /api/spawn-agent`: the agent is checked first, then the task. */
  function Post(body: Option<Body>): (r: Response)
    ensures r.success <==> r.status == 200
    ensures r.status == 200 <==>
      body.Some? && ValidAgent(body.value.agent) && CheckedText(body.value.task).Some?
    ensures r.status == 500 <==> body.None?
  {
    if body.None? then Response(500, false, InternalError)
    else
      var b := body.value;
      if !ValidAgent(b.agent) then Response(400, false, InvalidAgent)
      else if CheckedText(b.task).None? then Response(400, false, TaskRequired)
      else Response(200, true, Spawned(b.agent.value, b.task.value))
  }

  /** An agent that is missing, not a string or not allowed is refused whatever the task. */
  lemma AgentCheckedFirst(agent: Field, task: Field)
    requires !ValidAgent(agent)
    ensures Post(Some(Body(agent, task))) == Response(400, false, InvalidAgent)
  {
  }

  /** With a good agent, a missing, non-string or blank task is refused. */
  lemma TaskChecked(agent: Field, task: Field)
    requires ValidAgent(agent)
    ensures var r := Post(Some(Body(agent, task)));
      (r.status == 400 <==> !task.Text? || AllSpace(task.value)) &&
      (r.status == 400 ==> r.message == TaskRequired)
  {
  }

  /**
   * On success the message names the agent and quotes the task as given, untrimmed, cut to
   * fifty characters with `...` exactly when it is longer.
   */
  lemma PostQuotesTask(agent: string, task: string)
    requires agent in AllowedAgents && !AllSpace(task)
    ensures var m := Post(Some(Body(Text(agent), Text(task)))).message;
      var head := "Agent " + agent + " spawned successfully for task: ";
      m[..|head|] == head && m[|head|..] == ShortTask(task) &&
      (|task| <= ShownLength ==> m[|head|..] == task) &&
      (|task| > ShownLength ==> m[|head|..] == task[..ShownLength] + "...")
  {
    ShortTaskCases(task);
  }
}
