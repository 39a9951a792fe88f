/**
 * The `POST` handler of `src/server-api/spawn-agent/route.ts`: it checks that agent and
 * task are given and that the agent is allowed, escapes the task's double quotes, and runs
 * `openclaw agent run AGENT "TASK" --detach`. Running the command is outside the model:
 * its result is a parameter, and the outcome records the command that was run.
 */
module ServerSpawn {
  import opened Strings
  import opened Requests
  import opened ShellCommand
  import SpawnRoute

  /** The request body as parsed, or the message of the parse failure. */
  datatype Parsed = Parsed(agent: Field, task: Field) | Unparsable(message: string)

  /** What running the command gives: its standard output, or the error it failed with. */
  datatype Exec = Ran(stdout: string) | ExecFailed(message: string)

  /** The JSON answer: a refusal (400), a failure (500), or the started agent (200). */
  datatype Reply =
    | Refused(error: string)
    | Failed(error: string, details: string)
    | Started(agent: string, message: string, output: string)

  function Status(r: Reply): nat {
    match r
    case Refused(_) => 400
    case Failed(_, _) => 500
    case Started(_, _, _) => 200
  }

  /** The reply, and the command run, when one was. */
  datatype SpawnOutcome = SpawnOutcome(reply: Reply, command: Option<string>)

  const Required := "Agent and task are required"
  const SpawnFailed := "Failed to spawn agent"

  /** The message of the error `replace` throws on a task that is not a string. */
  const NotReplaceable := "task.replace is not a function"

  /** The command line for an agent and a task. */
  function Command(agent: string, task: string): string {
    "openclaw agent run " + agent + " \"" + EscapeQuotes(task) + "\" --detach"
  }

  /** `POST`: presence first, then the allow-list, then the escape and the run. */
  function Post(body: Parsed, exec: Exec): (o: SpawnOutcome)
    ensures o.command.Some? <==>
      body.Parsed? && SpawnRoute.ValidAgent(body.agent) && body.task.Text? && body.task.value != []
    ensures o.command.Some? ==> o.command.value == Command(body.agent.value, body.task.value)
    ensures o.reply.Started? <==> o.command.Some? && exec.Ran?
    ensures Status(o.reply) == 400 <==>
      body.Parsed? && (Falsy(body.agent) || Falsy(body.task) || !SpawnRoute.ValidAgent(body.agent))
    ensures body.Parsed? && !Falsy(body.agent) && SpawnRoute.ValidAgent(body.agent) && body.task.TruthyValue? ==>
      o.reply == Failed(SpawnFailed, NotReplaceable)
  {
    match body
    case Unparsable(message) => SpawnOutcome(Failed(SpawnFailed, message), None)
    case Parsed(agent, task) =>
      if Falsy(agent) || Falsy(task) then SpawnOutcome(Refused(Required), None)
      else if !SpawnRoute.ValidAgent(agent) then SpawnOutcome(Refused(SpawnRoute.InvalidAgent), None)
      else if task.TruthyValue? then SpawnOutcome(Failed(SpawnFailed, NotReplaceable), None)
      else
        var command := Command(agent.value, task.value);
        match exec
        case ExecFailed(message) => SpawnOutcome(Failed(SpawnFailed, message), Some(command))
        case Ran(stdout) =>
          SpawnOutcome(Started(agent.value, "Agent " + agent.value + " spawned successfully", Trim(stdout)), Some(command))
  }

  /** Unlike the app route, a task made only of spaces is run. */
  lemma BlankTaskRuns(agent: string, task: string, exec: Exec)
    requires agent in SpawnRoute.AllowedAgents && task != [] && AllSpace(task)
    ensures Post(Parsed(Text(agent), Text(task)), exec).command.Some?
  {
  }

  /** A failed run is a 500 whose details are the run's error message. */
  lemma ExecFailureDetails(agent: string, task: string, message: string)
    requires agent in SpawnRoute.AllowedAgents && task != []
    ensures Post(Parsed(Text(agent), Text(task)), ExecFailed(message)).reply == Failed(SpawnFailed, message)
  {
  }

  /** A successful run answers with the agent and its trimmed output. */
  lemma RanReply(agent: string, task: string, stdout: string)
    requires agent in SpawnRoute.AllowedAgents && task != []
    ensures var r := Post(Parsed(Text(agent), Text(task)), Ran(stdout)).reply;
      r.agent == agent && r.output == Trim(stdout) && Status(r) == 200
  {
  }

  /** Where the quoted task starts in the command: just after its opening quote. */
  function QuoteStart(agent: string): nat {
    |"openclaw agent run " + agent + " \""|
  }

  /**
   * The command is the fixed words, the agent, and the task quoted; for a task without a
   * backslash, `$` or backquote the shell reads the quoted word back as the task itself,
   * with ` --detach` after it.
   */
  lemma CommandQuotesTask(agent: string, task: string)
    requires QuoteSafe(task)
    ensures var c := Command(agent, task);
      c[..QuoteStart(agent)] == "openclaw agent run " + agent + " \"" &&
      ReadQuoted(c[QuoteStart(agent)..]) == Some(Word(task, " --detach"))
  {
    var head := "openclaw agent run " + agent + " \"";
    var c := Command(agent, task);
    assert c == head + (EscapeQuotes(task) + ['"'] + " --detach");
    assert c[|head|..] == EscapeQuotes(task) + ['"'] + " --detach";
    EscapeQuotesReadsBack(task, " --detach");
  }
}
