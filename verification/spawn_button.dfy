/**
 * What `src/components/SpawnAgentButton.tsx` shows and copies: the role label of an agent,
 * the collapsed button, and the command `handleGenerateCommand` puts on the clipboard.
 */
module SpawnButton {
  import opened Strings
  import Objects
  import opened ShellCommand
  import ServerSpawn

  /** The role shown for each known agent. */
  const AgentLabels: map<string, string> := map[
    "quinn" := "Code Architect",
    "dex" := "Implementer",
    "mantis" := "Research & QA",
    "echo" := "Reporter",
    "hawthorne" := "Context Pruner"
  ]

  /**
   * `agentLabels[agent] || agent`: a known agent's role; a name the object inherits (such
   * as `constructor`) gives that member, not a text; any other agent is shown as its id.
   */
  function Label(agent: string): (r: Objects.Value)
    ensures agent in AgentLabels ==> r == Objects.Str(AgentLabels[agent])
    ensures r.Member? <==> agent in Objects.InheritedNames
    ensures agent !in AgentLabels && agent !in Objects.InheritedNames ==> r == Objects.Str(agent)
  {
    assert forall a :: a in AgentLabels ==> a !in Objects.InheritedNames && AgentLabels[a] != [];
    Objects.LookupOr(AgentLabels, agent, agent)
  }

  /** Every known agent shows a role, a text that differs from its id. */
  lemma KnownLabelsDiffer(agent: string)
    requires agent in AgentLabels
    ensures Label(agent).Str? && Label(agent) != Objects.Str(agent)
  {
  }

  /** `charAt(0).toUpperCase() + slice(1)` */
  function Capitalize(s: string): (r: string)
    ensures |r| == |s|
    ensures s != [] ==> r[0] == UpperChar(s[0]) && r[1..] == s[1..]
  {
    if s == [] then [] else [UpperChar(s[0])] + s[1..]
  }

  /** Capitalizing twice is capitalizing once. */
  lemma CapitalizeIdempotent(s: string)
    ensures Capitalize(Capitalize(s)) == Capitalize(s)
  {
  }

  /** The collapsed view: `Spawn Name` on a standalone button, nothing otherwise. */
  function Collapsed(agent: string, standalone: bool): (r: Option<string>)
    ensures r.Some? <==> standalone
    ensures r.Some? ==> |r.value| == 6 + |agent| && r.value[..6] == "Spawn " && r.value[6..] == Capitalize(agent)
  {
    if standalone then Some("Spawn " + Capitalize(agent)) else None
  }

  /** `handleGenerateCommand`: nothing for a blank task, else the command without `--detach`. */
  function GenerateCommand(agent: string, task: string): (r: Option<string>)
    ensures r.None? <==> AllSpace(task)
  {
    TrimBlank(task);
    if Trim(task) == [] then None
    else Some("openclaw agent run " + agent + " \"" + EscapeQuotes(task) + "\"")
  }

  /**
   * The copied command is the one the server route runs, less its ` --detach`; the task is
   * quoted untrimmed, so its spaces are kept.
   */
  lemma GeneratedIsServerCommand(agent: string, task: string)
    requires !AllSpace(task)
    ensures ServerSpawn.Command(agent, task) == GenerateCommand(agent, task).value + " --detach"
  {
  }

  /**
   * For a task without a backslash, `$` or backquote, the shell reads the quoted word of the
   * copied command back as the task itself, surrounding spaces included.
   */
  lemma GeneratedQuotesTask(agent: string, task: string)
    requires !AllSpace(task) && QuoteSafe(task)
    ensures var c := GenerateCommand(agent, task).value;
      var head := "openclaw agent run " + agent + " \"";
      c[..|head|] == head && ReadQuoted(c[|head|..]) == Some(Word(task, []))
  {
    var head := "openclaw agent run " + agent + " \"";
    var c := GenerateCommand(agent, task).value;
    assert c == head + (EscapeQuotes(task) + ['"'] + []);
    assert c[|head|..] == EscapeQuotes(task) + ['"'] + [];
    EscapeQuotesReadsBack(task, []);
  }
}
