/**
 * `loadAgentData` (src/lib/parser.ts): the roster from AGENTS.md, then the
 * SOUL.md persona of each of five fixed agent directories merged into it.
 * The file system is a parameter: `roster` is AGENTS.md when it exists and
 * `souls` maps a directory name to its SOUL.md when that file exists.
 */
module AgentLoad {
  import opened Strings
  import opened Types
  import opened Seqs
  import opened Records

  /** The agent directories whose SOUL.md is read, in order. */
  const AgentDirs: seq<string> := ["quinn", "dex", "mantis", "echo", "hawthorne"]

  /** The directory-to-id table; none of its four renamings applies to a listed directory. */
  function SoulAgentId(dir: string): (id: string)
    ensures dir !in {"qwen-coder", "qwen-implementer", "phi-reporter", "pruner"} ==> id == dir
  {
    if dir == "qwen-coder" then "quinn"
    else if dir == "qwen-implementer" then "dex"
    else if dir == "phi-reporter" then "echo"
    else if dir == "pruner" then "hawthorne"
    else dir
  }

  /** Every listed directory is its own agent id, and the five ids are different. */
  lemma AgentDirIds()
    ensures forall k :: 0 <= k < |AgentDirs| ==> SoulAgentId(AgentDirs[k]) == AgentDirs[k]
    ensures forall j, k :: 0 <= j < k < |AgentDirs| ==> AgentDirs[j] != AgentDirs[k]
  {
  }

  /** `charAt(0).toUpperCase() + slice(1)` */
  function Capitalize(s: string): (r: string)
    ensures |r| == |s|
    ensures s != [] ==> r[0] == UpperChar(s[0]) && r[1..] == s[1..]
  {
    if s == [] then [] else [UpperChar(s[0])] + s[1..]
  }

  /** `agents.find(a => a.id === agentId)`, as a position. */
  function FindAgent(agents: seq<Agent>, id: string): (k: Option<nat>)
    ensures k.Some? ==> k.value < |agents| && agents[k.value].id == id
    ensures k.Some? ==> forall j :: 0 <= j < k.value ==> agents[j].id != id
    ensures k.None? ==> forall j :: 0 <= j < |agents| ==> agents[j].id != id
    decreases |agents|
  {
    if agents == [] then None
    else if agents[0].id == id then Some(0)
    else
      match FindAgent(agents[1..], id)
      case None => None
      case Some(j) => Some(j + 1)
  }

  /** The entry created for a persona whose agent is not in the roster. */
  function NewSubagent(id: string, soul: AgentSoul): (a: Agent)
    ensures a.id == id && a.name == Capitalize(id) && a.soul == Some(soul)
    ensures a.role == "Subagent" && a.model == "unknown" && a.status == Idle
  {
    Agent(id := id, name := Capitalize(id), role := "Subagent", model := "unknown",
      responsibility := "See SOUL.md", status := Idle, temperature := None, soul := Some(soul))
  }

  /** The persona goes to the first agent with the id, or to a new entry at the end. */
  function AttachSoul(agents: seq<Agent>, id: string, soul: AgentSoul): seq<Agent> {
    match FindAgent(agents, id)
    case Some(k) => agents[k := agents[k].(soul := Some(soul))]
    case None => agents + [NewSubagent(id, soul)]
  }

  /**
   * After the merge the first agent with the id carries the persona; it is the
   * agent that had the id before, or a new last entry when there was none. Every
   * other agent is unchanged, and the list grows by at most one.
   */
  lemma AttachSoulMeaning(agents: seq<Agent>, id: string, soul: AgentSoul)
    ensures var r := AttachSoul(agents, id, soul);
      FindAgent(r, id).Some? && r[FindAgent(r, id).value].soul == Some(soul) &&
      r[FindAgent(r, id).value].id == id &&
      (FindAgent(agents, id).Some? ==>
        FindAgent(r, id) == FindAgent(agents, id) && |r| == |agents| &&
        r[FindAgent(r, id).value] == agents[FindAgent(r, id).value].(soul := Some(soul))) &&
      (FindAgent(agents, id).None? ==>
        FindAgent(r, id) == Some(|agents|) && |r| == |agents| + 1 && r[|agents|] == NewSubagent(id, soul)) &&
      forall j :: 0 <= j < |agents| && Some(j) != FindAgent(r, id) ==> r[j] == agents[j]
  {
    var r := AttachSoul(agents, id, soul);
    match FindAgent(agents, id)
    case Some(k) =>
      FindAgentOfIds(agents, r, id);
    case None =>
      FindAgentAppend(agents, NewSubagent(id, soul), id);
  }

  /** Two lists with the same ids at every position find the same agent. */
  lemma FindAgentOfIds(a: seq<Agent>, b: seq<Agent>, id: string)
    requires |a| == |b| && forall j :: 0 <= j < |a| ==> a[j].id == b[j].id
    ensures FindAgent(a, id) == FindAgent(b, id)
  {
    var fa, fb := FindAgent(a, id), FindAgent(b, id);
    if fa.Some? && fb.Some? {
      assert !(fa.value < fb.value) && !(fb.value < fa.value);
    }
  }

  /** Appending an agent changes the search only when no earlier agent has the id. */
  lemma {:induction false} FindAgentAppend(a: seq<Agent>, x: Agent, id: string)
    ensures FindAgent(a, id).Some? ==> FindAgent(a + [x], id) == FindAgent(a, id)
    ensures FindAgent(a, id).None? ==> FindAgent(a + [x], id) == if x.id == id then Some(|a|) else None
    decreases |a|
  {
    if a == [] {
      assert [] + [x] == [x];
      assert [x][1..] == [];
    } else {
      var b := a + [x];
      assert b[0] == a[0];
      assert b[1..] == a[1..] + [x];
      FindAgentAppend(a[1..], x, id);
    }
  }

  /** The persona of every directory whose SOUL.md exists. */
  function Personas(files: map<string, string>): (personas: map<string, AgentSoul>)
    ensures personas.Keys == files.Keys
  {
    map d | d in files :: ParseAgentSoul(files[d])
  }

  /** One directory: its persona is merged when its SOUL.md exists. */
  function MergeDir(agents: seq<Agent>, dir: string, personas: map<string, AgentSoul>): seq<Agent> {
    if dir in personas then AttachSoul(agents, SoulAgentId(dir), personas[dir]) else agents
  }

  /** The directories `dirs`, merged in order. */
  function MergeDirs(agents: seq<Agent>, dirs: seq<string>, personas: map<string, AgentSoul>): seq<Agent>
    decreases |dirs|
  {
    if dirs == [] then agents
    else MergeDir(MergeDirs(agents, dirs[..|dirs| - 1], personas), dirs[|dirs| - 1], personas)
  }

  /** What `loadAgentData` returns. */
  function LoadAgents(roster: Option<string>, files: map<string, string>): seq<Agent> {
    var base := if roster.Some? then Agents(roster.value) else [];
    MergeDirs(base, AgentDirs, Personas(files))
  }

  /** `loadAgentData` */
  method LoadAgentData(roster: Option<string>, files: map<string, string>) returns (agents: seq<Agent>)
    ensures agents == LoadAgents(roster, files)
  {
    agents := [];
    if roster.Some? {
      agents := Agents(roster.value);
    }
    agents := MergeSoulFiles(agents, AgentDirs, files);
  }

  /** The loop over the agent directories. */
  method MergeSoulFiles(base: seq<Agent>, dirs: seq<string>, files: map<string, string>) returns (agents: seq<Agent>)
    ensures agents == MergeDirs(base, dirs, Personas(files))
  {
    agents := base;
    var i := 0;
    while i < |dirs|
      invariant 0 <= i <= |dirs|
      invariant agents == MergeDirs(base, dirs[..i], Personas(files))
    {
      MergeDirsStep(base, dirs, i, Personas(files));
      agents := MergeSoulFile(agents, dirs[i], files);
      i := i + 1;
    }
    TakeAll(dirs);
  }

  /** The loop body: one directory's SOUL.md, when it exists, parsed and merged. */
  method MergeSoulFile(agents: seq<Agent>, dir: string, files: map<string, string>) returns (agents': seq<Agent>)
    ensures agents' == MergeDir(agents, dir, Personas(files))
  {
    agents' := agents;
    var agentId := SoulAgentId(dir);
    if dir in files {
      var soul := ParseAgentSoul(files[dir]);
      var k := FindAgent(agents, agentId);
      if k.Some? {
        agents' := agents'[k.value := agents'[k.value].(soul := Some(soul))];
      } else {
        agents' := agents' + [NewSubagent(agentId, soul)];
      }
    }
  }

  lemma MergeDirsStep(agents: seq<Agent>, dirs: seq<string>, i: nat, personas: map<string, AgentSoul>)
    requires i < |dirs|
    ensures MergeDirs(agents, dirs[..i + 1], personas) == MergeDir(MergeDirs(agents, dirs[..i], personas), dirs[i], personas)
  {
    TakeTake(dirs, i);
  }

  /** Merging a persona for another id leaves the search for `id` and its agent alone. */
  lemma AttachSoulKeeps(agents: seq<Agent>, other: string, soul: AgentSoul, id: string)
    requires other != id
    ensures var r := AttachSoul(agents, other, soul);
      FindAgent(r, id) == FindAgent(agents, id) &&
      (FindAgent(agents, id).Some? ==> r[FindAgent(agents, id).value] == agents[FindAgent(agents, id).value])
  {
    var r := AttachSoul(agents, other, soul);
    match FindAgent(agents, other)
    case Some(k) =>
      FindAgentOfIds(agents, r, id);
    case None =>
      FindAgentAppend(agents, NewSubagent(other, soul), id);
  }

  /** The roster grows by at most one entry per directory. */
  lemma {:induction false} MergeDirsLength(agents: seq<Agent>, dirs: seq<string>, personas: map<string, AgentSoul>)
    ensures |agents| <= |MergeDirs(agents, dirs, personas)| <= |agents| + |dirs|
    decreases |dirs|
  {
    if dirs != [] {
      var prev := MergeDirs(agents, dirs[..|dirs| - 1], personas);
      MergeDirsLength(agents, dirs[..|dirs| - 1], personas);
      var dir := dirs[|dirs| - 1];
      if dir in personas {
        AttachSoulMeaning(prev, SoulAgentId(dir), personas[dir]);
      }
    }
  }

  /** The first agent with the id exists and carries the persona. */
  predicate HasSoul(agents: seq<Agent>, id: string, soul: AgentSoul) {
    FindAgent(agents, id).Some? && agents[FindAgent(agents, id).value].soul == Some(soul)
  }

  lemma AttachSoulGives(agents: seq<Agent>, id: string, soul: AgentSoul)
    ensures HasSoul(AttachSoul(agents, id, soul), id, soul)
  {
    AttachSoulMeaning(agents, id, soul);
  }

  lemma AttachSoulKeepsSoul(agents: seq<Agent>, other: string, soul': AgentSoul, id: string, soul: AgentSoul)
    requires other != id && HasSoul(agents, id, soul)
    ensures HasSoul(AttachSoul(agents, other, soul'), id, soul)
  {
    AttachSoulKeeps(agents, other, soul', id);
  }

  /**
   * Once a directory with a persona has been merged, the first agent with its id
   * carries that persona, and merging directories with other ids keeps it so.
   */
  lemma {:induction false} MergeDirsSoul(agents: seq<Agent>, dirs: seq<string>, personas: map<string, AgentSoul>, k: nat)
    requires k < |dirs| && dirs[k] in personas
    requires forall j :: 0 <= j < |dirs| && j != k ==> SoulAgentId(dirs[j]) != SoulAgentId(dirs[k])
    ensures HasSoul(MergeDirs(agents, dirs, personas), SoulAgentId(dirs[k]), personas[dirs[k]])
    decreases |dirs|
  {
    var n := |dirs| - 1;
    var init := dirs[..n];
    var prev := MergeDirs(agents, init, personas);
    assert MergeDirs(agents, dirs, personas) == MergeDir(prev, dirs[n], personas);
    if k == n {
      AttachSoulGives(prev, SoulAgentId(dirs[k]), personas[dirs[k]]);
    } else {
      DistinctIdsInit(dirs, k);
      MergeDirsSoul(agents, init, personas, k);
      if dirs[n] in personas {
        AttachSoulKeepsSoul(prev, SoulAgentId(dirs[n]), personas[dirs[n]], SoulAgentId(dirs[k]), personas[dirs[k]]);
      }
    }
  }

  lemma DistinctIdsInit(dirs: seq<string>, k: nat)
    requires k < |dirs| - 1
    requires forall j :: 0 <= j < |dirs| && j != k ==> SoulAgentId(dirs[j]) != SoulAgentId(dirs[k])
    ensures var init := dirs[..|dirs| - 1];
      init[k] == dirs[k] && forall j :: 0 <= j < |init| && j != k ==> SoulAgentId(init[j]) != SoulAgentId(init[k])
  {
    var init := dirs[..|dirs| - 1];
    forall j | 0 <= j < |init| && j != k ensures SoulAgentId(init[j]) != SoulAgentId(init[k]) {
      assert init[j] == dirs[j];
    }
  }

  /** Each of the five directories with a persona ends up on the first agent with its name as id. */
  lemma AgentDirsSouls(base: seq<Agent>, personas: map<string, AgentSoul>)
    ensures forall d :: d in AgentDirs && d in personas ==> HasSoul(MergeDirs(base, AgentDirs, personas), d, personas[d])
  {
    AgentDirIds();
    forall d | d in AgentDirs && d in personas
      ensures HasSoul(MergeDirs(base, AgentDirs, personas), d, personas[d])
    {
      var k :| 0 <= k < |AgentDirs| && AgentDirs[k] == d;
      MergeDirsSoul(base, AgentDirs, personas, k);
    }
  }

  /**
   * Every listed directory with a SOUL.md ends up as the persona of the first
   * agent with its name as id, and at most five entries are added to the roster.
   */
  lemma LoadAgentsSouls(roster: Option<string>, files: map<string, string>)
    ensures var base := if roster.Some? then Agents(roster.value) else [];
      |base| <= |LoadAgents(roster, files)| <= |base| + 5
    ensures forall d :: d in AgentDirs && d in files ==> HasSoul(LoadAgents(roster, files), d, ParseAgentSoul(files[d]))
  {
    var base := if roster.Some? then Agents(roster.value) else [];
    var personas := Personas(files);
    MergeDirsLength(base, AgentDirs, personas);
    AgentDirsSouls(base, personas);
  }

  /** Only the listed directories are read: other entries of `personas` never matter. */
  lemma {:induction false} MergeDirsReadsListed(agents: seq<Agent>, dirs: seq<string>, personas: map<string, AgentSoul>, personas': map<string, AgentSoul>)
    requires forall d :: d in dirs ==> (d in personas <==> d in personas') && (d in personas ==> personas[d] == personas'[d])
    ensures MergeDirs(agents, dirs, personas) == MergeDirs(agents, dirs, personas')
    decreases |dirs|
  {
    if dirs != [] {
      var init := dirs[..|dirs| - 1];
      forall d | d in init ensures (d in personas <==> d in personas') && (d in personas ==> personas[d] == personas'[d]) {
        assert d in dirs;
      }
      MergeDirsReadsListed(agents, init, personas, personas');
    }
  }

  /** SOUL.md files outside the five listed directories never change the result. */
  lemma LoadAgentsReadsListed(roster: Option<string>, files: map<string, string>, files': map<string, string>)
    requires forall d :: d in AgentDirs ==> (d in files <==> d in files') && (d in files ==> files[d] == files'[d])
    ensures LoadAgents(roster, files) == LoadAgents(roster, files')
  {
    var base := if roster.Some? then Agents(roster.value) else [];
    MergeDirsReadsListed(base, AgentDirs, Personas(files), Personas(files'));
  }
}
