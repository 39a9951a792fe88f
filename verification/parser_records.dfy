/**
 * The record extractors of `src/lib/parser.ts`: agents from the roster table,
 * personas from SOUL.md, tasks from active-tasks.md, projects from projects.md,
 * and the persona merge of `loadAgentData`. Documents arrive as strings; which
 * files exist is passed in.
 */
module Records {
  import opened Strings
  import opened Patterns
  import opened Seqs
  import opened Types
  import opened Parser

  // ================================================================ parseAgents

  /** No two adjacent asterisks. */
  ghost predicate NoBoldPair(s: string) {
    forall i, j :: 0 <= i && j == i + 1 && j < |s| ==> !(s[i] == '*' && s[j] == '*')
  }

  /** Replacing every `**` by nothing (a global regular-expression replace): the pairs met scanning left to right go. */
  function StripBold(s: string): (r: string)
    ensures |r| <= |s|
    ensures s != [] && !(|s| >= 2 && s[0] == '*' && s[1] == '*') ==> r != [] && r[0] == s[0]
    decreases |s|
  {
    if |s| >= 2 && s[0] == '*' && s[1] == '*' then StripBold(s[2..])
    else if s == [] then []
    else [s[0]] + StripBold(s[1..])
  }

  /** The removal leaves no `**` behind: it cannot create a new pair. */
  lemma {:induction false} StripBoldNoPair(s: string)
    ensures NoBoldPair(StripBold(s))
    decreases |s|
  {
    if |s| >= 2 && s[0] == '*' && s[1] == '*' {
      StripBoldNoPair(s[2..]);
    } else if s != [] {
      var rest := StripBold(s[1..]);
      StripBoldNoPair(s[1..]);
      var r := [s[0]] + rest;
      forall i | 0 <= i < |r| - 1 ensures !(r[i] == '*' && r[i + 1] == '*') {
        if i > 0 {
          assert r[i] == rest[i - 1] && r[i + 1] == rest[i];
        } else if s[0] == '*' {
          assert s[1] != '*';
          assert rest[0] == s[1];
        }
      }
    }
  }

  /** A string without `**` is left alone, so stripping twice is stripping once. */
  lemma {:induction false} StripBoldOfPlain(s: string)
    requires NoBoldPair(s)
    ensures StripBold(s) == s
    decreases |s|
  {
    if s != [] {
      assert !(|s| >= 2 && s[0] == '*' && s[1] == '*');
      assert NoBoldPair(s[1..]) by {
        forall i | 0 <= i < |s[1..]| - 1 ensures !(s[1..][i] == '*' && s[1..][i + 1] == '*') {
          assert s[1..][i] == s[i + 1] && s[1..][i + 1] == s[i + 2];
        }
      }
      StripBoldOfPlain(s[1..]);
    }
  }

  lemma StripBoldIdempotent(s: string)
    ensures StripBold(StripBold(s)) == StripBold(s)
  {
    StripBoldNoPair(s);
    StripBoldOfPlain(StripBold(s));
  }

  /** `\|\s*Agent\s*\|` at `i`: where that header cell ends. */
  function AgentHeaderEnd(s: string, i: nat): (e: Option<nat>)
    ensures e.Some? ==> i < e.value <= |s| && s[i] == '|' && s[e.value - 1] == '|'
  {
    if i < |s| && s[i] == '|' then
      var p := i + 1 + SpaceRun(s, i + 1);
      if OccursAt(s, "Agent", p) then
        var q := p + 5 + SpaceRun(s, p + 5);
        if q < |s| && s[q] == '|' then Some(q + 1) else None
      else None
    else None
  }

  /**
   * `content.match(/\|\s*Agent\s*\|([\s\S]*?)\n\n/)` searched from `i`: the whole
   * match, from the header cell through the first blank line after it.
   */
  function AgentTableFrom(s: string, i: nat): (m: Option<string>)
    requires i <= |s|
    ensures m.Some? ==> |m.value| >= 4 && m.value[0] == '|' && m.value[|m.value| - 2..] == "\n\n"
    decreases |s| - i
  {
    var e := AgentHeaderEnd(s, i);
    var j := if e.Some? then IndexOf(s, "\n\n", e.value) else -1;
    if j >= 0 then Some(s[i..j + 2])
    else if i < |s| then AgentTableFrom(s, i + 1)
    else None
  }

  function AgentTable(content: string): Option<string> {
    AgentTableFrom(content, 0)
  }

  /** At `k` an `Agent` header cell starts and a blank line follows it somewhere. */
  predicate TableStartsAt(s: string, k: nat) {
    var e := AgentHeaderEnd(s, k);
    e.Some? && IndexOf(s, "\n\n", e.value) >= 0
  }

  /** One step of the search: a match here, or the search from the next position. */
  lemma AgentTableFromStep(s: string, i: nat)
    requires i <= |s|
    ensures TableStartsAt(s, i) ==> AgentTableFrom(s, i).Some?
    ensures !TableStartsAt(s, i) ==> AgentTableFrom(s, i) == if i < |s| then AgentTableFrom(s, i + 1) else None
  {
  }

  /** Without a header cell that a blank line follows there is no table. */
  lemma {:induction false} AgentTableNeedsHeader(s: string, i: nat)
    requires i <= |s|
    requires forall k :: i <= k <= |s| ==> !TableStartsAt(s, k)
    ensures AgentTableFrom(s, i).None?
    decreases |s| - i
  {
    AgentTableFromStep(s, i);
    if i < |s| {
      AgentTableNeedsHeader(s, i + 1);
    }
  }

  /** No match means no header cell that a blank line follows: the search misses none. */
  lemma {:induction false} AgentTableMissesNone(s: string, i: nat)
    requires i <= |s| && AgentTableFrom(s, i).None?
    ensures forall k :: i <= k <= |s| ==> !TableStartsAt(s, k)
    decreases |s| - i
  {
    AgentTableFromStep(s, i);
    if i < |s| {
      AgentTableMissesNone(s, i + 1);
    }
  }

  /**
   * A roster with no `Agent` header cell, or with one but no blank line anywhere after
   * it, gives no agents; one whose header cell a blank line follows has a table.
   */
  lemma NoHeaderNoAgents(content: string)
    ensures (forall k :: 0 <= k <= |content| ==> !TableStartsAt(content, k)) ==> Agents(content) == []
    ensures (exists k :: 0 <= k <= |content| && TableStartsAt(content, k)) ==> AgentTable(content).Some?
  {
    if forall k :: 0 <= k <= |content| ==> !TableStartsAt(content, k) {
      AgentTableNeedsHeader(content, 0);
    } else if AgentTable(content).None? {
      AgentTableMissesNone(content, 0);
    }
  }

  /** The length of the run of digits starting at `p`. */
  function DigitsAt(s: string, p: nat): (n: nat)
    requires p <= |s|
    ensures p + n <= |s|
    ensures forall i :: p <= i < p + n ==> IsDigit(s[i])
    ensures p + n == |s| || !IsDigit(s[p + n])
    decreases |s| - p
  {
    if p < |s| && IsDigit(s[p]) then 1 + DigitsAt(s, p + 1) else 0
  }

  /** Digits, a dot, digits. */
  predicate IsDecimal(t: string) {
    exists k :: 1 <= k < |t| - 1 && t[k] == '.' &&
      (forall i :: 0 <= i < k ==> IsDigit(t[i])) && (forall i :: k < i < |t| ==> IsDigit(t[i]))
  }

  /** `(\d+\.\d+)` at `p`, with both digit runs greedy: the captured number. */
  function DecimalAt(s: string, p: nat): (g: Option<string>)
    requires p <= |s|
    ensures g.Some? ==> IsDecimal(g.value)
  {
    var a := DigitsAt(s, p);
    if a >= 1 && p + a < |s| && s[p + a] == '.' then
      var b := DigitsAt(s, p + a + 1);
      if b >= 1 then
        var t := s[p..p + a + 1 + b];
        assert t[a] == '.';
        assert forall i :: 0 <= i < a ==> t[i] == s[p + i];
        assert forall i :: a < i < |t| ==> t[i] == s[p + i];
        Some(t)
      else None
    else None
  }

  /** `.*?(\d+\.\d+)` from `p`: the first number reachable without crossing a line terminator. */
  function NumberFrom(s: string, p: nat): (g: Option<string>)
    requires p <= |s|
    ensures g.Some? ==> IsDecimal(g.value)
    decreases |s| - p
  {
    var d := DecimalAt(s, p);
    if d.Some? then d
    else if p < |s| && !IsLineTerminator(s[p]) then NumberFrom(s, p + 1)
    else None
  }

  /** `(?:Sam operates at|temperature).*?(\d+\.\d+)` with the `i` flag, at `i`. */
  function TemperatureAt(s: string, i: nat): (g: Option<string>)
    requires i <= |s|
    ensures g.Some? ==> IsDecimal(g.value)
  {
    var first := if OccursAtFolded(s, "Sam operates at", i) then NumberFrom(s, i + 15) else None;
    if first.Some? then first
    else if OccursAtFolded(s, "temperature", i) then NumberFrom(s, i + 11)
    else None
  }

  /** The temperature match searched from `i`: its captured number. */
  function TemperatureFrom(s: string, i: nat): (g: Option<string>)
    requires i <= |s|
    ensures g.Some? ==> IsDecimal(g.value)
    decreases |s| - i
  {
    var t := TemperatureAt(s, i);
    if t.Some? then t
    else if i < |s| then TemperatureFrom(s, i + 1)
    else None
  }

  /** `row[key] || ''` */
  function CellText(row: map<string, string>, key: string): string {
    if key in row then row[key] else ""
  }

  /** The row's name: its `agent` cell without `**` pairs, trimmed. */
  function RowName(row: map<string, string>): string {
    Trim(StripBold(CellText(row, "agent")))
  }

  /** The agent a table row describes, or None when its name is empty. */
  function AgentOfRow(row: map<string, string>, temperature: Option<string>): (a: Option<Agent>)
    ensures a.Some? ==> a.value.name != [] && a.value.id == Lower(a.value.name)
    ensures a.Some? ==> a.value.status == Idle && a.value.soul.None?
    ensures a.Some? && a.value.temperature.Some? ==> a.value.id == "sam" && temperature.Some?
  {
    var name := RowName(row);
    if name == [] then None
    else
      Some(Agent(
        id := Lower(name),
        name := name,
        role := StripBold(CellText(row, "role")),
        model := StripBold(CellText(row, "model")),
        responsibility := StripBold(CellText(row, "responsibility")),
        status := Idle,
        temperature := if temperature.Some? && Lower(name) == "sam" then temperature else None,
        soul := None))
  }

  /** What the row loop of `parseAgents` builds from the first `n` rows. */
  function AgentsOf(rows: seq<map<string, string>>, n: nat, temperature: Option<string>): (agents: seq<Agent>)
    requires n <= |rows|
    ensures |agents| <= n
  {
    if n == 0 then []
    else
      var a := AgentOfRow(rows[n - 1], temperature);
      if a.Some? then AgentsOf(rows, n - 1, temperature) + [a.value] else AgentsOf(rows, n - 1, temperature)
  }

  /** A non-empty name, the lower-cased name as id, the status `idle`; only `sam` carries a temperature. */
  predicate AgentShape(a: Agent) {
    a.name != [] && a.id == Lower(a.name) && a.status == Idle && (a.temperature.Some? ==> a.id == "sam")
  }

  /** Every agent the row loop builds has that shape. */
  lemma {:induction false} AgentsOfFields(rows: seq<map<string, string>>, n: nat, temperature: Option<string>)
    requires n <= |rows|
    ensures forall a :: a in AgentsOf(rows, n, temperature) ==> AgentShape(a)
  {
    if n > 0 {
      var m := n - 1;
      AgentsOfFields(rows, m, temperature);
      AgentsOfSnoc(rows, m, temperature);
      var a := AgentOfRow(rows[m], temperature);
      assert a.Some? ==> AgentShape(a.value);
    }
  }

  /** What `parseAgents` returns. */
  function Agents(content: string): seq<Agent> {
    match AgentTable(content)
    case None => []
    case Some(t) => AgentsOf(TableRows(t), |TableRows(t)|, TemperatureFrom(content, 0))
  }

  /** `parseAgents` */
  method ParseAgents(content: string) returns (agents: seq<Agent>)
    ensures agents == Agents(content)
  {
    agents := [];
    var tableMatch := AgentTable(content);
    if tableMatch.Some? {
      var rows := ParseMarkdownTable(tableMatch.value);
      var temperature := TemperatureFrom(content, 0);
      var i := 0;
      while i < |rows|
        invariant 0 <= i <= |rows|
        invariant agents == AgentsOf(rows, i, temperature)
      {
        var agent := AgentOfRow(rows[i], temperature);
        AgentsOfSnoc(rows, i, temperature);
        if agent.Some? {
          agents := agents + [agent.value];
        }
        i := i + 1;
      }
    }
  }

  lemma AgentsOfSnoc(rows: seq<map<string, string>>, n: nat, temperature: Option<string>)
    requires n < |rows|
    ensures AgentOfRow(rows[n], temperature).None? ==> AgentsOf(rows, n + 1, temperature) == AgentsOf(rows, n, temperature)
    ensures AgentOfRow(rows[n], temperature).Some? ==>
      AgentsOf(rows, n + 1, temperature) == AgentsOf(rows, n, temperature) + [AgentOfRow(rows[n], temperature).value]
  {
  }

  predicate HasName(row: map<string, string>) {
    RowName(row) != []
  }

  /** Rows are not merged: every row with a non-empty name gives its own agent, duplicates included. */
  lemma {:induction false} AgentsOfCount(rows: seq<map<string, string>>, n: nat, temperature: Option<string>)
    requires n <= |rows|
    ensures |AgentsOf(rows, n, temperature)| == Count(rows[..n], HasName)
  {
    if n > 0 {
      var m := n - 1;
      AgentsOfCount(rows, m, temperature);
      AgentsOfSnoc(rows, m, temperature);
      TakeSnoc(rows, m);
      CountSnoc(rows[..m], rows[m], HasName);
    }
  }

  /** A name never keeps a `**` pair. */
  lemma AgentNameUnbolded(row: map<string, string>, temperature: Option<string>)
    requires AgentOfRow(row, temperature).Some?
    ensures NoBoldPair(AgentOfRow(row, temperature).value.name)
  {
    var s := StripBold(CellText(row, "agent"));
    assert AgentOfRow(row, temperature).value.name == Trim(s);
    StripBoldNoPair(CellText(row, "agent"));
    TrimInfixNoPair(s);
  }

  lemma TrimInfixNoPair(s: string)
    requires NoBoldPair(s)
    ensures NoBoldPair(Trim(s))
  {
    var lo := SkipSpace(s, 0);
    var r := Trim(s);
    forall i, j | 0 <= i && j == i + 1 && j < |r| ensures !(r[i] == '*' && r[j] == '*') {
      assert r[i] == s[lo + i] && r[j] == s[lo + j];
    }
  }

  // ================================================================ parseAgentSoul

  /** `\s*W1\s*W2...` from `p`, each word matched case-insensitively: where the last word ends. */
  function WordsEnd(s: string, p: nat, words: seq<string>): (e: Option<nat>)
    requires p <= |s|
    ensures e.Some? ==> p <= e.value <= |s|
    decreases |words|
  {
    if words == [] then Some(p)
    else
      var q := p + SpaceRun(s, p);
      if OccursAtFolded(s, words[0], q) then WordsEnd(s, q + |words[0]|, words[1..]) else None
  }

  /** `##\s*W1\s*W2...` at `i`: where the heading words end. */
  function SoulHeadingEnd(s: string, i: nat, words: seq<string>): (e: Option<nat>)
    requires i <= |s|
    ensures e.Some? ==> i + 2 <= e.value <= |s|
  {
    if OccursAt(s, "##", i) then WordsEnd(s, i + 2, words) else None
  }

  /**
   * `##\s*W1\s*W2([\s\S]*?)(?=##|$)` with the `i` flag, searched from `i`: the
   * text after the first such heading up to the next `##` or the end.
   */
  function SoulSectionFrom(s: string, i: nat, words: seq<string>): (g: Option<string>)
    requires i <= |s|
    ensures g.Some? ==> !Contains(g.value, "##")
    decreases |s| - i
  {
    match SoulHeadingEnd(s, i, words)
    case Some(e) =>
      var j := IndexOf(s, "##", e);
      var g := if j >= 0 then s[e..j] else s[e..];
      assert !Contains(g, "##") by {
        forall k: nat | k + 2 <= |g| ensures !OccursAt(g, "##", k) {
          if j >= 0 {
            assert g[k..k + 2] == s[e..j][k..k + 2] == s[e + k..e + k + 2];
            assert e <= e + k < j;
          } else {
            assert g[k..k + 2] == s[e..][k..k + 2] == s[e + k..e + k + 2];
          }
          assert !OccursAt(s, "##", e + k);
        }
      }
      Some(g)
    case None => if i < |s| then SoulSectionFrom(s, i + 1, words) else None
  }

  function SoulSection(s: string, words: seq<string>): Option<string> {
    SoulSectionFrom(s, 0, words)
  }

  /** One position of the search: a heading there is found, otherwise the search moves on. */
  lemma SoulSectionFromStep(s: string, i: nat, words: seq<string>)
    requires i <= |s|
    ensures SoulHeadingEnd(s, i, words).Some? ==> SoulSectionFrom(s, i, words).Some?
    ensures SoulHeadingEnd(s, i, words).None? && i < |s| ==> SoulSectionFrom(s, i, words) == SoulSectionFrom(s, i + 1, words)
    ensures SoulHeadingEnd(s, i, words).None? && i == |s| ==> SoulSectionFrom(s, i, words).None?
  {
  }

  /** The section is found exactly when its heading occurs somewhere. */
  lemma {:induction false} SoulSectionFound(s: string, i: nat, words: seq<string>)
    requires i <= |s|
    ensures SoulSectionFrom(s, i, words).Some? <==> exists k :: i <= k <= |s| && SoulHeadingEnd(s, k, words).Some?
    decreases |s| - i
  {
    SoulSectionFromStep(s, i, words);
    if SoulHeadingEnd(s, i, words).None? && i < |s| {
      SoulSectionFound(s, i + 1, words);
      if exists k :: i <= k <= |s| && SoulHeadingEnd(s, k, words).Some? {
        var k :| i <= k <= |s| && SoulHeadingEnd(s, k, words).Some?;
        assert k != i;
      }
    } else if SoulHeadingEnd(s, i, words).None? {
      forall k | i <= k <= |s| ensures SoulHeadingEnd(s, k, words).None? {
        assert k == i;
      }
    }
  }

  /** A list line: its trimmed text starts with `-`. */
  predicate IsBullet(line: string) {
    StartsWith(Trim(line), "-")
  }

  /** A leading dash and the white space after it are removed (the pattern is anchored at the line start), then the line is trimmed. */
  function BulletItem(line: string): (item: string)
    ensures Trim(item) == item
  {
    var rest := if |line| > 0 && line[0] == '-' then line[1 + SpaceRun(line, 1)..] else line;
    TrimIdempotent(rest);
    Trim(rest)
  }

  /** An unindented bullet loses its dash; an indented one keeps it, because `^` anchors at the line start. */
  lemma BulletItemDash(line: string)
    ensures |line| > 0 && line[0] == '-' ==> BulletItem(line) == Trim(line[1..])
    ensures (|line| == 0 || line[0] != '-') ==> BulletItem(line) == Trim(line)
  {
    if |line| > 0 && line[0] == '-' {
      var w := SpaceRun(line, 1);
      assert line[1..] == line[1..1 + w] + line[1 + w..];
      assert AllSpace(line[1..1 + w]);
      TrimOfSpacePrefix(line[1..1 + w], line[1 + w..]);
    }
  }

  /** The filter-and-map over the section's lines. */
  function BulletItems(lines: seq<string>): (items: seq<string>)
    ensures |items| <= |lines|
    decreases |lines|
  {
    if lines == [] then []
    else if IsBullet(lines[0]) then [BulletItem(lines[0])] + BulletItems(lines[1..])
    else BulletItems(lines[1..])
  }

  /** One item per list line, so the count is that of the list lines. */
  lemma {:induction false} BulletItemsCount(lines: seq<string>)
    ensures |BulletItems(lines)| == Count(lines, IsBullet)
    decreases |lines|
  {
    if lines != [] {
      BulletItemsCount(lines[1..]);
      if IsBullet(lines[0]) {
        assert |BulletItems(lines)| == 1 + |BulletItems(lines[1..])|;
      } else {
        assert |BulletItems(lines)| == |BulletItems(lines[1..])|;
      }
    }
  }

  /** The items are the list lines, in their order, each with its dash and white space removed. */
  lemma {:induction false} BulletItemsMeaning(lines: seq<string>)
    ensures var bullets := Filter(lines, IsBullet);
      |BulletItems(lines)| == |bullets| &&
      forall k :: 0 <= k < |bullets| ==> BulletItems(lines)[k] == BulletItem(bullets[k])
    decreases |lines|
  {
    if lines != [] {
      BulletItemsMeaning(lines[1..]);
      var rest := BulletItems(lines[1..]);
      var bs := Filter(lines[1..], IsBullet);
      BulletItemsCons(lines);
      if IsBullet(lines[0]) {
        ConsMapped(BulletItem, BulletItem(lines[0]), rest, lines[0], bs);
      }
    }
  }

  /** The first line goes first, as an item when it is a list line. */
  lemma BulletItemsCons(lines: seq<string>)
    requires lines != []
    ensures IsBullet(lines[0]) ==>
      BulletItems(lines) == [BulletItem(lines[0])] + BulletItems(lines[1..]) &&
      Filter(lines, IsBullet) == [lines[0]] + Filter(lines[1..], IsBullet)
    ensures !IsBullet(lines[0]) ==>
      BulletItems(lines) == BulletItems(lines[1..]) && Filter(lines, IsBullet) == Filter(lines[1..], IsBullet)
  {
  }

  lemma ConsMapped<A, B>(f: A -> B, item: B, rest: seq<B>, x: A, xs: seq<A>)
    requires item == f(x) && |rest| == |xs|
    requires forall k :: 0 <= k < |xs| ==> rest[k] == f(xs[k])
    ensures forall k :: 0 <= k < |xs| + 1 ==> ([item] + rest)[k] == f(([x] + xs)[k])
  {
    forall k | 0 < k < |xs| + 1 ensures ([item] + rest)[k] == f(([x] + xs)[k]) {
      assert ([item] + rest)[k] == rest[k - 1];
      assert ([x] + xs)[k] == xs[k - 1];
    }
  }

  /** Every item is trimmed. */
  lemma {:induction false} BulletItemsTrimmed(lines: seq<string>)
    ensures forall item :: item in BulletItems(lines) ==> Trim(item) == item
    decreases |lines|
  {
    if lines != [] {
      BulletItemsTrimmed(lines[1..]);
      var rest := BulletItems(lines[1..]);
      if IsBullet(lines[0]) {
        var item := BulletItem(lines[0]);
        assert BulletItems(lines) == [item] + rest;
      }
    }
  }

  /** Headings of SOUL.md, as their words. */
  const SpecialtiesHeading: seq<string> := ["Specialties"]
  const CoreTruthsHeading: seq<string> := ["Core", "Truths"]
  const SystemPromptHeading: seq<string> := ["System", "Prompt"]

  /** The first 500 characters of a section's plain text, or '' without the section. */
  function SoulText(content: string, heading: seq<string>): (t: string)
    ensures |t| <= 500
  {
    match SoulSection(content, heading)
    case Some(g) => Prefix(ExtractPlainText(g), 500)
    case None => ""
  }

  /** `parseAgentSoul` */
  function ParseAgentSoul(content: string): (soul: AgentSoul)
    ensures |soul.personality| <= 500 && |soul.systemPrompt| <= 500
    ensures soul.whenToUse == [] && soul.boundaries == []
    ensures SoulSection(content, SpecialtiesHeading).None? ==> soul.specialties == []
    ensures SoulSection(content, SpecialtiesHeading).Some? ==>
      |soul.specialties| == Count(Lines(SoulSection(content, SpecialtiesHeading).value), IsBullet)
    ensures SoulSection(content, SpecialtiesHeading).Some? ==>
      var bullets := Filter(Lines(SoulSection(content, SpecialtiesHeading).value), IsBullet);
      |soul.specialties| == |bullets| &&
      forall k :: 0 <= k < |bullets| ==> soul.specialties[k] == BulletItem(bullets[k])
    ensures forall item :: item in soul.specialties ==> Trim(item) == item
  {
    var section := SoulSection(content, SpecialtiesHeading);
    AgentSoul(
      personality := SoulText(content, CoreTruthsHeading),
      specialties :=
        if section.Some? then
          BulletItemsCount(Lines(section.value));
          BulletItemsMeaning(Lines(section.value));
          BulletItemsTrimmed(Lines(section.value));
          BulletItems(Lines(section.value))
        else [],
      whenToUse := [],
      systemPrompt := SoulText(content, SystemPromptHeading),
      boundaries := [])
  }

  // ================================================================ parseActiveTasks

  /** The heading pattern `^##+\s+(.+)$` on a line: the captured heading text. */
  function TaskHeading(line: string): (h: Option<string>)
    ensures h.Some? ==> |line| >= 2 && line[0] == '#' && line[1] == '#'
  {
    var r := CharRun(line, 0, '#');
    if r >= 2 then SpacedRestToEnd(line[r..]) else None
  }

  /**
   * The task pattern `^- \[([x\s])\]\s+\*\*(.+?)\*\*` on a line: whether the box
   * holds `x`, and the title (the shortest non-empty text before a closing `**`).
   */
  function TaskLineMatch(line: string): (m: Option<(bool, string)>)
    ensures m.Some? ==> |line| >= 5 && line[..3] == "- [" && line[4] == ']' && (line[3] == 'x' || IsSpace(line[3]))
    ensures m.Some? ==> (m.value.0 <==> line[3] == 'x')
    ensures m.Some? ==> |m.value.1| >= 1 && NoLineTerminator(m.value.1)
  {
    if |line| >= 5 && line[..3] == "- [" && (line[3] == 'x' || IsSpace(line[3])) && line[4] == ']' then
      var w := SpaceRun(line, 5);
      var p := 5 + w;
      if w >= 1 && OccursAt(line, "**", p) then
        var j := LazyClose(line, p + 2, 1, "**");
        if j >= 0 then Some((line[3] == 'x', line[p + 2..j])) else None
      else None
    else None
  }

  /** A line of active-tasks.md, as the task reader sees it. */
  datatype TaskLineKind = HeadingLine(text: string) | TaskItemLine(done: bool, title: string) | OtherLine

  /** The heading pattern is tried first; a heading's text is trimmed. */
  function ClassifyTaskLine(line: string): TaskLineKind {
    match TaskHeading(line)
    case Some(h) => HeadingLine(Trim(h))
    case None =>
      match TaskLineMatch(line)
      case Some(m) => TaskItemLine(m.0, m.1)
      case None => OtherLine
  }

  /** A line is a heading exactly when the heading pattern matches, and its text is the trimmed rest of the line. */
  lemma ClassifyTaskHeading(line: string)
    ensures ClassifyTaskLine(line).HeadingLine? <==> TaskHeading(line).Some?
    ensures ClassifyTaskLine(line).HeadingLine? ==>
      ClassifyTaskLine(line).text == Trim(line[CharRun(line, 0, '#')..])
  {
    if TaskHeading(line).Some? {
      SpacedRestToEndTrim(line[CharRun(line, 0, '#')..]);
    }
  }

  /**
   * A task line starts with `-` and is completed exactly when its box holds a
   * lower-case `x`: indented items and `[X]` boxes are not tasks.
   */
  lemma ClassifyTaskItem(line: string)
    ensures ClassifyTaskLine(line).TaskItemLine? ==>
      |line| >= 5 && line[0] == '-' && line[3] != 'X' && (ClassifyTaskLine(line).done <==> line[3] == 'x')
  {
    if ClassifyTaskLine(line).TaskItemLine? {
      var m := TaskLineMatch(line);
      assert m.Some?;
      assert line[0] == line[..3][0];
    }
  }

  function ClassifyTaskLines(lines: seq<string>): (kinds: seq<TaskLineKind>)
    ensures |kinds| == |lines|
    ensures forall i :: 0 <= i < |lines| ==> kinds[i] == ClassifyTaskLine(lines[i])
  {
    seq(|lines|, i requires 0 <= i < |lines| => ClassifyTaskLine(lines[i]))
  }

  /** `task-${i}` */
  function TaskId(i: nat): string {
    "task-" + NatToString(i)
  }

  /** Different positions give different ids. */
  lemma TaskIdInjective(i: nat, j: nat)
    requires TaskId(i) == TaskId(j)
    ensures i == j
  {
    assert NatToString(i) == TaskId(i)[5..];
    assert NatToString(j) == TaskId(j)[5..];
    DigitsValueOfNatToString(i);
    DigitsValueOfNatToString(j);
  }

  /** Completed when the box holds `x`; otherwise decided by the section name. */
  function TaskStatusOf(done: bool, section: string): (st: TaskStatus)
    ensures st == Completed <==> done
    ensures !done && Contains(Lower(section), "in progress") ==> st == InProgress
    ensures st == Blocked ==> Contains(Lower(section), "blocked") && !Contains(Lower(section), "in progress")
  {
    if done then Completed
    else if Contains(Lower(section), "in progress") then InProgress
    else if Contains(Lower(section), "blocked") then Blocked
    else Todo
  }

  function MakeTask(i: nat, done: bool, title: string, section: string): (t: Task)
    ensures t.id == TaskId(i) && t.section == section && t.title == title
    ensures t.status == Completed <==> done
  {
    Task(id := TaskId(i), title := title, status := TaskStatusOf(done, section),
      agent := None, priority := None, description := None, section := section)
  }

  /** The section in force before line `k`: the text of the nearest heading above it, or ''. */
  function SectionBefore(kinds: seq<TaskLineKind>, k: nat): string
    requires k <= |kinds|
  {
    if k == 0 then ""
    else if kinds[k - 1].HeadingLine? then kinds[k - 1].text
    else SectionBefore(kinds, k - 1)
  }

  /** With no heading above line `k` the section is ''. */
  lemma {:induction false} SectionBeforeNone(kinds: seq<TaskLineKind>, k: nat)
    requires k <= |kinds|
    requires forall h :: 0 <= h < k ==> !kinds[h].HeadingLine?
    ensures SectionBefore(kinds, k) == ""
  {
    if k > 0 {
      SectionBeforeNone(kinds, k - 1);
    }
  }

  /** Otherwise the section is the text of the nearest heading above line `k`. */
  lemma {:induction false} SectionBeforeNearest(kinds: seq<TaskLineKind>, k: nat, h: nat)
    requires h < k <= |kinds| && kinds[h].HeadingLine?
    requires forall h' :: h < h' < k ==> !kinds[h'].HeadingLine?
    ensures SectionBefore(kinds, k) == kinds[h].text
  {
    if k - 1 > h {
      SectionBeforeNearest(kinds, k - 1, h);
    }
  }

  /** The positions of the task lines among the first `n` lines, in order. */
  function TaskIndices(kinds: seq<TaskLineKind>, n: nat): (idx: seq<nat>)
    requires n <= |kinds|
    ensures |idx| <= n
    ensures forall i :: 0 <= i < |idx| ==> idx[i] < n && kinds[idx[i]].TaskItemLine?
    ensures forall i, j :: 0 <= i < j < |idx| ==> idx[i] < idx[j]
    ensures forall k :: 0 <= k < n && kinds[k].TaskItemLine? ==> k in idx
  {
    if n == 0 then []
    else
      var pre := TaskIndices(kinds, n - 1);
      if kinds[n - 1].TaskItemLine? then pre + [n - 1] else pre
  }

  /**
   * The tasks of the first `n` lines: the `i`-th task line gives `task-i`, titled by
   * its bold text, in the section of the nearest heading above it.
   */
  function TasksUpTo(kinds: seq<TaskLineKind>, n: nat): (tasks: seq<Task>)
    requires n <= |kinds|
    ensures |tasks| == |TaskIndices(kinds, n)|
    ensures forall i :: 0 <= i < |tasks| ==>
      var k := TaskIndices(kinds, n)[i];
      tasks[i] == MakeTask(i, kinds[k].done, kinds[k].title, SectionBefore(kinds, k))
  {
    var idx := TaskIndices(kinds, n);
    seq(|idx|, i requires 0 <= i < |idx| =>
      MakeTask(i, kinds[idx[i]].done, kinds[idx[i]].title, SectionBefore(kinds, idx[i])))
  }

  /** What `parseActiveTasks` returns. */
  function ActiveTasks(content: string): seq<Task> {
    var kinds := ClassifyTaskLines(Lines(content));
    TasksUpTo(kinds, |kinds|)
  }

  lemma TasksUpToStep(kinds: seq<TaskLineKind>, n: nat)
    requires n < |kinds|
    ensures !kinds[n].TaskItemLine? ==> TasksUpTo(kinds, n + 1) == TasksUpTo(kinds, n)
    ensures kinds[n].TaskItemLine? ==>
      TasksUpTo(kinds, n + 1) ==
        TasksUpTo(kinds, n) + [MakeTask(|TasksUpTo(kinds, n)|, kinds[n].done, kinds[n].title, SectionBefore(kinds, n))]
  {
    var a := TasksUpTo(kinds, n);
    var b := TasksUpTo(kinds, n + 1);
    var pre := TaskIndices(kinds, n);
    if kinds[n].TaskItemLine? {
      assert TaskIndices(kinds, n + 1) == pre + [n];
      var c := a + [MakeTask(|a|, kinds[n].done, kinds[n].title, SectionBefore(kinds, n))];
      forall i | 0 <= i < |b| ensures b[i] == c[i] {
        if i < |a| {
          assert TaskIndices(kinds, n + 1)[i] == pre[i];
        }
      }
    } else {
      assert TaskIndices(kinds, n + 1) == pre;
    }
  }

  /** What one line does to the task list and the current section. */
  function TaskStep(tasks: seq<Task>, section: string, kind: TaskLineKind): (seq<Task>, string) {
    match kind
    case HeadingLine(text) => (tasks, text)
    case TaskItemLine(done, title) => (tasks + [MakeTask(|tasks|, done, title, section)], section)
    case OtherLine => (tasks, section)
  }

  /** One step from line `n` gives the tasks and the section of the first `n + 1` lines. */
  lemma TaskStepAdvances(kinds: seq<TaskLineKind>, n: nat)
    requires n < |kinds|
    ensures TaskStep(TasksUpTo(kinds, n), SectionBefore(kinds, n), kinds[n]) ==
      (TasksUpTo(kinds, n + 1), SectionBefore(kinds, n + 1))
  {
    TasksUpToStep(kinds, n);
  }

  /** The body of the line loop of `parseActiveTasks`. */
  method TaskLine(tasks: seq<Task>, currentSection: string, line: string) returns (tasks': seq<Task>, section': string)
    ensures (tasks', section') == TaskStep(tasks, currentSection, ClassifyTaskLine(line))
  {
    tasks', section' := tasks, currentSection;
    var sectionMatch := TaskHeading(line);
    if sectionMatch.Some? {
      section' := Trim(sectionMatch.value);
      return;
    }
    var taskMatch := TaskLineMatch(line);
    if taskMatch.Some? {
      var isDone := taskMatch.value.0;
      var title := taskMatch.value.1;
      tasks' := tasks + [Task(
        id := TaskId(|tasks|),
        title := title,
        status := TaskStatusOf(isDone, currentSection),
        agent := None, priority := None, description := None,
        section := currentSection)];
    }
  }

  /** `parseActiveTasks` */
  method ParseActiveTasks(content: string) returns (tasks: seq<Task>)
    ensures tasks == ActiveTasks(content)
  {
    var lines := Lines(content);
    ghost var kinds := ClassifyTaskLines(lines);
    tasks := [];
    var currentSection := "";
    var i := 0;
    while i < |lines|
      invariant 0 <= i <= |lines|
      invariant tasks == TasksUpTo(kinds, i)
      invariant currentSection == SectionBefore(kinds, i)
    {
      assert kinds[i] == ClassifyTaskLine(lines[i]);
      TaskStepAdvances(kinds, i);
      tasks, currentSection := TaskLine(tasks, currentSection, lines[i]);
      i := i + 1;
    }
  }

  /** Task ids are pairwise distinct. */
  lemma ActiveTaskIdsDistinct(content: string, i: nat, j: nat)
    requires i < j < |ActiveTasks(content)|
    ensures ActiveTasks(content)[i].id != ActiveTasks(content)[j].id
  {
    if ActiveTasks(content)[i].id == ActiveTasks(content)[j].id {
      TaskIdInjective(i, j);
    }
  }

  // ================================================================ parseProjects

  /**
   * `MARKER\s*(.+)` with the `i` flag, searched in a line from `i`: the captured
   * rest of the line after the first marker that has one.
   */
  function FieldFrom(line: string, marker: string, i: nat): (g: Option<string>)
    requires i <= |line|
    ensures g.Some? ==> |g.value| >= 1
    decreases |line| - i
  {
    if OccursAtFolded(line, marker, i) && SpacedRest(line, i + |marker|).Some? then SpacedRest(line, i + |marker|)
    else if i < |line| then FieldFrom(line, marker, i + 1)
    else None
  }

  /** The raw captures of the four field patterns on one line. */
  datatype LineFields = LineFields(status: Option<string>, url: Option<string>, purpose: Option<string>, tech: Option<string>)

  function FieldsOf(line: string): LineFields {
    LineFields(
      FieldFrom(line, "**Status:**", 0),
      FieldFrom(line, "**URL:**", 0),
      FieldFrom(line, "**Purpose:**", 0),
      FieldFrom(line, "**Tech Stack:**", 0))
  }

  function FieldsOfLines(lines: seq<string>): (fs: seq<LineFields>)
    ensures |fs| == |lines|
    decreases |lines|
  {
    if lines == [] then [] else [FieldsOf(lines[0])] + FieldsOfLines(lines[1..])
  }

  lemma {:induction false} FieldsOfLinesAt(lines: seq<string>, i: nat)
    requires i < |lines|
    ensures FieldsOfLines(lines)[i] == FieldsOf(lines[i])
    decreases i
  {
    if i > 0 {
      FieldsOfLinesAt(lines[1..], i - 1);
    }
  }

  /** One of the four captures: 0 status, 1 URL, 2 purpose, 3 tech stack. */
  function Pick(f: LineFields, field: nat): Option<string> {
    if field == 0 then f.status else if field == 1 then f.url else if field == 2 then f.purpose else f.tech
  }

  /** The capture of the last of the first `n` lines where the field's pattern matches. */
  function LastCapture(fs: seq<LineFields>, field: nat, n: nat): Option<string>
    requires n <= |fs|
  {
    if n == 0 then None
    else if Pick(fs[n - 1], field).Some? then Pick(fs[n - 1], field)
    else LastCapture(fs, field, n - 1)
  }

  /**
   * The last match wins: the capture is that of a matching line with no matching
   * line after it, and there is none exactly when no line matches.
   */
  lemma {:induction false} LastCaptureMeaning(fs: seq<LineFields>, field: nat, n: nat)
    requires n <= |fs|
    ensures LastCapture(fs, field, n).None? <==> forall k :: 0 <= k < n ==> Pick(fs[k], field).None?
    ensures LastCapture(fs, field, n).Some? ==>
      exists k :: 0 <= k < n && Pick(fs[k], field) == LastCapture(fs, field, n) &&
        (forall k' :: k < k' < n ==> Pick(fs[k'], field).None?)
  {
    if n > 0 {
      LastCaptureMeaning(fs, field, n - 1);
      if Pick(fs[n - 1], field).None? && LastCapture(fs, field, n).Some? {
        var k :| 0 <= k < n - 1 && Pick(fs[k], field) == LastCapture(fs, field, n - 1) &&
          (forall k' :: k < k' < n - 1 ==> Pick(fs[k'], field).None?);
        assert forall k' :: k < k' < n ==> Pick(fs[k'], field).None?;
      }
    }
  }

  /** `name.toLowerCase().replace(/[^a-z0-9]/g, '-')` */
  function ProjectId(name: string): (id: string)
    ensures |id| == |name|
    ensures forall i :: 0 <= i < |id| ==> IsLowerAlnum(id[i]) || id[i] == '-'
    decreases |name|
  {
    if name == [] then []
    else [IdChar(name[0])] + ProjectId(name[1..])
  }

  /** One character of a project id: lower-cased, and `-` unless a lower-case letter or digit. */
  function IdChar(c: char): char {
    if IsLowerAlnum(LowerChar(c)) then LowerChar(c) else '-'
  }

  /** The id is the name lower-cased with every other character replaced by `-`. */
  lemma {:induction false} ProjectIdMeaning(name: string)
    ensures ProjectId(name) == ReplaceNonAlnum(Lower(name), '-')
    decreases |name|
  {
    if name != [] {
      ProjectIdMeaning(name[1..]);
      var r := ReplaceNonAlnum(Lower(name), '-');
      assert r == [r[0]] + r[1..];
      assert r[1..] == ReplaceNonAlnum(Lower(name[1..]), '-');
    }
  }

  /** `split(',').map(s => s.trim())` */
  function TechStack(g: string): (items: seq<string>)
    ensures |items| == |Split(g, ',')|
  {
    TrimEach(Split(g, ','))
  }

  /** Each item is one comma-separated piece, trimmed: it holds no comma and no outer white space. */
  lemma TechStackItems(g: string)
    ensures forall i :: 0 <= i < |TechStack(g)| ==>
      TechStack(g)[i] == Trim(Split(g, ',')[i]) && ',' !in TechStack(g)[i] && Trim(TechStack(g)[i]) == TechStack(g)[i]
  {
    var parts := Split(g, ',');
    SplitParts(g, ',');
    forall i | 0 <= i < |parts|
      ensures ',' !in Trim(parts[i]) && Trim(Trim(parts[i])) == Trim(parts[i])
    {
      TrimKeepsOut(parts[i], ',');
      TrimIdempotent(parts[i]);
    }
  }

  /** A project before any of its lines is read. */
  function NewProject(name: string): Project {
    Project(id := ProjectId(name), name := name, status := "unknown",
      url := None, description := None, techStack := None, pending := None, details := map[])
  }

  /** What one line does to the project being read: each field it matches is overwritten. */
  function ApplyFields(p: Project, f: LineFields): Project {
    p.(status := if f.status.Some? then Trim(f.status.value) else p.status,
       url := if f.url.Some? then Some(Trim(f.url.value)) else p.url,
       description := if f.purpose.Some? then Some(Trim(f.purpose.value)) else p.description,
       techStack := if f.tech.Some? then Some(TechStack(f.tech.value)) else p.techStack)
  }

  /** The project after its first `n` lines. */
  function ProjectAfter(p: Project, fs: seq<LineFields>, n: nat): Project
    requires n <= |fs|
  {
    if n == 0 then p else ApplyFields(ProjectAfter(p, fs, n - 1), fs[n - 1])
  }

  /**
   * Each field holds what the last line matching its pattern said, or its value
   * before the lines when none matches; id, name, pending and details are untouched.
   */
  lemma {:induction false} ProjectAfterLastWins(p: Project, fs: seq<LineFields>, n: nat)
    requires n <= |fs|
    ensures var q := ProjectAfter(p, fs, n);
      q.id == p.id && q.name == p.name && q.pending == p.pending && q.details == p.details &&
      q.status == (if LastCapture(fs, 0, n).Some? then Trim(LastCapture(fs, 0, n).value) else p.status) &&
      q.url == (if LastCapture(fs, 1, n).Some? then Some(Trim(LastCapture(fs, 1, n).value)) else p.url) &&
      q.description == (if LastCapture(fs, 2, n).Some? then Some(Trim(LastCapture(fs, 2, n).value)) else p.description) &&
      q.techStack == (if LastCapture(fs, 3, n).Some? then Some(TechStack(LastCapture(fs, 3, n).value)) else p.techStack)
  {
    if n > 0 {
      ProjectAfterLastWins(p, fs, n - 1);
    }
  }

  /** Without a `**Status:**` line the status stays 'unknown'. */
  lemma StatusDefault(name: string, fs: seq<LineFields>)
    requires forall k :: 0 <= k < |fs| ==> fs[k].status.None?
    ensures ProjectAfter(NewProject(name), fs, |fs|).status == "unknown"
  {
    ProjectAfterLastWins(NewProject(name), fs, |fs|);
    LastCaptureMeaning(fs, 0, |fs|);
  }

  /** The body of the line loop of `parseProjects`. */
  method ProjectLine(project: Project, line: string) returns (project': Project)
    ensures project' == ApplyFields(project, FieldsOf(line))
  {
    project' := project;
    var statusMatch := FieldFrom(line, "**Status:**", 0);
    if statusMatch.Some? {
      project' := project'.(status := Trim(statusMatch.value));
    }
    var urlMatch := FieldFrom(line, "**URL:**", 0);
    if urlMatch.Some? {
      project' := project'.(url := Some(Trim(urlMatch.value)));
    }
    var purposeMatch := FieldFrom(line, "**Purpose:**", 0);
    if purposeMatch.Some? {
      project' := project'.(description := Some(Trim(purposeMatch.value)));
    }
    var techMatch := FieldFrom(line, "**Tech Stack:**", 0);
    if techMatch.Some? {
      project' := project'.(techStack := Some(TechStack(techMatch.value)));
    }
  }

  /** `filter(Boolean)` on lines: the non-empty ones, in order. */
  function NonEmptyLines(lines: seq<string>): (r: seq<string>)
    ensures |r| <= |lines|
    ensures forall i :: 0 <= i < |r| ==> r[i] != []
    decreases |lines|
  {
    if lines == [] then []
    else if lines[0] != [] then [lines[0]] + NonEmptyLines(lines[1..])
    else NonEmptyLines(lines[1..])
  }

  /** `section.split('\n').filter(Boolean)` */
  function ChunkLines(chunk: string): seq<string> {
    NonEmptyLines(Lines(chunk))
  }

  /** The project a chunk describes, named by its first non-empty line (trimmed); None without one. */
  function ProjectOfChunk(chunk: string): Option<Project> {
    var lines := ChunkLines(chunk);
    if lines == [] then None
    else Some(ProjectAfter(NewProject(Trim(lines[0])), FieldsOfLines(lines), |lines|))
  }

  /** The project (or None) of every `##`-separated chunk. */
  function ChunkProjects(chunks: seq<string>): (ps: seq<Option<Project>>)
    ensures |ps| == |chunks|
    decreases |chunks|
  {
    if chunks == [] then [] else [ProjectOfChunk(chunks[0])] + ChunkProjects(chunks[1..])
  }

  lemma {:induction false} ChunkProjectsAt(chunks: seq<string>, i: nat)
    requires i < |chunks|
    ensures ChunkProjects(chunks)[i] == ProjectOfChunk(chunks[i])
    decreases i
  {
    if i > 0 {
      ChunkProjectsAt(chunks[1..], i - 1);
    }
  }

  /** The projects of chunks `1 .. n - 1`, in order (the text before the first `##` is skipped). */
  function Collected(ps: seq<Option<Project>>, n: nat): (projects: seq<Project>)
    requires 1 <= n <= |ps|
    ensures |projects| <= n - 1
  {
    if n == 1 then []
    else Collected(ps, n - 1) + if ps[n - 1].None? then [] else [ps[n - 1].value]
  }

  /** What `parseProjects` returns. */
  function Projects(content: string): seq<Project> {
    var chunks := SplitOn(content, "##");
    Collected(ChunkProjects(chunks), |chunks|)
  }

  /** Reads one project from its non-empty lines. */
  method ReadProject(name: string, lines: seq<string>) returns (project: Project)
    ensures project == ProjectAfter(NewProject(name), FieldsOfLines(lines), |lines|)
  {
    project := Project(id := ProjectId(name), name := name, status := "unknown",
      url := None, description := None, techStack := None, pending := None, details := map[]);
    ghost var fs := FieldsOfLines(lines);
    var i := 0;
    while i < |lines|
      invariant 0 <= i <= |lines|
      invariant project == ProjectAfter(NewProject(name), fs, i)
    {
      ReadProjectStep(NewProject(name), lines, i);
      project := ProjectLine(project, lines[i]);
      i := i + 1;
    }
  }

  lemma ReadProjectStep(p: Project, lines: seq<string>, i: nat)
    requires i < |lines|
    ensures ApplyFields(ProjectAfter(p, FieldsOfLines(lines), i), FieldsOf(lines[i]))
         == ProjectAfter(p, FieldsOfLines(lines), i + 1)
  {
    FieldsOfLinesAt(lines, i);
  }

  /** The body of the chunk loop of `parseProjects`. */
  method ChunkProject(section: string) returns (project: Option<Project>)
    ensures project == ProjectOfChunk(section)
  {
    var lines := ChunkLines(section);
    if |lines| == 0 {
      return None;
    }
    var name := Trim(lines[0]);
    var p := ReadProject(name, lines);
    project := Some(p);
  }

  /** `parseProjects` */
  method ParseProjects(content: string) returns (projects: seq<Project>)
    ensures projects == Projects(content)
  {
    var sections := SplitOn(content, "##");
    projects := CollectProjects(sections);
  }

  /** The chunk loop of `parseProjects`, over the chunks after the first. */
  method CollectProjects(sections: seq<string>) returns (projects: seq<Project>)
    requires |sections| >= 1
    ensures projects == Collected(ChunkProjects(sections), |sections|)
  {
    ghost var ps := ChunkProjects(sections);
    projects := [];
    var i := 1;
    while i < |sections|
      invariant 1 <= i <= |sections|
      invariant projects == Collected(ps, i)
    {
      ChunkProjectsAt(sections, i);
      projects := AddChunk(projects, sections, i, ps);
      i := i + 1;
    }
  }

  /** One turn of the chunk loop of `parseProjects`: the project of chunk `i`, if any, is appended. */
  method AddChunk(projects: seq<Project>, sections: seq<string>, i: nat, ghost ps: seq<Option<Project>>)
    returns (projects': seq<Project>)
    requires 1 <= i < |sections| == |ps| && ps[i] == ProjectOfChunk(sections[i])
    requires projects == Collected(ps, i)
    ensures projects' == Collected(ps, i + 1)
  {
    var project := ChunkProject(sections[i]);
    projects' := projects;
    if project.Some? {
      projects' := projects + [project.value];
    }
  }

  /** A project's id is its name lower-cased with each character outside `[a-z0-9]` made `-`. */
  predicate IdFromName(p: Project) {
    p.id == ReplaceNonAlnum(Lower(p.name), '-')
  }

  lemma ProjectOfChunkId(chunk: string)
    requires ProjectOfChunk(chunk).Some?
    ensures IdFromName(ProjectOfChunk(chunk).value)
  {
    var lines := ChunkLines(chunk);
    ProjectAfterLastWins(NewProject(Trim(lines[0])), FieldsOfLines(lines), |lines|);
    ProjectIdMeaning(Trim(lines[0]));
  }

  lemma {:induction false} CollectedIds(ps: seq<Option<Project>>, n: nat)
    requires 1 <= n <= |ps|
    requires forall k :: 1 <= k < n && ps[k].Some? ==> IdFromName(ps[k].value)
    ensures forall p :: p in Collected(ps, n) ==> IdFromName(p)
  {
    if n > 1 {
      CollectedIds(ps, n - 1);
    }
  }

  /** Every project's id is derived from its name. */
  lemma ProjectIds(content: string)
    ensures forall p :: p in Projects(content) ==> IdFromName(p)
  {
    var chunks := SplitOn(content, "##");
    var ps := ChunkProjects(chunks);
    forall k | 1 <= k < |chunks| && ps[k].Some? ensures IdFromName(ps[k].value) {
      ChunkProjectsAt(chunks, k);
      ProjectOfChunkId(chunks[k]);
    }
    CollectedIds(ps, |chunks|);
  }

  predicate HasLine(chunk: string) { ChunkLines(chunk) != [] }

  /** One project per chunk after the first that has a non-empty line. */
  lemma {:induction false} ProjectsCount(chunks: seq<string>, n: nat)
    requires 1 <= n <= |chunks|
    ensures |Collected(ChunkProjects(chunks), n)| == Count(chunks[1..n], HasLine)
  {
    if n > 1 {
      var m := n - 1;
      ProjectsCount(chunks, m);
      SliceSnoc(chunks, 1, m);
      CountSnoc(chunks[1..m], chunks[m], HasLine);
      ChunkProjectsAt(chunks, m);
    } else {
      assert chunks[1..n] == [];
    }
  }
}
