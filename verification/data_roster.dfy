/**
 * The data layer's roster reader (`parseAgentsData` in data-layer-server.js): table
 * rows `| **Name** | Role | Model | Responsibility |` keyed by the trimmed,
 * lower-cased name (a later row with the same key replaces the earlier record),
 * `- **Label**` bullets appended to the most recent row's responsibilities, and the
 * SOUL.md files attached to the first key that contains, or is contained in, the
 * directory name. Keys are kept in insertion order, the order `Object.keys` gives.
 */
module Roster {
  import opened Strings
  import opened Patterns
  import opened Seqs

  /** A SOUL.md file as `readAllSoulFiles` records it. */
  datatype SoulFile = SoulFile(path: string, content: string)

  datatype RosterAgent = RosterAgent(
    name: string,
    model: string,
    role: string,
    responsibilities: seq<string>,
    skills: seq<string>,
    soul: Option<SoulFile>)

  /** The four captured groups of the row pattern, untrimmed. */
  datatype RowFields = RowFields(name: string, role: string, model: string, responsibility: string)

  /** The agents object: its keys in insertion order and the record under each key. */
  datatype RosterMap = RosterMap(keys: seq<string>, agents: map<string, RosterAgent>)

  // ------------------------------------------------------------ the row pattern

  /** A captured group: the characters `s[lo..hi]` of the line. */
  datatype Span = Span(lo: int, hi: int)

  /** Where the four groups of the row pattern lie in the line. */
  datatype RowSpans = RowSpans(name: Span, role: Span, model: Span, resp: Span)

  /** The four groups lie in order inside a line of length `n`. */
  predicate InOrder(r: RowSpans, n: int) {
    0 <= r.name.lo <= r.name.hi <= r.role.lo <= r.role.hi <= r.model.lo <= r.model.hi <= r.resp.lo <= r.resp.hi <= n
  }

  /** The number of characters other than `*` starting at `p`: what `[^*]+` can take. */
  function NonStarRun(s: string, p: nat): (n: nat)
    requires p <= |s|
    ensures p + n <= |s|
    decreases |s| - p
  {
    if p < |s| && s[p] != '*' then 1 + NonStarRun(s, p + 1) else 0
  }

  /** The first `|` at or after `i`, or -1. */
  function BarFrom(s: string, i: nat): (k: int)
    requires i <= |s|
    ensures k == -1 || (i <= k < |s| && s[k] == '|')
    decreases |s| - i
  {
    if i == |s| then -1 else if s[i] == '|' then i else BarFrom(s, i + 1)
  }

  /**
   * `\s*([^|]+)\|` (and `\s*([^|]+)\s*\|`) after the bar at `c`: the group runs up
   * to the next bar and holds at least one character; the leading white space goes
   * to `\s*`, which gives one character back when the cell is all white space.
   */
  function CellAfter(s: string, c: nat): (r: Option<Span>)
    requires c < |s|
    ensures r.Some? ==> c + 1 <= r.value.lo < r.value.hi < |s| && s[r.value.hi] == '|'
  {
    var q := BarFrom(s, c + 1);
    if q <= c + 1 then None
    else
      var k := c + 1 + SpaceRun(s, c + 1);
      Some(Span(if k < q then k else q - 1, q))
  }

  /** `\*\*([^*]+)\*\*` at `a`: the end of the group, or None. */
  function BoldAt(s: string, a: nat): (b: Option<int>)
    requires a <= |s|
    ensures b.Some? ==> a + 2 < b.value && b.value + 2 <= |s|
  {
    if a + 2 <= |s| && s[a] == '*' && s[a + 1] == '*' then
      var n := NonStarRun(s, a + 2);
      if n >= 1 && a + 2 + n + 2 <= |s| && s[a + 2 + n + 1] == '*' then
        Some(a + 2 + n)
      else None
    else None
  }

  /** The three cells after the bar at `c`: role, model and responsibility. */
  function RowCells(s: string, c: nat): (r: Option<(Span, Span, Span)>)
    requires c < |s|
    ensures r.Some? ==> c < r.value.0.lo < r.value.0.hi < r.value.1.lo < r.value.1.hi < r.value.2.lo < r.value.2.hi < |s|
  {
    var role := CellAfter(s, c);
    if role.None? then None
    else
      var model := CellAfter(s, role.value.hi);
      if model.None? then None
      else
        var resp := CellAfter(s, model.value.hi);
        if resp.None? then None
        else Some((role.value, model.value, resp.value))
  }

  /** The row pattern matched with its first `|` at `p`. */
  function RowAt(s: string, p: nat): (r: Option<RowSpans>)
    requires p <= |s|
    ensures r.Some? ==> InOrder(r.value, |s|)
  {
    if p == |s| || s[p] != '|' then None
    else
      var a := p + 1 + SpaceRun(s, p + 1);
      var b := BoldAt(s, a);
      if b.None? then None
      else
        var c := b.value + 2 + SpaceRun(s, b.value + 2);
        if c == |s| || s[c] != '|' then None
        else
          var cells := RowCells(s, c);
          if cells.None? then None
          else Some(RowSpans(Span(a + 2, b.value), cells.value.0, cells.value.1, cells.value.2))
  }

  /** The unanchored search: the first position at or after `p` where the row pattern matches. */
  function RowFrom(s: string, p: nat): (r: Option<RowSpans>)
    requires p <= |s|
    ensures r.Some? ==> InOrder(r.value, |s|)
    decreases |s| - p
  {
    if p == |s| then None
    else if RowAt(s, p).Some? then RowAt(s, p)
    else RowFrom(s, p + 1)
  }

  function Group(s: string, g: Span): string
    requires 0 <= g.lo <= g.hi <= |s|
  {
    s[g.lo..g.hi]
  }

  /** `line.match(...)` with the row pattern: the four groups of the first match. */
  function RowMatch(line: string): Option<RowFields> {
    var r := RowFrom(line, 0);
    if r.None? then None
    else Some(RowFields(Group(line, r.value.name), Group(line, r.value.role),
                        Group(line, r.value.model), Group(line, r.value.resp)))
  }

  // ------------------------------------------------------------ reading a laid-out row

  lemma {:induction false} NonStarRunIs(s: string, p: nat, n: nat)
    requires p + n <= |s| && (p + n == |s| || s[p + n] == '*')
    requires forall i :: p <= i < p + n ==> s[i] != '*'
    ensures NonStarRun(s, p) == n
    decreases n
  {
    if n > 0 {
      NonStarRunIs(s, p + 1, n - 1);
    }
  }

  lemma {:induction false} BarFromIs(s: string, i: nat, k: nat)
    requires i <= k < |s| && s[k] == '|'
    requires forall j :: i <= j < k ==> s[j] != '|'
    ensures BarFrom(s, i) == k
    decreases k - i
  {
    if i < k {
      BarFromIs(s, i + 1, k);
    }
  }

  /** A cell of one space and then a group starting with a character other than white space. */
  lemma CellAfterIs(s: string, c: nat, q: nat)
    requires c + 2 < q < |s| && s[q] == '|' && s[c + 1] == ' ' && !IsSpace(s[c + 2])
    requires forall j :: c + 1 <= j < q ==> s[j] != '|'
    ensures CellAfter(s, c) == Some(Span(c + 2, q))
  {
    BarFromIs(s, c + 1, q);
    assert SpaceRun(s, c + 1) == 1;
  }

  /** A `| **name** |` opening whose name takes `n` characters. */
  lemma HeadAt(s: string, n: nat)
    requires 1 <= n && 8 + n <= |s|
    requires s[0] == '|' && s[1] == ' ' && s[2] == '*' && s[3] == '*'
    requires s[4 + n] == '*' && s[5 + n] == '*' && s[6 + n] == ' ' && s[7 + n] == '|'
    requires forall i :: 4 <= i < 4 + n ==> s[i] != '*'
    ensures SpaceRun(s, 1) == 1 && BoldAt(s, 2) == Some(4 + n) && SpaceRun(s, 6 + n) == 1
  {
    assert !IsSpace(s[2]) && !IsSpace(s[7 + n]);
    NonStarRunIs(s, 4, n);
  }

  /** Three cells, each one space and then its group, after the bar at `c`. */
  lemma RowCellsIs(s: string, c: nat, k1: nat, k2: nat, k3: nat)
    requires c + 2 < k1 && k1 + 2 < k2 && k2 + 2 < k3 < |s|
    requires s[k1] == '|' && s[k2] == '|' && s[k3] == '|'
    requires s[c + 1] == ' ' && s[k1 + 1] == ' ' && s[k2 + 1] == ' '
    requires !IsSpace(s[c + 2]) && !IsSpace(s[k1 + 2]) && !IsSpace(s[k2 + 2])
    requires forall j :: c + 1 <= j < k3 && j != k1 && j != k2 ==> s[j] != '|'
    ensures RowCells(s, c) == Some((Span(c + 2, k1), Span(k1 + 2, k2), Span(k2 + 2, k3)))
  {
    CellAfterIs(s, c, k1);
    CellAfterIs(s, k1, k2);
    CellAfterIs(s, k2, k3);
  }

  /** A line whose head and bars sit at `4 + n`, `k1`, `k2` and `k3` matches there. */
  lemma RowAtParts(s: string, n: nat, k1: nat, k2: nat, k3: nat)
    requires 1 <= n && 9 + n < k1 && k1 + 2 < k2 && k2 + 2 < k3 < |s|
    requires s[0] == '|' && s[1] == ' ' && s[2] == '*' && s[3] == '*'
    requires s[4 + n] == '*' && s[5 + n] == '*' && s[6 + n] == ' ' && s[7 + n] == '|'
    requires forall i :: 4 <= i < 4 + n ==> s[i] != '*'
    requires s[k1] == '|' && s[k2] == '|' && s[k3] == '|'
    requires s[8 + n] == ' ' && s[k1 + 1] == ' ' && s[k2 + 1] == ' '
    requires !IsSpace(s[9 + n]) && !IsSpace(s[k1 + 2]) && !IsSpace(s[k2 + 2])
    requires forall j :: 8 + n <= j < k3 && j != k1 && j != k2 ==> s[j] != '|'
    ensures RowAt(s, 0) == Some(RowSpans(Span(4, 4 + n), Span(9 + n, k1), Span(k1 + 2, k2), Span(k2 + 2, k3)))
  {
    HeadAt(s, n);
    RowCellsIs(s, 7 + n, k1, k2, k3);
  }

  /**
   * `s` is laid out as `| **name** |`, then a space, `t1`, a bar, a space, `t2`, a bar,
   * a space, `t3` and a closing bar, where each `t` is bar-free and starts with a
   * character other than white space.
   */
  predicate LaidOutRow(s: string, name: string, t1: string, t2: string, t3: string) {
    var n := |name|;
    var k1 := 9 + n + |t1|;
    var k2 := k1 + 2 + |t2|;
    var k3 := k2 + 2 + |t3|;
    name != [] && '*' !in name &&
    t1 != [] && !IsSpace(t1[0]) && '|' !in t1 &&
    t2 != [] && !IsSpace(t2[0]) && '|' !in t2 &&
    t3 != [] && !IsSpace(t3[0]) && '|' !in t3 &&
    |s| == k3 + 1 &&
    s[0] == '|' && s[1] == ' ' && s[2] == '*' && s[3] == '*' && LiesAt(s, 4, name) &&
    s[4 + n] == '*' && s[5 + n] == '*' && s[6 + n] == ' ' && s[7 + n] == '|' &&
    s[8 + n] == ' ' && LiesAt(s, 9 + n, t1) && s[k1] == '|' &&
    s[k1 + 1] == ' ' && LiesAt(s, k1 + 2, t2) && s[k2] == '|' &&
    s[k2 + 1] == ' ' && LiesAt(s, k2 + 2, t3) && s[k3] == '|'
  }

  /** The characters of a laid-out row that the pattern looks at. */
  lemma LaidOutChars(s: string, name: string, t1: string, t2: string, t3: string)
    requires LaidOutRow(s, name, t1, t2, t3)
    ensures var n := |name|;
      var k1 := 9 + n + |t1|;
      var k2 := k1 + 2 + |t2|;
      var k3 := k2 + 2 + |t3|;
      (forall i :: 4 <= i < 4 + n ==> s[i] != '*') &&
      (forall j :: 8 + n <= j < k3 && j != k1 && j != k2 ==> s[j] != '|') &&
      !IsSpace(s[9 + n]) && !IsSpace(s[k1 + 2]) && !IsSpace(s[k2 + 2])
  {
    var n := |name|;
    var k1 := 9 + n + |t1|;
    var k2 := k1 + 2 + |t2|;
    var k3 := k2 + 2 + |t3|;
    forall i | 4 <= i < 4 + n
      ensures s[i] != '*'
    {
      assert s[4 + (i - 4)] == name[i - 4];
    }
    forall j | 8 + n <= j < k3 && j != k1 && j != k2
      ensures s[j] != '|'
    {
      if 9 + n <= j < k1 {
        assert s[9 + n + (j - 9 - n)] == t1[j - 9 - n];
      } else if k1 + 2 <= j < k2 {
        assert s[k1 + 2 + (j - k1 - 2)] == t2[j - k1 - 2];
      } else if k2 + 2 <= j {
        assert s[k2 + 2 + (j - k2 - 2)] == t3[j - k2 - 2];
      }
    }
    assert s[9 + n + 0] == t1[0] && s[k1 + 2 + 0] == t2[0] && s[k2 + 2 + 0] == t3[0];
  }

  /** A match at the start of the line with groups at `a`, `b`, `c` and `d` is what `line.match` reports. */
  lemma RowMatchAt(s: string, a: Span, b: Span, c: Span, d: Span)
    requires RowAt(s, 0) == Some(RowSpans(a, b, c, d))
    ensures 0 <= a.lo <= a.hi <= b.lo <= b.hi <= c.lo <= c.hi <= d.lo <= d.hi <= |s|
    ensures RowMatch(s) == Some(RowFields(Group(s, a), Group(s, b), Group(s, c), Group(s, d)))
  {
    assert RowFrom(s, 0) == RowAt(s, 0);
  }

  /** What `line.match` reports for a line whose head and bars sit at `4 + n`, `k1`, `k2` and `k3`. */
  lemma RowMatchParts(s: string, n: nat, k1: nat, k2: nat, k3: nat)
    requires 1 <= n && 9 + n < k1 && k1 + 2 < k2 && k2 + 2 < k3 < |s|
    requires s[0] == '|' && s[1] == ' ' && s[2] == '*' && s[3] == '*'
    requires s[4 + n] == '*' && s[5 + n] == '*' && s[6 + n] == ' ' && s[7 + n] == '|'
    requires forall i :: 4 <= i < 4 + n ==> s[i] != '*'
    requires s[k1] == '|' && s[k2] == '|' && s[k3] == '|'
    requires s[8 + n] == ' ' && s[k1 + 1] == ' ' && s[k2 + 1] == ' '
    requires !IsSpace(s[9 + n]) && !IsSpace(s[k1 + 2]) && !IsSpace(s[k2 + 2])
    requires forall j :: 8 + n <= j < k3 && j != k1 && j != k2 ==> s[j] != '|'
    ensures RowMatch(s) == Some(RowFields(Group(s, Span(4, 4 + n)), Group(s, Span(9 + n, k1)), Group(s, Span(k1 + 2, k2)), Group(s, Span(k2 + 2, k3))))
  {
    RowAtParts(s, n, k1, k2, k3);
    RowMatchAt(s, Span(4, 4 + n), Span(9 + n, k1), Span(k1 + 2, k2), Span(k2 + 2, k3));
  }

  /** The groups over the parts of a laid-out row are those parts. */
  lemma GroupsLaidOut(s: string, name: string, t1: string, t2: string, t3: string)
    requires LaidOutRow(s, name, t1, t2, t3)
    ensures var n := |name|;
      var k1 := 9 + n + |t1|;
      var k2 := k1 + 2 + |t2|;
      var k3 := k2 + 2 + |t3|;
      Group(s, Span(4, 4 + n)) == name && Group(s, Span(9 + n, k1)) == t1 &&
      Group(s, Span(k1 + 2, k2)) == t2 && Group(s, Span(k2 + 2, k3)) == t3
  {
    var n := |name|;
    var k1 := 9 + n + |t1|;
    var k2 := k1 + 2 + |t2|;
    var k3 := k2 + 2 + |t3|;
    LiesAtSlice(s, 4, name);
    LiesAtSlice(s, 9 + n, t1);
    LiesAtSlice(s, k1 + 2, t2);
    LiesAtSlice(s, k2 + 2, t3);
  }

  /** A laid-out row matches with the groups `name`, `t1`, `t2` and `t3`. */
  lemma RowMatchLaidOut(s: string, name: string, t1: string, t2: string, t3: string)
    requires LaidOutRow(s, name, t1, t2, t3)
    ensures RowMatch(s) == Some(RowFields(name, t1, t2, t3))
  {
    var n := |name|;
    var k1 := 9 + n + |t1|;
    var k2 := k1 + 2 + |t2|;
    var k3 := k2 + 2 + |t3|;
    LaidOutChars(s, name, t1, t2, t3);
    RowMatchParts(s, n, k1, k2, k3);
    GroupsLaidOut(s, name, t1, t2, t3);
  }

  // ------------------------------------------------------------ the bullet pattern

  /** `^\s*-\s*\*\*([^*]+)\*\*`: the captured label, or None. */
  function BulletLabel(line: string): (g: Option<string>)
    ensures g.Some? ==> |g.value| >= 1
  {
    var i := SpaceRun(line, 0);
    if i == |line| || line[i] != '-' then None
    else
      var a := i + 1 + SpaceRun(line, i + 1);
      var b := BoldAt(line, a);
      if b.None? then None else Some(line[a + 2..b.value])
  }

  // ------------------------------------------------------------ the line fold

  /** The key of a row: the name lower-cased, then trimmed. */
  function RowKey(r: RowFields): string {
    Trim(Lower(r.name))
  }

  /** The record a row writes: trimmed name and role, trimmed lower-cased model, one responsibility. */
  function RecordOf(r: RowFields): (a: RosterAgent)
    ensures a.responsibilities == [Trim(r.responsibility)] && a.skills == [] && a.soul.None?
  {
    RosterAgent(Trim(r.name), Lower(Trim(r.model)), Trim(r.role), [Trim(r.responsibility)], [], None)
  }

  /** What the loop takes from a line: a row's key and record, a bullet's trimmed label, or nothing. */
  datatype RosterLineKind = RowLine(key: string, agent: RosterAgent) | BulletLine(item: string) | PlainLine

  /** The row test comes first; the bullet test only sees lines that are not rows. */
  function ClassifyRosterLine(line: string): RosterLineKind {
    match RowMatch(line)
    case Some(r) => RowLine(RowKey(r), RecordOf(r))
    case None =>
      match BulletLabel(line)
      case Some(t) => BulletLine(Trim(t))
      case None => PlainLine
  }

  function ClassifyRosterLines(lines: seq<string>): (kinds: seq<RosterLineKind>)
    ensures |kinds| == |lines|
    decreases |lines|
  {
    if lines == [] then [] else [ClassifyRosterLine(lines[0])] + ClassifyRosterLines(lines[1..])
  }

  lemma {:induction false} ClassifyRosterLinesAt(lines: seq<string>, i: nat)
    requires i < |lines|
    ensures ClassifyRosterLines(lines)[i] == ClassifyRosterLine(lines[i])
    decreases i
  {
    if i > 0 {
      ClassifyRosterLinesAt(lines[1..], i - 1);
    }
  }

  /** The loop's state: the agents object and `currentAgent` (None for `null`). */
  datatype RosterScan = RosterScan(roster: RosterMap, current: Option<string>)

  /** `currentAgent && ...`: the empty key is falsy, so bullets after a row with an empty key are dropped. */
  predicate Truthy(current: Option<string>) {
    current.Some? && current.value != ""
  }

  function Put(m: RosterMap, key: string, a: RosterAgent): RosterMap {
    RosterMap(if key in m.agents then m.keys else m.keys + [key], m.agents[key := a])
  }

  /** One iteration of the line loop. */
  function RosterStep(st: RosterScan, kind: RosterLineKind): RosterScan {
    match kind
    case RowLine(key, a) => RosterScan(Put(st.roster, key, a), Some(key))
    case BulletLine(item) =>
      if Truthy(st.current) && st.current.value in st.roster.agents then
        var k := st.current.value;
        var a := st.roster.agents[k];
        RosterScan(Put(st.roster, k, a.(responsibilities := a.responsibilities + [item])), st.current)
      else st
    case PlainLine => st
  }

  const EmptyScan := RosterScan(RosterMap([], map[]), None)

  /** The state after the first `n` lines. */
  function ScanRoster(kinds: seq<RosterLineKind>, n: nat): RosterScan
    requires n <= |kinds|
  {
    if n == 0 then EmptyScan else RosterStep(ScanRoster(kinds, n - 1), kinds[n - 1])
  }

  lemma ScanRosterStep(kinds: seq<RosterLineKind>, i: nat)
    requires i < |kinds|
    ensures ScanRoster(kinds, i + 1) == RosterStep(ScanRoster(kinds, i), kinds[i])
  {
  }

  /** The roster the line loop builds from a document's lines. */
  function ReadRoster(lines: seq<string>): RosterMap {
    var kinds := ClassifyRosterLines(lines);
    ScanRoster(kinds, |kinds|).roster
  }

  // ------------------------------------------------------------ what the line loop builds

  /** The agents object's keys are distinct and are exactly the keys that hold a record. */
  ghost predicate WellFormedRoster(m: RosterMap) {
    (forall i, j :: 0 <= i < j < |m.keys| ==> m.keys[i] != m.keys[j]) &&
    (forall k :: k in m.keys <==> k in m.agents)
  }

  /** `agents[key] = a` keeps the object well formed; the keys gain `key` and nothing else. */
  lemma PutKeeps(m: RosterMap, key: string, a: RosterAgent)
    requires WellFormedRoster(m)
    ensures WellFormedRoster(Put(m, key, a)) && Put(m, key, a).agents.Keys == m.agents.Keys + {key}
  {
    var m' := Put(m, key, a);
    if key !in m.agents {
      assert forall i :: 0 <= i < |m.keys| ==> m'.keys[i] == m.keys[i] != key;
    }
  }

  /** `Object.keys` after `agents[key] = a`: the earlier keys in their order, then `key` if it is new. */
  lemma PutOrder(m: RosterMap, key: string, a: RosterAgent)
    requires WellFormedRoster(m)
    ensures var ks := Put(m, key, a).keys;
      |m.keys| <= |ks| <= |m.keys| + 1 && ks[..|m.keys|] == m.keys && (|ks| > |m.keys| <==> key !in m.agents) &&
      (|ks| > |m.keys| ==> ks[|m.keys|] == key)
  {
  }

  /** The key of the most recent row among the first `n` lines, or None before any row. */
  function LastRowKey(kinds: seq<RosterLineKind>, n: nat): (k: Option<string>)
    requires n <= |kinds|
    ensures k.Some? <==> exists i :: 0 <= i < n && kinds[i].RowLine?
    decreases n
  {
    if n == 0 then None
    else if kinds[n - 1].RowLine? then Some(kinds[n - 1].key)
    else LastRowKey(kinds, n - 1)
  }

  /**
   * The loop's invariant: the agents object stays well formed and `currentAgent` is the
   * key of the most recent row, which always holds a record.
   */
  lemma {:induction false} ScanRosterState(kinds: seq<RosterLineKind>, n: nat)
    requires n <= |kinds|
    ensures var st := ScanRoster(kinds, n);
      WellFormedRoster(st.roster) && st.current == LastRowKey(kinds, n) &&
      (st.current.Some? ==> st.current.value in st.roster.agents)
    decreases n
  {
    if n > 0 {
      ScanRosterState(kinds, n - 1);
      var st := ScanRoster(kinds, n - 1);
      match kinds[n - 1]
      case RowLine(key, a) =>
        PutKeeps(st.roster, key, a);
      case BulletLine(item) =>
        if Truthy(st.current) && st.current.value in st.roster.agents {
          var k := st.current.value;
          var b := st.roster.agents[k];
          PutKeeps(st.roster, k, b.(responsibilities := b.responsibilities + [item]));
        }
      case PlainLine =>
    }
  }

  /** A key holds a record exactly when some row has that key. */
  lemma {:induction false} ScanRosterKeys(kinds: seq<RosterLineKind>, n: nat, key: string)
    requires n <= |kinds|
    ensures key in ScanRoster(kinds, n).roster.agents <==> exists i :: 0 <= i < n && kinds[i].RowLine? && kinds[i].key == key
    decreases n
  {
    if n > 0 {
      ScanRosterKeys(kinds, n - 1, key);
    }
  }

  /** Lines before the first row change nothing: a bullet with no row before it is dropped. */
  lemma {:induction false} NoRowNoAgents(kinds: seq<RosterLineKind>, n: nat)
    requires n <= |kinds|
    requires forall j :: 0 <= j < n ==> !kinds[j].RowLine?
    ensures ScanRoster(kinds, n) == EmptyScan
    decreases n
  {
    if n > 0 {
      NoRowNoAgents(kinds, n - 1);
    }
  }

  /**
   * The bullet items among lines `lo` to `hi - 1` that follow a row with key `key` and
   * no other row in between, when `key` is truthy.
   */
  function BulletsUnder(kinds: seq<RosterLineKind>, key: string, lo: nat, hi: nat): (items: seq<string>)
    requires lo <= hi <= |kinds|
    ensures |items| <= hi - lo
    decreases hi - lo
  {
    if hi == lo then []
    else
      var k := kinds[hi - 1];
      BulletsUnder(kinds, key, lo, hi - 1) +
        (if k.BulletLine? && key != "" && LastRowKey(kinds, hi - 1) == Some(key) then [k.item] else [])
  }

  /** A line that is neither a row with `key` nor a bullet under `key` leaves the record under `key` alone. */
  lemma StepKeepsRecord(st: RosterScan, kind: RosterLineKind, key: string)
    requires key in st.roster.agents
    requires !(kind.RowLine? && kind.key == key)
    requires !(kind.BulletLine? && key != "" && st.current == Some(key))
    ensures key in RosterStep(st, kind).roster.agents
    ensures RosterStep(st, kind).roster.agents[key] == st.roster.agents[key]
  {
  }

  /** A bullet under the truthy key `key` appends its item to that record's responsibilities. */
  lemma StepAppends(st: RosterScan, item: string, key: string)
    requires key in st.roster.agents && key != "" && st.current == Some(key)
    ensures var a := st.roster.agents[key];
      RosterStep(st, BulletLine(item)).roster.agents == st.roster.agents[key := a.(responsibilities := a.responsibilities + [item])]
  {
  }

  /**
   * The last row with a key wins: its record stands, with its one responsibility followed
   * by the items of the bullets that come after it while it is the most recent row.
   */
  lemma {:induction false} LastRowWins(kinds: seq<RosterLineKind>, i: nat, n: nat)
    requires i < n <= |kinds| && kinds[i].RowLine?
    requires forall j :: i < j < n && kinds[j].RowLine? ==> kinds[j].key != kinds[i].key
    ensures var key, a := kinds[i].key, kinds[i].agent;
      var m := ScanRoster(kinds, n).roster;
      key in m.agents && m.agents[key] == a.(responsibilities := a.responsibilities + BulletsUnder(kinds, key, i + 1, n))
    decreases n
  {
    var key, a := kinds[i].key, kinds[i].agent;
    if n > i + 1 {
      LastRowWins(kinds, i, n - 1);
      ScanRosterState(kinds, n - 1);
      var st, kind := ScanRoster(kinds, n - 1), kinds[n - 1];
      var before := BulletsUnder(kinds, key, i + 1, n - 1);
      if kind.BulletLine? && key != "" && LastRowKey(kinds, n - 1) == Some(key) {
        StepAppends(st, kind.item, key);
        assert BulletsUnder(kinds, key, i + 1, n) == before + [kind.item];
        assert a.responsibilities + before + [kind.item] == a.responsibilities + (before + [kind.item]);
      } else {
        StepKeepsRecord(st, kind, key);
        assert BulletsUnder(kinds, key, i + 1, n) == before;
      }
    }
  }

  // ------------------------------------------------------------ the SOUL.md merge

  /** `Object.keys(agents).find(key => agentKey.includes(key) || key.includes(agentKey))` */
  function MatchKey(keys: seq<string>, dir: string): (k: Option<nat>)
    ensures k.Some? ==> k.value < |keys|
    decreases |keys|
  {
    if keys == [] then None
    else if Contains(dir, keys[0]) || Contains(keys[0], dir) then Some(0)
    else
      var k := MatchKey(keys[1..], dir);
      if k.Some? then Some(k.value + 1) else None
  }

  /** `find` gives the first key that contains the directory name or is contained in it, or none. */
  lemma {:induction false} MatchKeyFirst(keys: seq<string>, dir: string)
    ensures var k := MatchKey(keys, dir);
      k.Some? ==> Contains(dir, keys[k.value]) || Contains(keys[k.value], dir)
    ensures var k := MatchKey(keys, dir);
      k.Some? ==> forall j :: 0 <= j < k.value ==> !Contains(dir, keys[j]) && !Contains(keys[j], dir)
    ensures var k := MatchKey(keys, dir);
      k.None? ==> forall j :: 0 <= j < |keys| ==> !Contains(dir, keys[j]) && !Contains(keys[j], dir)
    decreases |keys|
  {
    if keys != [] && !(Contains(dir, keys[0]) || Contains(keys[0], dir)) {
      MatchKeyFirst(keys[1..], dir);
    }
  }

  /** One soul entry: attached to the matching key unless that key is the (falsy) empty string. */
  function AttachSoulFile(m: RosterMap, dir: string, file: SoulFile): RosterMap {
    match MatchKey(m.keys, dir)
    case None => m
    case Some(k) =>
      var key := m.keys[k];
      if key != "" && key in m.agents then Put(m, key, m.agents[key].(soul := Some(file))) else m
  }

  /** The merge over the first `n` soul entries, in `Object.entries` order. */
  function MergeSouls(m: RosterMap, souls: seq<(string, SoulFile)>, n: nat): RosterMap
    requires n <= |souls|
  {
    if n == 0 then m else AttachSoulFile(MergeSouls(m, souls, n - 1), souls[n - 1].0, souls[n - 1].1)
  }

  /**
   * The soul `key` holds after the first `n` entries: the file of the last entry whose
   * first matching key is `key`, when `key` is truthy; otherwise what it held before.
   */
  function SoulAfter(m: RosterMap, souls: seq<(string, SoulFile)>, key: string, n: nat): Option<SoulFile>
    requires n <= |souls| && key in m.agents
  {
    if n == 0 then m.agents[key].soul
    else
      var k := MatchKey(m.keys, souls[n - 1].0);
      if key != "" && k.Some? && m.keys[k.value] == key then Some(souls[n - 1].1)
      else SoulAfter(m, souls, key, n - 1)
  }

  /** Setting the soul twice keeps the second. */
  lemma SoulTwice(a: RosterAgent, first: Option<SoulFile>, second: Option<SoulFile>)
    ensures a.(soul := first).(soul := second) == a.(soul := second)
  {
  }

  /** One soul entry keeps the keys, in their order, and the set of records. */
  lemma AttachKeeps(m: RosterMap, dir: string, file: SoulFile)
    ensures var m' := AttachSoulFile(m, dir, file);
      m'.keys == m.keys && forall k :: k in m'.agents <==> k in m.agents
  {
  }

  /** One soul entry sets the soul of its first matching key, when that key is truthy, and of no other. */
  lemma AttachRecord(m: RosterMap, dir: string, file: SoulFile, key: string)
    requires key in m.agents
    ensures var m', k := AttachSoulFile(m, dir, file), MatchKey(m.keys, dir);
      key in m'.agents &&
      m'.agents[key] == if key != "" && k.Some? && m.keys[k.value] == key then m.agents[key].(soul := Some(file)) else m.agents[key]
  {
  }

  /** The SOUL.md merge keeps the keys in their order and the set of records. */
  lemma {:induction false} MergeSoulsKeys(m: RosterMap, souls: seq<(string, SoulFile)>, n: nat)
    requires n <= |souls|
    ensures var m' := MergeSouls(m, souls, n);
      m'.keys == m.keys && forall k :: k in m'.agents <==> k in m.agents
    decreases n
  {
    if n > 0 {
      MergeSoulsKeys(m, souls, n - 1);
      AttachKeeps(MergeSouls(m, souls, n - 1), souls[n - 1].0, souls[n - 1].1);
    }
  }

  /** The SOUL.md merge keeps the roster well formed. */
  lemma MergeSoulsKeeps(m: RosterMap, souls: seq<(string, SoulFile)>, n: nat)
    requires n <= |souls| && WellFormedRoster(m)
    ensures WellFormedRoster(MergeSouls(m, souls, n))
  {
    MergeSoulsKeys(m, souls, n);
  }

  /**
   * The SOUL.md merge changes no field but `soul`; a record's soul comes from the last
   * entry whose first match it is, and an entry that matches no key, or only the empty
   * key, is dropped.
   */
  lemma {:induction false} MergeSoulsRecord(m: RosterMap, souls: seq<(string, SoulFile)>, n: nat, key: string)
    requires n <= |souls| && key in m.agents
    ensures var m' := MergeSouls(m, souls, n);
      key in m'.agents && m'.agents[key] == m.agents[key].(soul := SoulAfter(m, souls, key, n))
    decreases n
  {
    if n > 0 {
      var prev, dir, file := MergeSouls(m, souls, n - 1), souls[n - 1].0, souls[n - 1].1;
      var a, before := m.agents[key], SoulAfter(m, souls, key, n - 1);
      MergeSoulsRecord(m, souls, n - 1, key);
      MergeSoulsKeys(m, souls, n - 1);
      assert prev.agents[key] == a.(soul := before);
      AttachRecord(prev, dir, file, key);
      var k, m' := MatchKey(m.keys, dir), MergeSouls(m, souls, n);
      assert m' == AttachSoulFile(prev, dir, file);
      if key != "" && k.Some? && m.keys[k.value] == key {
        assert SoulAfter(m, souls, key, n) == Some(file);
        SoulTwice(a, before, Some(file));
        assert m'.agents[key] == a.(soul := Some(file));
      } else {
        assert SoulAfter(m, souls, key, n) == before;
        assert m'.agents[key] == a.(soul := before);
      }
    }
  }

  /** What `parseAgentsData` returns; `None` and the empty text both give `{}`. */
  function AgentsData(agentsMd: Option<string>, souls: seq<(string, SoulFile)>): RosterMap {
    if agentsMd.None? || agentsMd.value == "" then RosterMap([], map[])
    else
      var lines := Lines(agentsMd.value);
      MergeSouls(ReadRoster(lines), souls, |souls|)
  }

  /** The object `parseAgentsData` returns is well formed, and missing or empty text gives `{}`. */
  lemma AgentsDataWellFormed(agentsMd: Option<string>, souls: seq<(string, SoulFile)>)
    ensures WellFormedRoster(AgentsData(agentsMd, souls))
    ensures agentsMd.None? || agentsMd.value == "" ==> AgentsData(agentsMd, souls).keys == []
  {
    if agentsMd.Some? && agentsMd.value != "" {
      var kinds := ClassifyRosterLines(Lines(agentsMd.value));
      ScanRosterState(kinds, |kinds|);
      MergeSoulsKeeps(ReadRoster(Lines(agentsMd.value)), souls, |souls|);
    }
  }

  /** An agent is in the result exactly when some line of the text is a row with its key. */
  lemma AgentsDataKeys(md: string, souls: seq<(string, SoulFile)>, key: string)
    requires md != ""
    ensures var kinds := ClassifyRosterLines(Lines(md));
      key in AgentsData(Some(md), souls).agents <==> exists i :: 0 <= i < |kinds| && kinds[i].RowLine? && kinds[i].key == key
  {
    var kinds := ClassifyRosterLines(Lines(md));
    var r := ReadRoster(Lines(md));
    assert r == ScanRoster(kinds, |kinds|).roster;
    assert AgentsData(Some(md), souls) == MergeSouls(r, souls, |souls|);
    ScanRosterKeys(kinds, |kinds|, key);
    MergeSoulsKeys(r, souls, |souls|);
    assert key in AgentsData(Some(md), souls).agents <==> key in r.agents;
    if key in AgentsData(Some(md), souls).agents {
      var i :| 0 <= i < |kinds| && kinds[i].RowLine? && kinds[i].key == key;
      assert ClassifyRosterLines(Lines(md))[i].RowLine? && ClassifyRosterLines(Lines(md))[i].key == key;
    }
  }

  // ------------------------------------------------------------ the loops

  method ParseAgentsData(agentsMd: Option<string>, souls: seq<(string, SoulFile)>) returns (roster: RosterMap)
    ensures roster == AgentsData(agentsMd, souls)
  {
    if agentsMd.None? || agentsMd.value == "" {
      return RosterMap([], map[]);
    }
    var lines := Lines(agentsMd.value);
    var st := ScanLines(lines);
    roster := MergeSoulEntries(st.roster, souls);
  }

  method ScanLines(lines: seq<string>) returns (st: RosterScan)
    ensures st.roster == ReadRoster(lines)
  {
    ghost var kinds := ClassifyRosterLines(lines);
    st := EmptyScan;
    for i := 0 to |lines|
      invariant st == ScanRoster(kinds, i)
    {
      st := NextLine(lines, i, kinds, st);
    }
  }

  /** One turn of the loop: the state after `i` lines becomes the state after `i + 1`. */
  method NextLine(lines: seq<string>, i: nat, ghost kinds: seq<RosterLineKind>, st: RosterScan) returns (st': RosterScan)
    requires i < |lines| && kinds == ClassifyRosterLines(lines) && st == ScanRoster(kinds, i)
    ensures st' == ScanRoster(kinds, i + 1)
  {
    ScanRosterStep(kinds, i);
    ClassifyRosterLinesAt(lines, i);
    st' := RosterLine(st, lines[i]);
  }

  /** The loop body: the row test, then the bullet test. */
  method RosterLine(st: RosterScan, line: string) returns (st': RosterScan)
    ensures st' == RosterStep(st, ClassifyRosterLine(line))
  {
    var row := RowMatch(line);
    if row.Some? {
      var key := RowKey(row.value);
      st' := RosterScan(Put(st.roster, key, RecordOf(row.value)), Some(key));
    } else if Truthy(st.current) && st.current.value in st.roster.agents && BulletLabel(line).Some? {
      var k := st.current.value;
      var a := st.roster.agents[k];
      var item := Trim(BulletLabel(line).value);
      st' := RosterScan(Put(st.roster, k, a.(responsibilities := a.responsibilities + [item])), st.current);
    } else {
      st' := st;
    }
  }

  method MergeSoulEntries(m: RosterMap, souls: seq<(string, SoulFile)>) returns (m': RosterMap)
    ensures m' == MergeSouls(m, souls, |souls|)
  {
    m' := m;
    var i := 0;
    while i < |souls|
      invariant i <= |souls| && m' == MergeSouls(m, souls, i)
    {
      m' := AttachSoulFile(m', souls[i].0, souls[i].1);
      i := i + 1;
    }
  }
}
