/**
 * The git analytics of the data layer (`data-layer-server.js`, `buildGitAnalytics`):
 * commit lines of `git log --format="%H|%an|%ae|%ad|%s"`, statistics per author,
 * commits per day, and the totals of `git log --numstat`.
 *
 * The presence of `.git`, the two commands' outputs and the conversion of a date to
 * ISO form (`new Date(d).toISOString()`, None where it throws) are parameters.
 */
module DataGit {
  import opened Strings
  import opened Seqs

  datatype Commit = Commit(hash: string, fullHash: string, author: string, email: string, date: string, message: string)

  /** Why the analytics come back as `{ error }`. */
  datatype GitError =
    | NotARepository   // no `.git` directory
    | CommandFailed    // `git log` could not run
    | MalformedLine    // a commit line with fewer than four fields: `undefined.trim()` throws
    | InvalidDate      // a date that `toISOString` rejects

  datatype Parsed<T> = Ok(value: T) | Err(error: GitError)

  /** The conversion of a date to its ISO text; None where `toISOString` throws. */
  type IsoDate = string -> Option<string>

  // ------------------------------------------------------------ commit lines

  /** `filter(Boolean)` on lines. */
  function NotEmpty(s: string): bool { s != [] }

  /**
   * One commit line: hash, author, email and date are the first four `|` fields and the
   * message is the rest, joined back with `|`; the short hash is the first seven characters.
   */
  function ParseCommitLine(line: string, iso: IsoDate): (r: Parsed<Commit>)
    ensures r.Err? <==> |Split(line, '|')| < 4 || iso(Trim(Split(line, '|')[3])).None?
    ensures r.Ok? ==> r.value.fullHash == Split(line, '|')[0] && r.value.hash == Prefix(r.value.fullHash, 7)
  {
    var parts := Split(line, '|');
    if |parts| < 4 then Err(MalformedLine)
    else
      match iso(Trim(parts[3]))
      case None => Err(InvalidDate)
      case Some(date) =>
        Ok(Commit(Prefix(parts[0], 7), parts[0], Trim(parts[1]), Trim(parts[2]), date, Trim(Join(parts[4..], "|"))))
  }

  /** Each line's commit, or the error it throws. */
  function ParseEach(lines: seq<string>, iso: IsoDate): (rs: seq<Parsed<Commit>>)
    ensures |rs| == |lines|
    decreases |lines|
  {
    if lines == [] then [] else [ParseCommitLine(lines[0], iso)] + ParseEach(lines[1..], iso)
  }

  lemma {:induction false} ParseEachAt(lines: seq<string>, iso: IsoDate, i: nat)
    requires i < |lines|
    ensures ParseEach(lines, iso)[i] == ParseCommitLine(lines[i], iso)
    decreases i
  {
    if i > 0 {
      ParseEachAt(lines[1..], iso, i - 1);
    }
  }

  /** The commits when no line throws, or the first line's error. */
  function Collect(rs: seq<Parsed<Commit>>): Parsed<seq<Commit>>
    decreases |rs|
  {
    if rs == [] then Ok([])
    else
      match rs[0]
      case Err(e) => Err(e)
      case Ok(c) =>
        match Collect(rs[1..])
        case Err(e) => Err(e)
        case Ok(rest) => Ok([c] + rest)
  }

  /** `map` over the lines: the first line that throws ends the analytics. */
  function ParseCommits(lines: seq<string>, iso: IsoDate): Parsed<seq<Commit>> {
    Collect(ParseEach(lines, iso))
  }

  /** Collecting succeeds exactly when every result does, and keeps them in order. */
  lemma {:induction false} CollectMeaning(rs: seq<Parsed<Commit>>)
    ensures Collect(rs).Ok? <==> forall i :: 0 <= i < |rs| ==> rs[i].Ok?
    ensures Collect(rs).Ok? ==> |Collect(rs).value| == |rs|
    ensures Collect(rs).Ok? ==> forall i :: 0 <= i < |rs| ==> rs[i] == Ok(Collect(rs).value[i])
    decreases |rs|
  {
    if rs != [] {
      CollectMeaning(rs[1..]);
      forall i | 0 < i < |rs|
        ensures rs[i] == rs[1..][i - 1]
      {
      }
    }
  }

  /** The commits are the lines' commits, one per line in order, unless some line throws. */
  lemma ParseCommitsMeaning(lines: seq<string>, iso: IsoDate)
    ensures ParseCommits(lines, iso).Ok? <==> forall i :: 0 <= i < |lines| ==> ParseCommitLine(lines[i], iso).Ok?
    ensures ParseCommits(lines, iso).Ok? ==> |ParseCommits(lines, iso).value| == |lines|
    ensures ParseCommits(lines, iso).Ok? ==>
      forall i :: 0 <= i < |lines| ==> ParseCommitLine(lines[i], iso) == Ok(ParseCommits(lines, iso).value[i])
  {
    var rs := ParseEach(lines, iso);
    CollectMeaning(rs);
    forall i | 0 <= i < |lines|
      ensures rs[i] == ParseCommitLine(lines[i], iso)
    {
      ParseEachAt(lines, iso, i);
    }
  }

  /** A field followed by `|` and what comes after it. */
  function Field(x: string, rest: string): string {
    x + ['|'] + rest
  }

  /** The line `git log` writes for a commit. */
  function CommitLineText(hash: string, author: string, email: string, date: string, message: string): string {
    Field(hash, Field(author, Field(email, Field(date, message))))
  }

  /** The four leading fields come back as written and the message whole, `|` included. */
  lemma CommitLineSplit(hash: string, author: string, email: string, date: string, message: string)
    requires '|' !in hash && '|' !in author && '|' !in email && '|' !in date
    ensures Split(CommitLineText(hash, author, email, date, message), '|') == [hash, author, email, date] + Split(message, '|')
  {
    SplitAfterPrefix(date, '|', message);
    SplitAfterPrefix(email, '|', Field(date, message));
    SplitAfterPrefix(author, '|', Field(email, Field(date, message)));
    SplitAfterPrefix(hash, '|', Field(author, Field(email, Field(date, message))));
  }

  /**
   * Reading a written commit line gives back its fields, trimmed, with the date in ISO
   * form, and the whole message even where it contains `|`.
   */
  lemma CommitLineRoundTrip(hash: string, author: string, email: string, date: string, message: string, iso: IsoDate)
    requires '|' !in hash && '|' !in author && '|' !in email && '|' !in date
    requires iso(Trim(date)).Some?
    ensures ParseCommitLine(CommitLineText(hash, author, email, date, message), iso) ==
      Ok(Commit(Prefix(hash, 7), hash, Trim(author), Trim(email), iso(Trim(date)).value, Trim(message)))
  {
    var parts := Split(CommitLineText(hash, author, email, date, message), '|');
    CommitLineSplit(hash, author, email, date, message);
    assert parts[4..] == Split(message, '|');
    JoinSplit(message, '|');
  }

  /** A line with fewer than three `|` separators is malformed. */
  lemma ShortLineFails(line: string, iso: IsoDate)
    requires |Split(line, '|')| < 4
    ensures ParseCommitLine(line, iso) == Err(MalformedLine)
  {
  }

  // ------------------------------------------------------------ statistics per author

  /** `authorStats[author]`: the email and date of the author's first commit listed, their count, the date of the last. */
  datatype AuthorStat = AuthorStat(email: string, commits: nat, firstCommit: string, lastCommit: string)

  /** One turn of the `forEach`: a new author starts at their commit, a known one counts it and moves `lastCommit`. */
  function AuthorStep(stats: map<string, AuthorStat>, c: Commit): map<string, AuthorStat> {
    if c.author !in stats then stats[c.author := AuthorStat(c.email, 1, c.date, c.date)]
    else stats[c.author := stats[c.author].(commits := stats[c.author].commits + 1, lastCommit := c.date)]
  }

  function AuthorStats(commits: seq<Commit>): map<string, AuthorStat>
    decreases |commits|
  {
    if commits == [] then map[]
    else AuthorStep(AuthorStats(commits[..|commits| - 1]), commits[|commits| - 1])
  }

  /** The commits of one author, in the order listed. */
  function Authored(commits: seq<Commit>, author: string): (r: seq<Commit>)
    ensures |r| <= |commits|
    ensures forall i :: 0 <= i < |r| ==> r[i].author == author && r[i] in commits
    decreases |commits|
  {
    if commits == [] then []
    else
      var front, last := commits[..|commits| - 1], commits[|commits| - 1];
      assert forall c :: c in front ==> c in commits;
      Authored(front, author) + (if last.author == author then [last] else [])
  }

  /** What an author's statistics say about their commits. */
  function StatOf(own: seq<Commit>): AuthorStat
    requires own != []
  {
    AuthorStat(own[0].email, |own|, own[0].date, own[|own| - 1].date)
  }

  /**
   * An author has statistics exactly when they wrote a listed commit; the statistics count
   * their commits and take the email and `firstCommit` from the first listed and
   * `lastCommit` from the last listed.
   */
  lemma {:induction false} AuthorStatsMeaning(commits: seq<Commit>, author: string)
    ensures author in AuthorStats(commits) <==> Authored(commits, author) != []
    ensures author in AuthorStats(commits) ==> AuthorStats(commits)[author] == StatOf(Authored(commits, author))
    decreases |commits|
  {
    if commits != [] {
      var front, last := commits[..|commits| - 1], commits[|commits| - 1];
      var own := Authored(front, author);
      AuthorStatsMeaning(front, author);
      assert AuthorStats(commits) == AuthorStep(AuthorStats(front), last);
      assert Authored(commits, author) == own + (if last.author == author then [last] else []);
      if last.author == author && own != [] {
        assert (own + [last])[0] == own[0];
      }
    }
  }

  method BuildAuthorStats(commits: seq<Commit>) returns (stats: map<string, AuthorStat>)
    ensures stats == AuthorStats(commits)
  {
    stats := map[];
    var i := 0;
    while i < |commits|
      invariant i <= |commits| && stats == AuthorStats(commits[..i])
    {
      var c := commits[i];
      assert commits[..i + 1][..i] == commits[..i];
      if c.author !in stats {
        stats := stats[c.author := AuthorStat(c.email, 1, c.date, c.date)];
      } else {
        stats := stats[c.author := stats[c.author].(commits := stats[c.author].commits + 1, lastCommit := c.date)];
      }
      i := i + 1;
    }
    assert commits[..i] == commits;
  }

  // ------------------------------------------------------------ commits per day

  /** `date.split('T')[0]`. */
  function DayOf(date: string): string {
    Split(date, 'T')[0]
  }

  function Contributions(commits: seq<Commit>): map<string, nat>
    decreases |commits|
  {
    if commits == [] then map[]
    else
      var graph, day := Contributions(commits[..|commits| - 1]), DayOf(commits[|commits| - 1].date);
      graph[day := (if day in graph then graph[day] else 0) + 1]
  }

  /** The number of listed commits made on `day`. */
  function CommitsOn(commits: seq<Commit>, day: string): nat
    decreases |commits|
  {
    if commits == [] then 0
    else CommitsOn(commits[..|commits| - 1], day) + (if DayOf(commits[|commits| - 1].date) == day then 1 else 0)
  }

  /** A day appears in the graph exactly when a commit was made on it, with the number of those commits. */
  lemma {:induction false} ContributionsMeaning(commits: seq<Commit>, day: string)
    ensures day in Contributions(commits) <==> CommitsOn(commits, day) > 0
    ensures day in Contributions(commits) ==> Contributions(commits)[day] == CommitsOn(commits, day)
    decreases |commits|
  {
    if commits != [] {
      ContributionsMeaning(commits[..|commits| - 1], day);
    }
  }

  /** No day has more commits than there are commits. */
  lemma {:induction false} CommitsOnBound(commits: seq<Commit>, day: string)
    ensures CommitsOn(commits, day) <= |commits|
    decreases |commits|
  {
    if commits != [] {
      CommitsOnBound(commits[..|commits| - 1], day);
    }
  }

  method BuildContributions(commits: seq<Commit>) returns (graph: map<string, nat>)
    ensures graph == Contributions(commits)
  {
    graph := map[];
    var i := 0;
    while i < |commits|
      invariant i <= |commits| && graph == Contributions(commits[..i])
    {
      var day := Split(commits[i].date, 'T')[0];
      assert commits[..i + 1][..i] == commits[..i];
      graph := graph[day := (if day in graph then graph[day] else 0) + 1];
      i := i + 1;
    }
    assert commits[..i] == commits;
  }

  // ------------------------------------------------------------ the counts add up

  /** No key appears twice. */
  predicate Distinct(keys: seq<string>) {
    forall i, j :: 0 <= i < j < |keys| ==> keys[i] != keys[j]
  }

  predicate AllIn<V>(keys: seq<string>, m: map<string, V>) {
    forall k :: k in keys ==> k in m
  }

  /** The sum of `weight` over the values that `keys` name in `m`. */
  function SumOver<V>(keys: seq<string>, m: map<string, V>, weight: V -> nat): nat
    requires AllIn(keys, m)
    decreases |keys|
  {
    if keys == [] then 0
    else
      assert keys[0] in keys && AllIn(keys[1..], m);
      weight(m[keys[0]]) + SumOver(keys[1..], m, weight)
  }

  /** Maps that agree on the keys' weights have the same sum. */
  lemma {:induction false} SumOverAgree<V>(keys: seq<string>, m: map<string, V>, m': map<string, V>, weight: V -> nat)
    requires AllIn(keys, m) && AllIn(keys, m')
    requires forall k :: k in keys ==> weight(m'[k]) == weight(m[k])
    ensures SumOver(keys, m', weight) == SumOver(keys, m, weight)
    decreases |keys|
  {
    if keys != [] {
      assert keys[0] in keys;
      SumOverAgree(keys[1..], m, m', weight);
    }
  }

  /** A key added at the end adds its weight. */
  lemma {:induction false} SumOverSnoc<V>(keys: seq<string>, m: map<string, V>, k: string, weight: V -> nat)
    requires AllIn(keys, m) && k in m
    ensures AllIn(keys + [k], m) && SumOver(keys + [k], m, weight) == SumOver(keys, m, weight) + weight(m[k])
    decreases |keys|
  {
    if keys == [] {
      assert [] + [k] == [k];
      assert [k][1..] == [];
    } else {
      assert (keys + [k])[1..] == keys[1..] + [k];
      assert keys[0] in keys;
      SumOverSnoc(keys[1..], m, k, weight);
    }
  }

  /** Changing the value of one of distinct keys changes the sum by the change in its weight. */
  lemma {:induction false} SumOverUpdate<V>(keys: seq<string>, m: map<string, V>, k: string, v: V, weight: V -> nat)
    requires AllIn(keys, m) && Distinct(keys) && k in keys
    ensures AllIn(keys, m[k := v])
    ensures SumOver(keys, m[k := v], weight) + weight(m[k]) == SumOver(keys, m, weight) + weight(v)
    decreases |keys|
  {
    assert keys[0] in keys;
    if keys[0] == k {
      forall j | 0 <= j < |keys[1..]|
        ensures keys[1..][j] != k
      {
        assert keys[1..][j] == keys[j + 1];
      }
      SumOverAgree(keys[1..], m, m[k := v], weight);
    } else {
      SumOverUpdate(keys[1..], m, k, v, weight);
    }
  }

  /** A key new to the map, added at the end of the key list, keeps the keys distinct and adds its weight. */
  lemma SumOverNewKey<V>(keys: seq<string>, m: map<string, V>, k: string, v: V, weight: V -> nat)
    requires Distinct(keys) && AllIn(keys, m) && k !in m
    ensures Distinct(keys + [k]) && AllIn(keys + [k], m[k := v])
    ensures SumOver(keys + [k], m[k := v], weight) == SumOver(keys, m, weight) + weight(v)
  {
    SumOverAgree(keys, m, m[k := v], weight);
    SumOverSnoc(keys, m[k := v], k, weight);
    forall i, j | 0 <= i < j < |keys| + 1
      ensures (keys + [k])[i] != (keys + [k])[j]
    {
      if j == |keys| {
        assert (keys + [k])[i] == keys[i] && keys[i] in keys;
      }
    }
  }

  /** The authors in the order they are first listed: the key order of `authorStats`. */
  function AuthorOrder(commits: seq<Commit>): seq<string>
    decreases |commits|
  {
    if commits == [] then []
    else
      var order, author := AuthorOrder(commits[..|commits| - 1]), commits[|commits| - 1].author;
      if author in order then order else order + [author]
  }

  function CommitCount(s: AuthorStat): nat { s.commits }

  /** The authors listed once each are the keys of the statistics, and their counts add up to the number of commits. */
  lemma {:induction false} AuthorCountsSum(commits: seq<Commit>)
    ensures Distinct(AuthorOrder(commits)) && AllIn(AuthorOrder(commits), AuthorStats(commits))
    ensures forall a :: a in AuthorStats(commits) ==> a in AuthorOrder(commits)
    ensures SumOver(AuthorOrder(commits), AuthorStats(commits), CommitCount) == |commits|
    decreases |commits|
  {
    if commits != [] {
      var front, c := commits[..|commits| - 1], commits[|commits| - 1];
      AuthorCountsSum(front);
      var prev, order := AuthorStats(front), AuthorOrder(front);
      if c.author in prev {
        SumOverUpdate(order, prev, c.author, prev[c.author].(commits := prev[c.author].commits + 1, lastCommit := c.date), CommitCount);
      } else {
        SumOverNewKey(order, prev, c.author, AuthorStat(c.email, 1, c.date, c.date), CommitCount);
      }
    }
  }

  /** The days in the order they are first listed: the key order of `contributionGraph`. */
  function DayOrder(commits: seq<Commit>): seq<string>
    decreases |commits|
  {
    if commits == [] then []
    else
      var order, day := DayOrder(commits[..|commits| - 1]), DayOf(commits[|commits| - 1].date);
      if day in order then order else order + [day]
  }

  function Tally(n: nat): nat { n }

  /** The graph and the day order after one more commit. */
  lemma DayStep(commits: seq<Commit>)
    requires commits != []
    ensures var front, day := commits[..|commits| - 1], DayOf(commits[|commits| - 1].date);
      var prev, order := Contributions(front), DayOrder(front);
      Contributions(commits) == prev[day := (if day in prev then prev[day] else 0) + 1] &&
      DayOrder(commits) == if day in order then order else order + [day]
  {
  }

  /** One more commit on `day`: its count goes up by one, or the day is added with one. */
  lemma TallyStep(order: seq<string>, prev: map<string, nat>, day: string)
    requires Distinct(order) && AllIn(order, prev) && forall d :: d in prev ==> d in order
    ensures var next := prev[day := (if day in prev then prev[day] else 0) + 1];
      var order' := if day in order then order else order + [day];
      Distinct(order') && AllIn(order', next) && (forall d :: d in next ==> d in order') &&
      SumOver(order', next, Tally) == SumOver(order, prev, Tally) + 1
  {
    if day in prev {
      SumOverUpdate(order, prev, day, prev[day] + 1, Tally);
    } else {
      SumOverNewKey(order, prev, day, 1, Tally);
    }
  }

  /** The days listed once each are the keys of the graph, and their counts add up to the number of commits. */
  lemma {:induction false} DayCountsSum(commits: seq<Commit>)
    ensures Distinct(DayOrder(commits)) && AllIn(DayOrder(commits), Contributions(commits))
    ensures forall d :: d in Contributions(commits) ==> d in DayOrder(commits)
    ensures SumOver(DayOrder(commits), Contributions(commits), Tally) == |commits|
    decreases |commits|
  {
    if commits != [] {
      var front := commits[..|commits| - 1];
      var day := DayOf(commits[|commits| - 1].date);
      var order, prev := DayOrder(front), Contributions(front);
      DayCountsSum(front);
      DayStep(commits);
      TallyStep(order, prev, day);
      assert SumOver(DayOrder(commits), Contributions(commits), Tally) ==
        SumOver(if day in order then order else order + [day], prev[day := (if day in prev then prev[day] else 0) + 1], Tally);
    }
  }

  // ------------------------------------------------------------ lines changed

  /** The end of the first field: the first white space, or the end of the line. */
  function FieldEnd(s: string, i: nat): (k: nat)
    requires i <= |s|
    ensures i <= k <= |s| && (k < |s| ==> IsSpace(s[k]))
    ensures forall j :: i <= j < k ==> !IsSpace(s[j])
    decreases |s| - i
  {
    if i == |s| || IsSpace(s[i]) then i else FieldEnd(s, i + 1)
  }

  /** The first field of `line.split(/\s+/)`: empty when the line starts with white space. */
  function FirstField(line: string): string {
    line[..FieldEnd(line, 0)]
  }

  /**
   * The second field of `line.split(/\s+/)`. A missing second field is `undefined`, which
   * `parseInt` reads as NaN just as it reads the empty text, so it is given as `""`.
   */
  function SecondField(line: string): string {
    var start := SkipSpace(line, FieldEnd(line, 0));
    line[start..FieldEnd(line, start)]
  }

  /** Added and deleted line counts: `{ additions, deletions }`. */
  datatype Changed = Changed(additions: int, deletions: int)

  /** `parseInt(additions) || 0` and `parseInt(deletions) || 0` for one line; an empty line counts nothing. */
  function LineCounts(line: string): Changed {
    if line == [] then Changed(0, 0)
    else Changed(ParsedOr(ParseInt(FirstField(line), true), 0), ParsedOr(ParseInt(SecondField(line), true), 0))
  }

  function Plus(x: Changed, y: Changed): Changed {
    Changed(x.additions + y.additions, x.deletions + y.deletions)
  }

  /** The totals over the lines of the output; an empty line, which `filter(Boolean)` drops, adds nothing. */
  function NumstatTotals(lines: seq<string>): Changed
    decreases |lines|
  {
    if lines == [] then Changed(0, 0)
    else
      Plus(NumstatTotals(lines[..|lines| - 1]), LineCounts(lines[|lines| - 1]))
  }

  /** The totals of two runs of lines add up. */
  lemma {:induction false} NumstatTotalsAppend(a: seq<string>, b: seq<string>)
    ensures NumstatTotals(a + b).additions == NumstatTotals(a).additions + NumstatTotals(b).additions
    ensures NumstatTotals(a + b).deletions == NumstatTotals(a).deletions + NumstatTotals(b).deletions
    decreases |b|
  {
    if b == [] {
      assert a + b == a;
    } else {
      assert (a + b)[..|a + b| - 1] == a + b[..|b| - 1];
      NumstatTotalsAppend(a, b[..|b| - 1]);
    }
  }

  /** The line `git log --numstat` writes for a text file. */
  function NumstatText(added: nat, deleted: nat, path: string): string {
    NatToString(added) + ['\t'] + (NatToString(deleted) + ['\t'] + path)
  }

  /** A run of characters other than white space, then white space: the field ends at the white space. */
  lemma {:induction false} FieldEndBefore(s: string, t: string, j: nat)
    requires j <= |s| && NoSpace(s)
    requires t != [] && IsSpace(t[0])
    ensures FieldEnd(s + t, j) == |s|
    decreases |s| - j
  {
    if j < |s| {
      assert (s + t)[j] == s[j];
      FieldEndBefore(s, t, j + 1);
    } else {
      assert (s + t)[j] == t[0];
    }
  }

  /** A field read inside `w + s` ends where it ends in `s`, shifted by `|w|`. */
  lemma {:induction false} FieldEndShift(w: string, s: string, j: nat)
    requires j <= |s|
    ensures FieldEnd(w + s, |w| + j) == |w| + FieldEnd(s, j)
    decreases |s| - j
  {
    if j < |s| {
      assert (w + s)[|w| + j] == s[j];
      FieldEndShift(w, s, j + 1);
    }
  }

  lemma NoSpaceInDigits(n: nat)
    ensures NoSpace(NatToString(n))
  {
    var r := NatToString(n);
    forall i | 0 <= i < |r|
      ensures !IsSpace(r[i])
    {
      assert IsDigit(r[i]);
    }
  }

  predicate NoSpace(s: string) {
    forall i :: 0 <= i < |s| ==> !IsSpace(s[i])
  }

  /** The first field ends at the first tab. */
  lemma TabbedFirstEnd(a: string, rest: string)
    requires NoSpace(a)
    ensures FieldEnd(a + ['\t'] + rest, 0) == |a|
  {
    assert a + ['\t'] + rest == a + (['\t'] + rest);
    FieldEndBefore(a, ['\t'] + rest, 0);
  }

  /** The second field starts right after the tab. */
  lemma TabbedSecondStart(a: string, rest: string)
    requires rest != [] && !IsSpace(rest[0])
    ensures SkipSpace(a + ['\t'] + rest, |a|) == |a| + 1
  {
    var line := a + ['\t'] + rest;
    assert line[|a|] == '\t' && line[|a| + 1] == rest[0];
    assert SkipSpace(line, |a| + 1) == |a| + 1;
  }

  /** The second field ends at the second tab. */
  lemma TabbedSecondEnd(a: string, d: string, path: string)
    requires NoSpace(d)
    ensures FieldEnd(a + ['\t'] + (d + ['\t'] + path), |a| + 1) == |a| + 1 + |d|
  {
    FieldEndShift(a + ['\t'], d + ['\t'] + path, 0);
    TabbedFirstEnd(d, path);
  }

  /** Two fields without white space, each followed by a tab, then a path: the fields come back as written. */
  lemma TabbedFields(a: string, d: string, path: string)
    requires NoSpace(a) && d != [] && NoSpace(d)
    ensures FirstField(a + ['\t'] + (d + ['\t'] + path)) == a
    ensures SecondField(a + ['\t'] + (d + ['\t'] + path)) == d
  {
    var line := a + ['\t'] + (d + ['\t'] + path);
    TabbedFirstEnd(a, d + ['\t'] + path);
    TabbedSecondStart(a, d + ['\t'] + path);
    TabbedSecondEnd(a, d, path);
    assert line[..|a|] == a;
    assert line[|a| + 1..|a| + 1 + |d|] == d;
  }

  /** A text file's line counts the additions and deletions it names. */
  lemma NumstatOfText(added: nat, deleted: nat, path: string)
    ensures LineCounts(NumstatText(added, deleted, path)) == Changed(added, deleted)
  {
    NoSpaceInDigits(added);
    NoSpaceInDigits(deleted);
    TabbedFields(NatToString(added), NatToString(deleted), path);
    ParseIntOfNatToString(added, true);
    ParseIntOfNatToString(deleted, true);
  }

  /** A binary file's line `-\t-\tpath` counts nothing: `parseInt('-')` is NaN. */
  lemma NumstatOfBinary(path: string)
    ensures LineCounts("-" + ['\t'] + ("-" + ['\t'] + path)) == Changed(0, 0)
  {
    TabbedFields("-", "-", path);
    assert ParseInt("-", true).None? by {
      assert SkipSpace("-", 0) == 0;
    }
  }

  method SumNumstat(lines: seq<string>) returns (total: Changed)
    ensures total == NumstatTotals(lines)
  {
    total := Changed(0, 0);
    var i := 0;
    while i < |lines|
      invariant i <= |lines| && total == NumstatTotals(lines[..i])
    {
      assert lines[..i + 1][..i] == lines[..i];
      total := Plus(total, LineCounts(lines[i]));
      i := i + 1;
    }
    assert lines[..i] == lines;
  }

  // ------------------------------------------------------------ the analytics

  /** The analytics object, without the repository path. */
  datatype GitReport = GitReport(
    lastCommit: Option<Commit>,
    total: nat,
    byAuthor: map<string, AuthorStat>,
    recentCommits: seq<Commit>,
    contributionGraph: map<string, nat>,
    linesChanged: Changed,
    lastActivityTimestamp: Option<string>)

  /** The non-empty lines of the `git log` output. */
  function CommitLines(log: string): seq<string> {
    Filter(Lines(log), NotEmpty)
  }

  /** The report on parsed commits; a `numstat` command that fails leaves the counts at zero. */
  function Report(commits: seq<Commit>, numstat: Option<string>): (r: GitReport)
    ensures r.total == |commits|
    ensures |r.recentCommits| == (if |commits| < 10 then |commits| else 10) && r.recentCommits == commits[..|r.recentCommits|]
    ensures r.lastCommit == (if commits == [] then None else Some(commits[0]))
    ensures r.lastActivityTimestamp.Some? <==> commits != [] && commits[0].date != []
    ensures r.lastActivityTimestamp.Some? ==> r.lastActivityTimestamp.value == commits[0].date
    ensures numstat.None? ==> r.linesChanged == Changed(0, 0)
  {
    var last := if commits == [] then None else Some(commits[0]);
    GitReport(
      last, |commits|, AuthorStats(commits), commits[..if |commits| < 10 then |commits| else 10], Contributions(commits),
      if numstat.None? then Changed(0, 0) else NumstatTotals(Lines(numstat.value)),
      if last.Some? && last.value.date != [] then Some(last.value.date) else None)
  }

  /**
   * `buildGitAnalytics`: an error without `.git`, when `git log` fails, or when a commit
   * line throws; otherwise the report on the commits listed.
   */
  function GitAnalytics(hasGitDir: bool, log: Option<string>, numstat: Option<string>, iso: IsoDate): (r: Parsed<GitReport>)
    ensures !hasGitDir ==> r == Err(NotARepository)
    ensures hasGitDir && log.None? ==> r == Err(CommandFailed)
    ensures hasGitDir && log.Some? ==>
      (r.Ok? <==> ParseCommits(CommitLines(log.value), iso).Ok?) &&
      (r.Ok? ==> r.value == Report(ParseCommits(CommitLines(log.value), iso).value, numstat))
  {
    if !hasGitDir then Err(NotARepository)
    else if log.None? then Err(CommandFailed)
    else
      match ParseCommits(CommitLines(log.value), iso)
      case Err(e) => Err(e)
      case Ok(commits) => Ok(Report(commits, numstat))
  }

  /** Every author's count is at most the number of commits. */
  lemma AuthorCountBound(commits: seq<Commit>, author: string)
    requires author in AuthorStats(commits)
    ensures 1 <= AuthorStats(commits)[author].commits <= |commits|
  {
    AuthorStatsMeaning(commits, author);
  }

  method BuildGitAnalytics(hasGitDir: bool, log: Option<string>, numstat: Option<string>, iso: IsoDate) returns (r: Parsed<GitReport>)
    ensures r == GitAnalytics(hasGitDir, log, numstat, iso)
  {
    if !hasGitDir {
      return Err(NotARepository);
    }
    if log.None? {
      return Err(CommandFailed);
    }
    var parsed := ParseCommits(CommitLines(log.value), iso);
    if parsed.Err? {
      return Err(parsed.error);
    }
    var commits := parsed.value;
    var byAuthor := BuildAuthorStats(commits);
    var graph := BuildContributions(commits);
    var changed := Changed(0, 0);
    if numstat.Some? {
      changed := SumNumstat(Lines(numstat.value));
    }
    var last := if commits == [] then None else Some(commits[0]);
    r := Ok(GitReport(
      last, |commits|, byAuthor, commits[..if |commits| < 10 then |commits| else 10], graph, changed,
      if last.Some? && last.value.date != [] then Some(last.value.date) else None));
  }
}
