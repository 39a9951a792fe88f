/**
 * The `POST` handler of `src/app/api/update-project/route.ts`: it checks the project id,
 * finds `## ID` in `projects.md`, rewrites the rest of the first `**Status:**` line after
 * it, and replaces the `**Pending:**` block of the project's slice by the given items. The
 * parsed body (or its failure), the file's text (or its absence) and the write's success
 * are parameters.
 */
module UpdateProjectRoute {
  import opened Strings
  import opened Seqs
  import opened Requests

  /** The request body: `status` when given, `pending` when it is an array. */
  datatype Body = Body(projectId: Field, status: Option<string>, pending: Option<seq<string>>)

  const IdRequired := "projectId is required and must be a non-empty string"
  const FileNotFound := "Projects file not found"

  function Header(id: string): string {
    "## " + id
  }

  // ------------------------------------------------------------ the status rewrite

  const StatusMarker := "**Status:**"

  /** The first place at or after `from` where `pat` stands up to ASCII case, or -1. */
  function IndexOfCaseless(s: string, pat: string, from: nat): (r: int)
    ensures r == -1 || (from <= r && OccursAt(Lower(s), Lower(pat), r))
    ensures forall k :: from <= k && (r == -1 || k < r) ==> !OccursAt(Lower(s), Lower(pat), k)
  {
    IndexOf(Lower(s), Lower(pat), from)
  }

  /** An exact occurrence is an occurrence up to case. */
  lemma OccursCaseless(s: string, pat: string, i: int)
    requires OccursAt(s, pat, i)
    ensures OccursAt(Lower(s), Lower(pat), i)
  {
    assert Lower(s)[i..i + |pat|] == Lower(pat) by {
      forall j | 0 <= j < |pat|
        ensures Lower(s)[i..i + |pat|][j] == Lower(pat)[j]
      {
        assert s[i + j] == s[i..i + |pat|][j];
      }
    }
  }

  /** The status search's header comes no later than the project's exact header. */
  lemma CaselessHeaderFirst(u: string, id: string, at: int)
    requires at == IndexOf(u, Header(id), 0) && at >= 0
    ensures 0 <= IndexOfCaseless(u, Header(id), 0) <= at
  {
    OccursCaseless(u, Header(id), at);
  }

  /** Where the rest of a line stops: the first newline at or after `k`, or the end. */
  function LineStop(s: string, k: nat): (e: nat)
    requires k <= |s|
    ensures k <= e <= |s| && (e == |s| || s[e] == '\n')
    ensures forall j :: k <= j < e ==> s[j] != '\n'
    decreases |s| - k
  {
    if k == |s| || s[k] == '\n' then k else LineStop(s, k + 1)
  }

  /** The rest of the line from `b`, up to its newline or the end, replaced by a space and `v`. */
  function LineRestSet(u: string, b: nat, v: string): string
    requires b <= |u|
  {
    u[..b] + " " + v + u[LineStop(u, b)..]
  }

  /**
   * What is before `b` and what is from the line's newline on are kept; between them stand
   * a space and `v`, and what was replaced holds no newline.
   */
  lemma LineRestSetParts(u: string, b: nat, v: string)
    requires b <= |u|
    ensures var e := LineStop(u, b);
      var w := LineRestSet(u, b, v);
      '\n' !in u[b..e] && (e == |u| || u[e] == '\n') &&
      |w| == b + 1 + |v| + (|u| - e) && w[..b] == u[..b] && w[b] == ' ' &&
      w[b + 1..b + 1 + |v|] == v && w[b + 1 + |v|..] == u[e..]
  {
    var e := LineStop(u, b);
    var w := LineRestSet(u, b, v);
    assert w[b + 1..b + 1 + |v|] == v;
    assert w[b + 1 + |v|..] == u[e..];
  }

  /**
   * Where the case-insensitive status pattern's match ends, or -1: the match starts at the
   * first `## ID` up to case and runs to the end of the first `**Status:**` after it,
   * wherever that is.
   */
  function StatusEnd(u: string, id: string): (b: int)
    ensures b == -1 || |StatusMarker| <= b <= |u|
  {
    var h := Header(id);
    var i := IndexOfCaseless(u, h, 0);
    if i < 0 then -1
    else
      var j := IndexOfCaseless(u, StatusMarker, i + |h|);
      if j < 0 then -1 else j + |StatusMarker|
  }

  /** The status pattern's replacement by the captured prefix, a space and the status. */
  function StatusRewrite(u: string, id: string, status: string): string {
    var b := StatusEnd(u, id);
    if b < 0 then u else LineRestSet(u, b, status)
  }

  /**
   * With a marker after the header, the match ends at the end of the first marker after
   * the first header, both up to case, and the rest of its line is replaced.
   */
  lemma StatusRewriteFound(u: string, id: string, i: int, j: int)
    requires i == IndexOfCaseless(u, Header(id), 0) && i >= 0
    requires j == IndexOfCaseless(u, StatusMarker, i + |Header(id)|) && j >= 0
    ensures i + |Header(id)| <= j && StatusEnd(u, id) == j + |StatusMarker|
    ensures OccursAt(Lower(u), Lower(StatusMarker), j)
  {
  }

  /** Without a header up to case, or without a marker after it, the text is unchanged. */
  lemma StatusRewriteNone(u: string, id: string, status: string)
    requires IndexOfCaseless(u, Header(id), 0) < 0 ||
             IndexOfCaseless(u, StatusMarker, IndexOfCaseless(u, Header(id), 0) + |Header(id)|) < 0
    ensures StatusEnd(u, id) == -1 && StatusRewrite(u, id, status) == u
  {
  }

  /**
   * The search for the marker is not bounded by the next project's heading: a project
   * without a status line gets the following project's status rewritten: here the line
   * from 21 belongs to `## B`.
   */
  lemma StatusCrossesProjects()
    ensures StatusEnd("## A\n## B\n**Status:** x", "A") == 21
  {
    var u := "## A\n## B\n**Status:** x";
    CrossingLower(u);
    CrossingHeader(u);
    CrossingMarker(u);
  }

  lemma CrossingLower(u: string)
    requires u == "## A\n## B\n**Status:** x"
    ensures Lower(u) == "## a\n## b\n**status:** x"
  {
  }

  lemma CrossingHeader(u: string)
    requires Lower(u) == "## a\n## b\n**status:** x"
    ensures IndexOfCaseless(u, Header("A"), 0) == 0
  {
    assert Lower(Header("A")) == "## a";
    assert OccursAt(Lower(u), "## a", 0);
  }

  lemma CrossingMarker(u: string)
    requires Lower(u) == "## a\n## b\n**status:** x"
    ensures IndexOfCaseless(u, StatusMarker, 4) == 10
  {
    var lu := Lower(u);
    assert Lower(StatusMarker) == "**status:**";
    assert OccursAt(lu, "**status:**", 10);
    forall k | 4 <= k < 10
      ensures !OccursAt(lu, "**status:**", k)
    {
      assert lu[k..k + 11][0] == lu[k] != '*';
    }
  }

  // ------------------------------------------------------------ the pending rewrite

  const PendingMarker := "**Pending:**\n"

  /**
   * Where the lazy pending pattern stops: the first place at or after `k` that starts a
   * blank line followed by a `## ` or `# ` heading, or the end.
   */
  function PendingStop(s: string, k: nat): (q: nat)
    requires k <= |s|
    ensures k <= q <= |s|
    ensures q == |s| || OccursAt(s, "\n\n## ", q) || OccursAt(s, "\n\n# ", q)
    ensures forall j :: k <= j < q ==> !OccursAt(s, "\n\n## ", j) && !OccursAt(s, "\n\n# ", j)
    decreases |s| - k
  {
    if k == |s| || OccursAt(s, "\n\n## ", k) || OccursAt(s, "\n\n# ", k) then k else PendingStop(s, k + 1)
  }

  /** The project's slice: from the header to the next `\n## ` after it, or to the end. */
  function ProjectSlice(u: string, at: nat, hlen: nat): (sec: string)
    ensures |sec| <= |u|
  {
    var n := IndexOf(u, "\n## ", at + hlen);
    if n >= 0 then u[at..n] else if at <= |u| then u[at..] else []
  }

  /** `- item` lines joined by newlines, or `- None` for no items. */
  function PendingLines(items: seq<string>): (r: string)
    ensures r != []
  {
    if |items| > 0 then Join(Bullets(items), "\n") else "- None"
  }

  function Bullets(items: seq<string>): (r: seq<string>)
    ensures |r| == |items| && forall k :: 0 <= k < |items| ==> r[k] == "- " + items[k]
  {
    seq(|items|, k requires 0 <= k < |items| => "- " + items[k])
  }

  /** The new block's lines are the items, each after `- `, or the one line `- None`. */
  lemma PendingLinesRead(items: seq<string>)
    requires forall k :: 0 <= k < |items| ==> '\n' !in items[k]
    ensures Lines(PendingLines(items)) == if |items| > 0 then Bullets(items) else ["- None"]
  {
    var b := Bullets(items);
    if |items| > 0 {
      forall k | 0 <= k < |b|
        ensures '\n' !in b[k]
      {
        assert b[k] == "- " + items[k];
      }
      SplitJoin(b, '\n');
    } else {
      SplitWithoutSeparator("- None", '\n');
    }
  }

  /** `replace(pat, x)` with a string pattern: the first occurrence of `pat`, if any, becomes `x`. */
  function ReplaceFirst(u: string, pat: string, x: string): string {
    var r := IndexOf(u, pat, 0);
    if r < 0 then u else u[..r] + x + u[r + |pat|..]
  }

  /**
   * At the first occurrence `r` the pattern gives way to `x` and the text around it is
   * kept; with no occurrence the text is unchanged.
   */
  lemma ReplaceFirstParts(u: string, pat: string, x: string)
    ensures var r := IndexOf(u, pat, 0);
      var w := ReplaceFirst(u, pat, x);
      (r < 0 ==> w == u) &&
      (r >= 0 ==> |w| == |u| - |pat| + |x| && w[..r] == u[..r] && w[r..r + |x|] == x &&
                  w[r + |x|..] == u[r + |pat|..] && u[r..r + |pat|] == pat)
  {
    var r := IndexOf(u, pat, 0);
    if r >= 0 {
      var w := ReplaceFirst(u, pat, x);
      assert w[r..r + |x|] == x;
      assert w[r + |x|..] == u[r + |pat|..];
    }
  }

  /**
   * The pending rewrite: the block from the first `**Pending:**` and newline in the
   * project's slice up to a blank line before a heading (or the slice's end) is looked up
   * again in the whole text, and its first copy there is replaced.
   */
  function PendingRewrite(u: string, at: nat, hlen: nat, items: seq<string>): string {
    var sec := ProjectSlice(u, at, hlen);
    var p := IndexOf(sec, PendingMarker, 0);
    if p < 0 then u
    else
      ReplaceFirst(u, sec[p..PendingStop(sec, p + |PendingMarker|)], PendingMarker + PendingLines(items))
  }

  /**
   * With a block in the slice, its first copy in the whole text, which can lie before the
   * project, is replaced by the marker and the new lines, and nothing else changes.
   */
  lemma PendingRewriteFound(u: string, at: nat, hlen: nat, items: seq<string>, sec: string, p: int, q: nat)
    requires sec == ProjectSlice(u, at, hlen)
    requires p == IndexOf(sec, PendingMarker, 0) && p >= 0
    requires q == PendingStop(sec, p + |PendingMarker|)
    ensures PendingRewrite(u, at, hlen, items) == ReplaceFirst(u, sec[p..q], PendingMarker + PendingLines(items))
  {
  }

  /** That block starts with the marker and is found in the whole text, so it is replaced. */
  lemma PendingBlockInText(u: string, at: nat, hlen: nat, sec: string, p: int, q: nat)
    requires sec == ProjectSlice(u, at, hlen)
    requires p == IndexOf(sec, PendingMarker, 0) && p >= 0
    requires q == PendingStop(sec, p + |PendingMarker|)
    ensures IndexOf(u, sec[p..q], 0) >= 0 && StartsWith(sec[p..q], PendingMarker)
  {
    assert IndexOf(u, sec[p..q], 0) >= 0 by {
      SliceOccurs(u, at, hlen, p, q);
    }
    assert StartsWith(sec[p..q], PendingMarker) by {
      assert OccursAt(sec, PendingMarker, p);
      SliceStarts(sec, PendingMarker, p, q);
    }
  }

  /** A slice from an occurrence of `pat` that reaches past it starts with `pat`. */
  lemma SliceStarts(s: string, pat: string, p: int, q: int)
    requires OccursAt(s, pat, p) && p + |pat| <= q <= |s|
    ensures StartsWith(s[p..q], pat)
  {
    assert s[p..q][..|pat|] == s[p..p + |pat|];
  }

  /** A piece of the project's slice is a piece of the whole text. */
  lemma SliceOccurs(u: string, at: nat, hlen: nat, p: nat, q: nat)
    requires p <= q <= |ProjectSlice(u, at, hlen)|
    ensures IndexOf(u, ProjectSlice(u, at, hlen)[p..q], 0) >= 0
  {
    var sec := ProjectSlice(u, at, hlen);
    var n := IndexOf(u, "\n## ", at + hlen);
    if n >= 0 {
      assert sec == u[at..n];
      assert at + q <= n <= |u|;
      assert forall k :: 0 <= k < q - p ==> sec[p..q][k] == u[at + p + k];
      assert sec[p..q] == u[at + p..at + q];
      ContainsAt(u, sec[p..q], at + p);
    } else if at <= |u| {
      assert sec == u[at..];
      assert at + q <= |u|;
      assert forall k :: 0 <= k < q - p ==> sec[p..q][k] == u[at + p + k];
      assert sec[p..q] == u[at + p..at + q];
      ContainsAt(u, sec[p..q], at + p);
    } else {
      assert u[0..0] == sec[p..q];
      ContainsAt(u, sec[p..q], 0);
    }
  }

  /** A slice without `**Pending:**` and a newline gets no block: the text is unchanged. */
  lemma PendingRewriteNone(u: string, at: nat, hlen: nat, items: seq<string>)
    requires !Contains(ProjectSlice(u, at, hlen), PendingMarker)
    ensures PendingRewrite(u, at, hlen, items) == u
  {
  }

  // ------------------------------------------------------------ the handler

  /**
   * `POST /api/update-project`: 400 for a bad id, 500 when the file cannot be read, 404
   * when `## ID` is not in it; otherwise the status and then the pending block are
   * rewritten and the text is written.
   */
  function Post(body: Option<Body>, file: Option<string>, writeOk: bool): (o: Outcome)
    ensures o.written.Some? <==> o.response.status == 200
    ensures o.response.success <==> o.response.status == 200
  {
    if body.None? then Outcome(Response(500, false, InternalError), None)
    else
      var b := body.value;
      var id := CheckedText(b.projectId);
      if id.None? then Outcome(Response(400, false, IdRequired), None)
      else if file.None? then Outcome(Response(500, false, FileNotFound), None)
      else
        var content := file.value;
        var at := IndexOf(content, Header(id.value), 0);
        if at < 0 then Outcome(Response(404, false, "Project \"" + id.value + "\" not found"), None)
        else
          var u := if b.status.Some? then StatusRewrite(content, id.value, b.status.value) else content;
          var w := if b.pending.Some? then PendingRewrite(u, at, |Header(id.value)|, b.pending.value) else u;
          if !writeOk then Outcome(Response(500, false, InternalError), None)
          else Outcome(Response(200, true, "Project \"" + id.value + "\" updated successfully"), Some(w))
  }

  /** A missing, non-string or blank id is a 400 and nothing is read or written. */
  lemma PostRejectsId(b: Body, file: Option<string>, writeOk: bool)
    ensures var o := Post(Some(b), file, writeOk);
      (o.response.status == 400 <==> !b.projectId.Text? || AllSpace(b.projectId.value)) &&
      (o.response.status == 400 ==> o.written.None? && o.response.message == IdRequired)
  {
  }

  /** With a good id, an unreadable file is a 500, and a file without `## ID` a 404; nothing is written. */
  lemma PostNotFound(b: Body, file: Option<string>, writeOk: bool)
    requires b.projectId.Text? && !AllSpace(b.projectId.value)
    ensures var o := Post(Some(b), file, writeOk);
      (file.None? ==> o.response == Response(500, false, FileNotFound)) &&
      (file.Some? ==>
        (o.response.status == 404 <==> !Contains(file.value, Header(Trim(b.projectId.value))))) &&
      (o.response.status != 200 ==> o.written.None?)
  {
  }

  /** With neither a status nor a pending list, the file is written back as it was read. */
  lemma PostNoFields(id: string, content: string)
    requires !AllSpace(id) && Contains(content, Header(Trim(id)))
    ensures Post(Some(Body(Text(id), None, None)), Some(content), true).written == Some(content)
  {
  }

  /** A successful update writes the status rewrite followed by the pending rewrite of the file. */
  lemma PostWrites(b: Body, content: string)
    requires b.projectId.Text? && !AllSpace(b.projectId.value)
    requires Contains(content, Header(Trim(b.projectId.value)))
    ensures var id := Trim(b.projectId.value);
      var at := IndexOf(content, Header(id), 0);
      var u := if b.status.Some? then StatusRewrite(content, id, b.status.value) else content;
      var o := Post(Some(b), Some(content), true);
      o.response == Response(200, true, "Project \"" + id + "\" updated successfully") &&
      o.written == Some(if b.pending.Some? then PendingRewrite(u, at, |Header(id)|, b.pending.value) else u)
  {
  }
}
