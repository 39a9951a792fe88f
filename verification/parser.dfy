/**
 * The workspace-document readers of `src/lib/parser.ts`: the generic markdown
 * table parser, the plain-text extractor, the section splitter, and the agent,
 * persona, task and project extractors, with the persona merge of
 * `loadAgentData`. Documents arrive as strings; reading files is left to the
 * caller.
 */
module Parser {
  import opened Strings
  import opened Patterns
  import opened Seqs
  import opened Types

  // ================================================================ parseMarkdownTable

  function TrimEach(parts: seq<string>): (r: seq<string>)
    ensures |r| == |parts|
    ensures forall i :: 0 <= i < |parts| ==> r[i] == Trim(parts[i])
  {
    seq(|parts|, i requires 0 <= i < |parts| => Trim(parts[i]))
  }

  /** `map(c => c.trim()).filter(Boolean)`: the trimmed parts that are not empty, in order. */
  function TrimmedNonEmpty(parts: seq<string>): (cells: seq<string>)
    ensures |cells| <= |parts|
    ensures forall i :: 0 <= i < |cells| ==> cells[i] != []
    decreases |parts|
  {
    if parts == [] then []
    else
      var t := Trim(parts[0]);
      if t != [] then [t] + TrimmedNonEmpty(parts[1..]) else TrimmedNonEmpty(parts[1..])
  }

  /** The non-empty trimmed cells of a table line. */
  function Cells(t: string): (cells: seq<string>)
    ensures forall i :: 0 <= i < |cells| ==> cells[i] != []
  {
    TrimmedNonEmpty(Split(t, '|'))
  }

  /** A column name: lower-cased, every character outside `[a-z0-9]` replaced by `_`. */
  function HeaderKey(h: string): (k: string)
    ensures |k| == |h|
    ensures forall i :: 0 <= i < |k| ==> k[i] == '_' || IsLowerAlnum(k[i])
  {
    ReplaceNonAlnum(Lower(h), '_')
  }

  function HeaderKeys(cells: seq<string>): (keys: seq<string>)
    ensures |keys| == |cells|
    ensures forall i :: 0 <= i < |cells| ==> keys[i] == HeaderKey(cells[i])
  {
    seq(|cells|, i requires 0 <= i < |cells| => HeaderKey(cells[i]))
  }

  predicate IsSeparatorChar(c: char) { c == '|' || c == '-' || c == ':' || IsSpace(c) }

  /** `/^[\|\s\-:]+$/` */
  predicate IsSeparatorRow(t: string) {
    |t| > 0 && forall i :: 0 <= i < |t| ==> IsSeparatorChar(t[i])
  }

  /** Some character is neither `|` nor white space: some cell has text. */
  predicate HasCellText(t: string) {
    exists i :: 0 <= i < |t| && t[i] != '|' && !IsSpace(t[i])
  }

  lemma TrimmedNonEmptyCons(x: string, rest: seq<string>)
    ensures |TrimmedNonEmpty([x] + rest)| > 0 <==> !AllSpace(x) || |TrimmedNonEmpty(rest)| > 0
  {
    assert ([x] + rest)[1..] == rest;
    TrimBlank(x);
  }

  lemma HasCellTextCons(t: string)
    requires t != []
    ensures HasCellText(t) <==> (t[0] != '|' && !IsSpace(t[0])) || HasCellText(t[1..])
  {
    if HasCellText(t[1..]) {
      var i :| 0 <= i < |t[1..]| && t[1..][i] != '|' && !IsSpace(t[1..][i]);
      assert t[i + 1] == t[1..][i];
    }
    if HasCellText(t) && !(t[0] != '|' && !IsSpace(t[0])) {
      var i :| 0 <= i < |t| && t[i] != '|' && !IsSpace(t[i]);
      assert t[1..][i - 1] == t[i];
    }
  }

  /** A line has a non-empty cell exactly when it has a character that is neither `|` nor white space. */
  lemma {:induction false} CellsNonEmpty(t: string)
    ensures |Cells(t)| > 0 <==> HasCellText(t)
    decreases |t|
  {
    if t == [] {
      assert Split(t, '|') == [[]];
      assert TrimmedNonEmpty([[]]) == [];
    } else {
      CellsNonEmpty(t[1..]);
      HasCellTextCons(t);
      CellsCons(t);
    }
  }

  /** One character more: a `|` opens a new cell, anything else extends the first one. */
  lemma CellsCons(t: string)
    requires t != []
    ensures |Cells(t)| > 0 <==> (t[0] != '|' && !IsSpace(t[0])) || |Cells(t[1..])| > 0
  {
    var rest := Split(t[1..], '|');
    assert Cells(t[1..]) == TrimmedNonEmpty(rest);
    if t[0] == '|' {
      assert Split(t, '|') == [[]] + rest;
      TrimmedNonEmptyCons([], rest);
    } else {
      var x := [t[0]] + rest[0];
      assert Split(t, '|') == [x] + rest[1..];
      TrimmedNonEmptyCons(x, rest[1..]);
      assert rest == [rest[0]] + rest[1..];
      TrimmedNonEmptyCons(rest[0], rest[1..]);
      AllSpaceCons(t[0], rest[0]);
    }
  }

  /**
   * One pass over a trimmed line: whether it holds a `|`, a character that is
   * neither `|` nor white space (text for some cell), and a character outside
   * `[|\s\-:]` (so that it is not a separator row).
   */
  datatype LineShape = LineShape(bar: bool, text: bool, nonSeparator: bool)

  function Shape(t: string): LineShape
    decreases |t|
  {
    if t == [] then LineShape(false, false, false)
    else
      var r := Shape(t[1..]);
      LineShape(r.bar || t[0] == '|',
                r.text || (t[0] != '|' && !IsSpace(t[0])),
                r.nonSeparator || !IsSeparatorChar(t[0]))
  }

  /** The scan agrees with `includes('|')`, with there being a non-empty cell, and with the separator test. */
  lemma {:induction false} ShapeMeaning(t: string)
    ensures Shape(t).bar <==> '|' in t
    ensures Shape(t).text <==> HasCellText(t)
    ensures t != [] ==> (Shape(t).nonSeparator <==> !IsSeparatorRow(t))
    decreases |t|
  {
    if t != [] {
      ShapeMeaning(t[1..]);
      HasCellTextCons(t);
      assert t == [t[0]] + t[1..];
      if t[1..] != [] && IsSeparatorRow(t[1..]) && IsSeparatorChar(t[0]) {
        forall i | 0 <= i < |t| ensures IsSeparatorChar(t[i]) {
          if i > 0 { assert t[i] == t[1..][i - 1]; }
        }
      }
      if IsSeparatorRow(t) && t[1..] != [] {
        forall i | 0 <= i < |t[1..]| ensures IsSeparatorChar(t[1..][i]) {
          assert t[1..][i] == t[i + 1];
        }
      }
    }
  }

  /** A line that can serve as the header: it holds a `|` and at least one non-empty cell. */
  predicate IsHeaderLine(line: string) {
    var s := Shape(Trim(line));
    s.bar && s.text
  }

  /** A line that becomes a row once the header is known: a `|`, a non-empty cell, and not a separator row. */
  predicate IsDataLine(line: string) {
    var s := Shape(Trim(line));
    s.bar && s.text && s.nonSeparator
  }

  /** `cells[i] || ''` */
  function CellOr(cells: seq<string>, i: nat): string {
    if i < |cells| then cells[i] else ""
  }

  /** The set of column names. */
  function KeySet(headers: seq<string>): set<string>
    decreases |headers|
  {
    if headers == [] then {} else KeySet(headers[..|headers| - 1]) + {headers[|headers| - 1]}
  }

  lemma {:induction false} KeySetMeaning(headers: seq<string>)
    ensures forall h :: h in KeySet(headers) <==> h in headers
    decreases |headers|
  {
    if headers != [] {
      var n := |headers| - 1;
      KeySetMeaning(headers[..n]);
      assert headers == headers[..n] + [headers[n]];
    }
  }

  /** `headers.forEach((h, i) => { row[h] = cells[i] || '' })` */
  function RowOf(headers: seq<string>, cells: seq<string>): (row: map<string, string>)
    decreases |headers|
  {
    if headers == [] then map[]
    else
      var n := |headers| - 1;
      RowOf(headers[..n], cells)[headers[n] := CellOr(cells, n)]
  }

  /** A column whose name is not repeated later holds the cell at its own position, or '' past the last cell. */
  lemma {:induction false} RowOfCell(headers: seq<string>, cells: seq<string>, i: nat)
    requires i < |headers|
    requires forall j :: i < j < |headers| ==> headers[j] != headers[i]
    ensures headers[i] in RowOf(headers, cells) && RowOf(headers, cells)[headers[i]] == CellOr(cells, i)
    decreases |headers|
  {
    var n := |headers| - 1;
    if i < n {
      KeySetMeaning(headers[..n]);
      assert headers[..n][i] == headers[i];
      RowOfCell(headers[..n], cells, i);
    }
  }

  /** The index of the first line at or after `from` that can serve as the header. */
  function FirstHeaderFrom(lines: seq<string>, from: nat): (k: Option<nat>)
    requires from <= |lines|
    ensures k.Some? ==> from <= k.value < |lines| && IsHeaderLine(lines[k.value])
    decreases |lines| - from
  {
    if from == |lines| then None
    else if IsHeaderLine(lines[from]) then Some(from)
    else FirstHeaderFrom(lines, from + 1)
  }

  function FirstHeader(lines: seq<string>): (k: Option<nat>)
    ensures k.Some? ==> k.value < |lines| && IsHeaderLine(lines[k.value])
  {
    FirstHeaderFrom(lines, 0)
  }

  /** No line before the one found can serve as the header, and none at all when nothing is found. */
  lemma {:induction false} FirstHeaderFromIsFirst(lines: seq<string>, from: nat, j: nat)
    requires from <= j < |lines|
    requires FirstHeaderFrom(lines, from).None? || j < FirstHeaderFrom(lines, from).value
    ensures !IsHeaderLine(lines[j])
    decreases j - from
  {
    if IsHeaderLine(lines[from]) {
      assert false;
    } else {
      assert FirstHeaderFrom(lines, from) == FirstHeaderFrom(lines, from + 1);
      if from < j {
        FirstHeaderFromIsFirst(lines, from + 1, j);
      }
    }
  }

  lemma FirstHeaderFromStep(lines: seq<string>, i: nat)
    requires i < |lines|
    ensures FirstHeaderFrom(lines, i) == if IsHeaderLine(lines[i]) then Some(i) else FirstHeaderFrom(lines, i + 1)
  {
  }

  lemma FirstHeaderIsFirst(lines: seq<string>, j: nat)
    requires j < |lines|
    requires FirstHeader(lines).None? || j < FirstHeader(lines).value
    ensures !IsHeaderLine(lines[j])
  {
    FirstHeaderFromIsFirst(lines, 0, j);
  }

  /** The rows made from `lines[lo..hi]`, all of which follow the header. */
  function DataRows(headers: seq<string>, lines: seq<string>, lo: nat, hi: nat): seq<map<string, string>>
    requires lo <= hi <= |lines|
    decreases hi - lo
  {
    if hi == lo then []
    else
      var prev := DataRows(headers, lines, lo, hi - 1);
      if IsDataLine(lines[hi - 1]) then prev + [RowOf(headers, Cells(Trim(lines[hi - 1])))] else prev
  }

  lemma DataRowsStep(headers: seq<string>, lines: seq<string>, lo: nat, i: nat)
    requires lo <= i < |lines|
    ensures DataRows(headers, lines, lo, i + 1) ==
      if IsDataLine(lines[i]) then DataRows(headers, lines, lo, i) + [RowOf(headers, Cells(Trim(lines[i])))]
      else DataRows(headers, lines, lo, i)
  {
  }

  /** The column names taken from the header line. */
  function TableHeaders(content: string): seq<string> {
    var lines := Lines(content);
    match FirstHeader(lines)
    case None => []
    case Some(k) => HeaderKeys(Cells(Trim(lines[k])))
  }

  /** What `parseMarkdownTable` returns, stated line by line. */
  function TableRows(content: string): seq<map<string, string>> {
    var lines := Lines(content);
    match FirstHeader(lines)
    case None => []
    case Some(k) => DataRows(TableHeaders(content), lines, k + 1, |lines|)
  }

  /** The line scan agrees with the loop's tests on a trimmed line. */
  lemma ShapeKind(t: string)
    ensures Shape(t).bar && Shape(t).text <==> t != [] && '|' in t && |Cells(t)| > 0
    ensures Shape(t).bar && Shape(t).text && Shape(t).nonSeparator <==>
      t != [] && '|' in t && !IsSeparatorRow(t) && |Cells(t)| > 0
  {
    CellsNonEmpty(t);
    ShapeMeaning(t);
  }

  /** How the loop's tests on the trimmed line decide that a line can be the header. */
  lemma HeaderLineKind(line: string)
    ensures IsHeaderLine(line) <==> Trim(line) != [] && '|' in Trim(line) && |Cells(Trim(line))| > 0
  {
    ShapeKind(Trim(line));
  }

  /** How the loop's tests on the trimmed line decide that a line is a row. */
  lemma DataLineKind(line: string)
    ensures IsDataLine(line) <==>
      Trim(line) != [] && '|' in Trim(line) && !IsSeparatorRow(Trim(line)) && |Cells(Trim(line))| > 0
  {
    ShapeKind(Trim(line));
  }

  /** The loop's state: whether the header was seen, the column names, the rows so far. */
  datatype TableScan = TableScan(foundHeader: bool, headers: seq<string>, rows: seq<map<string, string>>)

  /** What the loop's tests see in a line: blank, holding a `|` (with its cells), or neither. */
  datatype TableLineKind = Blank | Barred(cells: seq<string>, separator: bool) | Unbarred

  function ClassifyTableLine(line: string): TableLineKind {
    var t := Trim(line);
    if t == [] then Blank
    else if '|' in t then Barred(Cells(t), IsSeparatorRow(t))
    else Unbarred
  }

  function ClassifyTableLines(lines: seq<string>): (kinds: seq<TableLineKind>)
    ensures |kinds| == |lines|
    decreases |lines|
  {
    if lines == [] then [] else [ClassifyTableLine(lines[0])] + ClassifyTableLines(lines[1..])
  }

  lemma {:induction false} ClassifyTableLinesAt(lines: seq<string>, i: nat)
    requires i < |lines|
    ensures ClassifyTableLines(lines)[i] == ClassifyTableLine(lines[i])
    decreases i
  {
    if i > 0 {
      ClassifyTableLinesAt(lines[1..], i - 1);
    }
  }

  /**
   * One iteration of the loop. A line without a `|` changes nothing: before the
   * header it is no header, and after it it is either a separator row or no row.
   */
  function TableStep(st: TableScan, kind: TableLineKind): TableScan {
    match kind
    case Blank => st
    case Unbarred => st
    case Barred(cells, separator) =>
      if !st.foundHeader then
        if |cells| > 0 then st.(headers := HeaderKeys(cells), foundHeader := true) else st
      else if separator then st
      else if |cells| > 0 then st.(rows := st.rows + [RowOf(st.headers, cells)])
      else st
  }

  /** The state after the first `n` lines. */
  function ScanTable(kinds: seq<TableLineKind>, n: nat): TableScan
    requires n <= |kinds|
  {
    if n == 0 then TableScan(false, [], []) else TableStep(ScanTable(kinds, n - 1), kinds[n - 1])
  }

  lemma ScanTableStep(kinds: seq<TableLineKind>, n: nat)
    requires n < |kinds|
    ensures ScanTable(kinds, n + 1) == TableStep(ScanTable(kinds, n), kinds[n])
  {
  }

  /** Before the header: nothing recorded. */
  lemma StepBeforeHeader(line: string)
    ensures TableStep(TableScan(false, [], []), ClassifyTableLine(line)) ==
      if IsHeaderLine(line) then TableScan(true, HeaderKeys(Cells(Trim(line))), []) else TableScan(false, [], [])
  {
    HeaderLineKind(line);
  }

  /** After the header: a data line adds its row, any other line nothing. */
  lemma StepAfterHeader(headers: seq<string>, rows: seq<map<string, string>>, line: string)
    ensures TableStep(TableScan(true, headers, rows), ClassifyTableLine(line)) ==
      TableScan(true, headers, if IsDataLine(line) then rows + [RowOf(headers, Cells(Trim(line)))] else rows)
  {
    DataLineKind(line);
  }

  /** Whether the header lies among the first `n` lines. */
  predicate HeaderWithin(lines: seq<string>, n: nat) {
    FirstHeader(lines).Some? && FirstHeader(lines).value < n
  }

  /** The state after `n` lines, stated without the loop: nothing before the header, then its rows. */
  function ExpectedScan(lines: seq<string>, n: nat): TableScan
    requires n <= |lines|
  {
    if HeaderWithin(lines, n) then
      var k := FirstHeader(lines).value;
      var headers := HeaderKeys(Cells(Trim(lines[k])));
      TableScan(true, headers, DataRows(headers, lines, k + 1, n))
    else TableScan(false, [], [])
  }

  /**
   * The loop finds the first line that can be the header, takes its column names,
   * and from then on adds one row per data line.
   */
  lemma {:induction false} ScanTableMeaning(lines: seq<string>, n: nat)
    requires n <= |lines|
    ensures ScanTable(ClassifyTableLines(lines), n) == ExpectedScan(lines, n)
    ensures !HeaderWithin(lines, n) ==> FirstHeader(lines) == FirstHeaderFrom(lines, n)
  {
    if n > 0 {
      var m := n - 1;
      var kinds := ClassifyTableLines(lines);
      ScanTableMeaning(lines, m);
      ScanTableStep(kinds, m);
      ClassifyTableLinesAt(lines, m);
      ScanTableMeaningStep(lines, m);
    }
  }

  lemma ScanTableMeaningStep(lines: seq<string>, n: nat)
    requires n < |lines|
    requires !HeaderWithin(lines, n) ==> FirstHeader(lines) == FirstHeaderFrom(lines, n)
    ensures TableStep(ExpectedScan(lines, n), ClassifyTableLine(lines[n])) == ExpectedScan(lines, n + 1)
    ensures !HeaderWithin(lines, n + 1) ==> FirstHeader(lines) == FirstHeaderFrom(lines, n + 1)
  {
    var line := lines[n];
    if HeaderWithin(lines, n) {
      var k := FirstHeader(lines).value;
      var headers := HeaderKeys(Cells(Trim(lines[k])));
      var before := DataRows(headers, lines, k + 1, n);
      assert ExpectedScan(lines, n) == TableScan(true, headers, before);
      assert HeaderWithin(lines, n + 1);
      assert ExpectedScan(lines, n + 1) == TableScan(true, headers, DataRows(headers, lines, k + 1, n + 1));
      StepAfterHeader(headers, before, line);
      DataRowsStep(headers, lines, k + 1, n);
    } else {
      assert ExpectedScan(lines, n) == TableScan(false, [], []);
      FirstHeaderFromStep(lines, n);
      StepBeforeHeader(line);
      if IsHeaderLine(line) {
        assert FirstHeader(lines) == Some(n);
        assert HeaderWithin(lines, n + 1);
        var headers := HeaderKeys(Cells(Trim(line)));
        assert DataRows(headers, lines, n + 1, n + 1) == [];
        assert ExpectedScan(lines, n + 1) == TableScan(true, headers, []);
      } else {
        assert FirstHeader(lines) == FirstHeaderFrom(lines, n + 1);
        assert !HeaderWithin(lines, n + 1);
        assert ExpectedScan(lines, n + 1) == TableScan(false, [], []);
      }
    }
  }

  /** The body of `parseMarkdownTable`'s loop: one line examined, the state advanced. */
  method TableLine(foundHeader: bool, headers: seq<string>, rows: seq<map<string, string>>, line: string)
    returns (foundHeader': bool, headers': seq<string>, rows': seq<map<string, string>>)
    ensures TableScan(foundHeader', headers', rows') == TableStep(TableScan(foundHeader, headers, rows), ClassifyTableLine(line))
  {
    foundHeader', headers', rows' := foundHeader, headers, rows;
    var trimmed := Trim(line);
    if trimmed == [] {
      // blank line
    } else if !foundHeader && '|' in trimmed {
      var cells := Cells(trimmed);
      if |cells| > 0 {
        headers' := HeaderKeys(cells);
        foundHeader' := true;
      }
    } else if foundHeader && IsSeparatorRow(trimmed) {
      // separator line
    } else if foundHeader && '|' in trimmed {
      var cells := Cells(trimmed);
      if |cells| > 0 {
        rows' := rows + [RowOf(headers, cells)];
      }
    }
  }

  /** `parseMarkdownTable`: a single pass over the lines with the header found on the way. */
  method ParseMarkdownTable(content: string) returns (rows: seq<map<string, string>>)
    ensures rows == TableRows(content)
  {
    var lines := Lines(content);
    rows := ScanLines(lines);
    ScanTableMeaning(lines, |lines|);
  }

  /** The loop of `parseMarkdownTable` over the lines. */
  method ScanLines(lines: seq<string>) returns (rows: seq<map<string, string>>)
    ensures rows == ScanTable(ClassifyTableLines(lines), |lines|).rows
  {
    ghost var kinds := ClassifyTableLines(lines);
    rows := [];
    var headers: seq<string> := [];
    var foundHeader := false;
    var i := 0;
    while i < |lines|
      invariant 0 <= i <= |lines|
      invariant TableScan(foundHeader, headers, rows) == ScanTable(kinds, i)
    {
      foundHeader, headers, rows := NextLine(lines, i, kinds, foundHeader, headers, rows);
      i := i + 1;
    }
  }

  /** One turn of the loop: the state after `i` lines becomes the state after `i + 1`. */
  method NextLine(lines: seq<string>, i: nat, ghost kinds: seq<TableLineKind>,
                  foundHeader: bool, headers: seq<string>, rows: seq<map<string, string>>)
    returns (foundHeader': bool, headers': seq<string>, rows': seq<map<string, string>>)
    requires i < |lines| && kinds == ClassifyTableLines(lines)
    requires TableScan(foundHeader, headers, rows) == ScanTable(kinds, i)
    ensures TableScan(foundHeader', headers', rows') == ScanTable(kinds, i + 1)
  {
    ScanTableStep(kinds, i);
    ClassifyTableLinesAt(lines, i);
    foundHeader', headers', rows' := TableLine(foundHeader, headers, rows, lines[i]);
  }

  /** A row whose keys are exactly the column names. */
  predicate HasColumns(row: map<string, string>, headers: seq<string>) {
    row.Keys == KeySet(headers)
  }

  /** A row's keys are exactly the column names. */
  lemma {:induction false} RowKeys(headers: seq<string>, cells: seq<string>)
    ensures HasColumns(RowOf(headers, cells), headers)
    decreases |headers|
  {
    if headers != [] {
      RowKeys(headers[..|headers| - 1], cells);
    }
  }

  predicate AllHaveColumns(rows: seq<map<string, string>>, headers: seq<string>) {
    forall row :: row in rows ==> HasColumns(row, headers)
  }

  lemma AllHaveColumnsSnoc(rows: seq<map<string, string>>, row: map<string, string>, headers: seq<string>)
    requires AllHaveColumns(rows, headers) && HasColumns(row, headers)
    ensures AllHaveColumns(rows + [row], headers)
  {
    forall r | r in rows + [row]
      ensures HasColumns(r, headers)
    {
      InSnoc(rows, row, r);
    }
  }

  lemma {:induction false} DataRowsKeys(headers: seq<string>, lines: seq<string>, lo: nat, hi: nat)
    requires lo <= hi <= |lines|
    ensures AllHaveColumns(DataRows(headers, lines, lo, hi), headers)
    decreases hi - lo
  {
    if hi > lo {
      DataRowsKeys(headers, lines, lo, hi - 1);
      DataRowsKeysStep(headers, lines, lo, hi - 1);
    }
  }

  /** One more line keeps every row's keys the column names. */
  lemma DataRowsKeysStep(headers: seq<string>, lines: seq<string>, lo: nat, i: nat)
    requires lo <= i < |lines| && AllHaveColumns(DataRows(headers, lines, lo, i), headers)
    ensures AllHaveColumns(DataRows(headers, lines, lo, i + 1), headers)
  {
    var prev := DataRows(headers, lines, lo, i);
    DataRowsStep(headers, lines, lo, i);
    if IsDataLine(lines[i]) {
      var row := RowOf(headers, Cells(Trim(lines[i])));
      RowKeys(headers, Cells(Trim(lines[i])));
      AllHaveColumnsSnoc(prev, row, headers);
    }
  }

  /** Every row has exactly the header's columns as keys (`KeySetMeaning` reads the key set as membership). */
  lemma TableRowKeys(content: string)
    ensures AllHaveColumns(TableRows(content), TableHeaders(content))
  {
    var lines := Lines(content);
    if FirstHeader(lines).Some? {
      DataRowsKeys(TableHeaders(content), lines, FirstHeader(lines).value + 1, |lines|);
    }
  }

  /** The number of lines in `lines[lo..hi]` that become rows. */
  function DataLineCount(lines: seq<string>, lo: nat, hi: nat): nat
    requires lo <= hi <= |lines|
    decreases hi - lo
  {
    if hi == lo then 0 else DataLineCount(lines, lo, hi - 1) + (if IsDataLine(lines[hi - 1]) then 1 else 0)
  }

  /** One row per data line: blank lines, separator rows and lines without a `|` or without text add none. */
  lemma {:induction false} DataRowsCount(headers: seq<string>, lines: seq<string>, lo: nat, hi: nat)
    requires lo <= hi <= |lines|
    ensures |DataRows(headers, lines, lo, hi)| == DataLineCount(lines, lo, hi)
    decreases hi - lo
  {
    if hi > lo {
      var i := hi - 1;
      var step := if IsDataLine(lines[i]) then 1 else 0;
      calc {
        |DataRows(headers, lines, lo, hi)|;
        == { DataRowsStepCount(headers, lines, lo, i); }
        |DataRows(headers, lines, lo, i)| + step;
        == { DataRowsCount(headers, lines, lo, i); }
        DataLineCount(lines, lo, i) + step;
        == { DataLineCountStep(lines, lo, i); }
        DataLineCount(lines, lo, hi);
      }
    }
  }

  lemma DataLineCountStep(lines: seq<string>, lo: nat, i: nat)
    requires lo <= i < |lines|
    ensures DataLineCount(lines, lo, i + 1) == DataLineCount(lines, lo, i) + if IsDataLine(lines[i]) then 1 else 0
  {
  }

  lemma DataRowsStepCount(headers: seq<string>, lines: seq<string>, lo: nat, i: nat)
    requires lo <= i < |lines|
    ensures |DataRows(headers, lines, lo, i + 1)| == |DataRows(headers, lines, lo, i)| + if IsDataLine(lines[i]) then 1 else 0
  {
    DataRowsStep(headers, lines, lo, i);
  }

  /** Lines that are blank or consist only of `|`, white space, `-` and `:` never become rows. */
  lemma {:induction false} SeparatorsAreNotRows(headers: seq<string>, lines: seq<string>, lo: nat, hi: nat)
    requires lo <= hi <= |lines|
    requires forall i :: lo <= i < hi ==> Trim(lines[i]) == [] || IsSeparatorRow(Trim(lines[i]))
    ensures DataRows(headers, lines, lo, hi) == []
    decreases hi - lo
  {
    if hi > lo {
      var t := Trim(lines[hi - 1]);
      ShapeMeaning(t);
      assert !IsDataLine(lines[hi - 1]);
      SeparatorsAreNotRows(headers, lines, lo, hi - 1);
    }
  }

  // ================================================================ extractPlainText

  /** `/#{1,6}\s+/` matched at the start of `s`: the length of the match, or 0. */
  function HeadingMarkAt(s: string): (n: nat)
    ensures n <= |s|
    ensures n > 0 ==> n >= 2 && s[0] == '#'
  {
    var r := CharRun(s, 0, '#');
    var k := if r > 6 then 6 else r;
    if 1 <= k < |s| && IsSpace(s[k]) then k + SpaceRun(s, k) else 0
  }

  /** `replace(/#{1,6}\s+/g, '')` */
  function StripHeadingMarks(s: string): (r: string)
    ensures |r| <= |s|
    decreases |s|
  {
    if s == [] then []
    else
      var n := HeadingMarkAt(s);
      if n > 0 then StripHeadingMarks(s[n..]) else [s[0]] + StripHeadingMarks(s[1..])
  }

  /** `replace(/D(.*?)D/g, '$1')` for a delimiter `D` (`**`, `*` or a backtick). */
  function ReplaceDelimited(s: string, d: string): (r: string)
    requires |d| > 0
    ensures |r| <= |s|
    decreases |s|
  {
    if s == [] then []
    else if StartsWith(s, d) && LazyClose(s, |d|, 0, d) >= 0 then
      var j := LazyClose(s, |d|, 0, d);
      s[|d|..j] + ReplaceDelimited(s[j + |d|..], d)
    else [s[0]] + ReplaceDelimited(s[1..], d)
  }

  /**
   * `\[(.*?)]\(.*?\)` at the start of `s`, with the link text tried up to `j`
   * first: the end of the link text and the end of the match.
   */
  function LinkFrom(s: string, j: nat): (m: Option<(nat, nat)>)
    requires 1 <= j <= |s| && NoLineTerminator(s[1..j])
    ensures m.Some? ==> j <= m.value.0 && m.value.0 + 3 <= m.value.1 <= |s|
    decreases |s| - j
  {
    if j + 2 > |s| then None
    else if OccursAt(s, "](", j) && LazyClose(s, j + 2, 0, ")") >= 0 then
      Some((j, LazyClose(s, j + 2, 0, ")") + 1))
    else if IsLineTerminator(s[j]) then None
    else
      NoLineTerminatorExtend(s, 1, j + 1);
      LinkFrom(s, j + 1)
  }

  /** `replace(/\[(.*?)]\(.*?\)/g, '$1')`: a link becomes its text. */
  function ReplaceLinks(s: string): (r: string)
    ensures |r| <= |s|
    decreases |s|
  {
    if s == [] then []
    else if s[0] == '[' && LinkFrom(s, 1).Some? then
      var m := LinkFrom(s, 1).value;
      s[1..m.0] + ReplaceLinks(s[m.1..])
    else [s[0]] + ReplaceLinks(s[1..])
  }

  ghost predicate NoTripleNewline(s: string) {
    forall i, j, k :: 0 <= i && j == i + 1 && k == i + 2 && k < |s| ==> !(s[i] == '\n' && s[j] == '\n' && s[k] == '\n')
  }

  /** `replace(/\n{3,}/g, '\n\n')`: every run of three or more newlines becomes two. */
  function CollapseNewlines(s: string): (r: string)
    ensures |r| <= |s|
    ensures s != [] ==> r != [] && r[0] == s[0]
    decreases |s|
  {
    if s == [] then []
    else
      var n := CharRun(s, 0, '\n');
      if n == 0 then [s[0]] + CollapseNewlines(s[1..])
      else (if n >= 3 then "\n\n" else s[..n]) + CollapseNewlines(s[n..])
  }

  /** The result never holds three newlines in a row. */
  lemma {:induction false} CollapseNoTriple(s: string)
    ensures NoTripleNewline(CollapseNewlines(s))
    decreases |s|
  {
    if s != [] {
      var n := CharRun(s, 0, '\n');
      var r := CollapseNewlines(s);
      if n == 0 {
        var rest := CollapseNewlines(s[1..]);
        CollapseNoTriple(s[1..]);
        assert r == [s[0]] + rest;
        forall i | 0 <= i && i + 2 < |r| ensures !(r[i] == '\n' && r[i + 1] == '\n' && r[i + 2] == '\n') {
          if i > 0 {
            assert r[i] == rest[i - 1] && r[i + 1] == rest[i] && r[i + 2] == rest[i + 1];
          }
        }
      } else {
        var rest := CollapseNewlines(s[n..]);
        CollapseNoTriple(s[n..]);
        var p := if n >= 3 then "\n\n" else s[..n];
        assert r == p + rest;
        assert |p| <= 2;
        assert rest != [] ==> rest[0] != '\n';
        forall i | 0 <= i && i + 2 < |r| ensures !(r[i] == '\n' && r[i + 1] == '\n' && r[i + 2] == '\n') {
          if i >= |p| {
            assert r[i] == rest[i - |p|] && r[i + 1] == rest[i - |p| + 1] && r[i + 2] == rest[i - |p| + 2];
          } else {
            assert r[|p|] == rest[0];
          }
        }
      }
    }
  }

  /** A run of three newlines inside a slice is a run inside the whole string. */
  lemma NoTripleNewlineSlice(s: string, a: nat, b: nat)
    requires a <= b <= |s| && NoTripleNewline(s)
    ensures NoTripleNewline(s[a..b])
  {
    var t := s[a..b];
    forall i, j, k | 0 <= i && j == i + 1 && k == i + 2 && k < |t|
      ensures !(t[i] == '\n' && t[j] == '\n' && t[k] == '\n')
    {
      assert t[i] == s[a + i] && t[j] == s[a + j] && t[k] == s[a + k];
    }
  }

  /** `extractPlainText`: markdown markers removed, blank runs collapsed, white space trimmed. */
  function ExtractPlainText(markdown: string): (r: string)
    ensures |r| <= |markdown|
  {
    var a := StripHeadingMarks(markdown);
    var b := ReplaceDelimited(a, "**");
    var c := ReplaceDelimited(b, "*");
    var d := ReplaceDelimited(c, "`");
    var e := ReplaceLinks(d);
    Trim(CollapseNewlines(e))
  }

  /** The plain text never holds three newlines in a row, and neither starts nor ends with white space. */
  lemma ExtractPlainTextShape(markdown: string)
    ensures var r := ExtractPlainText(markdown);
      NoTripleNewline(r) && (r == [] || (!IsSpace(r[0]) && !IsSpace(r[|r| - 1])))
  {
    var a := StripHeadingMarks(markdown);
    var b := ReplaceDelimited(a, "**");
    var c := ReplaceDelimited(b, "*");
    var d := ReplaceDelimited(c, "`");
    var e := ReplaceLinks(d);
    CollapseNoTriple(e);
    TrimNoTriple(CollapseNewlines(e));
  }

  lemma TrimNoTriple(f: string)
    requires NoTripleNewline(f)
    ensures NoTripleNewline(Trim(f))
  {
    var lo := SkipSpace(f, 0);
    NoTripleNewlineSlice(f, lo, SkipSpaceBack(f, lo, |f|));
  }

  // ================================================================ extractSections

  /** `^(#{2,3})\s+(.+)$` on a line: the heading text (group 2), or None. */
  function SectionHeading(line: string): (h: Option<string>)
    ensures h.Some? ==> |h.value| >= 1
  {
    var r := CharRun(line, 0, '#');
    if r == 2 || r == 3 then SpacedRestToEnd(line[r..]) else None
  }

  /** A section's key: trimmed, lower-cased, every character outside `[a-z0-9]` replaced by `_`. */
  function SectionKey(text: string): string {
    ReplaceNonAlnum(Lower(Trim(text)), '_')
  }

  /** The scanner's state: the sections so far, the open section and its lines. */
  datatype SectionScan = SectionScan(sections: map<string, string>, current: string, pending: seq<string>)

  /** The open section, recorded only when it has at least one line. */
  function Flush(st: SectionScan): map<string, string> {
    if |st.pending| > 0 then st.sections[st.current := Join(st.pending, "\n")] else st.sections
  }

  /** One line: a heading closes the open section and opens its own; any other line joins the open one. */
  function SectionStep(st: SectionScan, line: string): SectionScan {
    match SectionHeading(line)
    case Some(h) => SectionScan(Flush(st), SectionKey(h), [])
    case None => st.(pending := st.pending + [line])
  }

  function ScanSections(lines: seq<string>): SectionScan
    decreases |lines|
  {
    if lines == [] then SectionScan(map[], "header", [])
    else SectionStep(ScanSections(lines[..|lines| - 1]), lines[|lines| - 1])
  }

  lemma ScanSectionsSnoc(lines: seq<string>, line: string)
    ensures ScanSections(lines + [line]) == SectionStep(ScanSections(lines), line)
  {
    assert (lines + [line])[..|lines|] == lines;
  }

  lemma ScanSectionsPlain(lines: seq<string>, line: string)
    requires SectionHeading(line).None?
    ensures ScanSections(lines + [line]) == ScanSections(lines).(pending := ScanSections(lines).pending + [line])
  {
    ScanSectionsSnoc(lines, line);
  }

  lemma ScanSectionsHeading(lines: seq<string>, line: string)
    requires SectionHeading(line).Some?
    ensures ScanSections(lines + [line]) ==
      SectionScan(Flush(ScanSections(lines)), SectionKey(SectionHeading(line).value), [])
  {
    ScanSectionsSnoc(lines, line);
  }

  /** What `extractSections` returns. */
  function Sections(content: string): map<string, string> {
    Flush(ScanSections(Lines(content)))
  }

  /** `extractSections` */
  method ExtractSections(content: string) returns (sections: map<string, string>)
    ensures sections == Sections(content)
  {
    var lines := Lines(content);
    sections := map[];
    var currentSection := "header";
    var currentContent: seq<string> := [];
    var i := 0;
    while i < |lines|
      invariant 0 <= i <= |lines|
      invariant SectionScan(sections, currentSection, currentContent) == ScanSections(lines[..i])
    {
      TakeSnoc(lines, i);
      ScanSectionsSnoc(lines[..i], lines[i]);
      var line := lines[i];
      var heading := SectionHeading(line);
      if heading.Some? {
        if |currentContent| > 0 {
          sections := sections[currentSection := Join(currentContent, "\n")];
        }
        currentSection := SectionKey(heading.value);
        currentContent := [];
      } else {
        currentContent := currentContent + [line];
      }
      i := i + 1;
    }
    if |currentContent| > 0 {
      sections := sections[currentSection := Join(currentContent, "\n")];
    }
    assert lines[..i] == lines;
  }

  lemma {:induction false} ScanWithoutHeadings(lines: seq<string>)
    requires forall i :: 0 <= i < |lines| ==> SectionHeading(lines[i]).None?
    ensures ScanSections(lines) == SectionScan(map[], "header", lines)
    decreases |lines|
  {
    if lines != [] {
      var pre := lines[..|lines| - 1];
      ScanWithoutHeadings(pre);
      assert pre + [lines[|lines| - 1]] == lines;
      ScanSectionsPlain(pre, lines[|lines| - 1]);
    }
  }

  /** A document without `##`/`###` headings is one section, 'header', holding the whole text. */
  lemma SectionsWithoutHeadings(content: string)
    requires forall i :: 0 <= i < |Lines(content)| ==> SectionHeading(Lines(content)[i]).None?
    ensures Sections(content) == map["header" := content]
  {
    ScanWithoutHeadings(Lines(content));
    JoinSplit(content, '\n');
  }

  /** None of the lines is a `##`/`###` heading. */
  predicate NoHeadings(lines: seq<string>)
    decreases |lines|
  {
    lines == [] || (SectionHeading(lines[|lines| - 1]).None? && NoHeadings(lines[..|lines| - 1]))
  }

  lemma {:induction false} NoHeadingsAt(lines: seq<string>)
    requires forall i :: 0 <= i < |lines| ==> SectionHeading(lines[i]).None?
    ensures NoHeadings(lines)
    decreases |lines|
  {
    if lines != [] {
      var init := lines[..|lines| - 1];
      forall i | 0 <= i < |init| ensures SectionHeading(init[i]).None? {
        assert init[i] == lines[i];
      }
      NoHeadingsAt(init);
    }
  }

  /** Lines without headings all join the open section. */
  lemma {:induction false} ScanPlainLines(before: seq<string>, rest: seq<string>)
    requires NoHeadings(rest)
    ensures ScanSections(before + rest) ==
      ScanSections(before).(pending := ScanSections(before).pending + rest)
    decreases |rest|
  {
    if rest == [] {
      assert before + rest == before;
      assert ScanSections(before).pending + rest == ScanSections(before).pending;
    } else {
      var init := rest[..|rest| - 1];
      ScanPlainLines(before, init);
      ScanPlainLine(before, init, rest, ScanSections(before));
    }
  }

  lemma ScanPlainLine(before: seq<string>, init: seq<string>, rest: seq<string>, st: SectionScan)
    requires rest != [] && init == rest[..|rest| - 1] && SectionHeading(rest[|rest| - 1]).None?
    requires ScanSections(before + init) == st.(pending := st.pending + init)
    ensures ScanSections(before + rest) == st.(pending := st.pending + rest)
  {
    ScanSectionsPlain(before + init, rest[|rest| - 1]);
    SnocSplit(before, rest);
    SnocSplit(st.pending, rest);
  }

  /** After a heading and `rest` lines without headings, the heading's section is open and holds `rest`. */
  lemma ScanAfterHeading(pre: seq<string>, heading: string, rest: seq<string>)
    requires SectionHeading(heading).Some?
    requires NoHeadings(rest)
    ensures ScanSections(pre + [heading] + rest) ==
      SectionScan(Flush(ScanSections(pre)), SectionKey(SectionHeading(heading).value), rest)
  {
    ScanSectionsHeading(pre, heading);
    ScanPlainLines(pre + [heading], rest);
    assert [] + rest == rest;
  }

  /**
   * The lines after the last heading form that heading's section, under its key,
   * replacing any earlier section with the same key; a heading with no lines after it
   * records nothing.
   */
  lemma LastSection(content: string, k: nat)
    requires k < |Lines(content)| && SectionHeading(Lines(content)[k]).Some?
    requires forall i :: k < i < |Lines(content)| ==> SectionHeading(Lines(content)[i]).None?
    ensures var key := SectionKey(SectionHeading(Lines(content)[k]).value);
      if k + 1 < |Lines(content)| then
        key in Sections(content) && Sections(content)[key] == Join(Lines(content)[k + 1..], "\n")
      else
        Sections(content) == Flush(ScanSections(Lines(content)[..k]))
  {
    var lines := Lines(content);
    var rest := lines[k + 1..];
    assert lines == lines[..k] + [lines[k]] + rest;
    forall i | 0 <= i < |rest| ensures SectionHeading(rest[i]).None? {
      assert rest[i] == lines[k + 1 + i];
    }
    NoHeadingsAt(rest);
    ScanAfterHeading(lines[..k], lines[k], rest);
  }
}
