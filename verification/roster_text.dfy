/**
 * Rows written in the roster's table form and read back by the row pattern of
 * `parseAgentsData`. Kept apart from the reader so that the literal row text does
 * not weigh on the reader's own proofs.
 */
module RosterText {
  import opened Strings
  import opened Seqs
  import opened Roster

  /** One cell of a row after the opening: a space, the field, a space and a bar. */
  function Cell(t: string): string {
    " " + t + " |"
  }

  /** The row `| **name** | role | model | responsibility |` as the roster writes it. */
  function RowText(name: string, role: string, model: string, resp: string): string {
    "| **" + name + "** |" + Cell(role) + Cell(model) + Cell(resp)
  }

  /** The opening `| **name** |` of a row. */
  lemma HeadShape(name: string)
    ensures var h, n := "| **" + name + "** |", |name|;
      |h| == 8 + n && h[0] == '|' && h[1] == ' ' && h[2] == '*' && h[3] == '*' && LiesAt(h, 4, name) &&
      h[4 + n] == '*' && h[5 + n] == '*' && h[6 + n] == ' ' && h[7 + n] == '|'
  {
    LiesMiddle("| **", name, "** |");
  }

  /** A cell is a space, then the field followed by a space, then a bar. */
  lemma CellShape(t: string)
    ensures var c := Cell(t);
      |c| == |t| + 3 && c[0] == ' ' && LiesAt(c, 1, t + " ") && c[|t| + 2] == '|'
  {
    assert Cell(t) == [' '] + (t + " ") + ['|'];
    LiesMiddle([' '], t + " ", ['|']);
  }

  /** A written row is laid out as the row pattern reads it. */
  lemma RowTextLaidOut(name: string, role: string, model: string, resp: string)
    requires name != [] && '*' !in name
    requires role != [] && !IsSpace(role[0]) && '|' !in role
    requires model != [] && !IsSpace(model[0]) && '|' !in model
    requires resp != [] && !IsSpace(resp[0]) && '|' !in resp
    ensures LaidOutRow(RowText(name, role, model, resp), name, role + " ", model + " ", resp + " ")
  {
    var h := "| **" + name + "** |";
    var c1, c2, c3 := Cell(role), Cell(model), Cell(resp);
    HeadShape(name);
    CellShape(role);
    CellShape(model);
    CellShape(resp);
    LiesExtend(h, c1 + c2 + c3, 4, name);
    LiesShift(h, c1, 1, role + " ");
    LiesExtend(h + c1, c2 + c3, |h| + 1, role + " ");
    LiesShift(h + c1, c2, 1, model + " ");
    LiesExtend(h + c1 + c2, c3, |h + c1| + 1, model + " ");
    LiesShift(h + c1 + c2, c3, 1, resp + " ");
    assert h + (c1 + c2 + c3) == h + c1 + c2 + c3 == RowText(name, role, model, resp);
    assert (h + c1) + (c2 + c3) == h + c1 + c2 + c3;
  }

  /**
   * Writing a row of non-empty fields that start with a character other than white
   * space, and reading it back, gives the name and the three fields each followed by
   * the one space that separates it from the next bar.
   */
  lemma RowTextRoundTrip(name: string, role: string, model: string, resp: string)
    requires name != [] && '*' !in name
    requires role != [] && !IsSpace(role[0]) && '|' !in role
    requires model != [] && !IsSpace(model[0]) && '|' !in model
    requires resp != [] && !IsSpace(resp[0]) && '|' !in resp
    ensures RowMatch(RowText(name, role, model, resp)) == Some(RowFields(name, role + " ", model + " ", resp + " "))
  {
    RowTextLaidOut(name, role, model, resp);
    RowMatchLaidOut(RowText(name, role, model, resp), name, role + " ", model + " ", resp + " ");
  }
  /**
   * The line loop reads a written row as a row line keyed by the lower-cased name, whose
   * record holds the name, the role, the lower-cased model and the one responsibility
   * exactly as written, and neither skills nor a soul.
   */
  lemma RowTextRecord(name: string, role: string, model: string, resp: string)
    requires name != [] && '*' !in name
    requires role != [] && Trim(role) == role && '|' !in role
    requires model != [] && Trim(model) == model && '|' !in model
    requires resp != [] && Trim(resp) == resp && '|' !in resp
    ensures ClassifyRosterLine(RowText(name, role, model, resp)) ==
      RowLine(Trim(Lower(name)), RosterAgent(Trim(name), Lower(model), role, [resp], [], None))
  {
    RowTextRoundTrip(name, role, model, resp);
    TrimSpaceAfter(role);
    TrimSpaceAfter(model);
    TrimSpaceAfter(resp);
  }

  lemma QuinnLower()
    ensures Lower("Quinn") == "quinn" && Lower("model-x") == "model-x"
  {
    var q, m := Lower("Quinn"), Lower("model-x");
    assert q[0] == 'q' && q[1] == 'u' && q[2] == 'i' && q[3] == 'n' && q[4] == 'n';
    assert m[0] == 'm' && m[1] == 'o' && m[2] == 'd' && m[3] == 'e' && m[4] == 'l' && m[5] == '-' && m[6] == 'x';
  }

  lemma QuinnName()
    ensures '*' !in "Quinn" && Trim("Quinn") == "Quinn" && Trim("quinn") == "quinn"
  {
    TrimOfTrimmed("Quinn");
    TrimOfTrimmed("quinn");
  }

  lemma QuinnRole()
    ensures Trim("Code Architect") == "Code Architect" && '|' !in "Code Architect"
  {
    TrimOfTrimmed("Code Architect");
  }

  lemma QuinnModel()
    ensures Trim("model-x") == "model-x" && '|' !in "model-x"
  {
    TrimOfTrimmed("model-x");
  }

  lemma QuinnResponsibility()
    ensures Trim("reviews code") == "reviews code" && '|' !in "reviews code"
  {
    TrimOfTrimmed("reviews code");
  }

  /** The row `| **Quinn** | Code Architect | model-x | reviews code |` holds the agent `quinn`. */
  lemma QuinnRow()
    ensures ClassifyRosterLine(RowText("Quinn", "Code Architect", "model-x", "reviews code")) ==
      RowLine("quinn", RosterAgent("Quinn", "model-x", "Code Architect", ["reviews code"], [], None))
  {
    QuinnName();
    QuinnRole();
    QuinnModel();
    QuinnResponsibility();
    QuinnLower();
    RowTextRecord("Quinn", "Code Architect", "model-x", "reviews code");
  }
}
