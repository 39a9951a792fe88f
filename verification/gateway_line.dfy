/**
 * The gateway log reader of `backend/integration.js`, `parseOpenClawLogLine`: the lines
 * `[ts] [LEVEL] [agent] message` and `[ts] [LEVEL] message`, with the date parser as a
 * parameter.
 */
module GatewayLine {
  import opened Strings
  import opened LogLine

  // ------------------------------------------------------------ the two line patterns

  /** The number of characters other than `]` from `p`: how far `[^\]]+` reaches. */
  function BracketRun(s: string, p: nat): (n: nat)
    requires p <= |s|
    ensures p + n <= |s|
    decreases |s| - p
  {
    if p < |s| && s[p] != ']' then 1 + BracketRun(s, p + 1) else 0
  }

  lemma {:induction false} BracketRunTo(s: string, p: nat, q: nat)
    requires p <= q < |s| && s[q] == ']' && forall i :: p <= i < q ==> s[i] != ']'
    ensures BracketRun(s, p) == q - p
    decreases q - p
  {
    if p < q {
      BracketRunTo(s, p + 1, q);
    }
  }

  lemma {:induction false} BracketRunSpans(s: string, p: nat)
    requires p <= |s|
    ensures forall i :: p <= i < p + BracketRun(s, p) ==> s[i] != ']'
    decreases |s| - p
  {
    if p < |s| && s[p] != ']' {
      BracketRunSpans(s, p + 1);
    }
  }

  /** The part both patterns share, `^\[([^\]]+)\] \[(\w+)\] `, and what follows it. */
  datatype Head = Head(timestamp: string, level: string, rest: string)

  /** A bracketed time stamp: not empty, and free of `]`. */
  predicate Stamp(s: string) { s != [] && ']' !in s }

  /** The text the shared part and what follows it make up. */
  function HeadText(h: Head): string {
    "[" + h.timestamp + "] [" + h.level + "] " + h.rest
  }

  /**
   * The shared part matched at the start of a line. `[^\]]+` can only stop at the first
   * `]` and `\w+` only at the first non-word character, so there is one way to match.
   */
  function MatchHead(line: string): (r: Option<Head>)
  {
    if line == [] || line[0] != '[' then None
    else
      var k := 1 + BracketRun(line, 1);
      if k == 1 || k + 3 > |line| || line[k..k + 3] != "] [" then None
      else
        var j := k + 3 + WordRun(line, k + 3);
        if j == k + 3 || j + 2 > |line| || line[j..j + 2] != "] " then None
        else Some(Head(line[1..k], line[k + 3..j], line[j + 2..]))
  }

  /** Where the fixed parts of a line lie, given the ends of its first two groups. */
  predicate HeadLaidOut(line: string, k: nat, j: nat) {
    |line| >= 1 && line[0] == '[' && 1 <= k && k + 3 <= j && j + 2 <= |line| &&
    line[k..k + 3] == "] [" && line[j..j + 2] == "] "
  }

  /** A matched line is made up of what was matched. */
  lemma HeadSound(line: string)
    requires MatchHead(line).Some?
    ensures var h := MatchHead(line).value;
      Stamp(h.timestamp) && Word(h.level) && HeadText(h) == line
  {
    var k := 1 + BracketRun(line, 1);
    var j := k + 3 + WordRun(line, k + 3);
    assert HeadLaidOut(line, k, j) && k > 1 && j > k + 3;
    assert MatchHead(line).value == Head(line[1..k], line[k + 3..j], line[j + 2..]);
    BracketRunSpans(line, 1);
    WordRunSpans(line, k + 3);
    HeadGroups(line, k, j);
  }

  /** The groups of a laid-out line, when the runs cover them, are a stamp and a word making up the line. */
  lemma HeadGroups(line: string, k: nat, j: nat)
    requires HeadLaidOut(line, k, j) && k > 1 && j > k + 3
    requires forall i :: 1 <= i < k ==> line[i] != ']'
    requires forall i :: k + 3 <= i < j ==> IsWordChar(line[i])
    ensures var h := Head(line[1..k], line[k + 3..j], line[j + 2..]);
      Stamp(h.timestamp) && Word(h.level) && HeadText(h) == line
  {
    var ts, level := line[1..k], line[k + 3..j];
    assert forall i :: 0 <= i < |ts| ==> ts[i] == line[1 + i];
    assert forall i :: 0 <= i < |level| ==> level[i] == line[k + 3 + i];
    assert line[..1] == "[";
    Grow(line, 1, k);
    Grow(line, k, k + 3);
    Grow(line, k + 3, j);
    Grow(line, j, j + 2);
    Grow(line, j + 2, |line|);
    assert line[..|line|] == line;
  }

  /** A prefix of a text grows by the slice that follows it. */
  lemma Grow(s: string, a: nat, b: nat)
    requires a <= b <= |s|
    ensures s[..b] == s[..a] + s[a..b]
  {
  }

  /** The text made up of a stamp, a word and any rest is matched back into them. */
  lemma HeadComplete(h: Head)
    requires Stamp(h.timestamp) && Word(h.level)
    ensures MatchHead(HeadText(h)) == Some(h)
  {
    var line := HeadText(h);
    var k := 1 + |h.timestamp|;
    var j := k + 3 + |h.level|;
    HeadTextLaidOut(h);
    HeadRuns(line, h, k, j);
  }

  lemma HeadTextLaidOut(h: Head)
    ensures var k := 1 + |h.timestamp|; var j := k + 3 + |h.level|;
      var line := HeadText(h);
      HeadLaidOut(line, k, j) && line[1..k] == h.timestamp && line[k + 3..j] == h.level && line[j + 2..] == h.rest
  {
    var line := HeadText(h);
    var k := 1 + |h.timestamp|;
    var j := k + 3 + |h.level|;
    assert line[1..k] == h.timestamp;
    assert line[k..k + 3] == "] [";
    assert line[k + 3..j] == h.level;
    assert line[j..j + 2] == "] ";
    assert line[j + 2..] == h.rest;
  }

  /** On a laid-out line holding a stamp and a word, the runs stop at their ends. */
  lemma HeadRuns(line: string, h: Head, k: nat, j: nat)
    requires Stamp(h.timestamp) && Word(h.level)
    requires HeadLaidOut(line, k, j) && line[1..k] == h.timestamp && line[k + 3..j] == h.level && line[j + 2..] == h.rest
    ensures MatchHead(line) == Some(h)
  {
    assert forall i :: 1 <= i < k ==> line[i] == h.timestamp[i - 1];
    assert line[k] == line[k..k + 3][0];
    BracketRunTo(line, 1, k);
    assert forall i :: k + 3 <= i < j ==> line[i] == h.level[i - k - 3];
    assert line[j] == line[j..j + 2][0];
    WordRunTo(line, k + 3, j);
  }

  /** The agent and message that end the four-field form: `\[(\w+)\] (.+)$`. */
  function MatchAgent(rest: string): (r: Option<(string, string)>)
  {
    if rest == [] || rest[0] != '[' then None
    else
      var a := 1 + WordRun(rest, 1);
      if a == 1 || a + 2 > |rest| || rest[a..a + 2] != "] " then None
      else if rest[a + 2..] == [] || !NoLineTerminator(rest[a + 2..]) then None
      else Some((rest[1..a], rest[a + 2..]))
  }

  /** A message `(.+)$` can capture: not empty, on one line. */
  predicate Message(s: string) { s != [] && NoLineTerminator(s) }

  function AgentText(agent: string, message: string): string {
    "[" + agent + "] " + message
  }

  /** A match of the agent part gives a word and a message making up the text. */
  lemma AgentSound(rest: string)
    requires MatchAgent(rest).Some?
    ensures var (agent, message) := MatchAgent(rest).value;
      Word(agent) && Message(message) && AgentText(agent, message) == rest
  {
    var a := 1 + WordRun(rest, 1);
    WordRunSpans(rest, 1);
    AgentGroups(rest, a);
  }

  /** The agent part of a text whose run of word characters ends at `a`. */
  lemma AgentGroups(rest: string, a: nat)
    requires 1 < a && a + 2 <= |rest| && rest[0] == '[' && rest[a..a + 2] == "] "
    requires forall i :: 1 <= i < a ==> IsWordChar(rest[i])
    requires Message(rest[a + 2..])
    ensures Word(rest[1..a]) && AgentText(rest[1..a], rest[a + 2..]) == rest
  {
    var agent := rest[1..a];
    assert forall i :: 0 <= i < |agent| ==> agent[i] == rest[1 + i];
    assert rest[..1] == "[";
    Grow(rest, 1, a);
    Grow(rest, a, a + 2);
    Grow(rest, a + 2, |rest|);
    assert rest[..|rest|] == rest;
  }

  /** A word and a message are matched back from the text they make up. */
  lemma AgentComplete(agent: string, message: string)
    requires Word(agent) && Message(message)
    ensures MatchAgent(AgentText(agent, message)) == Some((agent, message))
  {
    var rest := AgentText(agent, message);
    var a := 1 + |agent|;
    assert rest[1..a] == agent;
    assert rest[a..a + 2] == "] ";
    assert rest[a + 2..] == message;
    assert forall i :: 1 <= i < a ==> rest[i] == agent[i - 1];
    assert rest[a] == rest[a..a + 2][0];
    WordRunTo(rest, 1, a);
  }

  // ------------------------------------------------------------ parseOpenClawLogLine

  /** A gateway line read into the shape `writeLog` takes. */
  datatype Parsed = Parsed(timestamp: string, level: string, agent: string, message: string)

  /** The line's entry, `null` for a line of neither form, or the `RangeError` an invalid date throws. */
  datatype ParseResult = Entry(entry: Parsed) | NoMatch | InvalidDate

  /**
   * `parseOpenClawLogLine`: the four-field form `[ts] [LEVEL] [agent] message` first, then
   * `[ts] [LEVEL] message` with the agent `SYSTEM`. `isoDate` stands for
   * `new Date(ts).toISOString()`, `None` where the date is invalid and the call throws.
   */
  function Parse(line: string, isoDate: string -> Option<string>): (r: ParseResult)
  {
    var h := MatchHead(line);
    if h.None? then NoMatch
    else
      var four := MatchAgent(h.value.rest);
      if four.None? && !Message(h.value.rest) then NoMatch
      else
        var iso := isoDate(h.value.timestamp);
        if iso.None? then InvalidDate
        else if four.Some? then Entry(Parsed(iso.value, h.value.level, four.value.0, four.value.1))
        else Entry(Parsed(iso.value, h.value.level, "SYSTEM", h.value.rest))
  }

  /** The four-field line. */
  function FourFields(ts: string, level: string, agent: string, message: string): string {
    HeadText(Head(ts, level, AgentText(agent, message)))
  }

  /** The line without an agent. */
  function ThreeFields(ts: string, level: string, message: string): string {
    HeadText(Head(ts, level, message))
  }

  /** A four-field line is read into its fields, with the date normalised. */
  lemma ParseFour(ts: string, level: string, agent: string, message: string, isoDate: string -> Option<string>)
    requires Stamp(ts) && Word(level) && Word(agent) && Message(message) && isoDate(ts).Some?
    ensures Parse(FourFields(ts, level, agent, message), isoDate) == Entry(Parsed(isoDate(ts).value, level, agent, message))
  {
    HeadComplete(Head(ts, level, AgentText(agent, message)));
    AgentComplete(agent, message);
  }

  /**
   * A four-field line matches the second form too, with the agent's brackets left in the
   * message: only trying the four-field form first gives the agent its own field.
   */
  lemma FourAlsoThree(ts: string, level: string, agent: string, message: string)
    requires Stamp(ts) && Word(level) && Word(agent) && Message(message)
    ensures FourFields(ts, level, agent, message) == ThreeFields(ts, level, AgentText(agent, message))
    ensures Message(AgentText(agent, message))
  {
    var t := AgentText(agent, message);
    assert forall i :: 0 <= i < |t| ==> t[i] in "[] " || t[i] in agent || t[i] in message by {
      forall i | 0 <= i < |t|
        ensures t[i] in "[] " || t[i] in agent || t[i] in message
      {
        if i == 0 {
        } else if i < 1 + |agent| {
          assert t[i] == agent[i - 1];
        } else if i < 3 + |agent| {
        } else {
          assert t[i] == message[i - 3 - |agent|];
        }
      }
    }
    assert forall i :: 0 <= i < |agent| ==> !IsLineTerminator(agent[i]);
  }

  /** A line without an agent, whose message does not itself open with `[word] `, is read as from `SYSTEM`. */
  lemma ParseThree(ts: string, level: string, message: string, isoDate: string -> Option<string>)
    requires Stamp(ts) && Word(level) && Message(message) && MatchAgent(message).None? && isoDate(ts).Some?
    ensures Parse(ThreeFields(ts, level, message), isoDate) == Entry(Parsed(isoDate(ts).value, level, "SYSTEM", message))
  {
    HeadComplete(Head(ts, level, message));
  }

  /** A line of either form whose stamp is not a valid date throws, whatever its message. */
  lemma ParseThrows(line: string, isoDate: string -> Option<string>)
    requires MatchHead(line).Some? && isoDate(MatchHead(line).value.timestamp).None?
    ensures Parse(line, isoDate) == InvalidDate <==> MatchAgent(MatchHead(line).value.rest).Some? || Message(MatchHead(line).value.rest)
    ensures Parse(line, isoDate) != InvalidDate ==> Parse(line, isoDate) == NoMatch
  {
  }

  /**
   * Every entry comes from a line of one of the two forms: the four fields, or the
   * three with the agent `SYSTEM`; its level is a word and its message one line.
   */
  lemma ParseSound(line: string, isoDate: string -> Option<string>)
    requires Parse(line, isoDate).Entry?
    ensures var e := Parse(line, isoDate).entry;
      var ts := MatchHead(line).value.timestamp;
      Stamp(ts) && Word(e.level) && Message(e.message) && isoDate(ts) == Some(e.timestamp) &&
      ((line == FourFields(ts, e.level, e.agent, e.message) && Word(e.agent)) ||
       (line == ThreeFields(ts, e.level, e.message) && e.agent == "SYSTEM"))
  {
    HeadSound(line);
    var h := MatchHead(line).value;
    if MatchAgent(h.rest).Some? {
      AgentSound(h.rest);
    }
  }
}
