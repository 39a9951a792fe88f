/**
 * The task text put inside double quotes on an `openclaw` command line, as the spawn
 * route and the spawn button build it, and how a POSIX shell reads such a quoted word
 * back (section 2.2.3 of the POSIX Shell Command Language: inside double quotes a
 * backslash escapes only `$`, backquote, `"`, backslash and newline, and an unescaped `$`
 * or backquote starts an expansion).
 */
module ShellCommand {
  import opened Strings
  import opened Seqs

  /** `text.replace(/"/g, '\\"')`: a backslash put before every double quote. */
  function EscapeQuotes(s: string): string {
    if s == [] then [] else QuoteOne(s[0]) + EscapeQuotes(s[1..])
  }

  function QuoteOne(c: char): string {
    if c == '"' then ['\\', '"'] else [c]
  }

  /** Text without a double quote is left as it is, and escaping only lengthens a text. */
  lemma {:induction false} EscapeQuotesBounds(s: string)
    ensures |EscapeQuotes(s)| == |s| + |Filter(s, c => c == '"')|
    ensures '"' !in s ==> EscapeQuotes(s) == s
    decreases |s|
  {
    if s != [] {
      EscapeQuotesBounds(s[1..]);
    }
  }

  /** A double-quoted word read back: the characters it stands for, and what follows its closing quote. */
  datatype Word = Word(text: string, rest: string)

  /** The characters a backslash escapes inside double quotes. */
  predicate Escapable(c: char) {
    c == '$' || c == '`' || c == '"' || c == '\\' || c == '\n'
  }

  /** `c` put in front of a word read, when there is one. */
  function Prepend(c: char, w: Option<Word>): Option<Word> {
    if w.None? then None else Some(Word([c] + w.value.text, w.value.rest))
  }

  /**
   * How the shell reads the inside of a double-quoted word, from just after its opening
   * quote: nothing when the quote is never closed or when an expansion starts, else the
   * literal text and what follows the closing quote. An escaped newline is removed.
   * The reading is deliberately coarse about `$`: every `$` counts as the start of an
   * expansion, although the shell keeps a `$` before a space, before the closing quote or
   * at the end literally. Text without a `$` is read exactly.
   */
  function ReadQuoted(s: string): (r: Option<Word>)
    decreases |s|
  {
    if s == [] then None
    else if s[0] == '"' then Some(Word([], s[1..]))
    else if s[0] == '$' || s[0] == '`' then None
    else if s[0] == '\\' && |s| >= 2 && Escapable(s[1]) then
      if s[1] == '\n' then ReadQuoted(s[2..]) else Prepend(s[1], ReadQuoted(s[2..]))
    else Prepend(s[0], ReadQuoted(s[1..]))
  }

  /** A plain character is read as itself. */
  lemma ReadPlain(c: char, e: string)
    requires c != '"' && c != '$' && c != '`' && c != '\\'
    ensures ReadQuoted([c] + e) == Prepend(c, ReadQuoted(e))
  {
    assert ([c] + e)[1..] == e;
  }

  /** A backslash and an escapable character other than newline are read as that character. */
  lemma ReadEscaped(c: char, e: string)
    requires Escapable(c) && c != '\n'
    ensures ReadQuoted(['\\', c] + e) == Prepend(c, ReadQuoted(e))
  {
    assert (['\\', c] + e)[2..] == e;
  }

  /** One quote-escaped character other than a backslash, `$` or backquote is read back as itself. */
  lemma ReadQuoteOne(c: char, e: string)
    requires c != '\\' && c != '$' && c != '`'
    ensures ReadQuoted(QuoteOne(c) + e) == Prepend(c, ReadQuoted(e))
  {
    if c == '"' {
      ReadEscaped(c, e);
    } else {
      ReadPlain(c, e);
    }
  }

  /** Text the quote-only escape handles: no backslash, dollar sign or backquote. */
  predicate QuoteSafe(s: string) {
    forall i :: 0 <= i < |s| ==> s[i] != '\\' && s[i] != '$' && s[i] != '`'
  }

  /** For quote-safe text, the quote-only escape is read back as the text itself. */
  lemma {:induction false} EscapeQuotesReadsBack(t: string, rest: string)
    requires QuoteSafe(t)
    ensures ReadQuoted(EscapeQuotes(t) + ['"'] + rest) == Some(Word(t, rest))
    decreases |t|
  {
    if t == [] {
      assert EscapeQuotes(t) + ['"'] + rest == ['"'] + rest;
      assert (['"'] + rest)[1..] == rest;
    } else {
      var e := EscapeQuotes(t[1..]) + ['"'] + rest;
      assert QuoteSafe(t[1..]) by {
        assert forall i :: 0 <= i < |t[1..]| ==> t[1..][i] == t[i + 1];
      }
      assert EscapeQuotes(t) + ['"'] + rest == QuoteOne(t[0]) + e;
      calc {
        ReadQuoted(QuoteOne(t[0]) + e);
        == { ReadQuoteOne(t[0], e); }
        Prepend(t[0], ReadQuoted(e));
        == { EscapeQuotesReadsBack(t[1..], rest); }
        Prepend(t[0], Some(Word(t[1..], rest)));
        == { assert [t[0]] + t[1..] == t; }
        Some(Word(t, rest));
      }
    }
  }

  /**
   * The quote-only escape breaks the quoting of a task that ends with a backslash: in
   * `"a\" --detach` the closing quote is read as an escaped quote, and a remainder with no
   * quote, backslash, `$` or backquote, such as ` --detach`, never ends the word.
   */
  lemma TrailingBackslashBreaks(rest: string)
    requires '"' !in rest && '\\' !in rest && '$' !in rest && '`' !in rest
    ensures EscapeQuotes(['a', '\\']) == ['a', '\\']
    ensures ReadQuoted(EscapeQuotes(['a', '\\']) + ['"'] + rest) == None
  {
    EscapeQuotesBounds(['a', '\\']);
    assert ['a', '\\'] + ['"'] + rest == ['a'] + (['\\', '"'] + rest);
    ReadPlain('a', ['\\', '"'] + rest);
    ReadEscaped('"', rest);
    NoQuoteUnread(rest);
  }

  /** Text without a double quote, backslash, dollar sign or backquote never closes a word. */
  lemma {:induction false} NoQuoteUnread(s: string)
    requires '"' !in s && '\\' !in s && '$' !in s && '`' !in s
    ensures ReadQuoted(s) == None
    decreases |s|
  {
    if s != [] {
      NoQuoteUnread(s[1..]);
    }
  }

  /** A dollar sign in the task still starts an expansion inside the quotes. */
  lemma DollarExpands(rest: string)
    ensures ReadQuoted(EscapeQuotes("$x") + ['"'] + rest) == None
  {
    assert EscapeQuotes("$x") == "$x";
  }

  /** The escape the quoting needs: a backslash before each of `"`, backslash, `$` and backquote. */
  function EscapeShell(s: string): string {
    if s == [] then [] else ShellOne(s[0]) + EscapeShell(s[1..])
  }

  function ShellOne(c: char): string {
    if c == '"' || c == '\\' || c == '$' || c == '`' then ['\\', c] else [c]
  }

  /** One escaped character is read back as itself. */
  lemma ReadShellOne(c: char, e: string)
    ensures ReadQuoted(ShellOne(c) + e) == Prepend(c, ReadQuoted(e))
  {
    if c == '"' || c == '\\' || c == '$' || c == '`' {
      ReadEscaped(c, e);
    } else {
      ReadPlain(c, e);
    }
  }

  /** Any text, escaped this way and closed by a quote, is read back as itself. */
  lemma {:induction false} EscapeShellReadsBack(t: string, rest: string)
    ensures ReadQuoted(EscapeShell(t) + ['"'] + rest) == Some(Word(t, rest))
    decreases |t|
  {
    if t == [] {
      assert EscapeShell(t) + ['"'] + rest == ['"'] + rest;
      assert (['"'] + rest)[1..] == rest;
    } else {
      var e := EscapeShell(t[1..]) + ['"'] + rest;
      assert EscapeShell(t) + ['"'] + rest == ShellOne(t[0]) + e;
      calc {
        ReadQuoted(ShellOne(t[0]) + e);
        == { ReadShellOne(t[0], e); }
        Prepend(t[0], ReadQuoted(e));
        == { EscapeShellReadsBack(t[1..], rest); }
        Prepend(t[0], Some(Word(t[1..], rest)));
        == { assert [t[0]] + t[1..] == t; }
        Some(Word(t, rest));
      }
    }
  }

  /** On quote-safe text the two escapes agree. */
  lemma {:induction false} EscapesAgree(t: string)
    requires QuoteSafe(t)
    ensures EscapeShell(t) == EscapeQuotes(t)
    decreases |t|
  {
    if t != [] {
      assert QuoteSafe(t[1..]) by {
        assert forall i :: 0 <= i < |t[1..]| ==> t[1..][i] == t[i + 1];
      }
      EscapesAgree(t[1..]);
    }
  }
}
