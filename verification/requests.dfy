/**
 * What the dashboard's request handlers share: the fields of a parsed JSON body, the
 * response they send, and the check `!x || typeof x !== 'string' || x.trim().length === 0`
 * they apply to a required text field.
 */
module Requests {
  import opened Strings

  /**
   * A field of the JSON body: absent, a string, a non-string value JavaScript counts as
   * false (`null`, `false`, `0`), or any other non-string value (`true`, another number,
   * an array, an object).
   */
  datatype Field = Absent | Text(value: string) | FalsyValue | TruthyValue

  /** `!x` for a body field: absent, `null`, `false`, `0` or the empty string. */
  predicate Falsy(f: Field) {
    f.Absent? || f.FalsyValue? || (f.Text? && f.value == [])
  }

  datatype Response = Response(status: nat, success: bool, message: string)

  /** The response, and the text written to the file when there is one. */
  datatype Outcome = Outcome(response: Response, written: Option<string>)

  const InternalError := "Internal server error"

  /** The required-text check: a string that is not blank after `trim`, which is what is kept. */
  function CheckedText(f: Field): (t: Option<string>)
    ensures t.Some? <==> f.Text? && !AllSpace(f.value)
    ensures t.Some? ==> t.value != [] && Trim(t.value) == t.value && t.value == Trim(f.value)
  {
    if f.Text? && Trim(f.value) != [] then
      TrimIdempotent(f.value);
      Some(Trim(f.value))
    else if f.Text? then
      TrimBlank(f.value);
      None
    else None
  }

  /** `x || fallback` for a string that may be absent or empty. */
  function OrDefault(o: Option<string>, fallback: string): (r: string)
    ensures o.Some? && o.value != [] ==> r == o.value
    ensures o.None? || o.value == [] ==> r == fallback
  {
    if o.Some? && o.value != [] then o.value else fallback
  }
}
