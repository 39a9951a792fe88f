/**
 * Property lookup on a plain JavaScript object literal, as the components' lookup tables
 * use it: `table[key]` gives the table's own value for a listed key, and otherwise the
 * member of that name every object inherits from `Object.prototype`, when there is one.
 * Those members are functions (and, for `__proto__`, the prototype object itself), so they
 * are never strings and always truthy.
 */
module Objects {
  import opened Strings

  /** The names every object literal inherits from `Object.prototype`. */
  const InheritedNames: set<string> := {
    "constructor", "__defineGetter__", "__defineSetter__", "hasOwnProperty",
    "__lookupGetter__", "__lookupSetter__", "isPrototypeOf", "propertyIsEnumerable",
    "toString", "valueOf", "__proto__", "toLocaleString"
  }

  /** No inherited name holds a space. */
  lemma InheritedNoSpace()
    ensures forall n :: n in InheritedNames ==> ' ' !in n
  {
  }

  /** A value found by a lookup: a string, or the inherited member of that name. */
  datatype Value = Str(s: string) | Member(name: string)

  /** `table[key]` on a table of strings; `None` is `undefined`. */
  function Get(table: map<string, string>, key: string): Option<Value> {
    if key in table then Some(Str(table[key]))
    else if key in InheritedNames then Some(Member(key))
    else None
  }

  /** JavaScript truthiness of a looked-up value: a non-empty string or any inherited member. */
  predicate Truthy(v: Option<Value>) {
    v.Some? && (v.value.Member? || v.value.s != [])
  }

  /** `table[key] || fallback` with a string fallback. */
  function LookupOr(table: map<string, string>, key: string, fallback: string): (r: Value)
    ensures key in table && table[key] != [] ==> r == Str(table[key])
    ensures key !in table && key in InheritedNames ==> r == Member(key)
    ensures (key in table && table[key] == []) || (key !in table && key !in InheritedNames) ==> r == Str(fallback)
  {
    var v := Get(table, key);
    if Truthy(v) then v.value else Str(fallback)
  }

  /**
   * `if (table[key])` on a table whose own values are all objects, hence truthy: the key
   * is listed or is an inherited name.
   */
  predicate Found(keys: set<string>, key: string) {
    key in keys || key in InheritedNames
  }
}
