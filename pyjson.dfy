/**
 * JSON values as the driver receives them (already parsed into Python objects),
 * and the few Python operators the driver applies to them: `key in x`, `x[key]`,
 * `x.get(key, default)` and `'%s' % x`. Each operator either yields a value or
 * raises one of the exceptions below, exactly as Python does for that operand type.
 */
module PyJson {

  /** A parsed JSON value; an object is a Python dict from string keys. */
  datatype Json =
    | JNull
    | JBool(b: bool)
    | JNum(n: int)
    | JStr(s: string)
    | JArr(elems: seq<Json>)
    | JObj(fields: map<string, Json>)

  /** The Python exceptions the modelled code can raise on its own. */
  datatype PyError = KeyError(key: string) | TypeError | AttributeError

  /** A value, or the exception that interrupted the computation. */
  datatype Result<+T> = Ok(value: T) | Err(error: PyError) {
    predicate IsFailure() { Err? }
    function PropagateFailure<U>(): Result<U>
      requires Err?
    {
      Err(error)
    }
    function Extract(): T
      requires Ok?
    {
      value
    }
  }

  datatype Option<+T> = None | Some(value: T)

  /** `sub` occurs in `s` starting at index `i`. */
  predicate OccursAt(s: string, sub: string, i: nat)
  {
    i + |sub| <= |s| && s[i..i + |sub|] == sub
  }

  /** Python's `sub in s` on two strings: a substring search. */
  function HasSubstring(s: string, sub: string): (r: bool)
    ensures r <==> exists i: nat :: OccursAt(s, sub, i)
    decreases |s|
  {
    if |sub| > |s| then
      false
    else if s[..|sub|] == sub then
      assert OccursAt(s, sub, 0);
      true
    else
      ShiftOccurrences(s, sub);
      HasSubstring(s[1..], sub)
  }

  /** Occurrences in `s[1..]` are the occurrences in `s` past index 0, shifted by one. */
  lemma ShiftOccurrences(s: string, sub: string)
    requires |s| > 0 && |s| >= |sub| && s[..|sub|] != sub
    ensures (exists i: nat :: OccursAt(s, sub, i)) <==> (exists i: nat :: OccursAt(s[1..], sub, i))
  {
    if i: nat :| OccursAt(s, sub, i) {
      assert i != 0;
      assert s[1..][i - 1..i - 1 + |sub|] == s[i..i + |sub|];
      assert OccursAt(s[1..], sub, i - 1);
    }
    if i: nat :| OccursAt(s[1..], sub, i) {
      assert s[1..][i..i + |sub|] == s[i + 1..i + 1 + |sub|];
      assert OccursAt(s, sub, i + 1);
    }
  }

  /** Python's `key in x` for a string `key`: dict membership, substring search on a
      str, element search on a list; None, bools and numbers raise TypeError. */
  function Contains(x: Json, key: string): (r: Result<bool>)
    ensures r.Err? <==> x.JNull? || x.JBool? || x.JNum?
    ensures r.Err? ==> r.error == TypeError
    ensures x.JObj? ==> r == Ok(key in x.fields)
    ensures x.JStr? ==> r == Ok(exists i: nat :: OccursAt(x.s, key, i))
    ensures x.JArr? ==> r == Ok(exists i :: 0 <= i < |x.elems| && x.elems[i] == JStr(key))
  {
    match x
    case JObj(fields) => Ok(key in fields)
    case JStr(s) => Ok(HasSubstring(s, key))
    case JArr(elems) => Ok(JStr(key) in elems)
    case _ => Err(TypeError)
  }

  /** Python's `x[key]` for a string `key`: only a dict can be indexed by a string. */
  function Subscript(x: Json, key: string): (r: Result<Json>)
    ensures r.Ok? <==> x.JObj? && key in x.fields
    ensures r.Ok? ==> r.value == x.fields[key]
    ensures x.JObj? && key !in x.fields ==> r == Err(KeyError(key))
    ensures !x.JObj? ==> r == Err(TypeError)
  {
    match x
    case JObj(fields) => if key in fields then Ok(fields[key]) else Err(KeyError(key))
    case _ => Err(TypeError)
  }

  /** Python's `x.get(key, default)`: only a dict has a `get` attribute. */
  function GetOr(x: Json, key: string, default: Json): (r: Result<Json>)
    ensures r.Ok? <==> x.JObj?
    ensures r.Ok? && key in x.fields ==> r.value == x.fields[key]
    ensures r.Ok? && key !in x.fields ==> r.value == default
    ensures !x.JObj? ==> r == Err(AttributeError)
  {
    match x
    case JObj(fields) => Ok(if key in fields then fields[key] else default)
    case _ => Err(AttributeError)
  }

  /** Decimal digits of a natural number, most significant first. */
  function Digits(n: nat): (digits: string)
    ensures |digits| > 0
    ensures forall i :: 0 <= i < |digits| ==> '0' <= digits[i] <= '9'
  {
    if n < 10 then ["0123456789"[n]] else Digits(n / 10) + ["0123456789"[n % 10]]
  }

  /** `'%s' % x`: a str is inserted as it is; None, bools and integers as Python prints them.
      Lists and dicts are rendered by a fixed placeholder (their Python repr is not modelled). */
  function Text(x: Json): (text: string)
    ensures x.JStr? ==> text == x.s
    // a name that is None, a bool or an integer never contributes a '/' to a path
    ensures x.JNull? || x.JBool? || x.JNum? ==> '/' !in text
  {
    match x
    case JStr(s) => s
    case JNull => "None"
    case JBool(b) => if b then "True" else "False"
    case JNum(n) => if n < 0 then "-" + Digits(-n) else Digits(n)
    case JArr(_) => "[...]"
    case JObj(_) => "{...}"
  }
}
