/** Parsed JSON values and the handful of Python operations the quantifier
    applies to them: truthiness, subscripting, iteration, `in`, and the
    argument check of `datetime.fromtimestamp`. Every operation that can raise
    in Python returns a `Result` carrying the exception it would raise. */
module Json {

  datatype Option<T> = None | Some(value: T)

  /** A JSON document as `json.load` returns it. An object keeps its members in
      document order, as a Python dict does; a parsed dict has distinct keys. */
  datatype Json =
    | JNull
    | JBool(b: bool)
    | JNum(n: int)
    | JStr(s: string)
    | JArr(elems: seq<Json>)
    | JObj(members: seq<(string, Json)>)

  /** The Python exceptions the quantifier can run into; ValueError is what a
      pandas join raises on a column name the table already has. */
  datatype Error =
    | KeyError(key: Json)
    | IndexError(index: nat)
    | TypeError
    | AttributeError
    | RuntimeError
    | ValueError

  datatype Result<T> = Ok(value: T) | Err(error: Error)

  /** A calendar day in the local time zone (what `datetime.date` holds). */
  datatype Date = Date(ordinal: int)

  /** Python's `not x` for a JSON value; a file that is absent is `JNull`. */
  predicate Falsy(j: Json) {
    match j
    case JNull => true
    case JBool(b) => !b
    case JNum(n) => n == 0
    case JStr(s) => s == []
    case JArr(e) => e == []
    case JObj(m) => m == []
  }

  /** `pat` occurs in `s` starting at position `i`. */
  predicate OccursAt(s: string, pat: string, i: int) {
    0 <= i && i + |pat| <= |s| && s[i..i + |pat|] == pat
  }

  /** Python's `pat in s` on strings. */
  predicate Contains(s: string, pat: string) {
    exists i | 0 <= i <= |s| - |pat| :: OccursAt(s, pat, i)
  }

  function Lookup(members: seq<(string, Json)>, key: string): (r: Option<Json>)
    ensures r.Some? <==> exists i :: 0 <= i < |members| && members[i].0 == key
    ensures r.Some? ==> exists i :: 0 <= i < |members| && members[i] == (key, r.value)
  {
    if members == [] then None
    else if members[0].0 == key then Some(members[0].1)
    else
      var r := Lookup(members[1..], key);
      assert forall i :: 1 <= i < |members| ==> members[i] == members[1..][i - 1];
      r
  }

  /** `j[key]` with a string key. */
  function Key(j: Json, key: string): (r: Result<Json>)
    ensures r.Ok? <==> j.JObj? && Lookup(j.members, key).Some?
    ensures r.Ok? ==> r.value == Lookup(j.members, key).value
    ensures j.JObj? && r.Err? ==> r.error == KeyError(JStr(key))
  {
    match j
    case JObj(m) =>
      (match Lookup(m, key)
       case Some(v) => Ok(v)
       case None => Err(KeyError(JStr(key))))
    case _ => Err(TypeError)
  }

  /** `j[i]` with a non-negative integer index. */
  function Index(j: Json, i: nat): (r: Result<Json>)
    ensures j.JArr? ==> (r.Ok? <==> i < |j.elems|)
    ensures j.JArr? && i < |j.elems| ==> r == Ok(j.elems[i])
    ensures j.JArr? && i >= |j.elems| ==> r == Err(IndexError(i))
  {
    match j
    case JArr(e) => if i < |e| then Ok(e[i]) else Err(IndexError(i))
    case JStr(s) => if i < |s| then Ok(JStr([s[i]])) else Err(IndexError(i))
    case JObj(_) => Err(KeyError(JNum(i)))
    case _ => Err(TypeError)
  }

  /** `for x in j`: list elements, dict keys, or the characters of a string. */
  function Items(j: Json): (r: Result<seq<Json>>)
    ensures j.JArr? <==> r.Ok? && !j.JObj? && !j.JStr?
    ensures j.JArr? ==> r == Ok(j.elems)
    ensures j.JObj? ==> r.Ok? && |r.value| == |j.members|
    ensures j.JObj? ==> forall i :: 0 <= i < |j.members| ==> r.value[i] == JStr(j.members[i].0)
  {
    match j
    case JArr(e) => Ok(e)
    case JObj(m) => Ok(seq(|m|, i requires 0 <= i < |m| => JStr(m[i].0)))
    case JStr(s) => Ok(seq(|s|, i requires 0 <= i < |s| => JStr([s[i]])))
    case _ => Err(TypeError)
  }

  /** `j.values()`, which only a dict has. */
  function Values(j: Json): (r: Result<seq<Json>>)
    ensures r.Ok? <==> j.JObj?
    ensures r.Ok? ==> |r.value| == |j.members|
    ensures r.Ok? ==> forall i :: 0 <= i < |j.members| ==> r.value[i] == j.members[i].1
  {
    match j
    case JObj(m) => Ok(seq(|m|, i requires 0 <= i < |m| => m[i].1))
    case _ => Err(AttributeError)
  }

  /** `key in j`: a dict key, a list element, or a substring. */
  function Member(j: Json, key: string): (r: Result<bool>)
    ensures j.JObj? ==> r == Ok(Lookup(j.members, key).Some?)
    ensures j.JStr? ==> r == Ok(Contains(j.s, key))
    ensures r.Err? <==> !(j.JObj? || j.JArr? || j.JStr?)
  {
    match j
    case JObj(m) => Ok(Lookup(m, key).Some?)
    case JArr(e) => Ok(JStr(key) in e)
    case JStr(s) => Ok(Contains(s, key))
    case _ => Err(TypeError)
  }

  /** The argument check of `datetime.fromtimestamp`: a number (a bool is an
      int in Python); the value is seconds since the epoch. */
  function Seconds(j: Json): (r: Result<int>)
    ensures r.Ok? <==> j.JNum? || j.JBool?
    ensures j.JNum? ==> r == Ok(j.n)
  {
    match j
    case JNum(n) => Ok(n)
    case JBool(b) => Ok(if b then 1 else 0)
    case _ => Err(TypeError)
  }

  /** `timestamp_ms / 1000` for `datetime.fromtimestamp`: milliseconds to whole
      seconds, rounding toward minus infinity as the date conversion does. */
  function MillisToSeconds(j: Json): (r: Result<int>)
    ensures r.Ok? <==> j.JNum? || j.JBool?
    ensures j.JNum? ==> r.value * 1000 <= j.n < r.value * 1000 + 1000
  {
    match j
    case JNum(n) => Ok(n / 1000)
    case JBool(b) => Ok(0)
    case _ => Err(TypeError)
  }

  /** `[datetime.fromtimestamp(t).date() for t in secs]` */
  function ToDates(secs: seq<int>, toDate: int -> Date): (r: seq<Date>)
    ensures |r| == |secs|
    ensures forall i :: 0 <= i < |secs| ==> r[i] == toDate(secs[i])
  {
    seq(|secs|, i requires 0 <= i < |secs| => toDate(secs[i]))
  }
}
