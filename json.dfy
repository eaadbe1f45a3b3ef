/**
 * Decoded JSON as PHP sees it after `json_decode($text, true)`: objects and lists both become
 * PHP arrays, and `$a['k'][0]['m'] ?? $d` walks such a value, treating a missing key, a `null`
 * and a step into a non-array the same way.
 */
module Json {
  import opened Wrappers
  import opened Text

  datatype Json =
    | JNull
    | JBool(b: bool)
    | JInt(i: int)
    | JStr(s: string)
    | JList(items: seq<Json>)
    | JObject(fields: seq<(string, Json)>)

  /** The value under a key of an object's ordered members (the first, as keys of a decoded
   *  object are distinct). */
  function Get(fields: seq<(string, Json)>, k: string): (r: Option<Json>)
    ensures r.Some? <==> exists m :: 0 <= m < |fields| && fields[m].0 == k
    ensures r.Some? ==> exists m :: 0 <= m < |fields| && fields[m] == (k, r.value)
  {
    if fields == [] then None
    else if fields[0].0 == k then Some(fields[0].1)
    else
      var r := Get(fields[1..], k);
      assert r.Some? ==> exists m :: 0 <= m < |fields[1..]| && fields[1..][m] == (k, r.value);
      assert forall m :: 1 <= m < |fields| ==> fields[1..][m - 1] == fields[m];
      r
  }

  /** MySQL's JSON_SET of one top-level key: replace the member in place, or append it. */
  function Set(fields: seq<(string, Json)>, k: string, v: Json): (r: seq<(string, Json)>)
    ensures Get(r, k) == Some(v)
  {
    if fields == [] then [(k, v)]
    else if fields[0].0 == k then [(k, v)] + fields[1..]
    else [fields[0]] + Set(fields[1..], k, v)
  }

  /** JSON_SET of one key leaves every other key as it was. */
  lemma {:induction false} SetOther(fields: seq<(string, Json)>, k: string, v: Json, k2: string)
    requires k2 != k
    ensures Get(Set(fields, k, v), k2) == Get(fields, k2)
  {
    if fields != [] && fields[0].0 != k {
      SetOther(fields[1..], k, v, k2);
      assert ([fields[0]] + Set(fields[1..], k, v))[1..] == Set(fields[1..], k, v);
    } else if fields != [] {
      assert ([(k, v)] + fields[1..])[1..] == fields[1..];
    }
  }

  /** One subscript of a PHP array: a string key or an integer index. */
  datatype Step = Key(k: string) | At(index: nat)

  /** `is_array()` on a decoded value. */
  predicate IsArray(j: Json) {
    j.JList? || j.JObject?
  }

  /**
   * One subscript inside `isset`/`??`: present only when the value is an array holding a
   * non-null entry under that key. An object's key "0" is PHP's integer key 0.
   */
  function Child(j: Json, s: Step): (r: Option<Json>)
    ensures r.Some? ==> IsArray(j) && !r.value.JNull?
  {
    match s
    case Key(k) =>
      if j.JObject? then NonNull(Get(j.fields, k)) else None
    case At(n) =>
      if j.JList? && n < |j.items| then NonNull(Some(j.items[n]))
      else if j.JObject? then NonNull(Get(j.fields, NatToString(n)))
      else None
  }

  /** A JSON null counts as absent inside `isset`/`??`. */
  function NonNull(v: Option<Json>): (r: Option<Json>)
    ensures r.Some? <==> v.Some? && !v.value.JNull?
    ensures r.Some? ==> r == v
  {
    if v.Some? && !v.value.JNull? then v else None
  }

  /** The value `$j[p0][p1]...` yields inside `??`: None stands for "use the default". */
  function Lookup(j: Json, path: seq<Step>): (r: Option<Json>)
    ensures r.Some? ==> !r.value.JNull?
    ensures path != [] && !IsArray(j) ==> r.None?
  {
    if path == [] then (if j.JNull? then None else Some(j))
    else
      match Child(j, path[0])
      case None => None
      case Some(c) => Lookup(c, path[1..])
  }

  /** An object that holds v under k answers the one-step path [k] with v. */
  lemma LookupKey(fields: seq<(string, Json)>, k: string, v: Json, rest: seq<Step>)
    requires Get(fields, k) == Some(v) && !v.JNull?
    ensures Lookup(JObject(fields), [Key(k)] + rest) == Lookup(v, rest)
  {
    assert ([Key(k)] + rest)[1..] == rest;
  }

  /** A list answers At(n) with its element n. */
  lemma LookupAt(items: seq<Json>, n: nat, rest: seq<Step>)
    requires n < |items| && !items[n].JNull?
    ensures Lookup(JList(items), [At(n)] + rest) == Lookup(items[n], rest)
  {
    assert ([At(n)] + rest)[1..] == rest;
  }

  /** `$v ?? $default` for a looked-up value. */
  function Coalesce(v: Option<Json>, default: Json): (r: Json)
    ensures v.Some? ==> r == v.value
    ensures v.None? ==> r == default
  {
    if v.Some? then v.value else default
  }

  /**
   * PHP's coercion of a scalar to a string where a string parameter is expected (as `trim()`
   * does without strict types): None for an array, which makes such a call throw a TypeError.
   */
  function AsText(j: Json): (r: Option<string>)
    ensures r.None? <==> IsArray(j)
    ensures j.JStr? ==> r == Some(j.s)
  {
    match j
    case JNull => Some("")
    case JBool(b) => Some(if b then "1" else "")
    case JInt(i) => Some(IntToString(i))
    case JStr(s) => Some(s)
    case JList(_) => None
    case JObject(_) => None
  }
  const TrimTypeError: string := "trim(): Argument #1 ($string) must be of type string, array given"

  /** `trim($v)` on a decoded value: a scalar is trimmed as text, an array makes trim() throw. */
  function TrimValue(j: Json): (r: Result<string, string>)
    ensures IsArray(j) <==> r.Err?
    ensures r.Err? ==> r.error == TrimTypeError
    ensures j.JStr? ==> r == Ok(Trim(j.s))
    ensures j.JNull? ==> r == Ok("")
  {
    match AsText(j)
    case None => Err(TrimTypeError)
    case Some(s) => Ok(Trim(s))
  }

  /** PHP truthiness of a decoded value (`if ($v)`, `?:`, `!empty()`). */
  predicate Truthy(j: Json) {
    match j
    case JNull => false
    case JBool(b) => b
    case JInt(i) => i != 0
    case JStr(s) => !Falsy(s)
    case JList(items) => items != []
    case JObject(fields) => fields != []
  }

  /**
   * A value inside a double-quoted string or passed to `strval()`: an array becomes the word
   * "Array" (PHP only warns), every scalar its string form.
   */
  function Interpolate(j: Json): (r: string)
    ensures IsArray(j) ==> r == "Array"
    ensures !IsArray(j) ==> Some(r) == AsText(j)
  {
    match AsText(j)
    case Some(t) => t
    case None => "Array"
  }

  /** A truthy value keeps a truthy string form: neither "" nor "0". */
  lemma TruthyText(j: Json)
    requires Truthy(j)
    ensures !Falsy(Interpolate(j))
  {
    if j.JInt? {
      var i := j.i;
      if i < 0 {
        assert IntToString(i)[0] == '-';
      } else if i < 10 {
        assert IntToString(i) == [DigitChar(i)];
      } else {
        assert |IntToString(i)| >= 2;
      }
    }
  }

  /** The type name PHP prints in a TypeError about this value. */
  function TypeName(j: Json): string {
    match j
    case JNull => "null"
    case JBool(_) => "bool"
    case JInt(_) => "int"
    case JStr(_) => "string"
    case JList(_) => "array"
    case JObject(_) => "array"
  }
}
