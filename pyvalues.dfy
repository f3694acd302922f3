/**
 Python values as the scrapers see them: decoded JSON documents, the values
 stored in a vessel record, Python truthiness, and the `str()` / `float()`
 conversions the extractors apply to them.
 */
module PyValues {
  import opened Wrappers
  import opened PyText

  /** A JSON document as `json.loads` returns it. Objects keep their key order
      (Python dicts are insertion ordered); json.loads never yields two entries
      with the same key. */
  datatype Json =
    | JNull
    | JBool(b: bool)
    | JInt(i: int)
    | JFloat(f: real)
    | JStr(s: string)
    | JArr(items: seq<Json>)
    | JObj(members: seq<(string, Json)>)

  /** Python truthiness of a decoded JSON value. */
  predicate JsonTruthy(j: Json) {
    match j
    case JNull => false
    case JBool(b) => b
    case JInt(i) => i != 0
    case JFloat(f) => f != 0.0
    case JStr(s) => s != ""
    case JArr(xs) => xs != []
    case JObj(ms) => ms != []
  }

  /** The value of key `k` in a decoded object, as `k in d` / `d[k]` see it. */
  function Lookup(ms: seq<(string, Json)>, k: string): (r: Option<Json>)
  {
    if ms == [] then None
    else if ms[0].0 == k then Some(ms[0].1)
    else Lookup(ms[1..], k)
  }

  /** `k in d` holds exactly when some entry has key `k`, and `d[k]` is the
      value of the first such entry. */
  lemma {:induction false} LookupFindsKey(ms: seq<(string, Json)>, k: string)
    ensures Lookup(ms, k).Some? <==> exists i :: 0 <= i < |ms| && ms[i].0 == k
    ensures Lookup(ms, k).Some? ==>
      exists i :: 0 <= i < |ms| && ms[i] == (k, Lookup(ms, k).value)
        && forall j :: 0 <= j < i ==> ms[j].0 != k
  {
    if ms != [] && ms[0].0 != k {
      LookupFindsKey(ms[1..], k);
      assert forall i :: 0 <= i < |ms| - 1 ==> ms[1..][i] == ms[i + 1];
      if Lookup(ms, k).Some? {
        var i :| 0 <= i < |ms[1..]| && ms[1..][i] == (k, Lookup(ms, k).value)
          && forall j :: 0 <= j < i ==> ms[1..][j].0 != k;
        forall j | 0 <= j < i + 1 ensures ms[j].0 != k {
          if j > 0 { assert ms[j] == ms[1..][j - 1]; }
        }
      }
    } else if ms != [] {
      assert ms[0] == (k, Lookup(ms, k).value);
    }
  }

  /** Looking a key up in two objects' entries one after the other: the
      first object wins where it has the key. */
  lemma {:induction false} LookupAppend(a: seq<(string, Json)>, b: seq<(string, Json)>, k: string)
    ensures Lookup(a + b, k) == if Lookup(a, k).Some? then Lookup(a, k) else Lookup(b, k)
  {
    if a == [] {
      assert a + b == b;
    } else {
      assert (a + b)[0] == a[0];
      assert (a + b)[1..] == a[1..] + b;
      LookupAppend(a[1..], b, k);
    }
  }

  /** A value held in a vessel record. */
  datatype Value =
    | Null                // Python None
    | Float(x: real)      // a Python float produced by float()
    | Text(s: string)     // a Python str
    | Raw(j: Json)        // a decoded JSON int, bool, list or dict stored as it is
    | StrOf(v: Value)     // str() of a value that is not a str: a non-empty text
                          // ("None", "True", "12", "[...]") not spelled out here

  /** Python truthiness of a record value; `not ship_data[f]` is `!Truthy(..)`. */
  predicate Truthy(v: Value) {
    match v
    case Null => false
    case Float(x) => x != 0.0
    case Text(s) => s != ""
    case Raw(j) => JsonTruthy(j)
    case StrOf(_) => true
  }

  /** The record value a decoded JSON value becomes when it is stored as it is
      (`ship_data[f] = data[k]`). */
  function Stored(j: Json): (v: Value)
    ensures Truthy(v) == JsonTruthy(j)
    ensures j == JNull <==> v == Null
  {
    match j
    case JNull => Null
    case JStr(s) => Text(s)
    case JFloat(f) => Float(f)
    case _ => Raw(j)
  }

  /** Python `str(v)`: a str is returned as it is, anything else is rendered. */
  function Str(v: Value): (r: Value)
    ensures r.Text? || r.StrOf?
    ensures v.Text? ==> r == v
    ensures !v.Text? && !(v.Raw? && v.j.JStr?) ==> Truthy(r)
  {
    match v
    case Text(_) => v
    case StrOf(_) => v
    case Raw(JStr(s)) => Text(s)
    case _ => StrOf(v)
  }

  /** Python `float(j)` for a decoded JSON value; None where Python raises
      (ValueError for a malformed string, TypeError for None, a list or a dict). */
  function ToFloat(j: Json): (r: Option<real>)
    ensures (j.JNull? || j.JArr? || j.JObj?) ==> r == None
    ensures j.JFloat? ==> r == Some(j.f)
    ensures j.JInt? ==> r == Some(j.i as real)
  {
    match j
    case JBool(b) => Some(if b then 1.0 else 0.0)
    case JInt(i) => Some(i as real)
    case JFloat(f) => Some(f)
    case JStr(s) => ParseFloat(s)
    case _ => None
  }

  /** Python `float(v)` for a record value; None where Python raises. */
  function FloatOf(v: Value): (r: Option<real>)
    ensures v.Float? ==> r == Some(v.x)
    ensures v == Null ==> r == None
  {
    match v
    case Null => None
    case Float(x) => Some(x)
    case Text(s) => ParseFloat(s)
    case Raw(j) => ToFloat(j)
    case StrOf(w) =>
      // str() of an int or a float reads back as the same number; "None",
      // "True", "False" and rendered lists or dicts are not numbers
      match w
      case Float(x) => Some(x)
      case Raw(JInt(i)) => Some(i as real)
      case Raw(JFloat(f)) => Some(f)
      case _ => None
  }

  /** Python `dict.get(f, default)`. */
  function GetOr<K>(m: map<K, Value>, k: K, default: Value): (v: Value)
    ensures k in m ==> v == m[k]
    ensures k !in m ==> v == default
  {
    if k in m then m[k] else default
  }

  /** The record value of an optional string argument (`None` or a str). */
  function OptText(s: Option<string>): (v: Value)
    ensures v == Null <==> s.None?
    ensures s.Some? ==> v == Text(s.value)
  {
    match s
    case None => Null
    case Some(t) => Text(t)
  }

  /** Python truthiness of an optional string argument. */
  predicate OptTruthy(s: Option<string>) {
    s.Some? && s.value != ""
  }
}
