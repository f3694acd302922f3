/**
 The vessel record both scrapers fill in: a dictionary from field name to a
 Python value, written to by a sequence of extractors. Almost every write is
 guarded by Python truthiness (`if not data[f]: data[f] = v`), so a field
 counts as unset while it holds None, 0, 0.0 or "".
 */
module Records {
  import opened Wrappers
  import opened PyText
  import opened PyValues

  /** The record keys used by the two scrapers. `CoordinatesFromApi` is the
      internal `_coordinates_from_api` marker of the MarineTraffic scraper. */
  datatype Field =
    | Provider | Mmsi | Imo | Name | Callsign | Type | Lat | Lon | Speed | Course
    | Heading | Draught | NavStatus | Destination | Timestamp | ComparisonId
    | DataSource | Length | Width | Flag | Built | Eta | CoordinatesFromApi

  type Record = map<Field, Value>

  /** `bool(data.get(f))`: the field holds a truthy value. */
  predicate IsSet(r: Record, f: Field) {
    f in r && Truthy(r[f])
  }

  /** `if not data[f]: data[f] = v`. */
  function FillIfUnset(r: Record, f: Field, v: Value): (r': Record)
    ensures IsSet(r, f) ==> r' == r
    ensures !IsSet(r, f) ==> r' == r[f := v]
  {
    if IsSet(r, f) then r else r[f := v]
  }

  /** Filling a field touches only that field and keeps every set one. */
  lemma FillIfUnsetWrites(r: Record, f: Field, v: Value)
    ensures WritesWithin(r, FillIfUnset(r, f, v), {f}) && KeepsSetFields(r, FillIfUnset(r, f, v))
  {
  }

  /** One dictionary write touches only the field written. */
  lemma UpdateWrites(r: Record, f: Field, v: Value)
    ensures WritesWithin(r, r[f := v], {f})
  {
  }

  /** Leaving a record as it is writes within any set of fields. */
  lemma NoWrites(r: Record, fs: set<Field>)
    ensures WritesWithin(r, r, fs)
  {
  }

  /** No field that was set in `r` has changed or disappeared in `r'`. */
  ghost predicate KeepsSetFields(r: Record, r': Record) {
    forall f | IsSet(r, f) :: f in r' && r'[f] == r[f]
  }

  /** `r'` agrees with `r` on every field outside `fs`, keys included. */
  ghost predicate ChangesOnly(r: Record, r': Record, fs: set<Field>) {
    forall f | f !in fs :: (f in r <==> f in r') && (f in r ==> r'[f] == r[f])
  }

  /** `r'` differs from `r` only in fields of `fs`, drops no key and gains
      keys only from `fs`: what a sequence of dictionary writes to `fs` leaves. */
  ghost predicate WritesWithin(r: Record, r': Record, fs: set<Field>) {
    ChangesOnly(r, r', fs) && r.Keys <= r'.Keys && r'.Keys <= r.Keys + fs
  }

  lemma Untouched(r: Record, r': Record, fs: set<Field>, f: Field)
    requires ChangesOnly(r, r', fs) && f !in fs
    ensures (f in r <==> f in r') && (f in r ==> r'[f] == r[f])
  {
  }

  lemma WritesWithinTransitive(r0: Record, r1: Record, r2: Record, a: set<Field>, b: set<Field>)
    requires WritesWithin(r0, r1, a) && WritesWithin(r1, r2, b)
    ensures WritesWithin(r0, r2, a + b)
  {
  }

  lemma WritesWithinWeaken(r: Record, r': Record, a: set<Field>, b: set<Field>)
    requires WritesWithin(r, r', a) && a <= b
    ensures WritesWithin(r, r', b)
  {
  }

  lemma KeepsSetFieldsTransitive(r0: Record, r1: Record, r2: Record)
    requires KeepsSetFields(r0, r1) && KeepsSetFields(r1, r2)
    ensures KeepsSetFields(r0, r2)
  {
    forall f | IsSet(r0, f) ensures f in r2 && r2[f] == r0[f] {
      assert IsSet(r1, f);
    }
  }

  // ---------------------------------------------------------------------------
  // the "patterns tried in order, first acceptable value wins" loops

  /** The placeholder spellings rejected by the short lists
      (`['unknown', 'n/a', '-', '']`). */
  const ShortPlaceholders: seq<string> := ["unknown", "n/a", "-", ""]

  /** The placeholder spellings rejected by the long lists
      (`['unknown', 'n/a', '-', 'upgrade to unlock']`, after a non-empty test). */
  const LongPlaceholders: seq<string> := ["unknown", "n/a", "-", "upgrade to unlock", ""]

  /** `value and value.lower() not in placeholders`. */
  predicate Acceptable(value: string, placeholders: seq<string>) {
    value != "" && Lower(value) !in placeholders
  }

  /** How a matched group is turned into a record value before it is accepted. */
  datatype Conversion =
    | Verbatim        // stored as matched
    | TrimmedShort    // stripped, rejected when in the short placeholder list
    | TrimmedLong     // stripped, rejected when empty or in the long placeholder list
    | Number          // float(); a ValueError moves on to the next pattern
    | Latitude        // float(), kept only within [-90, 90]
    | Longitude       // float(), kept only within [-180, 180]

  /** The value one match yields, or None when the loop moves on. */
  function Convert(m: string, kind: Conversion): (v: Option<Value>)
  {
    match kind
    case Verbatim => Some(Text(m))
    case TrimmedShort =>
      var t := Strip(m);
      if Acceptable(t, ShortPlaceholders) then Some(Text(t)) else None
    case TrimmedLong =>
      var t := Strip(m);
      if Acceptable(t, LongPlaceholders) then Some(Text(t)) else None
    case Number =>
      (match ParseFloat(m)
       case None => None
       case Some(x) => Some(Float(x)))
    case Latitude =>
      (match ParseFloat(m)
       case Some(x) => if -90.0 <= x <= 90.0 then Some(Float(x)) else None
       case None => None)
    case Longitude =>
      match ParseFloat(m)
      case Some(x) => if -180.0 <= x <= 180.0 then Some(Float(x)) else None
      case None => None
  }

  predicate Usable(m: Option<string>, kind: Conversion) {
    m.Some? && Convert(m.value, kind).Some?
  }

  /** The value of the first pattern whose match is usable; patterns that did
      not match are None. */
  function FirstCandidate(ms: seq<Option<string>>, kind: Conversion): Option<Value> {
    if ms == [] then None
    else if Usable(ms[0], kind) then Convert(ms[0].value, kind)
    else FirstCandidate(ms[1..], kind)
  }

  /** The first usable match wins: the result is None exactly when no match is
      usable, and otherwise it is the converted value of the earliest usable
      one. */
  lemma {:induction false} FirstCandidateIsFirst(ms: seq<Option<string>>, kind: Conversion)
    ensures FirstCandidate(ms, kind).None? <==> forall i :: 0 <= i < |ms| ==> !Usable(ms[i], kind)
    ensures FirstCandidate(ms, kind).Some? ==>
      exists i :: 0 <= i < |ms| && Usable(ms[i], kind)
        && FirstCandidate(ms, kind) == Convert(ms[i].value, kind)
        && forall j :: 0 <= j < i ==> !Usable(ms[j], kind)
  {
    if ms == [] {
    } else if Usable(ms[0], kind) {
      assert FirstCandidate(ms, kind) == Convert(ms[0].value, kind);
    } else {
      var rest := ms[1..];
      FirstCandidateIsFirst(rest, kind);
      assert FirstCandidate(ms, kind) == FirstCandidate(rest, kind);
      if FirstCandidate(rest, kind).Some? {
        var k :| 0 <= k < |rest| && Usable(rest[k], kind)
          && FirstCandidate(rest, kind) == Convert(rest[k].value, kind)
          && forall j :: 0 <= j < k ==> !Usable(rest[j], kind);
        assert ms[k + 1] == rest[k];
        UnusablePrefixExtends(ms, kind, k);
      } else {
        UnusablePrefixExtends(ms, kind, |rest|);
      }
    }
  }

  lemma UnusablePrefixExtends(ms: seq<Option<string>>, kind: Conversion, k: nat)
    requires k < |ms| && !Usable(ms[0], kind)
    requires forall j :: 0 <= j < k ==> !Usable(ms[1..][j], kind)
    ensures forall j :: 0 <= j < k + 1 ==> !Usable(ms[j], kind)
  {
    NoneBeforeExtends(ms, m => Usable(m, kind), k);
  }

  /** No element before `k + 1` passes `p` when the head fails it and no
      element of the tail before `k` passes it. */
  lemma NoneBeforeExtends<T>(ms: seq<T>, p: T -> bool, k: nat)
    requires k < |ms| && !p(ms[0])
    requires forall j :: 0 <= j < k ==> !p(ms[1..][j])
    ensures forall j :: 0 <= j < k + 1 ==> !p(ms[j])
  {
    forall j | 0 < j < k + 1 ensures !p(ms[j]) {
      assert ms[j] == ms[1..][j - 1];
    }
  }

  /** The loop over patterns: try each match in turn and stop at the first one
      that yields a value. */
  method PickFirst(ms: seq<Option<string>>, kind: Conversion) returns (r: Option<Value>)
    ensures r == FirstCandidate(ms, kind)
  {
    var i := 0;
    while i < |ms|
      invariant 0 <= i <= |ms|
      invariant FirstCandidate(ms, kind) == FirstCandidate(ms[i..], kind)
    {
      assert ms[i..][1..] == ms[i + 1..];
      if ms[i].Some? {
        var v := Convert(ms[i].value, kind);
        if v.Some? {
          return v;
        }
      }
      i := i + 1;
    }
    return None;
  }

  /** `if not data[f]:` followed by a pattern loop: the first usable match
      fills `f`; a set field is left alone. */
  function FillFirst(r: Record, f: Field, ms: seq<Option<string>>, kind: Conversion): Record {
    if IsSet(r, f) then r
    else
      match FirstCandidate(ms, kind)
      case None => r
      case Some(v) => r[f := v]
  }

  /** A guarded pattern loop writes only `f`, only while it is falsy, and only
      the value of the first usable match. */
  lemma FillFirstFills(r: Record, f: Field, ms: seq<Option<string>>, kind: Conversion)
    ensures IsSet(r, f) ==> FillFirst(r, f, ms, kind) == r
    ensures WritesWithin(r, FillFirst(r, f, ms, kind), {f})
    ensures KeepsSetFields(r, FillFirst(r, f, ms, kind))
    ensures var r' := FillFirst(r, f, ms, kind);
      f in r' && (f !in r || r'[f] != r[f]) ==> FirstCandidate(ms, kind) == Some(r'[f])
  {
  }

  /** The shape of the value each conversion accepts. */
  predicate Converted(v: Value, kind: Conversion) {
    match kind
    case Verbatim => v.Text?
    case TrimmedShort => v.Text? && Acceptable(v.s, ShortPlaceholders)
    case TrimmedLong => v.Text? && Acceptable(v.s, LongPlaceholders)
    case Number => v.Float?
    case Latitude => v.Float? && -90.0 <= v.x <= 90.0
    case Longitude => v.Float? && -180.0 <= v.x <= 180.0
  }

  /** Whatever pattern wins, its value has the shape its conversion demands:
      no placeholder text, and no coordinate out of range, is ever accepted. */
  lemma {:induction false} FirstCandidateShape(ms: seq<Option<string>>, kind: Conversion)
    ensures FirstCandidate(ms, kind).Some? ==> Converted(FirstCandidate(ms, kind).value, kind)
    decreases |ms|
  {
    if ms != [] && !Usable(ms[0], kind) {
      FirstCandidateShape(ms[1..], kind);
    }
  }
}
