/**
 What the MarineTraffic (Selenium) scraper does to its ship record, as
 functions of the record before a step and of what the browser returned:
 the initial record, the API-response extraction and the
 `_coordinates_from_api` flag, coordinate-text parsing, the "label: value"
 line loop, the table, section, data-attribute, voyage and HTML-fallback
 extractors, the order in which `get_ship_details` runs them, and the
 PostHog property bag. The class in module MarineTraffic performs the same
 steps in place.
 */
module MarineTrafficRules {
  import opened Wrappers
  import opened PyText
  import opened PyValues
  import opened Records

  /** The keys of the record `get_ship_details` builds and returns. */
  const RecordKeys: set<Field> :=
    {Provider, Mmsi, Name, Callsign, Type, Lat, Lon, Speed, Course, Heading, Draught,
     NavStatus, Destination, Timestamp, Imo, ComparisonId, DataSource}

  /** The record before any extractor runs. */
  function InitialRecord(mmsi: string): (r: Record)
    ensures r.Keys == RecordKeys
    ensures r[Provider] == Text("MarineTraffic") && r[DataSource] == Text("MarineTraffic")
    ensures r[Mmsi] == Text(mmsi)
    ensures forall f | f in RecordKeys && f !in {Provider, DataSource, Mmsi} :: r[f] == Null
  {
    map f | f in RecordKeys :: InitialValue(mmsi, f)
  }

  function InitialValue(mmsi: string, f: Field): Value {
    match f
    case Provider => Text("MarineTraffic")
    case DataSource => Text("MarineTraffic")
    case Mmsi => Text(mmsi)
    case _ => Null
  }

  /** `ship_data.get('_coordinates_from_api', False)`. */
  predicate FlagSet(r: Record) {
    IsSet(r, CoordinatesFromApi)
  }

  /** `ship_data['_coordinates_from_api'] = True`. */
  function MarkFromApi(r: Record): Record {
    r[CoordinatesFromApi := Raw(JBool(true))]
  }

  // ---------------------------------------------------------------------------
  // ship name

  /** The heading selectors are tried in order; the first stripped text that is
      not empty and not a placeholder becomes the name. */
  function ShipName(r: Record, candidates: seq<Option<string>>): Record {
    match FirstCandidate(candidates, TrimmedShort)
    case None => r
    case Some(v) => r[Name := v]
  }

  // ---------------------------------------------------------------------------
  // _extract_coordinates_from_api_response

  /** `float(data[key])` when `key in data` and the conversion succeeds;
      None when the key is missing or float() raises. */
  function CoordinateValue(ms: seq<(string, Json)>, key: string): (x: Option<real>)
    ensures x.Some? <==> Lookup(ms, key).Some? && ToFloat(Lookup(ms, key).value).Some?
    ensures x.Some? ==> ToFloat(Lookup(ms, key).value) == x
  {
    match Lookup(ms, key)
    case None => None
    case Some(j) => ToFloat(j)
  }

  /** `if key in data: ship_data[f] = float(data[key]); flag = True`, with a
      failed conversion leaving everything as it was. */
  function ApiCoordinate(r: Record, ms: seq<(string, Json)>, key: string, f: Field): Record {
    match CoordinateValue(ms, key)
    case None => r
    case Some(x) => MarkFromApi(r[f := Float(x)])
  }

  /** The targets of `api_field_mapping`, in its order. */
  const ApiMappedOrder: seq<Field> := [Speed, Course, Heading, Draught, NavStatus, Timestamp]

  const ApiMappedFields: set<Field> := {Speed, Course, Heading, Draught, NavStatus, Timestamp}

  /** The JSON key `api_field_mapping` reads for a target field. */
  function ApiKey(f: Field): string {
    match f
    case Speed => "speed"
    case Course => "course"
    case Heading => "heading"
    case Draught => "draught"
    case NavStatus => "navigationalStatus"
    case Timestamp => "timestamp"
    case _ => ""
  }

  /** The targets that go through float(). */
  predicate Numeric(f: Field) {
    f == Speed || f == Course || f == Heading || f == Draught
  }

  /** What one mapping entry writes, if anything: only into a falsy field,
      never a JSON null, and a failed float() writes nothing. */
  function FieldWrite(r: Record, ms: seq<(string, Json)>, f: Field): Option<Value> {
    match Lookup(ms, ApiKey(f))
    case None => None
    case Some(j) =>
      if IsSet(r, f) || j == JNull then None
      else if Numeric(f) then
        match ToFloat(j)
        case None => None
        case Some(x) => Some(Float(x))
      else Some(Stored(j))
  }

  /** A mapping entry writes only into a falsy field, never None, only when
      its key is present; a numeric target receives the float() of the JSON
      value and any other target the value as it is; and an entry whose key
      is present with a non-null value that converts always writes. */
  lemma FieldWriteGuard(r: Record, ms: seq<(string, Json)>, f: Field)
    ensures var w := FieldWrite(r, ms, f);
      var j := Lookup(ms, ApiKey(f));
      && (w.Some? ==> !IsSet(r, f) && w.value != Null && j.Some?)
      && (w.Some? && Numeric(f) ==> w.value.Float? && ToFloat(j.value) == Some(w.value.x))
      && (w.Some? && !Numeric(f) ==> w.value == Stored(j.value))
      && ((!IsSet(r, f) && j.Some? && j.value != JNull && (!Numeric(f) || ToFloat(j.value).Some?)) ==> w.Some?)
  {
  }

  function ApiFieldStep(r: Record, ms: seq<(string, Json)>, f: Field): Record {
    match FieldWrite(r, ms, f)
    case None => r
    case Some(v) => r[f := v]
  }

  /** The loop over the mapping entries, in order. */
  function ApiFields(r: Record, ms: seq<(string, Json)>, order: seq<Field>): Record
    decreases |order|
  {
    if order == [] then r else ApiFields(ApiFieldStep(r, ms, order[0]), ms, order[1..])
  }

  /** A decoded JSON object: lat, then lon, then the mapped fields. */
  function ApiObject(r: Record, ms: seq<(string, Json)>): Record {
    ApiFields(ApiCoordinates(r, ms), ms, ApiMappedOrder)
  }

  /** The lat and lon steps of a JSON object: a coordinate that converts is
      written whatever the field held and raises the flag; when neither
      converts nothing changes. */
  function ApiCoordinates(r: Record, ms: seq<(string, Json)>): (r': Record)
    ensures CoordinateValue(ms, "lat").Some? ==>
      Lat in r' && r'[Lat] == Float(CoordinateValue(ms, "lat").value) && FlagSet(r')
    ensures CoordinateValue(ms, "lon").Some? ==>
      Lon in r' && r'[Lon] == Float(CoordinateValue(ms, "lon").value) && FlagSet(r')
    ensures CoordinateValue(ms, "lat").None? && CoordinateValue(ms, "lon").None? ==> r' == r
    ensures WritesWithin(r, r', {Lat, Lon, CoordinatesFromApi})
  {
    ApiCoordinate(ApiCoordinate(r, ms, "lat", Lat), ms, "lon", Lon)
  }

  /** A list response: dict items in order, stopping once lat and lon are
      both truthy. The flag says whether the loop stopped early. */
  function ApiItems(r: Record, items: seq<Json>): (res: (Record, bool))
    decreases |items|
  {
    if items == [] then (r, false)
    else if items[0].JObj? then
      var r1 := ApiObject(r, items[0].members);
      if IsSet(r1, Lat) && IsSet(r1, Lon) then (r1, true) else ApiItems(r1, items[1..])
    else ApiItems(r, items[1..])
  }

  /** `_extract_coordinates_from_api_response(data, ship_data)`. */
  function ApiResponse(r: Record, doc: Json): Record {
    match doc
    case JObj(ms) => ApiObject(r, ms)
    case JArr(items) => ApiItems(r, items).0
    case _ => r
  }

  ghost predicate Distinct(order: seq<Field>) {
    forall i, j | 0 <= i < j < |order| :: order[i] != order[j]
  }

  /** The mapping loop writes only to the fields the mapping names. */
  lemma {:induction false} ApiFieldsWrites(r: Record, ms: seq<(string, Json)>, order: seq<Field>)
    ensures WritesWithin(r, ApiFields(r, ms, order), set f | f in order)
    decreases |order|
  {
    if order != [] {
      var r1 := ApiFieldStep(r, ms, order[0]);
      ApiFieldsWrites(r1, ms, order[1..]);
      assert (set f | f in order) == {order[0]} + (set f | f in order[1..]);
      WritesWithinTransitive(r, r1, ApiFields(r, ms, order), {order[0]}, set f | f in order[1..]);
    }
  }

  /** The mapping loop in closed form: entry `k` writes what it would write on
      the record the loop started from, since no other entry targets its
      field. */
  lemma {:induction false} ApiFieldsAt(r: Record, ms: seq<(string, Json)>, order: seq<Field>, k: nat)
    requires Distinct(order) && k < |order|
    ensures var f := order[k];
      var w := FieldWrite(r, ms, f);
      var r' := ApiFields(r, ms, order);
      (w.Some? ==> f in r' && r'[f] == w.value) && (w.None? ==> (f in r' <==> f in r) && (f in r ==> r'[f] == r[f]))
    decreases |order|
  {
    var r1 := ApiFieldStep(r, ms, order[0]);
    ApiFieldsWrites(r1, ms, order[1..]);
    if k == 0 {
      assert order[0] !in order[1..] by {
        forall i | 0 <= i < |order[1..]| ensures order[1..][i] != order[0] {
          assert order[1..][i] == order[i + 1];
        }
      }
    } else {
      assert Distinct(order[1..]) by {
        forall i, j | 0 <= i < j < |order[1..]| ensures order[1..][i] != order[1..][j] {
          assert order[1..][i] == order[i + 1] && order[1..][j] == order[j + 1];
        }
      }
      ApiFieldsAt(r1, ms, order[1..], k - 1);
      assert order[k] == order[1..][k - 1];
      assert order[k] != order[0];
      FieldWriteReadsOneField(r1, r, ms, order[k]);
    }
  }

  /** What a mapping entry writes depends on the record only through its own
      field. */
  lemma FieldWriteReadsOneField(r: Record, r': Record, ms: seq<(string, Json)>, f: Field)
    requires (f in r <==> f in r') && (f in r ==> r[f] == r'[f])
    ensures FieldWrite(r, ms, f) == FieldWrite(r', ms, f)
  {
    assert IsSet(r, f) == IsSet(r', f);
  }

  lemma ApiMappingDistinct()
    ensures Distinct(ApiMappedOrder)
    ensures (set f | f in ApiMappedOrder) == ApiMappedFields
  {
  }

  /** The mapped-field loop leaves lat, lon and the flag alone. */
  lemma ApiObjectKeepsCoordinates(r: Record, ms: seq<(string, Json)>)
    ensures ChangesOnly(ApiCoordinates(r, ms), ApiObject(r, ms), ApiMappedFields)
  {
    ApiMappingDistinct();
    ApiFieldsWrites(ApiCoordinates(r, ms), ms, ApiMappedOrder);
  }

  /** A JSON object's lat is written whenever the key is present and float()
      accepts the value, whatever the field held before, and the flag is
      raised. */
  lemma ApiLatOverwrites(r: Record, ms: seq<(string, Json)>, x: real)
    requires Lookup(ms, "lat").Some? && ToFloat(Lookup(ms, "lat").value) == Some(x)
    ensures Lat in ApiObject(r, ms) && ApiObject(r, ms)[Lat] == Float(x)
    ensures FlagSet(ApiObject(r, ms))
  {
    assert CoordinateValue(ms, "lat") == Some(x);
    ApiMappingKeeps(r, ms, Lat);
    ApiMappingKeeps(r, ms, CoordinatesFromApi);
  }

  /** The same for lon. */
  lemma ApiLonOverwrites(r: Record, ms: seq<(string, Json)>, x: real)
    requires Lookup(ms, "lon").Some? && ToFloat(Lookup(ms, "lon").value) == Some(x)
    ensures Lon in ApiObject(r, ms) && ApiObject(r, ms)[Lon] == Float(x)
    ensures FlagSet(ApiObject(r, ms))
  {
    assert CoordinateValue(ms, "lon") == Some(x);
    ApiMappingKeeps(r, ms, Lon);
    ApiMappingKeeps(r, ms, CoordinatesFromApi);
  }

  /** The mapping loop leaves lat, lon and the flag as the coordinate steps
      left them. */
  lemma ApiMappingKeeps(r: Record, ms: seq<(string, Json)>, f: Field)
    requires f == Lat || f == Lon || f == CoordinatesFromApi
    ensures var r0 := ApiCoordinates(r, ms);
      var r' := ApiObject(r, ms);
      (f in r' <==> f in r0) && (f in r0 ==> r'[f] == r0[f])
  {
    assert f !in ApiMappedFields;
    ApiObjectKeepsCoordinates(r, ms);
    Untouched(ApiCoordinates(r, ms), ApiObject(r, ms), ApiMappedFields, f);
  }

  /** When neither lat nor lon converts, lat, lon and the flag are untouched. */
  lemma ApiCoordinatesUnconvertible(r: Record, ms: seq<(string, Json)>)
    requires Lookup(ms, "lat").None? || ToFloat(Lookup(ms, "lat").value).None?
    requires Lookup(ms, "lon").None? || ToFloat(Lookup(ms, "lon").value).None?
    ensures ChangesOnly(r, ApiObject(r, ms), ApiMappedFields)
  {
    ApiObjectKeepsCoordinates(r, ms);
  }

  /** The position of a mapped field in `api_field_mapping`. */
  function MappedIndex(f: Field): (k: nat)
    requires f in ApiMappedFields
    ensures k < |ApiMappedOrder| && ApiMappedOrder[k] == f
  {
    match f
    case Speed => 0
    case Course => 1
    case Heading => 2
    case Draught => 3
    case NavStatus => 4
    case Timestamp => 5
  }

  /** Each mapped field is filled only as `FieldWrite` says: only when falsy,
      never with None, and a numeric one only with the float() of the JSON
      value; otherwise it keeps its value. */
  lemma ApiFieldGuarded(r: Record, ms: seq<(string, Json)>, f: Field)
    requires f in ApiMappedFields
    ensures var w := FieldWrite(r, ms, f);
      var r' := ApiObject(r, ms);
      (w.Some? ==> f in r' && r'[f] == w.value) && (w.None? ==> (f in r' <==> f in r) && (f in r ==> r'[f] == r[f]))
  {
    var r0 := ApiCoordinates(r, ms);
    MappedFieldAt(r0, ms, f);
    ApiCoordinatesKeep(r, ms, f);
    FieldWriteReadsOneField(r0, r, ms, f);
  }

  /** The coordinate steps leave every field but lat, lon and the flag alone. */
  lemma ApiCoordinatesKeep(r: Record, ms: seq<(string, Json)>, f: Field)
    requires f in ApiMappedFields
    ensures var r0 := ApiCoordinates(r, ms);
      (f in r0 <==> f in r) && (f in r ==> r0[f] == r[f])
  {
    var r0 := ApiCoordinates(r, ms);
    assert f !in {Lat, Lon, CoordinatesFromApi};
    assert ChangesOnly(r, r0, {Lat, Lon, CoordinatesFromApi});
    Untouched(r, r0, {Lat, Lon, CoordinatesFromApi}, f);
  }

  /** `ApiFieldGuarded` for the record the mapping loop starts from. */
  lemma MappedFieldAt(r0: Record, ms: seq<(string, Json)>, f: Field)
    requires f in ApiMappedFields
    ensures var w := FieldWrite(r0, ms, f);
      var r' := ApiFields(r0, ms, ApiMappedOrder);
      (w.Some? ==> f in r' && r'[f] == w.value) && (w.None? ==> (f in r' <==> f in r0) && (f in r0 ==> r'[f] == r0[f]))
  {
    ApiMappingDistinct();
    ApiFieldsAt(r0, ms, ApiMappedOrder, MappedIndex(f));
  }

  /** Every write of the API extraction lands on lat, lon, the flag or a
      mapped field. */
  lemma ApiObjectWrites(r: Record, ms: seq<(string, Json)>)
    ensures WritesWithin(r, ApiObject(r, ms), ApiWrites)
  {
    var r0 := ApiCoordinates(r, ms);
    ApiMappingDistinct();
    ApiFieldsWrites(r0, ms, ApiMappedOrder);
    WritesWithinTransitive(r, r0, ApiObject(r, ms), {Lat, Lon, CoordinatesFromApi}, ApiMappedFields);
  }

  const ApiWrites: set<Field> := {Lat, Lon, CoordinatesFromApi} + ApiMappedFields

  /** List items are processed in order: running over `xs + ys` is running
      over `xs` and, unless that stopped, carrying on over `ys` from there. */
  lemma {:induction false} ApiItemsAppend(r: Record, xs: seq<Json>, ys: seq<Json>)
    ensures ApiItems(r, xs + ys) ==
      if ApiItems(r, xs).1 then ApiItems(r, xs) else ApiItems(ApiItems(r, xs).0, ys)
    decreases |xs|
  {
    if xs != [] {
      assert (xs + ys)[0] == xs[0];
      assert (xs + ys)[1..] == xs[1..] + ys;
      if xs[0].JObj? {
        var r1 := ApiObject(r, xs[0].members);
        if !(IsSet(r1, Lat) && IsSet(r1, Lon)) {
          ApiItemsAppend(r1, xs[1..], ys);
        }
      } else {
        ApiItemsAppend(r, xs[1..], ys);
      }
    } else {
      assert xs + ys == ys;
    }
  }

  /** The list loop stops exactly when an item has made lat and lon truthy. */
  lemma {:induction false} ApiItemsStop(r: Record, items: seq<Json>)
    ensures ApiItems(r, items).1 ==> IsSet(ApiItems(r, items).0, Lat) && IsSet(ApiItems(r, items).0, Lon)
    ensures WritesWithin(r, ApiItems(r, items).0, ApiWrites)
    decreases |items|
  {
    if items != [] {
      if items[0].JObj? {
        var r1 := ApiObject(r, items[0].members);
        ApiObjectWrites(r, items[0].members);
        if !(IsSet(r1, Lat) && IsSet(r1, Lon)) {
          ApiItemsStop(r1, items[1..]);
          WritesWithinTransitive(r, r1, ApiItems(r1, items[1..]).0, ApiWrites, ApiWrites);
        }
      } else {
        ApiItemsStop(r, items[1..]);
      }
    }
  }

  lemma ApiResponseWrites(r: Record, doc: Json)
    ensures WritesWithin(r, ApiResponse(r, doc), ApiWrites)
  {
    match doc
    case JObj(ms) => ApiObjectWrites(r, ms);
    case JArr(items) => ApiItemsStop(r, items);
    case _ =>
  }

  // ---------------------------------------------------------------------------
  // _parse_coordinate_text

  predicate InRange(lat: real, lon: real) {
    -90.0 <= lat <= 90.0 && -180.0 <= lon <= 180.0
  }

  /** The coordinate pair one pattern's match yields: both groups must pass
      float() and lie in range, otherwise the loop moves on. */
  function ValidPair(m: Option<(string, string)>): (p: Option<(real, real)>)
    ensures p.Some? ==>
      && m.Some? && InRange(p.value.0, p.value.1)
      && ParseFloat(m.value.0) == Some(p.value.0) && ParseFloat(m.value.1) == Some(p.value.1)
  {
    if m.None? then None
    else
      match (ParseFloat(m.value.0), ParseFloat(m.value.1))
      case (Some(lat), Some(lon)) => if InRange(lat, lon) then Some((lat, lon)) else None
      case _ => None
  }

  function FirstValidPair(ms: seq<Option<(string, string)>>): Option<(real, real)> {
    if ms == [] then None
    else if ValidPair(ms[0]).Some? then ValidPair(ms[0])
    else FirstValidPair(ms[1..])
  }

  /** An invalid head followed by `k` invalid matches is an invalid prefix of length `k + 1`. */
  lemma InvalidPrefixExtends(ms: seq<Option<(string, string)>>, k: nat)
    requires k < |ms| && ValidPair(ms[0]).None?
    requires forall j :: 0 <= j < k ==> ValidPair(ms[1..][j]).None?
    ensures forall j :: 0 <= j < k + 1 ==> ValidPair(ms[j]).None?
  {
    NoneBeforeExtends(ms, m => ValidPair(m).Some?, k);
  }

  /** `_parse_coordinate_text`: the first valid pair fills the empty ones of
      lat and lon, unless the API flag is set; either way the loop ends there. */
  function CoordinateText(r: Record, ms: seq<Option<(string, string)>>): Record {
    match FirstValidPair(ms)
    case None => r
    case Some((lat, lon)) =>
      if FlagSet(r) then r else FillIfUnset(FillIfUnset(r, Lat, Float(lat)), Lon, Float(lon))
  }

  /** The patterns are tried in order: the pair used is the earliest valid one,
      and every earlier match was missing, unparsable or out of range. */
  lemma {:induction false} FirstValidPairIsFirst(ms: seq<Option<(string, string)>>)
    ensures FirstValidPair(ms).None? <==> forall i :: 0 <= i < |ms| ==> ValidPair(ms[i]).None?
    ensures FirstValidPair(ms).Some? ==>
      exists i :: 0 <= i < |ms| && ValidPair(ms[i]) == FirstValidPair(ms)
        && forall j :: 0 <= j < i ==> ValidPair(ms[j]).None?
  {
    if ms == [] {
    } else if ValidPair(ms[0]).Some? {
      assert ValidPair(ms[0]) == FirstValidPair(ms);
    } else {
      var rest := ms[1..];
      FirstValidPairIsFirst(rest);
      assert FirstValidPair(ms) == FirstValidPair(rest);
      if FirstValidPair(rest).Some? {
        var k :| 0 <= k < |rest| && ValidPair(rest[k]) == FirstValidPair(rest)
          && forall j :: 0 <= j < k ==> ValidPair(rest[j]).None?;
        assert ms[k + 1] == rest[k];
        InvalidPrefixExtends(ms, k);
      } else {
        InvalidPrefixExtends(ms, |rest|);
      }
    }
  }

  /** Coordinate text never writes while the API flag is set, writes only lat
      and lon, only into empty fields, and only the values of the first valid
      pair, which some pattern matched verbatim and which lie in range:
      nothing is clamped. */
  lemma CoordinateTextFills(r: Record, ms: seq<Option<(string, string)>>)
    ensures FlagSet(r) ==> CoordinateText(r, ms) == r
    ensures WritesWithin(r, CoordinateText(r, ms), {Lat, Lon})
    ensures KeepsSetFields(r, CoordinateText(r, ms))
    ensures var r' := CoordinateText(r, ms);
      Lat in r' && (Lat !in r || r'[Lat] != r[Lat]) ==>
        FirstValidPair(ms).Some? && r'[Lat] == Float(FirstValidPair(ms).value.0)
    ensures var r' := CoordinateText(r, ms);
      Lon in r' && (Lon !in r || r'[Lon] != r[Lon]) ==>
        FirstValidPair(ms).Some? && r'[Lon] == Float(FirstValidPair(ms).value.1)
  {
  }

  // ---------------------------------------------------------------------------
  // _extract_from_all_text: the "label: value" line loop

  /** `float(re.search(pattern, value).group(1))` into `f`; no match or a
      failed float() writes nothing. */
  function NumberFrom(r: Record, f: Field, m: Option<string>): Record {
    match m
    case None => r
    case Some(t) =>
      match ParseFloat(t)
      case None => r
      case Some(x) => r[f := Float(x)]
  }

  /** `if value and value.lower() not in [...]: ship_data[f] = value`. */
  function TextFrom(r: Record, f: Field, value: string, ps: seq<string>): Record {
    if Acceptable(value, ps) then r[f := Text(value)] else r
  }

  /** The branch of the elif chain one trimmed, lowercased key takes. A
      branch is taken only while its field is falsy, so a key whose field is
      already set is tried against the later branches. */
  function LineBranch(r: Record, key: string): (f: Option<Field>)
    ensures f.Some? ==> f.value in LineFields && !IsSet(r, f.value)
  {
    if Contains(key, "imo") && !IsSet(r, Imo) then Some(Imo)
    else if (Contains(key, "call") || Contains(key, "sign")) && !IsSet(r, Callsign) then Some(Callsign)
    else if Contains(key, "type") && !IsSet(r, Type) then Some(Type)
    else if (Contains(key, "lat") || Contains(key, "latitude")) && !IsSet(r, Lat) then Some(Lat)
    else if (Contains(key, "lon") || Contains(key, "longitude")) && !IsSet(r, Lon) then Some(Lon)
    else if Contains(key, "destination") && !IsSet(r, Destination) then Some(Destination)
    else if (Contains(key, "draught") || Contains(key, "draft")) && !IsSet(r, Draught) then Some(Draught)
    else None
  }

  /** The body of the branch for `f`: imo from a run of seven digits, lat and
      lon from a signed number, draught from a run of digits and points, the
      text fields from the value unless it is a placeholder. */
  function LineWrite(r: Record, f: Field, value: string): Record {
    match f
    case Imo =>
      (match FindSevenDigits(value)
       case None => r
       case Some(d) => r[Imo := Text(d)])
    case Lat => NumberFrom(r, Lat, FirstSignedNumber(value))
    case Lon => NumberFrom(r, Lon, FirstSignedNumber(value))
    case Draught => NumberFrom(r, Draught, FirstDigitsAndPoints(value))
    case _ => TextFrom(r, f, value, LongPlaceholders)
  }

  /** The elif chain on one key and its trimmed value. */
  function KeyValueStep(r: Record, key: string, value: string): Record {
    match LineBranch(r, key)
    case None => r
    case Some(f) => LineWrite(r, f, value)
  }

  /** One line of the page text: stripped, skipped when blank or without a
      colon, otherwise split at the first colon. */
  function LineStep(r: Record, line: string): Record {
    match LineKeyValue(line)
    case None => r
    case Some((key, value)) => KeyValueStep(r, key, value)
  }

  /** The trimmed, lowercased key and the trimmed value of a line; None for a
      blank line or one without a colon. */
  function LineKeyValue(line: string): Option<(string, string)> {
    var l := Strip(line);
    if l == "" then None
    else
      match SplitAtFirst(l, ':')
      case None => None
      case Some((k, v)) => Some((Lower(Strip(k)), Strip(v)))
  }

  function Lines(r: Record, lines: seq<string>): Record
    decreases |lines|
  {
    if lines == [] then r else LineStep(Lines(r, lines[..|lines| - 1]), lines[|lines| - 1])
  }

  /** The first i + 1 lines are the first i lines and then line i. */
  lemma LinesStep(r: Record, lines: seq<string>, i: nat)
    requires i < |lines|
    ensures Lines(r, lines[..i + 1]) == LineStep(Lines(r, lines[..i]), lines[i])
  {
    assert lines[..i + 1][..i] == lines[..i];
  }

  /** A line without a key and value changes nothing; one with them takes
      the key/value step. */
  lemma LineStepOf(r: Record, line: string)
    ensures LineKeyValue(line).None? ==> LineStep(r, line) == r
    ensures LineKeyValue(line).Some? ==>
      LineStep(r, line) == KeyValueStep(r, LineKeyValue(line).value.0, LineKeyValue(line).value.1)
  {
  }

  /** `_extract_from_all_text`: every line of the body text in order. */
  function AllText(r: Record, text: string): Record {
    Lines(r, Split(text, '\n'))
  }

  const LineFields: set<Field> := {Imo, Callsign, Type, Lat, Lon, Destination, Draught}

  /** The values the label/value extractors can write into each field, with
      `ps` the placeholder list the extractor rejects. */
  predicate FilledValue(f: Field, v: Value, ps: seq<string>) {
    match f
    case Imo => v.Text? && |v.s| == 7 && AllDigits(v.s)
    case Callsign => v.Text? && Acceptable(v.s, ps)
    case Type => v.Text? && Acceptable(v.s, ps)
    case Destination => v.Text? && Acceptable(v.s, ps)
    case NavStatus => v.Text? && Acceptable(v.s, ps)
    case Lat => v.Float?
    case Lon => v.Float?
    case Draught => v.Float?
    case _ => false
  }

  /** Every field that differs between `r` and `r'` was falsy in `r` and now
      holds a value the line loop accepts for it; no key is dropped. */
  ghost predicate Fills(r: Record, r': Record, ps: seq<string>) {
    r.Keys <= r'.Keys &&
    forall f | f in r' && (f !in r || r'[f] != r[f]) :: !IsSet(r, f) && FilledValue(f, r'[f], ps)
  }

  lemma FillsTransitive(r0: Record, r1: Record, r2: Record, ps: seq<string>)
    requires Fills(r0, r1, ps) && Fills(r1, r2, ps)
    ensures Fills(r0, r2, ps)
  {
    forall f | f in r2 && (f !in r0 || r2[f] != r0[f])
      ensures !IsSet(r0, f) && FilledValue(f, r2[f], ps)
    {
      if f in r1 && r2[f] == r1[f] {
        assert f !in r0 || r1[f] != r0[f];
      }
    }
  }

  lemma KeyValueStepFills(r: Record, key: string, value: string)
    ensures Fills(r, KeyValueStep(r, key, value), LongPlaceholders)
    ensures WritesWithin(r, KeyValueStep(r, key, value), LineFields)
  {
    var b := LineBranch(r, key);
    if b.Some? {
      var f := b.value;
      LineWriteFills(r, f, value);
      assert KeyValueStep(r, key, value) == LineWrite(r, f, value);
      WritesWithinWeaken(r, LineWrite(r, f, value), {f}, LineFields);
    }
  }

  lemma LineWriteFills(r: Record, f: Field, value: string)
    requires f in LineFields && !IsSet(r, f)
    ensures Fills(r, LineWrite(r, f, value), LongPlaceholders)
    ensures WritesWithin(r, LineWrite(r, f, value), {f})
  {
    match f
    case Imo =>
      match FindSevenDigits(value) {
        case None => NoWrites(r, {f});
        case Some(d) => FillsWithImo(r, d, LongPlaceholders);
      }
    case Lat => FillsWithNumber(r, f, FirstSignedNumber(value), LongPlaceholders);
    case Lon => FillsWithNumber(r, f, FirstSignedNumber(value), LongPlaceholders);
    case Draught => FillsWithNumber(r, f, FirstDigitsAndPoints(value), LongPlaceholders);
    case Callsign | Type | Destination =>
      if Acceptable(value, LongPlaceholders) {
        FillsWithText(r, f, value, LongPlaceholders);
      } else {
        NoWrites(r, {f});
      }
    case _ => assert false;
  }

  lemma LineStepFills(r: Record, line: string)
    ensures Fills(r, LineStep(r, line), LongPlaceholders)
    ensures WritesWithin(r, LineStep(r, line), LineFields)
  {
    match LineKeyValue(line)
    case None =>
    case Some((key, value)) => KeyValueStepFills(r, key, value);
  }

  /** The line loop only fills falsy fields among imo, callsign, type, lat,
      lon, destination and draught; imo only with seven digits; callsign, type
      and destination never with an empty or placeholder value. */
  lemma {:induction false} LinesFill(r: Record, lines: seq<string>)
    ensures Fills(r, Lines(r, lines), LongPlaceholders)
    ensures WritesWithin(r, Lines(r, lines), LineFields)
    decreases |lines|
  {
    if lines != [] {
      var r1 := Lines(r, lines[..|lines| - 1]);
      LinesFill(r, lines[..|lines| - 1]);
      LineStepFills(r1, lines[|lines| - 1]);
      FillsTransitive(r, r1, Lines(r, lines), LongPlaceholders);
      WritesWithinTransitive(r, r1, Lines(r, lines), LineFields, LineFields);
    }
  }

  lemma AllTextFills(r: Record, text: string)
    ensures Fills(r, AllText(r, text), LongPlaceholders)
    ensures KeepsSetFields(r, AllText(r, text))
    ensures WritesWithin(r, AllText(r, text), LineFields)
  {
    LinesFill(r, Split(text, '\n'));
    var r' := AllText(r, text);
    forall f | IsSet(r, f) ensures f in r' && r'[f] == r[f] {
    }
  }

  // ---------------------------------------------------------------------------
  // _extract_vessel_details: table rows

  const TableFields: set<Field> := {Imo, Callsign, Type}

  /** The branch of the table elif chain a trimmed, lowercased first cell
      takes; a branch whose field is already set is passed over. */
  function TableBranch(r: Record, key: string): (f: Option<Field>)
    ensures f.Some? ==> f.value in TableFields && !IsSet(r, f.value)
  {
    if Contains(key, "imo") && !IsSet(r, Imo) then Some(Imo)
    else if Contains(key, "call") && Contains(key, "sign") && !IsSet(r, Callsign) then Some(Callsign)
    else if Contains(key, "type") && !IsSet(r, Type) then Some(Type)
    else None
  }

  /** One table row, given the texts of its cells: a row with fewer than two
      cells is skipped; otherwise the first cell is the key and the second the
      value, and imo takes a run of seven digits while callsign and type
      take the value unless it is a placeholder. */
  function TableRow(r: Record, cells: seq<string>): Record {
    if |cells| < 2 then r
    else
      var value := Strip(cells[1]);
      match TableBranch(r, Lower(Strip(cells[0])))
      case None => r
      case Some(f) =>
        if f == Imo then
          match FindSevenDigits(value)
          case None => r
          case Some(d) => r[Imo := Text(d)]
        else TextFrom(r, f, value, ShortPlaceholders)
  }

  /** Every row of every table, in document order. */
  function TableRows(r: Record, rows: seq<seq<string>>): Record
    decreases |rows|
  {
    if rows == [] then r else TableRow(TableRows(r, rows[..|rows| - 1]), rows[|rows| - 1])
  }

  lemma TableRowFills(r: Record, cells: seq<string>)
    ensures Fills(r, TableRow(r, cells), ShortPlaceholders)
    ensures WritesWithin(r, TableRow(r, cells), TableFields)
  {
    if |cells| >= 2 {
      var value := Strip(cells[1]);
      var b := TableBranch(r, Lower(Strip(cells[0])));
      if b.Some? {
        var f := b.value;
        if f == Imo {
          var d := FindSevenDigits(value);
          if d.Some? {
            assert TableRow(r, cells) == r[Imo := Text(d.value)];
            FillsWithImo(r, d.value, ShortPlaceholders);
          }
        } else {
          assert TableRow(r, cells) == TextFrom(r, f, value, ShortPlaceholders);
          if Acceptable(value, ShortPlaceholders) {
            FillsWithText(r, f, value, ShortPlaceholders);
          }
        }
      }
    }
  }

  lemma FillsWithImo(r: Record, d: string, ps: seq<string>)
    requires !IsSet(r, Imo) && |d| == 7 && AllDigits(d)
    ensures Fills(r, r[Imo := Text(d)], ps)
    ensures WritesWithin(r, r[Imo := Text(d)], {Imo})
  {
  }

  /** The table loop fills only falsy imo, callsign and type fields; imo only
      with seven digits, callsign and type never with a placeholder. */
  lemma {:induction false} TableRowsFill(r: Record, rows: seq<seq<string>>)
    ensures Fills(r, TableRows(r, rows), ShortPlaceholders)
    ensures WritesWithin(r, TableRows(r, rows), TableFields)
    decreases |rows|
  {
    if rows != [] {
      var r1 := TableRows(r, rows[..|rows| - 1]);
      TableRowsFill(r, rows[..|rows| - 1]);
      TableRowFills(r1, rows[|rows| - 1]);
      FillsTransitive(r, r1, TableRows(r, rows), ShortPlaceholders);
      WritesWithinTransitive(r, r1, TableRows(r, rows), TableFields, TableFields);
    }
  }

  // ---------------------------------------------------------------------------
  // _extract_from_detail_sections / _parse_text_for_data

  /** What the patterns of `_parse_text_for_data` matched in one element's
      text: the IMO pattern, then the call-sign and the type patterns in
      order. */
  datatype SectionMatches = SectionMatches(
    imo: Option<string>, callsigns: seq<Option<string>>, types: seq<Option<string>>)

  /** One element's text: an empty imo takes the IMO match, an empty callsign
      the first call-sign match, an empty type the first stripped type match
      that is not a placeholder. */
  function SectionText(r: Record, m: SectionMatches): Record {
    var r1 := FillFirst(r, Imo, [m.imo], Verbatim);
    var r2 := FillFirst(r1, Callsign, m.callsigns, Verbatim);
    FillFirst(r2, Type, m.types, TrimmedShort)
  }

  function Sections(r: Record, ms: seq<SectionMatches>): Record
    decreases |ms|
  {
    if ms == [] then r else SectionText(Sections(r, ms[..|ms| - 1]), ms[|ms| - 1])
  }

  lemma SectionTextFills(r: Record, m: SectionMatches)
    ensures KeepsSetFields(r, SectionText(r, m))
    ensures WritesWithin(r, SectionText(r, m), TableFields)
  {
    var r1 := FillFirst(r, Imo, [m.imo], Verbatim);
    var r2 := FillFirst(r1, Callsign, m.callsigns, Verbatim);
    FillFirstFills(r, Imo, [m.imo], Verbatim);
    FillFirstFills(r1, Callsign, m.callsigns, Verbatim);
    FillFirstFills(r2, Type, m.types, TrimmedShort);
    KeepsSetFieldsTransitive(r, r1, r2);
    KeepsSetFieldsTransitive(r, r2, SectionText(r, m));
    WritesWithinTransitive(r, r1, r2, {Imo}, {Callsign});
    WritesWithinTransitive(r, r2, SectionText(r, m), {Imo, Callsign}, {Type});
  }

  /** The section texts fill only falsy imo, callsign and type fields. */
  lemma {:induction false} SectionsFill(r: Record, ms: seq<SectionMatches>)
    ensures KeepsSetFields(r, Sections(r, ms))
    ensures WritesWithin(r, Sections(r, ms), TableFields)
    decreases |ms|
  {
    if ms != [] {
      var r1 := Sections(r, ms[..|ms| - 1]);
      SectionsFill(r, ms[..|ms| - 1]);
      SectionTextFills(r1, ms[|ms| - 1]);
      KeepsSetFieldsTransitive(r, r1, Sections(r, ms));
      WritesWithinTransitive(r, r1, Sections(r, ms), TableFields, TableFields);
    }
  }

  // ---------------------------------------------------------------------------
  // _extract_from_data_attributes

  /** The attributes `data-mmsi` ... `data-course`, in the order they are
      queried. */
  datatype DataAttribute =
    | DataMmsi | DataImo | DataCallsign | DataType | DataLat | DataLon | DataSpeed | DataCourse

  /** The record field an attribute names (`attr.replace('data-', '')`). */
  function AttributeField(a: DataAttribute): Field {
    match a
    case DataMmsi => Mmsi
    case DataImo => Imo
    case DataCallsign => Callsign
    case DataType => Type
    case DataLat => Lat
    case DataLon => Lon
    case DataSpeed => Speed
    case DataCourse => Course
  }

  const AttributeFields: set<Field> := {Mmsi, Imo, Callsign, Type, Lat, Lon, Speed, Course}

  /** One element carrying the attribute, with the attribute's text: an empty
      attribute is skipped; lat and lon take its float() whatever they held,
      and a failed float() skips it; any other field takes the text as it is,
      only while falsy. */
  function AttributeStep(r: Record, a: DataAttribute, value: string): Record {
    var f := AttributeField(a);
    if value == "" then r
    else if a == DataLat || a == DataLon then
      match ParseFloat(value)
      case None => r
      case Some(x) => r[f := Float(x)]
    else FillIfUnset(r, f, Text(value))
  }

  function Attributes(r: Record, attrs: seq<(DataAttribute, string)>): Record
    decreases |attrs|
  {
    if attrs == [] then r
    else AttributeStep(Attributes(r, attrs[..|attrs| - 1]), attrs[|attrs| - 1].0, attrs[|attrs| - 1].1)
  }

  /** Only lat and lon are ever overwritten by the attributes: every other
      set field keeps its value, and nothing outside the eight attribute
      fields is written. */
  ghost predicate KeepsSetExceptCoordinates(r: Record, r': Record) {
    forall f | IsSet(r, f) && f != Lat && f != Lon :: f in r' && r'[f] == r[f]
  }

  lemma AttributeStepWrites(r: Record, a: DataAttribute, value: string)
    ensures KeepsSetExceptCoordinates(r, AttributeStep(r, a, value))
    ensures WritesWithin(r, AttributeStep(r, a, value), AttributeFields)
  {
  }

  lemma {:induction false} AttributesWrite(r: Record, attrs: seq<(DataAttribute, string)>)
    ensures KeepsSetExceptCoordinates(r, Attributes(r, attrs))
    ensures WritesWithin(r, Attributes(r, attrs), AttributeFields)
    decreases |attrs|
  {
    if attrs != [] {
      var r1 := Attributes(r, attrs[..|attrs| - 1]);
      var r2 := Attributes(r, attrs);
      AttributesWrite(r, attrs[..|attrs| - 1]);
      AttributeStepWrites(r1, attrs[|attrs| - 1].0, attrs[|attrs| - 1].1);
      WritesWithinTransitive(r, r1, r2, AttributeFields, AttributeFields);
      forall f | IsSet(r, f) && f != Lat && f != Lon ensures f in r2 && r2[f] == r[f] {
        assert IsSet(r1, f);
      }
    }
  }

  /** A lat or lon attribute that float() accepts overwrites the coordinate,
      even one that is already set. */
  lemma AttributeCoordinateOverwrites(r: Record, a: DataAttribute, value: string, x: real)
    requires a == DataLat || a == DataLon
    requires ParseFloat(value) == Some(x)
    ensures var f := AttributeField(a);
      f in AttributeStep(r, a, value) && AttributeStep(r, a, value)[f] == Float(x)
  {
    assert value != "";
  }

  /** `_extract_vessel_details`: the tables, then the detail sections, then the
      data attributes. */
  function VesselDetails(
    r: Record, rows: seq<seq<string>>, sections: seq<SectionMatches>, attrs: seq<(DataAttribute, string)>): Record
  {
    Attributes(Sections(TableRows(r, rows), sections), attrs)
  }

  // ---------------------------------------------------------------------------
  // _extract_position_data

  /** A write made by the position helpers this model does not spell out
      (position elements, map markers and attributes, JavaScript variables,
      page-source patterns, map tooltips): each fills lat or lon only while
      falsy, or hands a text to `_parse_coordinate_text`. */
  datatype PositionEvent =
    | FillLat(lat: real)
    | FillLon(lon: real)
    | ParsedText(pairs: seq<Option<(string, string)>>)

  /** The matches of the lat, lon, speed, course and heading pattern lists on
      the body text, and the later position writes in the order they happen. */
  datatype PositionPage = PositionPage(
    lats: seq<Option<string>>, lons: seq<Option<string>>, speeds: seq<Option<string>>,
    courses: seq<Option<string>>, headings: seq<Option<string>>, events: seq<PositionEvent>)

  function PositionEventStep(r: Record, e: PositionEvent): Record {
    match e
    case FillLat(x) => FillIfUnset(r, Lat, Float(x))
    case FillLon(x) => FillIfUnset(r, Lon, Float(x))
    case ParsedText(ms) => CoordinateText(r, ms)
  }

  function PositionEvents(r: Record, es: seq<PositionEvent>): Record
    decreases |es|
  {
    if es == [] then r else PositionEventStep(PositionEvents(r, es[..|es| - 1]), es[|es| - 1])
  }

  /** `_extract_position_data`: lat and lon from the first in-range pattern
      match, only while falsy and while the API flag is down; speed, course and
      heading from the first match float() accepts, only while falsy; then the
      helpers' writes. */
  function Position(r: Record, p: PositionPage): Record {
    PositionEvents(PositionNumbers(PositionCoordinates(r, p), p), p.events)
  }

  const PositionFields: set<Field> := {Lat, Lon, Speed, Course, Heading}

  lemma PositionEventStepFills(r: Record, e: PositionEvent)
    ensures KeepsSetFields(r, PositionEventStep(r, e))
    ensures WritesWithin(r, PositionEventStep(r, e), {Lat, Lon})
  {
    if e.ParsedText? {
      CoordinateTextFills(r, e.pairs);
    }
  }

  lemma {:induction false} PositionEventsFill(r: Record, es: seq<PositionEvent>)
    ensures KeepsSetFields(r, PositionEvents(r, es))
    ensures WritesWithin(r, PositionEvents(r, es), {Lat, Lon})
    decreases |es|
  {
    if es != [] {
      var r1 := PositionEvents(r, es[..|es| - 1]);
      PositionEventsFill(r, es[..|es| - 1]);
      PositionEventStepFills(r1, es[|es| - 1]);
      KeepsSetFieldsTransitive(r, r1, PositionEvents(r, es));
      WritesWithinTransitive(r, r1, PositionEvents(r, es), {Lat, Lon}, {Lat, Lon});
    }
  }

  /** The position step only fills falsy lat, lon, speed, course and heading
      fields. */
  lemma PositionFills(r: Record, p: PositionPage)
    ensures KeepsSetFields(r, Position(r, p))
    ensures WritesWithin(r, Position(r, p), PositionFields)
  {
    var r2 := PositionCoordinates(r, p);
    var r3 := PositionNumbers(r2, p);
    PositionCoordinatesFill(r, p);
    PositionNumbersFill(r2, p);
    PositionEventsFill(r3, p.events);
    assert Position(r, p) == PositionEvents(r3, p.events);
    KeepsSetFieldsTransitive(r, r2, r3);
    KeepsSetFieldsTransitive(r, r3, Position(r, p));
    WritesWithinWeaken(r3, Position(r, p), {Lat, Lon}, PositionFields);
    WritesWithinTransitive(r, r2, r3, PositionFields, PositionFields);
    WritesWithinTransitive(r, r3, Position(r, p), PositionFields + PositionFields, PositionFields);
    assert PositionFields + PositionFields + PositionFields == PositionFields;
  }

  /** The lat and lon pattern loops of the position step, skipped once the
      API flag is up. */
  function PositionCoordinates(r: Record, p: PositionPage): Record {
    var r1 := if FlagSet(r) then r else FillFirst(r, Lat, p.lats, Latitude);
    if FlagSet(r1) then r1 else FillFirst(r1, Lon, p.lons, Longitude)
  }

  /** The speed, course and heading pattern loops. */
  function PositionNumbers(r: Record, p: PositionPage): Record {
    FillFirst(FillFirst(FillFirst(r, Speed, p.speeds, Number), Course, p.courses, Number),
              Heading, p.headings, Number)
  }

  lemma PositionCoordinatesFill(r: Record, p: PositionPage)
    ensures KeepsSetFields(r, PositionCoordinates(r, p))
    ensures WritesWithin(r, PositionCoordinates(r, p), PositionFields)
  {
    var r1 := if FlagSet(r) then r else FillFirst(r, Lat, p.lats, Latitude);
    FillFirstFills(r, Lat, p.lats, Latitude);
    FillFirstFills(r1, Lon, p.lons, Longitude);
    var r2 := PositionCoordinates(r, p);
    KeepsSetFieldsTransitive(r, r1, r2);
    WritesWithinTransitive(r, r1, r2, {Lat}, {Lon});
    WritesWithinWeaken(r, r2, {Lat} + {Lon}, PositionFields);
  }

  lemma PositionNumbersFill(r: Record, p: PositionPage)
    ensures KeepsSetFields(r, PositionNumbers(r, p))
    ensures WritesWithin(r, PositionNumbers(r, p), PositionFields)
  {
    var s1 := FillFirst(r, Speed, p.speeds, Number);
    var s2 := FillFirst(s1, Course, p.courses, Number);
    var s3 := FillFirst(s2, Heading, p.headings, Number);
    FillFirstFills(r, Speed, p.speeds, Number);
    FillFirstFills(s1, Course, p.courses, Number);
    FillFirstFills(s2, Heading, p.headings, Number);
    KeepsSetFieldsTransitive(r, s1, s2);
    KeepsSetFieldsTransitive(r, s2, s3);
    WritesWithinTransitive(r, s1, s2, {Speed}, {Course});
    WritesWithinTransitive(r, s2, s3, {Speed} + {Course}, {Heading});
    WritesWithinWeaken(r, s3, {Speed} + {Course} + {Heading}, PositionFields);
  }

  /** A latitude taken from the position patterns lies in [-90, 90]: an
      out-of-range match is skipped, never clamped; likewise for longitude
      and [-180, 180]. */
  lemma PositionPatternsInRange(r: Record, p: PositionPage)
    requires !FlagSet(r)
    ensures var r' := PositionCoordinates(r, p);
      && (Lat in r' && r'[Lat].Float? && r'[Lat] != GetOr(r, Lat, Null) ==> -90.0 <= r'[Lat].x <= 90.0)
      && (Lon in r' && r'[Lon].Float? && r'[Lon] != GetOr(r, Lon, Null) ==> -180.0 <= r'[Lon].x <= 180.0)
  {
    var r1 := FillFirst(r, Lat, p.lats, Latitude);
    FillFirstFills(r, Lat, p.lats, Latitude);
    FillFirstFills(r1, Lon, p.lons, Longitude);
    FirstCandidateShape(p.lats, Latitude);
    FirstCandidateShape(p.lons, Longitude);
    assert !FlagSet(r1);
  }

  // ---------------------------------------------------------------------------
  // _extract_voyage_data

  /** The matches of the destination, status and draught pattern lists on the
      body text, and the voyage elements as (CSS selector, text) pairs. */
  datatype VoyagePage = VoyagePage(
    destinations: seq<Option<string>>, statuses: seq<Option<string>>, draughts: seq<Option<string>>,
    elements: seq<(string, string)>)

  /** One voyage element: its stripped text is used only when it is not empty
      or a placeholder, and goes to the first of destination, nav_status and
      draught whose name the selector contains and whose field is falsy. */
  function VoyageElement(r: Record, selector: string, text: string): Record {
    var t := Strip(text);
    var sel := Lower(selector);
    if !Acceptable(t, LongPlaceholders) then r
    else if Contains(sel, "destination") && !IsSet(r, Destination) then r[Destination := Text(t)]
    else if Contains(sel, "status") && !IsSet(r, NavStatus) then r[NavStatus := Text(t)]
    else if Contains(sel, "draught") && !IsSet(r, Draught) then NumberFrom(r, Draught, FirstDigitsAndPoints(t))
    else r
  }

  function VoyageElements(r: Record, es: seq<(string, string)>): Record
    decreases |es|
  {
    if es == [] then r else VoyageElement(VoyageElements(r, es[..|es| - 1]), es[|es| - 1].0, es[|es| - 1].1)
  }

  /** `_extract_voyage_data`: destination and status from the first stripped
      match that is not a placeholder, draught from the first match float()
      accepts, each only while falsy; then the voyage elements. */
  function Voyage(r: Record, p: VoyagePage): Record {
    var r1 := FillFirst(r, Destination, p.destinations, TrimmedLong);
    var r2 := FillFirst(r1, NavStatus, p.statuses, TrimmedLong);
    VoyageElements(FillFirst(r2, Draught, p.draughts, Number), p.elements)
  }

  const VoyageFields: set<Field> := {Destination, NavStatus, Draught}

  lemma VoyageElementFills(r: Record, selector: string, text: string)
    ensures Fills(r, VoyageElement(r, selector, text), LongPlaceholders)
    ensures WritesWithin(r, VoyageElement(r, selector, text), VoyageFields)
  {
    var t := Strip(text);
    var sel := Lower(selector);
    var r' := VoyageElement(r, selector, text);
    if !Acceptable(t, LongPlaceholders) {
    } else if Contains(sel, "destination") && !IsSet(r, Destination) {
      FillsWithText(r, Destination, t, LongPlaceholders);
    } else if Contains(sel, "status") && !IsSet(r, NavStatus) {
      FillsWithText(r, NavStatus, t, LongPlaceholders);
    } else if Contains(sel, "draught") && !IsSet(r, Draught) {
      FillsWithNumber(r, Draught, FirstDigitsAndPoints(t), LongPlaceholders);
    }
  }

  lemma FillsWithText(r: Record, f: Field, t: string, ps: seq<string>)
    requires f == Destination || f == NavStatus || f == Callsign || f == Type
    requires !IsSet(r, f) && Acceptable(t, ps)
    ensures Fills(r, r[f := Text(t)], ps)
    ensures WritesWithin(r, r[f := Text(t)], {f})
  {
  }

  lemma FillsWithNumber(r: Record, f: Field, m: Option<string>, ps: seq<string>)
    requires (f == Draught || f == Lat || f == Lon) && !IsSet(r, f)
    ensures Fills(r, NumberFrom(r, f, m), ps)
    ensures WritesWithin(r, NumberFrom(r, f, m), {f})
  {
    if m.Some? && ParseFloat(m.value).Some? {
      FillsWithFloat(r, f, ParseFloat(m.value).value, ps);
    }
  }

  lemma FillsWithFloat(r: Record, f: Field, x: real, ps: seq<string>)
    requires (f == Draught || f == Lat || f == Lon) && !IsSet(r, f)
    ensures Fills(r, r[f := Float(x)], ps)
    ensures WritesWithin(r, r[f := Float(x)], {f})
  {
  }

  lemma {:induction false} VoyageElementsFill(r: Record, es: seq<(string, string)>)
    ensures Fills(r, VoyageElements(r, es), LongPlaceholders)
    ensures WritesWithin(r, VoyageElements(r, es), VoyageFields)
    decreases |es|
  {
    if es != [] {
      var r1 := VoyageElements(r, es[..|es| - 1]);
      VoyageElementsFill(r, es[..|es| - 1]);
      VoyageElementFills(r1, es[|es| - 1].0, es[|es| - 1].1);
      FillsTransitive(r, r1, VoyageElements(r, es), LongPlaceholders);
      WritesWithinTransitive(r, r1, VoyageElements(r, es), VoyageFields, VoyageFields);
    }
  }

  /** A guarded pattern loop with a conversion whose values the line-value
      rule accepts for `f` fills `f` as `Fills` demands. */
  lemma FillFirstIsFill(r: Record, f: Field, ms: seq<Option<string>>, kind: Conversion)
    requires kind == TrimmedLong ==> f in {Destination, NavStatus}
    requires kind == Number ==> f == Draught
    requires kind == TrimmedLong || kind == Number
    ensures Fills(r, FillFirst(r, f, ms, kind), LongPlaceholders)
    ensures WritesWithin(r, FillFirst(r, f, ms, kind), {f})
  {
    FillFirstShape(r, f, ms, kind);
  }

  lemma FillFirstShape(r: Record, f: Field, ms: seq<Option<string>>, kind: Conversion)
    ensures var r' := FillFirst(r, f, ms, kind);
      f in r' && (f !in r || r'[f] != r[f]) ==> !IsSet(r, f) && Converted(r'[f], kind)
  {
    FirstCandidateShape(ms, kind);
  }

  /** The voyage step only fills falsy destination, nav_status and draught
      fields; destination and status never with an empty or placeholder
      text, draught only with a number. */
  lemma VoyageFills(r: Record, p: VoyagePage)
    ensures Fills(r, Voyage(r, p), LongPlaceholders)
    ensures WritesWithin(r, Voyage(r, p), VoyageFields)
  {
    var r1 := FillFirst(r, Destination, p.destinations, TrimmedLong);
    var r2 := FillFirst(r1, NavStatus, p.statuses, TrimmedLong);
    var r3 := FillFirst(r2, Draught, p.draughts, Number);
    FillFirstIsFill(r, Destination, p.destinations, TrimmedLong);
    FillFirstIsFill(r1, NavStatus, p.statuses, TrimmedLong);
    FillFirstIsFill(r2, Draught, p.draughts, Number);
    VoyageElementsFill(r3, p.elements);
    FillsTransitive(r, r1, r2, LongPlaceholders);
    FillsTransitive(r, r2, r3, LongPlaceholders);
    FillsTransitive(r, r3, Voyage(r, p), LongPlaceholders);
    WritesWithinTransitive(r, r1, r2, {Destination}, {NavStatus});
    WritesWithinTransitive(r, r2, r3, {Destination, NavStatus}, {Draught});
    WritesWithinTransitive(r, r3, Voyage(r, p), VoyageFields, VoyageFields);
  }

  // ---------------------------------------------------------------------------
  // _extract_from_html / _update_from_json

  /** The number of entries of the `_update_from_json` mapping. */
  const UpdateCount: nat := 14

  /** The target of the mapping's `i`-th entry, in its order. */
  function UpdateTarget(i: nat): Field
    requires i < UpdateCount
  {
    match i
    case 0 => Mmsi
    case 1 => Name
    case 2 => Callsign
    case 3 => Type
    case 4 => Lat
    case 5 => Lon
    case 6 => Speed
    case 7 => Course
    case 8 => Heading
    case 9 => Draught
    case 10 => NavStatus
    case 11 => Destination
    case 12 => Timestamp
    case _ => Imo
  }

  /** The JSON key the mapping reads for a target field. */
  function UpdateKey(f: Field): string {
    match f
    case Mmsi => "mmsi"
    case Name => "shipname"
    case Callsign => "callsign"
    case Type => "shiptype"
    case Lat => "lat"
    case Lon => "lon"
    case Speed => "speed"
    case Course => "course"
    case Heading => "heading"
    case Draught => "draught"
    case NavStatus => "navstat"
    case Destination => "destination"
    case Timestamp => "timestamp"
    case Imo => "imo"
    case _ => ""
  }

  /** `if json_key in json_data and not ship_data[ship_key]`: the JSON value
      is stored as it is. */
  function UpdateStep(r: Record, ms: seq<(string, Json)>, f: Field): Record {
    match Lookup(ms, UpdateKey(f))
    case None => r
    case Some(j) => FillIfUnset(r, f, Stored(j))
  }

  /** The mapping's entries from the `i`-th on, in order. */
  function UpdateFields(r: Record, ms: seq<(string, Json)>, i: nat): Record
    requires i <= UpdateCount
    decreases UpdateCount - i
  {
    if i == UpdateCount then r else UpdateFields(UpdateStep(r, ms, UpdateTarget(i)), ms, i + 1)
  }

  /** `_update_from_json` on one decoded object. */
  function UpdateFromJson(r: Record, ms: seq<(string, Json)>): Record {
    UpdateFields(r, ms, 0)
  }

  /** `_extract_from_html`: every script object that decodes, in order. */
  function HtmlFallback(r: Record, objects: seq<seq<(string, Json)>>): Record
    decreases |objects|
  {
    if objects == [] then r else UpdateFromJson(HtmlFallback(r, objects[..|objects| - 1]), objects[|objects| - 1])
  }

  /** The first i + 1 script objects are the first i and then object i. */
  lemma HtmlFallbackStep(r: Record, objects: seq<seq<(string, Json)>>, i: nat)
    requires i < |objects|
    ensures HtmlFallback(r, objects[..i + 1]) == UpdateFromJson(HtmlFallback(r, objects[..i]), objects[i])
  {
    assert objects[..i + 1][..i] == objects[..i];
  }

  /** The fields the HTML fallback can write: the mapping's targets. */
  const UpdateFieldSet: set<Field> :=
    {Mmsi, Name, Callsign, Type, Lat, Lon, Speed, Course, Heading, Draught, NavStatus, Destination, Timestamp, Imo}

  /** Each entry of the mapping only fills a falsy target. */
  lemma {:induction false} UpdateFieldsKeep(r: Record, ms: seq<(string, Json)>, i: nat)
    requires i <= UpdateCount
    ensures KeepsSetFields(r, UpdateFields(r, ms, i))
    ensures WritesWithin(r, UpdateFields(r, ms, i), UpdateFieldSet)
    decreases UpdateCount - i
  {
    if i < UpdateCount {
      var r1 := UpdateStep(r, ms, UpdateTarget(i));
      assert UpdateTarget(i) in UpdateFieldSet;
      UpdateFieldsKeep(r1, ms, i + 1);
      KeepsSetFieldsTransitive(r, r1, UpdateFields(r, ms, i));
      WritesWithinTransitive(r, r1, UpdateFields(r, ms, i), {UpdateTarget(i)}, UpdateFieldSet);
    }
  }

  /** The HTML fallback only ever fills falsy fields among the mapping's
      targets: whatever was set before it keeps its value. */
  lemma {:induction false} HtmlFallbackKeeps(r: Record, objects: seq<seq<(string, Json)>>)
    ensures KeepsSetFields(r, HtmlFallback(r, objects))
    ensures WritesWithin(r, HtmlFallback(r, objects), UpdateFieldSet)
    decreases |objects|
  {
    if objects != [] {
      var r1 := HtmlFallback(r, objects[..|objects| - 1]);
      HtmlFallbackKeeps(r, objects[..|objects| - 1]);
      UpdateFieldsKeep(r1, objects[|objects| - 1], 0);
      KeepsSetFieldsTransitive(r, r1, HtmlFallback(r, objects));
      WritesWithinTransitive(r, r1, HtmlFallback(r, objects), UpdateFieldSet, UpdateFieldSet);
    }
  }

  // ---------------------------------------------------------------------------
  // _extract_from_network_requests

  /** A response body as the network step sees it: absent, decoded by
      json.loads, or text json.loads rejected, given by what the
      coordinate-text patterns matched in it. */
  datatype Body =
    | NoBody
    | JsonBody(doc: Json)
    | TextBody(pairs: seq<Option<(string, string)>>)

  /** A `Network.responseReceived` entry of the performance log. */
  datatype Capture = Capture(url: string, body: Body)

  /** The URL filter: a lowercased URL mentioning position, vessel, ship or
      coordinates. */
  predicate PositionUrl(url: string) {
    var u := Lower(url);
    Contains(u, "position") || Contains(u, "vessel") || Contains(u, "ship") || Contains(u, "coordinates")
  }

  /** The loop over the captured responses. The flag of the result says the
      loop returned early: a JSON body left lat and lon both truthy, and the
      API flag was raised. */
  function NetworkCaptures(r: Record, caps: seq<Capture>): (res: (Record, bool))
    decreases |caps|
  {
    if caps == [] then (r, false)
    else if !PositionUrl(caps[0].url) then NetworkCaptures(r, caps[1..])
    else
      match caps[0].body
      case NoBody => NetworkCaptures(r, caps[1..])
      case JsonBody(doc) =>
        var r1 := ApiResponse(r, doc);
        if IsSet(r1, Lat) && IsSet(r1, Lon) then (MarkFromApi(r1), true)
        else NetworkCaptures(r1, caps[1..])
      case TextBody(pairs) =>
        if EndsWith(caps[0].url, ".svg") then NetworkCaptures(r, caps[1..])
        else NetworkCaptures(CoordinateText(r, pairs), caps[1..])
  }

  /** `_extract_from_network_requests`: the captured responses, then, unless
      the loop returned early, the response of the direct position API call
      when it is truthy. */
  function NetworkRequests(r: Record, caps: seq<Capture>, direct: Option<Json>): Record {
    var (r1, stopped) := NetworkCaptures(r, caps);
    if stopped || direct.None? || !JsonTruthy(direct.value) then r1
    else ApiResponse(r1, direct.value)
  }

  /** An early return leaves lat and lon truthy and the flag raised. */
  lemma {:induction false} NetworkStopSetsFlag(r: Record, caps: seq<Capture>)
    ensures var (r', stopped) := NetworkCaptures(r, caps);
      stopped ==> FlagSet(r') && IsSet(r', Lat) && IsSet(r', Lon)
    decreases |caps|
  {
    if caps != [] && PositionUrl(caps[0].url) {
      match caps[0].body
      case NoBody => NetworkStopSetsFlag(r, caps[1..]);
      case JsonBody(doc) =>
        var r1 := ApiResponse(r, doc);
        if !(IsSet(r1, Lat) && IsSet(r1, Lon)) {
          NetworkStopSetsFlag(r1, caps[1..]);
        }
      case TextBody(pairs) =>
        if EndsWith(caps[0].url, ".svg") {
          NetworkStopSetsFlag(r, caps[1..]);
        } else {
          NetworkStopSetsFlag(CoordinateText(r, pairs), caps[1..]);
        }
    } else if caps != [] {
      NetworkStopSetsFlag(r, caps[1..]);
    }
  }

  lemma {:induction false} NetworkCapturesWrite(r: Record, caps: seq<Capture>)
    ensures WritesWithin(r, NetworkCaptures(r, caps).0, ApiWrites)
    decreases |caps|
  {
    if caps != [] && PositionUrl(caps[0].url) {
      var r' := NetworkCaptures(r, caps).0;
      match caps[0].body
      case NoBody => NetworkCapturesWrite(r, caps[1..]);
      case JsonBody(doc) =>
        var r1 := ApiResponse(r, doc);
        ApiResponseWrites(r, doc);
        if IsSet(r1, Lat) && IsSet(r1, Lon) {
          WritesWithinTransitive(r, r1, r', ApiWrites, {CoordinatesFromApi});
        } else {
          NetworkCapturesWrite(r1, caps[1..]);
          WritesWithinTransitive(r, r1, r', ApiWrites, ApiWrites);
        }
      case TextBody(pairs) =>
        if EndsWith(caps[0].url, ".svg") {
          NetworkCapturesWrite(r, caps[1..]);
        } else {
          var r1 := CoordinateText(r, pairs);
          CoordinateTextFills(r, pairs);
          NetworkCapturesWrite(r1, caps[1..]);
          WritesWithinTransitive(r, r1, r', {Lat, Lon}, ApiWrites);
        }
    } else if caps != [] {
      NetworkCapturesWrite(r, caps[1..]);
    }
  }

  /** The network step writes only lat, lon, the flag and the API-mapped
      fields. */
  lemma NetworkWrites(r: Record, caps: seq<Capture>, direct: Option<Json>)
    ensures WritesWithin(r, NetworkRequests(r, caps, direct), ApiWrites)
  {
    var (r1, stopped) := NetworkCaptures(r, caps);
    NetworkCapturesWrite(r, caps);
    if !(stopped || direct.None? || !JsonTruthy(direct.value)) {
      ApiResponseWrites(r1, direct.value);
      WritesWithinTransitive(r, r1, NetworkRequests(r, caps, direct), ApiWrites, ApiWrites);
    }
  }

  // ---------------------------------------------------------------------------
  // get_ship_details

  /** Everything the browser hands the extractors for one ship page. */
  datatype Page = Page(
    names: seq<Option<string>>,                  // texts of h1, .page-title, .vessel-name, .ship-name
    captures: seq<Capture>,                      // the performance log's responses, in order
    direct: Option<Json>,                        // the direct position API call's result, if any
    bodyText: string,                            // the body text the line loop reads
    tableRows: seq<seq<string>>,                 // cell texts of every table row
    sections: seq<SectionMatches>,               // pattern matches in each detail section
    attributes: seq<(DataAttribute, string)>,    // data-* attribute values, attribute by attribute
    position: PositionPage,
    voyage: VoyagePage,
    scripts: seq<seq<(string, Json)>>)           // the vessel objects of the page source that decode

  /** The record once the name and the network step are done. */
  function AfterNetwork(mmsi: string, p: Page): Record {
    NetworkRequests(ShipName(InitialRecord(mmsi), p.names), p.captures, p.direct)
  }

  /** The extractors that run only while the API flag is down. */
  function PageExtractors(r: Record, p: Page): Record {
    var r1 := VesselDetails(AllText(r, p.bodyText), p.tableRows, p.sections, p.attributes);
    Voyage(Position(r1, p.position), p.voyage)
  }

  /** `get_ship_details(mmsi)` once the page is loaded. */
  function ShipDetails(mmsi: string, p: Page): Record {
    Finish(AfterNetwork(mmsi, p), p)
  }

  /** What follows the network step: the page extractors unless the API flag
      is up, the HTML fallback, and the removal of the flag. */
  function Finish(r2: Record, p: Page): Record {
    HtmlFallback(Gate(r2, p), p.scripts) - {CoordinatesFromApi}
  }

  /** `if not ship_data.get('_coordinates_from_api', False):` around the page
      extractors. */
  function Gate(r2: Record, p: Page): Record {
    if FlagSet(r2) then r2 else PageExtractors(r2, p)
  }

  /** Every field some extractor may write. */
  const ExtractorWrites: set<Field> := UpdateFieldSet + {CoordinatesFromApi}

  lemma PageExtractorsWrite(r: Record, p: Page)
    ensures WritesWithin(r, PageExtractors(r, p), ExtractorWrites)
  {
    var r1 := AllText(r, p.bodyText);
    var r2 := TableRows(r1, p.tableRows);
    var r3 := Sections(r2, p.sections);
    var r4 := Attributes(r3, p.attributes);
    var r5 := Position(r4, p.position);
    AllTextFills(r, p.bodyText);
    TableRowsFill(r1, p.tableRows);
    SectionsFill(r2, p.sections);
    AttributesWrite(r3, p.attributes);
    PositionFills(r4, p.position);
    VoyageFills(r5, p.voyage);
    WritesWithinTransitive(r, r1, r2, LineFields, TableFields);
    WritesWithinTransitive(r, r2, r3, LineFields + TableFields, TableFields);
    WritesWithinTransitive(r, r3, r4, LineFields + TableFields + TableFields, AttributeFields);
    WritesWithinTransitive(r, r4, r5, LineFields + TableFields + TableFields + AttributeFields, PositionFields);
    WritesWithinTransitive(r, r5, PageExtractors(r, p),
      LineFields + TableFields + TableFields + AttributeFields + PositionFields, VoyageFields);
    WritesWithinWeaken(r, PageExtractors(r, p),
      LineFields + TableFields + TableFields + AttributeFields + PositionFields + VoyageFields, ExtractorWrites);
  }

  lemma AfterNetworkWrites(mmsi: string, p: Page)
    ensures WritesWithin(InitialRecord(mmsi), AfterNetwork(mmsi, p), ExtractorWrites)
  {
    NameAndNetworkWrite(InitialRecord(mmsi), p);
  }

  lemma NameAndNetworkWrite(r0: Record, p: Page)
    ensures WritesWithin(r0, NetworkRequests(ShipName(r0, p.names), p.captures, p.direct), ExtractorWrites)
  {
    var r1 := ShipName(r0, p.names);
    var r2 := NetworkRequests(r1, p.captures, p.direct);
    ShipNameWrites(r0, p.names);
    NetworkWrites(r1, p.captures, p.direct);
    WritesWithinTransitive(r0, r1, r2, {Name}, ApiWrites);
    assert {Name} + ApiWrites <= ExtractorWrites;
    WritesWithinWeaken(r0, r2, {Name} + ApiWrites, ExtractorWrites);
  }

  lemma ShipNameWrites(r: Record, candidates: seq<Option<string>>)
    ensures WritesWithin(r, ShipName(r, candidates), {Name})
  {
  }

  /** The returned record has exactly the keys of the initial record (the
      internal `_coordinates_from_api` key is gone), provider and data_source
      are still "MarineTraffic", and comparison_id is still None: no extractor
      writes them. */
  lemma ShipDetailsShape(mmsi: string, p: Page)
    ensures ShipDetails(mmsi, p).Keys == RecordKeys
    ensures ShipDetails(mmsi, p)[Provider] == Text("MarineTraffic")
    ensures ShipDetails(mmsi, p)[DataSource] == Text("MarineTraffic")
    ensures ShipDetails(mmsi, p)[ComparisonId] == Null
  {
    var r0 := InitialRecord(mmsi);
    var r2 := AfterNetwork(mmsi, p);
    AfterNetworkWrites(mmsi, p);
    FinishShape(r0, r2, p);
  }

  lemma FinishShape(r0: Record, r2: Record, p: Page)
    requires r0.Keys == RecordKeys
    requires WritesWithin(r0, r2, ExtractorWrites)
    ensures Finish(r2, p).Keys == RecordKeys
    ensures Provider in r0 ==> Finish(r2, p)[Provider] == r0[Provider]
    ensures DataSource in r0 ==> Finish(r2, p)[DataSource] == r0[DataSource]
    ensures ComparisonId in r0 ==> Finish(r2, p)[ComparisonId] == r0[ComparisonId]
  {
    GateWrites(r2, p);
    WritesWithinTransitive(r0, r2, Gate(r2, p), ExtractorWrites, ExtractorWrites);
    FallbackShape(r0, Gate(r2, p), p.scripts);
  }

  lemma GateWrites(r2: Record, p: Page)
    ensures WritesWithin(r2, Gate(r2, p), ExtractorWrites)
  {
    if !FlagSet(r2) {
      PageExtractorsWrite(r2, p);
    }
  }

  lemma ExtractorWritesWithinRecord()
    ensures ExtractorWrites <= RecordKeys + {CoordinatesFromApi}
    ensures CoordinatesFromApi !in RecordKeys
    ensures Provider !in ExtractorWrites && DataSource !in ExtractorWrites && ComparisonId !in ExtractorWrites
  {
  }

  /** A record that kept its initial keys and gained at most the flag has the
      initial keys again once the flag is removed. */
  lemma RemovingTheMarker(r0: Record, r4: Record, fs: set<Field>)
    requires r0.Keys <= r4.Keys <= r0.Keys + fs
    requires fs <= r0.Keys + {CoordinatesFromApi} && CoordinatesFromApi !in r0.Keys
    ensures (r4 - {CoordinatesFromApi}).Keys == r0.Keys
  {
  }

  /** The HTML fallback and the removal of the flag leave exactly the initial
      keys and do not touch provider, data_source or comparison_id. */
  lemma FallbackShape(r0: Record, r3: Record, objects: seq<seq<(string, Json)>>)
    requires r0.Keys == RecordKeys
    requires WritesWithin(r0, r3, ExtractorWrites)
    ensures (HtmlFallback(r3, objects) - {CoordinatesFromApi}).Keys == RecordKeys
    ensures Provider in r0 ==> (HtmlFallback(r3, objects) - {CoordinatesFromApi})[Provider] == r0[Provider]
    ensures DataSource in r0 ==> (HtmlFallback(r3, objects) - {CoordinatesFromApi})[DataSource] == r0[DataSource]
    ensures ComparisonId in r0 ==> (HtmlFallback(r3, objects) - {CoordinatesFromApi})[ComparisonId] == r0[ComparisonId]
  {
    var r4 := HtmlFallback(r3, objects);
    HtmlFallbackKeeps(r3, objects);
    WritesWithinWeaken(r3, r4, UpdateFieldSet, ExtractorWrites);
    WritesWithinTransitive(r0, r3, r4, ExtractorWrites, ExtractorWrites);
    ExtractorWritesWithinRecord();
    RemovingTheMarker(r0, r4, ExtractorWrites);
    Untouched(r0, r4, ExtractorWrites, Provider);
    Untouched(r0, r4, ExtractorWrites, DataSource);
    Untouched(r0, r4, ExtractorWrites, ComparisonId);
  }

  /** The API flag gates the page extractors: once the network step has raised
      it, only the HTML fallback runs, and every field the network step left
      truthy (non-zero API coordinates among them) reaches the result
      unchanged. */
  lemma ShipDetailsGated(mmsi: string, p: Page)
    requires FlagSet(AfterNetwork(mmsi, p))
    ensures ShipDetails(mmsi, p) == HtmlFallback(AfterNetwork(mmsi, p), p.scripts) - {CoordinatesFromApi}
    ensures var r2 := AfterNetwork(mmsi, p);
      forall f | IsSet(r2, f) && f != CoordinatesFromApi :: f in ShipDetails(mmsi, p) && ShipDetails(mmsi, p)[f] == r2[f]
  {
    var r2 := AfterNetwork(mmsi, p);
    FinishGated(r2, p);
    FallbackKeepsSet(r2, p.scripts);
  }

  lemma FinishGated(r2: Record, p: Page)
    requires FlagSet(r2)
    ensures Finish(r2, p) == HtmlFallback(r2, p.scripts) - {CoordinatesFromApi}
  {
  }

  /** Set fields other than the flag survive the HTML fallback and the
      removal of the flag. */
  lemma FallbackKeepsSet(r2: Record, objects: seq<seq<(string, Json)>>)
    ensures var r' := HtmlFallback(r2, objects) - {CoordinatesFromApi};
      forall f | IsSet(r2, f) && f != CoordinatesFromApi :: f in r' && r'[f] == r2[f]
  {
    HtmlFallbackKeeps(r2, objects);
  }

  // ---------------------------------------------------------------------------
  // send_to_posthog

  /** The property bag handed to posthog.capture. */
  datatype PosthogProperties = PosthogProperties(
    provider: string, mmsi: Value, name: Value, callsign: Value, shipType: Value,
    lat: Option<real>, lon: Option<real>, speed: Value, course: Value, heading: Value,
    draught: Value, navStatus: Value, destination: Value, timestamp: string, imo: Value,
    comparisonId: Value, dataSource: string)

  /** One posthog.capture call. */
  datatype PosthogCapture = PosthogCapture(distinctId: string, event: string, properties: PosthogProperties)

  /** `float(v) if v is not None else None`: the outer None is float() raising. */
  function OptionalFloat(v: Value): (r: Option<Option<real>>)
    ensures v == Null ==> r == Some(None)
    ensures v.Float? ==> r == Some(Some(v.x))
  {
    if v == Null then Some(None)
    else
      match FloatOf(v)
      case None => None
      case Some(x) => Some(Some(x))
  }

  /** `send_to_posthog(ship_data, comparison_id)`: the capture it makes, or
      None when it returns False without one (library or API key missing, or
      float() raising on lat or lon); `now` is the capture's timestamp. */
  function PosthogEvent(available: bool, apiKey: Option<string>, r: Record, comparisonId: Option<string>, now: string)
    : (e: Option<PosthogCapture>)
    ensures e.Some? <==>
      && available && OptTruthy(apiKey)
      && OptionalFloat(GetOr(r, Lat, Null)).Some? && OptionalFloat(GetOr(r, Lon, Null)).Some?
  {
    if !available || !OptTruthy(apiKey) then None
    else
      var lat := OptionalFloat(GetOr(r, Lat, Null));
      var lon := OptionalFloat(GetOr(r, Lon, Null));
      if lat.None? || lon.None? then None
      else
        Some(PosthogCapture("selenium_scraper", "marine_traffic_scrape", PosthogProperties(
          "MarineTraffic", Str(GetOr(r, Mmsi, Text(""))), GetOr(r, Name, Null), GetOr(r, Callsign, Null),
          GetOr(r, Type, Null), lat.value, lon.value, GetOr(r, Speed, Null), GetOr(r, Course, Null),
          GetOr(r, Heading, Null), GetOr(r, Draught, Null), GetOr(r, NavStatus, Null),
          GetOr(r, Destination, Text("")), now, GetOr(r, Imo, Null), OptText(comparisonId), "selenium_scraper")))
  }

  /** The bag tags provider "MarineTraffic" and data_source
      "selenium_scraper"; the numeric fields are checked with `is not None`,
      so a zero speed, course, heading, draught, lat or lon is sent as zero;
      an unset coordinate is sent as None; destination defaults to "" only
      when the key is absent; and the mmsi is sent as text. */
  lemma PosthogKeepsZeros(available: bool, apiKey: Option<string>, r: Record, comparisonId: Option<string>, now: string)
    requires PosthogEvent(available, apiKey, r, comparisonId, now).Some?
    ensures var e := PosthogEvent(available, apiKey, r, comparisonId, now).value;
      && e.distinctId == "selenium_scraper" && e.event == "marine_traffic_scrape"
      && e.properties.provider == "MarineTraffic" && e.properties.dataSource == "selenium_scraper"
      && (Lat in r && r[Lat].Float? ==> e.properties.lat == Some(r[Lat].x))
      && (Lon in r && r[Lon].Float? ==> e.properties.lon == Some(r[Lon].x))
      && (GetOr(r, Lat, Null) == Null ==> e.properties.lat == None)
      && (Speed in r ==> e.properties.speed == r[Speed])
      && (Course in r ==> e.properties.course == r[Course])
      && (Heading in r ==> e.properties.heading == r[Heading])
      && (Draught in r ==> e.properties.draught == r[Draught])
      && (Destination in r ==> e.properties.destination == r[Destination])
      && (Destination !in r ==> e.properties.destination == Text(""))
      && (e.properties.mmsi.Text? || e.properties.mmsi.StrOf?)
      && e.properties.timestamp == now
      && e.properties.comparisonId == OptText(comparisonId)
  {
  }
}
