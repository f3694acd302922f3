/**
 What the VesselFinder scraper does to its vessel record, as functions of
 the record before a step and of what the browser returned: cleaning the
 identifiers, the page address, the initial record, the recursive
 `_parse_api_response` walk, the network, JavaScript, page-element and HTML
 extractors, the order in which `get_vessel_details` runs them, and the
 PostHog property bag. The class in module VesselFinder performs the same
 steps in place.
 */
module VesselFinderRules {
  import opened Wrappers
  import opened PyText
  import opened PyValues
  import opened Records

  // ---------------------------------------------------------------------------
  // identifiers, page address, initial record

  /** `str(x).strip('"').strip()` when `x` is truthy; a falsy argument is kept. */
  function CleanIdentifier(x: Option<string>): (r: Option<string>)
    ensures !OptTruthy(x) ==> r == x
    ensures OptTruthy(x) ==> r.Some? && |r.value| <= |x.value|
    ensures OptTruthy(x) ==> r.value == [] || (!IsSpace(r.value[0]) && !IsSpace(r.value[|r.value| - 1]))
  {
    if OptTruthy(x) then Some(Strip(Strip(x.value, Some('"')))) else x
  }

  predicate QuotesOrSpaces(t: string) {
    forall k :: 0 <= k < |t| ==> t[k] == '"' || IsSpace(t[k])
  }

  /** Cleaning removes double quotes and whitespace from the ends of the
      identifier and nothing else: what is left is an infix of the argument
      with only quotes and whitespace around it. */
  lemma CleanIdentifierTrims(s: string)
    requires OptTruthy(Some(s))
    ensures exists a, b ::
      && 0 <= a <= b <= |s| && CleanIdentifier(Some(s)) == Some(s[a..b])
      && QuotesOrSpaces(s[..a]) && QuotesOrSpaces(s[b..])
  {
    var u := Strip(s, Some('"'));
    StripIsInfix(s, Some('"'));
    var a1: nat, b1: nat :| a1 <= b1 <= |s| && u == s[a1..b1]
      && AllStripped(s[..a1], Some('"')) && AllStripped(s[b1..], Some('"'));
    var v := Strip(u);
    StripIsInfix(u, None);
    var a2: nat, b2: nat :| a2 <= b2 <= |u| && v == u[a2..b2] && AllStripped(u[..a2], None) && AllStripped(u[b2..], None);
    QuotesOrSpacesAround(s, a1, b1, a2, b2);
    assert CleanIdentifier(Some(s)) == Some(s[a1 + a2..a1 + b2]);
  }

  /** Quotes trimmed from the outside, then whitespace from the inside. */
  lemma QuotesOrSpacesAround(s: string, a1: nat, b1: nat, a2: nat, b2: nat)
    requires a1 <= b1 <= |s| && a2 <= b2 <= b1 - a1
    requires AllStripped(s[..a1], Some('"')) && AllStripped(s[b1..], Some('"'))
    requires AllStripped(s[a1..b1][..a2], None) && AllStripped(s[a1..b1][b2..], None)
    ensures s[a1..b1][a2..b2] == s[a1 + a2..a1 + b2]
    ensures QuotesOrSpaces(s[..a1 + a2]) && QuotesOrSpaces(s[a1 + b2..])
  {
    var u, a, b := s[a1..b1], a1 + a2, a1 + b2;
    forall k | 0 <= k < b2 - a2
      ensures u[a2..b2][k] == s[a..b][k]
    {
      assert u[a2 + k] == s[a1 + a2 + k];
    }
    assert u[a2..b2] == s[a..b];
    forall k | 0 <= k < a
      ensures s[..a][k] == '"' || IsSpace(s[..a][k])
    {
      if k < a1 { assert s[..a1][k] == s[k]; } else { assert u[..a2][k - a1] == s[k]; }
    }
    forall k | 0 <= k < |s| - b
      ensures s[b..][k] == '"' || IsSpace(s[b..][k])
    {
      if b + k < b1 { assert u[b2..][k] == s[b + k]; } else { assert s[b1..][b + k - b1] == s[b + k]; }
    }
  }

  /** An identifier pasted with its JSON quotes comes out as the bare number. */
  lemma QuotedIdentifierCleaned(s: string)
    requires s != [] && s[0] != '"' && s[|s| - 1] != '"'
    requires !IsSpace(s[0]) && !IsSpace(s[|s| - 1])
    ensures CleanIdentifier(Some("\"" + s + "\"")) == Some(s)
  {
    StripOf("\"", s, "\"", Some('"'));
    StripClean(s, None);
  }

  /** A lone pair of quotes passes the truthiness check but cleans to nothing. */
  lemma QuotesCleanToEmpty()
    ensures CleanIdentifier(Some("\"\"")) == Some("")
  {
    assert "\"\"" + "" + "" == "\"\"";
    StripOf("\"\"", "", "", Some('"'));
    StripClean("", None);
  }

  /** The page opened for a vessel and the identifier reported with it. */
  datatype Target = Target(url: string, identifier: string, identifierType: string)

  const MapPage: string := "https://www.vesselfinder.com/pro/map#vessel-details?"

  /** The MMSI when it is truthy, else the IMO; neither is a ValueError. */
  function VesselTarget(mmsi: Option<string>, imo: Option<string>): (r: Result<Target>)
    ensures r.Failure? <==> !OptTruthy(mmsi) && !OptTruthy(imo)
    ensures r.Failure? ==> r.error == "Either MMSI or IMO must be provided"
    ensures OptTruthy(mmsi) ==> r.Success? && r.value.identifier == mmsi.value && r.value.identifierType == "MMSI"
    ensures !OptTruthy(mmsi) && OptTruthy(imo) ==>
      r.Success? && r.value.identifier == imo.value && r.value.identifierType == "IMO"
  {
    if OptTruthy(mmsi) then Success(Target(MapPage + "imo=0&mmsi=" + mmsi.value, mmsi.value, "MMSI"))
    else if OptTruthy(imo) then Success(Target(MapPage + "imo=" + imo.value + "&mmsi=0", imo.value, "IMO"))
    else Failure("Either MMSI or IMO must be provided")
  }

  /** Reading the `imo` and `mmsi` query parameters back out of a page address. */
  function QueryIdentifiers(url: string): Option<(string, string)> {
    var p := MapPage + "imo=";
    if StartsWith(url, p) then
      match SplitAtFirst(url[|p|..], '&')
      case None => None
      case Some((imo, rest)) =>
        if StartsWith(rest, "mmsi=") then Some((imo, rest[5..])) else None
    else None
  }

  lemma SplitAfterZero(id: string)
    ensures SplitAtFirst("0&mmsi=" + id, '&') == Some(("0", "mmsi=" + id))
  {
    var s := "0&mmsi=" + id;
    assert s[1] == '&';
    var i := IndexOf(s, '&').value;
    assert i == 1;
    assert s[..1] == "0" && s[2..] == "mmsi=" + id;
  }

  lemma SplitAfterIdentifier(id: string)
    requires '&' !in id
    ensures SplitAtFirst(id + "&mmsi=0", '&') == Some((id, "mmsi=0"))
  {
    var s := id + "&mmsi=0";
    assert s[|id|] == '&';
    var i := IndexOf(s, '&').value;
    assert i == |id|;
    assert s[..i] == id && s[i + 1..] == "mmsi=0";
  }

  lemma MmsiQuery(id: string)
    ensures QueryIdentifiers(MapPage + "imo=0&mmsi=" + id) == Some(("0", id))
  {
    var p := MapPage + "imo=";
    var q := "0&mmsi=" + id;
    var url := MapPage + "imo=0&mmsi=" + id;
    assert url == p + q;
    assert url[|p|..] == q;
    SplitAfterZero(id);
    assert ("mmsi=" + id)[5..] == id;
  }

  lemma ImoQuery(id: string)
    requires '&' !in id
    ensures QueryIdentifiers(MapPage + "imo=" + id + "&mmsi=0") == Some((id, "0"))
  {
    var p := MapPage + "imo=";
    var q := id + "&mmsi=0";
    var url := MapPage + "imo=" + id + "&mmsi=0";
    assert url == p + q;
    assert url[|p|..] == q;
    SplitAfterIdentifier(id);
  }

  /** The address names the chosen identifier in its own parameter and 0 in the
      other, as long as the identifier holds no `&`. */
  lemma TargetRoundTrip(mmsi: Option<string>, imo: Option<string>)
    requires VesselTarget(mmsi, imo).Success?
    requires '&' !in VesselTarget(mmsi, imo).value.identifier
    ensures var t := VesselTarget(mmsi, imo).value;
      QueryIdentifiers(t.url) == if t.identifierType == "MMSI" then Some(("0", t.identifier)) else Some((t.identifier, "0"))
  {
    if OptTruthy(mmsi) {
      MmsiQuery(mmsi.value);
    } else {
      ImoQuery(imo.value);
    }
  }

  /** The keys of the record `get_vessel_details` builds and returns. */
  const VesselKeys: set<Field> :=
    {Provider, Mmsi, Imo, Name, Callsign, Type, Lat, Lon, Speed, Course, Heading, Draught,
     NavStatus, Destination, Timestamp, ComparisonId, DataSource, Length, Width, Flag, Built, Eta}

  const ProviderName: string := "vesselfinder_data"

  /** The record before any extractor runs. */
  function InitialVesselRecord(mmsi: Option<string>, imo: Option<string>, comparisonId: Option<string>): (r: Record)
    ensures r.Keys == VesselKeys
    ensures r[Provider] == Text(ProviderName) && r[DataSource] == Text(ProviderName)
    ensures r[Mmsi] == OptText(mmsi) && r[Imo] == OptText(imo) && r[ComparisonId] == OptText(comparisonId)
    ensures forall f | f in VesselKeys && f !in {Provider, DataSource, Mmsi, Imo, ComparisonId} :: r[f] == Null
  {
    map f | f in VesselKeys :: InitialVesselValue(mmsi, imo, comparisonId, f)
  }

  function InitialVesselValue(mmsi: Option<string>, imo: Option<string>, comparisonId: Option<string>, f: Field): Value {
    match f
    case Provider => Text(ProviderName)
    case DataSource => Text(ProviderName)
    case Mmsi => OptText(mmsi)
    case Imo => OptText(imo)
    case ComparisonId => OptText(comparisonId)
    case _ => Null
  }

  // ---------------------------------------------------------------------------
  // _parse_api_response

  /** The number of branches in the elif chain over a dict's keys. */
  const ApiChainLength: nat := 18

  /** The field of each branch, in the order the chain tests them. */
  function ApiChainAt(i: nat): Field
    requires i < ApiChainLength
  {
    match i
    case 0 => Mmsi
    case 1 => Imo
    case 2 => Name
    case 3 => Callsign
    case 4 => Type
    case 5 => Lat
    case 6 => Lon
    case 7 => Speed
    case 8 => Course
    case 9 => Heading
    case 10 => Draught
    case 11 => Destination
    case 12 => NavStatus
    case 13 => Flag
    case 14 => Length
    case 15 => Width
    case 16 => Built
    case _ => Eta
  }

  /** Every field the walk over API data may write. */
  const ApiFields: set<Field> :=
    {Mmsi, Imo, Name, Callsign, Type, Lat, Lon, Speed, Course, Heading, Draught,
     Destination, NavStatus, Flag, Length, Width, Built, Eta}

  /** The fields whose branch writes `float(value) if value else None` without
      an inner try: a value float() rejects raises out of the dict loop. */
  const ApiNumericFields: set<Field> := {Speed, Course, Heading, Draught, Length, Width}

  /** The word a branch looks for in a lower-cased key or caption. */
  function Keyword(f: Field): string {
    match f
    case Mmsi => "mmsi"
    case Imo => "imo"
    case Name => "name"
    case Callsign => "callsign"
    case Type => "type"
    case Lat => "lat"
    case Lon => "lon"
    case Speed => "speed"
    case Course => "course"
    case Heading => "heading"
    case Draught => "draught"
    case Destination => "destination"
    case NavStatus => "status"
    case Flag => "flag"
    case Length => "length"
    case Width => "width"
    case Built => "built"
    case Eta => "eta"
    case _ => ""
  }

  /** The key test of a branch: exact spellings for the coordinates, a
      substring test for every other field. */
  predicate ApiKeyMatches(key: string, f: Field) {
    match f
    case Lat => key == "lat" || key == "latitude"
    case Lon => key == "lon" || key == "lng" || key == "longitude"
    case _ => Contains(key, Keyword(f))
  }

  /** The outcome of the text tests of an elif chain for one key or caption:
      the fields whose branch is taken whatever the field holds, and those
      whose branch is taken only while the field is falsy. */
  datatype Tests = Tests(always: set<Field>, whenUnset: set<Field>)

  /** The branch for `f` is taken on record `r`. */
  predicate Taken(r: Record, t: Tests, f: Field) {
    f in t.always || (f in t.whenUnset && !IsSet(r, f))
  }

  /** Every API branch tests `and not vessel_data[f]`. */
  function ApiTests(key: string): (t: Tests)
    ensures t.always == {} && t.whenUnset <= ApiFields
    ensures forall f | f in ApiFields :: f in t.whenUnset <==> ApiKeyMatches(key, f)
  {
    Tests({}, set f | f in ApiFields && ApiKeyMatches(key, f))
  }

  /** The branch the elif chain takes, testing from branch `i` on. */
  function ApiBranchFrom(r: Record, t: Tests, i: nat): (b: Option<Field>)
    requires i <= ApiChainLength
    ensures b.Some? ==> b.value in ApiFields && Taken(r, t, b.value)
    decreases ApiChainLength - i
  {
    if i == ApiChainLength then None
    else if Taken(r, t, ApiChainAt(i)) then Some(ApiChainAt(i))
    else ApiBranchFrom(r, t, i + 1)
  }

  /** The branch taken for a (lower-cased) key. */
  function ApiBranch(r: Record, key: string): (b: Option<Field>)
    ensures b.Some? ==> b.value in ApiFields && !IsSet(r, b.value) && ApiKeyMatches(key, b.value)
  {
    ApiBranchFrom(r, ApiTests(key), 0)
  }

  /** The chain takes the first branch whose test holds and whose field is
      falsy, and takes none when there is no such branch. */
  lemma {:induction false} ApiBranchIsFirst(r: Record, t: Tests, i: nat)
    requires i <= ApiChainLength
    ensures ApiBranchFrom(r, t, i).None? <==> forall j | i <= j < ApiChainLength :: !Taken(r, t, ApiChainAt(j))
    ensures ApiBranchFrom(r, t, i).Some? ==>
      exists j | i <= j < ApiChainLength :: ApiBranchFrom(r, t, i) == Some(ApiChainAt(j))
        && forall k | i <= k < j :: !Taken(r, t, ApiChainAt(k))
    decreases ApiChainLength - i
  {
    if i < ApiChainLength && !Taken(r, t, ApiChainAt(i)) {
      ApiBranchIsFirst(r, t, i + 1);
    }
  }

  /** The micro-degree correction: a non-zero reading beyond 180 in magnitude
      is divided by a million. */
  function Normalized(x: real): (y: real)
    ensures -180.0 <= x <= 180.0 ==> y == x
    ensures (x > 180.0 || x < -180.0) ==> y * 1000000.0 == x
  {
    if x != 0.0 && (x > 180.0 || x < -180.0) then x / 1000000.0 else x
  }

  /** A coordinate sent in micro-degrees lands within [-180, 180] degrees. */
  lemma MicroDegreesInRange(x: real)
    requires -180000000.0 <= x <= 180000000.0
    ensures -180.0 <= Normalized(x) <= 180.0
  {
    if x > 180.0 || x < -180.0 {
      assert Normalized(x) * 1000000.0 == x;
    }
  }

  /** What the branch for `f` does with `value`: the record after it, or None
      when float() raises outside an inner try, which ends the walk of this
      dict. A falsy value writes None; a rejected coordinate is skipped. */
  function ApiWrite(r: Record, f: Field, v: Json): (res: Option<Record>)
    requires f in ApiFields
    ensures res.None? <==> f in ApiNumericFields && JsonTruthy(v) && ToFloat(v).None?
    ensures res.Some? ==> WritesWithin(r, res.value, {f})
    ensures res.Some? && !IsSet(r, f) ==> KeepsSetFields(r, res.value)
    ensures res.Some? && f in res.value && (f !in r || res.value[f] != r[f]) ==>
      (f in ApiNumericFields + {Lat, Lon} ==> res.value[f].Null? || res.value[f].Float?)
  {
    if f == Lat || f == Lon then
      if !JsonTruthy(v) then Some(r[f := Null])
      else
        match ToFloat(v)
        case None => Some(r)
        case Some(x) => Some(r[f := Float(Normalized(x))])
    else if f in ApiNumericFields then
      if !JsonTruthy(v) then Some(r[f := Null])
      else
        match ToFloat(v)
        case None => None
        case Some(x) => Some(r[f := Float(x)])
    else Some(r[f := Str(Stored(v))])
  }

  /** One item of the dict loop: the record after it, or None when float()
      raised. A key no branch takes leaves the record as it is. */
  function KeyStep(r: Record, item: (string, Json)): (res: Option<Record>)
    ensures res.Some? ==> KeepsSetFields(r, res.value) && WritesWithin(r, res.value, ApiFields)
  {
    match ApiBranch(r, Lower(item.0))
    case None => Some(r)
    case Some(f) => ApiWrite(r, f, item.1)
  }

  /** The loop over one dict's items: the record after it, and whether float()
      raised and cut it short. */
  function KeyPass(r: Record, ms: seq<(string, Json)>): (res: (Record, bool))
    ensures KeepsSetFields(r, res.0) && WritesWithin(r, res.0, ApiFields)
    decreases |ms|
  {
    if ms == [] then (r, false)
    else
      match KeyStep(r, ms[0])
      case None => (r, true)
      case Some(r1) => KeyPass(r1, ms[1..])
  }

  /** One item of the loop: a failing float() ends the pass with the record
      unchanged, any other item hands its result to the rest of the items. */
  lemma KeyPassStep(r: Record, ms: seq<(string, Json)>, i: nat)
    requires i < |ms|
    ensures KeyStep(r, ms[i]).None? ==> KeyPass(r, ms[i..]) == (r, true)
    ensures KeyStep(r, ms[i]).Some? ==> KeyPass(r, ms[i..]) == KeyPass(KeyStep(r, ms[i]).value, ms[i + 1..])
  {
    assert ms[i..][0] == ms[i] && ms[i..][1..] == ms[i + 1..];
  }

  /** The head of a non-empty `ms + rest` is the head of `ms`, and its tail
      is the tail of `ms` followed by `rest`. */
  lemma AppendTail<T>(ms: seq<T>, rest: seq<T>)
    requires ms != []
    ensures (ms + rest)[0] == ms[0] && (ms + rest)[1..] == ms[1..] + rest
  {
  }

  /** A float() failure ends the dict loop: the items after it are never read. */
  lemma {:induction false} KeyPassStops(r: Record, ms: seq<(string, Json)>, rest: seq<(string, Json)>)
    requires KeyPass(r, ms).1
    ensures KeyPass(r, ms + rest) == KeyPass(r, ms)
    decreases |ms|
  {
    AppendTail(ms, rest);
    if KeyStep(r, ms[0]).Some? {
      KeyPassStops(KeyStep(r, ms[0]).value, ms[1..], rest);
    }
  }

  /** Without a failure, the loop over `ms + rest` is the loop over `ms`
      followed by the loop over `rest`. */
  lemma {:induction false} KeyPassAppend(r: Record, ms: seq<(string, Json)>, rest: seq<(string, Json)>)
    requires !KeyPass(r, ms).1
    ensures KeyPass(r, ms + rest) == KeyPass(KeyPass(r, ms).0, rest)
    decreases |ms|
  {
    if ms == [] {
      assert ms + rest == rest;
    } else {
      AppendTail(ms, rest);
      KeyPassAppend(KeyStep(r, ms[0]).value, ms[1..], rest);
    }
  }

  /** `_parse_api_response(data)`: a dict's own keys first, then (unless a
      float() failure ended that loop) every nested dict or list in order; a
      list's items in order; anything else is ignored. */
  function ParseApi(r: Record, doc: Json): (r': Record)
    ensures KeepsSetFields(r, r') && WritesWithin(r, r', ApiFields)
    decreases doc, 1
  {
    match doc
    case JObj(ms) =>
      var pass := KeyPass(r, ms);
      if pass.1 then pass.0 else NestedValues(pass.0, doc, 0)
    case JArr(_) => ListItems(r, doc, 0)
    case _ => r
  }

  /** The recursion into a dict's values from the `i`-th on. */
  function NestedValues(r: Record, doc: Json, i: nat): (r': Record)
    requires doc.JObj? && i <= |doc.members|
    ensures KeepsSetFields(r, r') && WritesWithin(r, r', ApiFields)
    decreases doc, 0, |doc.members| - i
  {
    if i == |doc.members| then r
    else
      var v := doc.members[i].1;
      var r1 := if v.JObj? || v.JArr? then ParseApi(r, v) else r;
      NestedValues(r1, doc, i + 1)
  }

  /** The recursion into a list's items from the `i`-th on. */
  function ListItems(r: Record, doc: Json, i: nat): (r': Record)
    requires doc.JArr? && i <= |doc.items|
    ensures KeepsSetFields(r, r') && WritesWithin(r, r', ApiFields)
    decreases doc, 0, |doc.items| - i
  {
    if i == |doc.items| then r
    else ListItems(ParseApi(r, doc.items[i]), doc, i + 1)
  }

  /** A falsy document (None, empty dict or list, zero, empty string) leaves
      the record as it is, so the `if result:` test before a walk changes
      nothing. */
  lemma ParseApiFalsy(r: Record, doc: Json)
    requires !JsonTruthy(doc)
    ensures ParseApi(r, doc) == r
  {
  }

  /** A float() failure in a dict's own keys keeps what that dict wrote before
      it and skips everything nested in it, whatever follows. */
  lemma ParseApiStops(r: Record, ms: seq<(string, Json)>, rest: seq<(string, Json)>)
    requires KeyPass(r, ms).1
    ensures ParseApi(r, JObj(ms + rest)) == KeyPass(r, ms).0
  {
    KeyPassStops(r, ms, rest);
    ParseApiObject(r, JObj(ms + rest));
  }

  lemma ParseApiObject(r: Record, doc: Json)
    requires doc.JObj?
    ensures var pass := KeyPass(r, doc.members);
      ParseApi(r, doc) == if pass.1 then pass.0 else NestedValues(pass.0, doc, 0)
  {
  }

  /** A list is walked item by item; a scalar is ignored. */
  lemma ParseApiOther(r: Record, doc: Json)
    requires !doc.JObj?
    ensures doc.JArr? ==> ParseApi(r, doc) == ListItems(r, doc, 0)
    ensures !doc.JArr? ==> ParseApi(r, doc) == r
  {
  }

  /** The walk over several documents in order. */
  function ParseAll(r: Record, docs: seq<Json>): (r': Record)
    ensures KeepsSetFields(r, r') && WritesWithin(r, r', ApiFields)
    decreases |docs|
  {
    if docs == [] then r else ParseAll(ParseApi(r, docs[0]), docs[1..])
  }

  // ---------------------------------------------------------------------------
  // _extract_from_network_requests

  /** A performance-log entry: its method, the response address, and the body
      decoded as JSON, None when there is no request id, the body is empty,
      cannot be fetched or is not JSON. */
  datatype LogEntry = LogEntry(kind: string, url: string, body: Option<Json>)

  /** The address mentions a vessel endpoint, case-insensitively. */
  predicate VesselEndpoint(url: string) {
    var u := Lower(url);
    Contains(u, "vessel") || Contains(u, "ship") || Contains(u, "ais")
      || Contains(u, "position") || Contains(u, "track")
  }

  predicate Parsed(e: LogEntry) {
    e.kind == "Network.responseReceived" && VesselEndpoint(e.url) && e.body.Some?
  }

  function NetworkEntry(r: Record, e: LogEntry): Record {
    if Parsed(e) then ParseApi(r, e.body.value) else r
  }

  function Network(r: Record, es: seq<LogEntry>): (r': Record)
    ensures KeepsSetFields(r, r') && WritesWithin(r, r', ApiFields)
    decreases |es|
  {
    if es == [] then r else Network(NetworkEntry(r, es[0]), es[1..])
  }

  /** Only vessel-endpoint responses are read: a log made of anything else
      leaves the record as it is. */
  lemma {:induction false} NetworkIgnoresOthers(r: Record, es: seq<LogEntry>)
    requires forall i | 0 <= i < |es| :: !Parsed(es[i])
    ensures Network(r, es) == r
    decreases |es|
  {
    if es != [] {
      assert forall i | 0 <= i < |es[1..]| :: es[1..][i] == es[i + 1];
      NetworkIgnoresOthers(r, es[1..]);
    }
  }

  // ---------------------------------------------------------------------------
  // _extract_from_javascript

  /** What the page scripts returned: the three whole-object probes, then one
      value per field probe. A probe that raised is JNull, as is `null`. */
  datatype ScriptOutputs = ScriptOutputs(
    objects: seq<Json>, speed: Json, course: Json, heading: Json, lat: Json, lon: Json)

  /** `float(result) if isinstance(result, (int, float, str)) else result`
      for a non-None result; None when nothing is written, which is also what
      a float() failure leads to. */
  function ScriptValue(j: Json): (v: Option<Value>)
    ensures j.JNull? ==> v.None?
    ensures (j.JInt? || j.JFloat? || j.JBool?) ==> v == Some(Float(ToFloat(j).value))
    ensures (j.JArr? || j.JObj?) ==> v == Some(Raw(j))
  {
    match j
    case JNull => None
    case JArr(_) => Some(Raw(j))
    case JObj(_) => Some(Raw(j))
    case _ =>
      match ToFloat(j)
      case None => None
      case Some(x) => Some(Float(x))
  }

  /** `if not vessel_data.get(field)`: a probe only fills a falsy field. */
  function ScriptField(r: Record, f: Field, j: Json): (r': Record)
    ensures IsSet(r, f) ==> r' == r
    ensures WritesWithin(r, r', {f}) && KeepsSetFields(r, r')
  {
    if IsSet(r, f) then r
    else
      match ScriptValue(j)
      case None => r
      case Some(v) => r[f := v]
  }

  /** A probe of an unset field stores the value its result reads as. */
  lemma ScriptFieldStores(r: Record, f: Field, j: Json)
    requires !IsSet(r, f)
    ensures ScriptValue(j).None? ==> ScriptField(r, f, j) == r
    ensures ScriptValue(j).Some? ==> ScriptField(r, f, j) == r[f := ScriptValue(j).value]
  {
  }

  function JavaScript(r: Record, s: ScriptOutputs): (r': Record)
    ensures KeepsSetFields(r, r') && WritesWithin(r, r', ApiFields)
  {
    var r1 := ParseAll(r, s.objects);
    var r2 := ScriptField(r1, Speed, s.speed);
    var r3 := ScriptField(r2, Course, s.course);
    var r4 := ScriptField(r3, Heading, s.heading);
    var r5 := ScriptField(r4, Lat, s.lat);
    ScriptField(r5, Lon, s.lon)
  }

  // ---------------------------------------------------------------------------
  // _extract_from_page_elements: the name selectors

  const NamePlaceholders: seq<string> := ["vesselfinder", "vessel finder", "map"]

  /** A stripped element text the selector loop accepts as a name. */
  predicate NameCandidate(t: string) {
    |t| > 2 && Lower(t) !in NamePlaceholders
  }

  /** The name may still be replaced: it is falsy or the site's own title. */
  predicate NameReplaceable(r: Record) {
    !IsSet(r, Name) || r[Name] == Text("VesselFinder")
  }

  /** The inner loop over one selector's elements. */
  function NameFromTexts(r: Record, texts: seq<string>): Record
    decreases |texts|
  {
    if texts == [] then r
    else if NameCandidate(Strip(texts[0])) && NameReplaceable(r) then r[Name := Text(Strip(texts[0]))]
    else NameFromTexts(r, texts[1..])
  }

  /** The outer loop over the selectors, left once the name is set and is not
      "VesselFinder". */
  function NameFromSelectors(r: Record, sels: seq<seq<string>>): Record
    decreases |sels|
  {
    if sels == [] then r
    else
      var r1 := NameFromTexts(r, sels[0]);
      if IsSet(r1, Name) && r1[Name] != Text("VesselFinder") then r1
      else NameFromSelectors(r1, sels[1..])
  }

  function Flatten(sels: seq<seq<string>>): seq<string> {
    if sels == [] then [] else sels[0] + Flatten(sels[1..])
  }

  /** The first element text, over all selectors in order, that is a candidate. */
  function FirstName(texts: seq<string>): (t: Option<string>)
    ensures t.Some? ==> NameCandidate(t.value)
  {
    if texts == [] then None
    else if NameCandidate(Strip(texts[0])) then Some(Strip(texts[0]))
    else FirstName(texts[1..])
  }

  lemma {:induction false} FirstNameAppend(a: seq<string>, b: seq<string>)
    ensures FirstName(a + b) == if FirstName(a).Some? then FirstName(a) else FirstName(b)
  {
    if a == [] {
      assert a + b == b;
    } else {
      assert (a + b)[0] == a[0];
      assert (a + b)[1..] == a[1..] + b;
      FirstNameAppend(a[1..], b);
    }
  }

  lemma TitleLowered(t: string)
    requires t == "VesselFinder"
    ensures Lower(t) == NamePlaceholders[0]
  {
    var l := Lower(t);
    assert l[0] == 'v' && l[1] == 'e' && l[2] == 's' && l[3] == 's' && l[4] == 'e' && l[5] == 'l';
    assert l[6] == 'f' && l[7] == 'i' && l[8] == 'n' && l[9] == 'd' && l[10] == 'e' && l[11] == 'r';
  }

  /** The site's own title is never a candidate name. */
  lemma CandidateIsNotTitle(t: string)
    requires NameCandidate(t)
    ensures Text(t) != Text("VesselFinder") && t != ""
  {
    if t == "VesselFinder" {
      TitleLowered(t);
    }
  }

  lemma {:induction false} NameFromTextsFirst(r: Record, texts: seq<string>)
    ensures NameFromTexts(r, texts) ==
      if NameReplaceable(r) && FirstName(texts).Some? then r[Name := Text(FirstName(texts).value)] else r
    decreases |texts|
  {
    if texts != [] && !(NameCandidate(Strip(texts[0])) && NameReplaceable(r)) {
      NameFromTextsFirst(r, texts[1..]);
    }
  }

  /** The two nested loops with their breaks amount to: when the name is
      falsy or "VesselFinder", the first candidate text over all selectors
      becomes the name; otherwise nothing changes. */
  lemma {:induction false} NameFromSelectorsFirst(r: Record, sels: seq<seq<string>>)
    ensures NameFromSelectors(r, sels) ==
      if NameReplaceable(r) && FirstName(Flatten(sels)).Some? then r[Name := Text(FirstName(Flatten(sels)).value)] else r
    decreases |sels|
  {
    if sels != [] {
      var t0 := FirstName(sels[0]);
      NameFromTextsFirst(r, sels[0]);
      assert Flatten(sels) == sels[0] + Flatten(sels[1..]);
      FirstNameAppend(sels[0], Flatten(sels[1..]));
      if NameReplaceable(r) && t0.Some? {
        CandidateIsNotTitle(t0.value);
        var r1 := r[Name := Text(t0.value)];
        assert NameFromTexts(r, sels[0]) == r1;
        assert IsSet(r1, Name) && r1[Name] != Text("VesselFinder");
      } else if !NameReplaceable(r) {
        assert NameFromTexts(r, sels[0]) == r;
      } else {
        assert NameFromTexts(r, sels[0]) == r;
        assert FirstName(Flatten(sels)) == FirstName(Flatten(sels[1..]));
        NameFromSelectorsFirst(r, sels[1..]);
      }
    }
  }


  // ---------------------------------------------------------------------------
  // _extract_from_page_elements: the "caption: value" elements

  /** The number of branches in the caption elif chain. */
  const LabelChainLength: nat := 15

  function LabelChainAt(i: nat): Field
    requires i < LabelChainLength
  {
    match i
    case 0 => Mmsi
    case 1 => Imo
    case 2 => Callsign
    case 3 => Type
    case 4 => Speed
    case 5 => Course
    case 6 => Heading
    case 7 => Draught
    case 8 => Destination
    case 9 => NavStatus
    case 10 => Flag
    case 11 => Length
    case 12 => Width
    case 13 => Built
    case _ => Eta
  }

  const LabelFields: set<Field> :=
    {Mmsi, Imo, Callsign, Type, Speed, Course, Heading, Draught, Destination, NavStatus,
     Flag, Length, Width, Built, Eta}

  /** Label branches that store the first number found in the value. */
  const LabelNumericFields: set<Field> := {Speed, Course, Heading, Draught, Length, Width}

  /** The word a caption branch looks for. */
  function LabelKeyword(f: Field): string {
    if f == Callsign then "call sign" else Keyword(f)
  }

  /** The text tests of the caption chain. `and` binds tighter than `or`, so
      a caption with "width" or "built" takes its branch even when the field
      is already set, while "beam" and "year" only fill a falsy field. */
  function LabelTests(caption: string): (t: Tests)
    ensures t.always <= {Width, Built} && t.whenUnset <= LabelFields
    ensures Width in t.always <==> Contains(caption, "width")
    ensures Built in t.always <==> Contains(caption, "built")
    ensures Width in t.whenUnset <==> Contains(caption, "beam")
    ensures Built in t.whenUnset <==> Contains(caption, "year")
    ensures forall f | f in LabelFields - {Width, Built} :: f in t.whenUnset <==> Contains(caption, LabelKeyword(f))
  {
    Tests(
      (if Contains(caption, "width") then {Width} else {}) + (if Contains(caption, "built") then {Built} else {}),
      (set f | f in LabelFields - {Width, Built} && Contains(caption, LabelKeyword(f)))
        + (if Contains(caption, "beam") then {Width} else {})
        + (if Contains(caption, "year") then {Built} else {}))
  }

  function LabelBranchFrom(r: Record, t: Tests, i: nat): (b: Option<Field>)
    requires i <= LabelChainLength
    ensures b.Some? ==> b.value in LabelFields && Taken(r, t, b.value)
    decreases LabelChainLength - i
  {
    if i == LabelChainLength then None
    else if Taken(r, t, LabelChainAt(i)) then Some(LabelChainAt(i))
    else LabelBranchFrom(r, t, i + 1)
  }

  /** The branch taken for a (lower-cased) caption: only width and built can
      be taken while their field is set. */
  function LabelBranch(r: Record, caption: string): (b: Option<Field>)
    ensures b.Some? ==> b.value in LabelFields
    ensures b.Some? && b.value !in {Width, Built} ==> !IsSet(r, b.value) && Contains(caption, LabelKeyword(b.value))
  {
    LabelBranchFrom(r, LabelTests(caption), 0)
  }

  /** The caption chain takes the first branch whose test holds. */
  lemma {:induction false} LabelBranchIsFirst(r: Record, t: Tests, i: nat)
    requires i <= LabelChainLength
    ensures LabelBranchFrom(r, t, i).None? <==>
      forall j | i <= j < LabelChainLength :: !Taken(r, t, LabelChainAt(j))
    ensures LabelBranchFrom(r, t, i).Some? ==>
      exists j | i <= j < LabelChainLength :: LabelBranchFrom(r, t, i) == Some(LabelChainAt(j))
        && forall k | i <= k < j :: !Taken(r, t, LabelChainAt(k))
    decreases LabelChainLength - i
  {
    if i < LabelChainLength && !Taken(r, t, LabelChainAt(i)) {
      LabelBranchIsFirst(r, t, i + 1);
    }
  }

  /** A numeric branch stores `float(re.findall(r'\d+\.?\d*', value)[0])` and
      skips a value without a number; a text branch stores the value. */
  function LabelWrite(r: Record, f: Field, value: string): (r': Record)
    ensures WritesWithin(r, r', {f})
    ensures f !in LabelNumericFields ==> r' == r[f := Text(value)]
    ensures f in LabelNumericFields && f in r' && (f !in r || r'[f] != r[f]) ==> r'[f].Float? && r'[f].x >= 0.0
  {
    if f in LabelNumericFields then
      match LabelNumber(value)
      case None => NoWrites(r, {f}); r
      case Some(x) => UpdateWrites(r, f, Float(x)); r[f := Float(x)]
    else UpdateWrites(r, f, Text(value)); r[f := Text(value)]
  }

  /** `float(re.findall(r'\d+\.?\d*', value)[0])`, None where that raises;
      the pattern has no sign, so the number is never negative. */
  function LabelNumber(value: string): (x: Option<real>)
    ensures x.Some? ==> x.value >= 0.0
    ensures x.Some? ==> FirstUnsignedNumber(value).Some? && ParseFloat(FirstUnsignedNumber(value).value) == x
  {
    match FirstUnsignedNumber(value)
    case None => None
    case Some(m) =>
      LabelNumberNonNegative(m);
      ParseFloat(m)
  }

  /** A number written from a caption is never negative: the pattern has no sign. */
  lemma LabelNumberNonNegative(m: string)
    requires |m| >= 1 && IsDigit(m[0])
    ensures ParseFloat(m).Some? ==> ParseFloat(m).value >= 0.0
  {
    assert TrimStart(m, None) == m;
    var t := Strip(m);
    assert t == TrimEnd(m, None);
    TrimEndIsPrefix(m, None);
    if |t| > 0 {
      assert t[0] == m[0];
    }
    ParseFloatSign(m);
  }

  /** One element's text: split at the first colon into a caption and a
      value; a text without a colon is ignored. */
  function LabelLine(r: Record, text: string): (r': Record)
    ensures WritesWithin(r, r', LabelFields)
  {
    var parts := SplitAtFirst(Strip(text), ':');
    if parts.None? then NoWrites(r, LabelFields); r
    else Captioned(r, parts.value.0, parts.value.1)
  }

  /** A caption, lower-cased and stripped, picks the branch, and the stripped
      value is written there. */
  function Captioned(r: Record, caption: string, value: string): (r': Record)
    ensures WritesWithin(r, r', LabelFields)
  {
    var b := LabelBranch(r, Lower(Strip(caption)));
    if b.None? then NoWrites(r, LabelFields); r
    else
      var r' := LabelWrite(r, b.value, Strip(value));
      WritesWithinWeaken(r, r', {b.value}, LabelFields);
      r'
  }

  /** Captioned writes the stripped value to the branch the caption picks,
      and nothing when no branch is taken. */
  lemma CaptionedBranch(r: Record, caption: string, value: string)
    ensures var b := LabelBranch(r, Lower(Strip(caption)));
      Captioned(r, caption, value) == if b.None? then r else LabelWrite(r, b.value, Strip(value))
  {
  }

  function LabelLines(r: Record, texts: seq<string>): (r': Record)
    ensures WritesWithin(r, r', LabelFields)
    decreases |texts|
  {
    if texts == [] then r else LabelLines(LabelLine(r, texts[0]), texts[1..])
  }

  /** The set fields other than width and built survive the caption loop. */
  ghost predicate KeepsSetExceptOverwritten(r: Record, r': Record) {
    forall f | IsSet(r, f) && f != Width && f != Built :: f in r' && r'[f] == r[f]
  }

  lemma LabelLineKeeps(r: Record, text: string)
    ensures KeepsSetExceptOverwritten(r, LabelLine(r, text))
  {
    var parts := SplitAtFirst(Strip(text), ':');
    if parts.Some? {
      CaptionedKeeps(r, parts.value.0, parts.value.1);
    }
  }

  lemma CaptionedKeeps(r: Record, caption: string, value: string)
    ensures KeepsSetExceptOverwritten(r, Captioned(r, caption, value))
  {
    var b := LabelBranch(r, Lower(Strip(caption)));
    if b.Some? {
      var f := b.value;
      var r' := LabelWrite(r, f, Strip(value));
      assert Captioned(r, caption, value) == r';
      forall g | IsSet(r, g) && g != Width && g != Built
        ensures g in r' && r'[g] == r[g]
      {
        assert g != f;
        Untouched(r, r', {f}, g);
      }
    }
  }

  lemma {:induction false} LabelLinesKeep(r: Record, texts: seq<string>)
    ensures KeepsSetExceptOverwritten(r, LabelLines(r, texts))
    decreases |texts|
  {
    if texts != [] {
      var r1 := LabelLine(r, texts[0]);
      LabelLineKeeps(r, texts[0]);
      LabelLinesKeep(r1, texts[1..]);
    }
  }

  /** A "width" caption reaching its branch overwrites a width that is
      already set; a "beam" caption does not. */
  lemma WidthLabelOverwrites(r: Record, caption: string)
    requires forall j | 0 <= j < 12 :: !Taken(r, LabelTests(caption), LabelChainAt(j))
    requires Contains(caption, "width")
    ensures LabelBranch(r, caption) == Some(Width)
  {
    var t := LabelTests(caption);
    LabelBranchIsFirst(r, t, 0);
    var j :| 0 <= j < LabelChainLength && LabelBranchFrom(r, t, 0) == Some(LabelChainAt(j))
      && forall k | 0 <= k < j :: !Taken(r, t, LabelChainAt(k));
  }

  lemma BeamLabelKeepsWidth(r: Record, caption: string)
    requires IsSet(r, Width) && !Contains(caption, "width")
    ensures LabelBranch(r, caption) != Some(Width)
  {
    var t := LabelTests(caption);
    assert !Taken(r, t, Width);
  }

  // ---------------------------------------------------------------------------
  // _extract_from_page_elements as a whole

  /** The page elements: the element texts of each name selector, the first
      group of each speed, course and heading pattern over the body text
      (None where a pattern did not match), and the texts of the elements
      that contain a colon. */
  datatype PageElements = PageElements(
    nameTexts: seq<seq<string>>,
    speedMatches: seq<Option<string>>,
    courseMatches: seq<Option<string>>,
    headingMatches: seq<Option<string>>,
    labelled: seq<string>)

  const PageElementFields: set<Field> := LabelFields + {Name}

  /** The name selectors, then the speed, course and heading patterns over
      the body text. */
  function NameAndMotion(r: Record, p: PageElements): Record {
    var r1 := NameFromSelectors(r, p.nameTexts);
    var r2 := FillFirst(r1, Speed, p.speedMatches, Number);
    var r3 := FillFirst(r2, Course, p.courseMatches, Number);
    FillFirst(r3, Heading, p.headingMatches, Number)
  }

  function Elements(r: Record, p: PageElements): Record {
    LabelLines(NameAndMotion(r, p), p.labelled)
  }

  /** The speed, course and heading patterns fill only those fields, and only
      while they are falsy. */
  lemma MotionWrites(r1: Record, p: PageElements)
    ensures var r4 := FillFirst(FillFirst(FillFirst(r1, Speed, p.speedMatches, Number), Course, p.courseMatches, Number),
                                Heading, p.headingMatches, Number);
      WritesWithin(r1, r4, {Speed, Course, Heading}) && KeepsSetFields(r1, r4)
  {
    var r2 := FillFirst(r1, Speed, p.speedMatches, Number);
    var r3 := FillFirst(r2, Course, p.courseMatches, Number);
    FillFirstFills(r1, Speed, p.speedMatches, Number);
    FillFirstFills(r2, Course, p.courseMatches, Number);
    FillFirstFills(r3, Heading, p.headingMatches, Number);
    KeepsSetFieldsTransitive(r1, r2, r3);
  }

  /** The name selectors write only the name, and only while it is falsy or
      reads "VesselFinder". */
  lemma NameWrites(r: Record, sels: seq<seq<string>>)
    ensures WritesWithin(r, NameFromSelectors(r, sels), {Name})
    ensures forall f | IsSet(r, f) && (f != Name || !NameReplaceable(r)) ::
      f in NameFromSelectors(r, sels) && NameFromSelectors(r, sels)[f] == r[f]
  {
    NameFromSelectorsFirst(r, sels);
  }

  /** The name and motion steps write only those four fields and change a set
      field only when it is a name still reading "VesselFinder". */
  lemma NameAndMotionWrites(r: Record, p: PageElements)
    ensures WritesWithin(r, NameAndMotion(r, p), {Name, Speed, Course, Heading})
    ensures forall f | IsSet(r, f) && (f != Name || !NameReplaceable(r)) ::
      f in NameAndMotion(r, p) && NameAndMotion(r, p)[f] == r[f]
  {
    var r1 := NameFromSelectors(r, p.nameTexts);
    NameWrites(r, p.nameTexts);
    MotionWrites(r1, p);
    WritesWithinTransitive(r, r1, NameAndMotion(r, p), {Name}, {Speed, Course, Heading});
  }

  lemma ElementsWrites(r: Record, p: PageElements)
    ensures WritesWithin(r, Elements(r, p), PageElementFields)
  {
    NameAndMotionWrites(r, p);
    WritesWithinTransitive(r, NameAndMotion(r, p), Elements(r, p), {Name, Speed, Course, Heading}, LabelFields);
  }

  /** Apart from a name still reading "VesselFinder" and the width and built
      overwrites, the page elements only fill falsy fields. */
  lemma ElementsKeep(r: Record, p: PageElements)
    ensures forall f | IsSet(r, f) && f != Width && f != Built && (f != Name || !NameReplaceable(r)) ::
      f in Elements(r, p) && Elements(r, p)[f] == r[f]
  {
    NameAndMotionWrites(r, p);
    LabelLinesKeep(NameAndMotion(r, p), p.labelled);
  }

  // ---------------------------------------------------------------------------
  // _extract_from_html

  /** The first group of each coordinate pattern over the page source, in the
      order lat, latitude, lon, lng, longitude; None where it did not match. */
  datatype CoordinateMatches = CoordinateMatches(
    lat: Option<string>, latitude: Option<string>, lon: Option<string>,
    lng: Option<string>, longitude: Option<string>)

  const CoordinatePatternCount: nat := 5

  /** The `i`-th pattern's match; the first two name the latitude, the other
      three the longitude. */
  function CoordinateMatch(m: CoordinateMatches, i: nat): Option<string>
    requires i < CoordinatePatternCount
  {
    match i
    case 0 => m.lat
    case 1 => m.latitude
    case 2 => m.lon
    case 3 => m.lng
    case _ => m.longitude
  }

  function CoordinateAxis(i: nat): Field {
    if i < 2 then Lat else Lon
  }

  /** The pattern loop from pattern `i` on: a match fills its field when that
      is falsy; a match float() rejects raises and ends the whole HTML step. */
  function CoordinateFill(r: Record, m: CoordinateMatches, i: nat): (r': Record)
    requires i <= CoordinatePatternCount
    ensures WritesWithin(r, r', {Lat, Lon}) && KeepsSetFields(r, r')
    decreases CoordinatePatternCount - i
  {
    if i == CoordinatePatternCount then NoWrites(r, {Lat, Lon}); r
    else
      var step := CoordinateStep(r, CoordinateAxis(i), CoordinateMatch(m, i));
      if step.None? then NoWrites(r, {Lat, Lon}); r
      else
        var r1 := step.value;
        var r2 := CoordinateFill(r1, m, i + 1);
        WritesWithinTransitive(r, r1, r2, {CoordinateAxis(i)}, {Lat, Lon});
        WritesWithinWeaken(r, r2, {CoordinateAxis(i)} + {Lat, Lon}, {Lat, Lon});
        KeepsSetFieldsTransitive(r, r1, r2);
        r2
  }

  /** One pattern: no match changes nothing, a match fills a falsy field, and
      None is the float() failure that ends the step. */
  function CoordinateStep(r: Record, axis: Field, found: Option<string>): (res: Option<Record>)
    ensures res.Some? ==> WritesWithin(r, res.value, {axis}) && KeepsSetFields(r, res.value)
    ensures res.None? <==> found.Some? && ParseFloat(found.value).None?
  {
    match found
    case None => Some(r)
    case Some(t) =>
      match ParseFloat(t)
      case None => None
      case Some(x) =>
        FillIfUnsetWrites(r, axis, Float(x));
        Some(FillIfUnset(r, axis, Float(x)))
  }

  /** The JSON objects found in the page's scripts, and the coordinate matches. */
  datatype HtmlSource = HtmlSource(objects: seq<Json>, coordinates: CoordinateMatches)

  function Html(r: Record, h: HtmlSource): (r': Record)
    ensures KeepsSetFields(r, r') && WritesWithin(r, r', ApiFields)
  {
    var r1 := ParseAll(r, h.objects);
    if IsSet(r1, Lat) && IsSet(r1, Lon) then r1
    else CoordinateFill(r1, h.coordinates, 0)
  }

  /** The fallback patterns fill a falsy latitude with the first number that
      follows a "lat" key, and a float() failure stops them. */
  lemma HtmlFillsLatitude(r: Record, m: CoordinateMatches, t: string)
    requires !IsSet(r, Lat) && m.lat == Some(t)
    ensures ParseFloat(t).Some? && ParseFloat(t).value != 0.0 ==>
      CoordinateFill(r, m, 0)[Lat] == Float(ParseFloat(t).value)
    ensures ParseFloat(t).None? ==> CoordinateFill(r, m, 0) == r
  {
    match ParseFloat(t)
    case None => LatitudeStep(r, m, t, None);
    case Some(x) =>
      LatitudeStep(r, m, t, Some(x));
      if x != 0.0 {
        var r1 := r[Lat := Float(x)];
        assert IsSet(r1, Lat);
        assert KeepsSetFields(r1, CoordinateFill(r1, m, 1));
      }
  }

  /** The first fallback pattern is the "lat" one: its match is parsed and
      fills the falsy latitude, or its float() failure ends the step. */
  lemma LatitudeStep(r: Record, m: CoordinateMatches, t: string, x: Option<real>)
    requires !IsSet(r, Lat) && m.lat == Some(t) && ParseFloat(t) == x
    ensures x.None? ==> CoordinateFill(r, m, 0) == r
    ensures x.Some? ==> CoordinateFill(r, m, 0) == CoordinateFill(r[Lat := Float(x.value)], m, 1)
  {
    assert CoordinateMatch(m, 0) == Some(t) && CoordinateAxis(0) == Lat;
  }

  // ---------------------------------------------------------------------------
  // get_vessel_details

  /** Everything the browser yields for one vessel page. */
  datatype VesselPage = VesselPage(
    log: seq<LogEntry>, scripts: ScriptOutputs, elements: PageElements, html: HtmlSource)

  /** The four extractors in the order `get_vessel_details` runs them. */
  function Extracted(r: Record, p: VesselPage): Record {
    var r1 := Network(r, p.log);
    var r2 := JavaScript(r1, p.scripts);
    var r3 := Elements(r2, p.elements);
    Html(r3, p.html)
  }

  /** The extractors together write only fields the API walk may write. */
  lemma ExtractedWrites(r: Record, p: VesselPage)
    ensures WritesWithin(r, Extracted(r, p), ApiFields)
  {
    var r1 := Network(r, p.log);
    var r2 := JavaScript(r1, p.scripts);
    var r3 := Elements(r2, p.elements);
    ElementsWrites(r2, p.elements);
    WritesWithinWeaken(r2, r3, PageElementFields, ApiFields);
    WritesWithinTransitive(r, r1, r2, ApiFields, ApiFields);
    WritesWithinTransitive(r, r2, r3, ApiFields, ApiFields);
    WritesWithinTransitive(r, r3, Html(r3, p.html), ApiFields, ApiFields);
    assert ApiFields + ApiFields == ApiFields;
  }

  /** The record `get_vessel_details` returns, or its ValueError. */
  function VesselDetails(mmsi: Option<string>, imo: Option<string>, comparisonId: Option<string>, p: VesselPage)
    : (res: Result<Record>)
    ensures res.Failure? <==> !OptTruthy(CleanIdentifier(mmsi)) && !OptTruthy(CleanIdentifier(imo))
  {
    var m := CleanIdentifier(mmsi);
    var i := CleanIdentifier(imo);
    match VesselTarget(m, i)
    case Failure(e) => Failure(e)
    case Success(_) => Success(Extracted(InitialVesselRecord(m, i, comparisonId), p))
  }

  /** The returned record has exactly the 22 keys, names the provider and the
      caller's comparison id, and no extractor touches the timestamp. */
  lemma VesselDetailsShape(mmsi: Option<string>, imo: Option<string>, comparisonId: Option<string>, p: VesselPage)
    requires VesselDetails(mmsi, imo, comparisonId, p).Success?
    ensures var r := VesselDetails(mmsi, imo, comparisonId, p).value;
      r.Keys == VesselKeys
      && r[Provider] == Text(ProviderName) && r[DataSource] == Text(ProviderName)
      && r[ComparisonId] == OptText(comparisonId) && r[Timestamp] == Null
  {
    var r0 := InitialVesselRecord(CleanIdentifier(mmsi), CleanIdentifier(imo), comparisonId);
    ExtractedWrites(r0, p);
    ShapeKept(r0, Extracted(r0, p));
  }

  lemma ShapeKept(r0: Record, r: Record)
    requires r0.Keys == VesselKeys && WritesWithin(r0, r, ApiFields)
    ensures r.Keys == VesselKeys
    ensures forall f | f in {Provider, DataSource, ComparisonId, Timestamp} :: r[f] == r0[f]
  {
    assert ApiFields <= VesselKeys;
    forall f | f in {Provider, DataSource, ComparisonId, Timestamp} ensures r[f] == r0[f] {
      Untouched(r0, r, ApiFields, f);
    }
  }

  /** Network data takes priority: a field the network responses set keeps
      its value to the end, except a name still reading "VesselFinder" and
      the width and built fields the caption loop overwrites. */
  lemma NetworkHasPriority(r: Record, p: VesselPage, f: Field)
    requires IsSet(Network(r, p.log), f) && f != Width && f != Built
    requires f != Name || !NameReplaceable(Network(r, p.log))
    ensures f in Extracted(r, p) && Extracted(r, p)[f] == Network(r, p.log)[f]
  {
    var r1 := Network(r, p.log);
    var r2 := JavaScript(r1, p.scripts);
    assert IsSet(r2, f);
    assert f != Name || !NameReplaceable(r2);
    ElementsKeep(r2, p.elements);
    var r3 := Elements(r2, p.elements);
    assert IsSet(r3, f);
  }

  // ---------------------------------------------------------------------------
  // _send_to_posthog

  /** A `local_comparison` capture: its distinct id, its event name and its
      properties. `timestamp` is the ISO text of the sender's `datetime.now()`,
      which is both the `timestamp` property and the capture's timestamp. */
  datatype VesselEvent = VesselEvent(
    distinctId: string, event: string,
    provider: string, mmsi: Value, name: Value, callsign: Value, shipType: Value,
    lat: Option<real>, lon: Option<real>, speed: Option<real>, course: Option<real>,
    heading: Option<real>, draught: Option<real>,
    navStatus: Value, destination: Value, timestamp: string, imo: Value, comparisonId: Value, dataSource: string)

  /** Both the scraper and the action capture under this distinct id and
      event name. */
  const EventDistinctId: string := "vesselfinder_scraper"
  const EventName: string := "local_comparison"

  /** `float(v) if v else None`: Some(None) for a falsy value, None when
      float() raises. */
  function TruthyFloat(v: Value): (x: Option<Option<real>>)
    ensures !Truthy(v) ==> x == Some(None)
    ensures v.Float? && v.x != 0.0 ==> x == Some(Some(v.x))
  {
    if !Truthy(v) then Some(None)
    else
      match FloatOf(v)
      case None => None
      case Some(y) => Some(Some(y))
  }

  const EventFloatFields: set<Field> := {Lat, Lon, Speed, Course, Heading, Draught}

  /** Every numeric property converts; otherwise the exception handler drops
      the event. */
  predicate FloatsConvert(r: Record) {
    forall f | f in EventFloatFields :: TruthyFloat(GetOr(r, f, Null)).Some?
  }

  function FieldFloat(r: Record, f: Field): Option<real>
    requires f in EventFloatFields && FloatsConvert(r)
  {
    TruthyFloat(GetOr(r, f, Null)).value
  }

  /** The event built from a record and sent with a comparison id, as a
      function of its provider name. */
  function EventOf(r: Record, provider: string, mmsi: Value, comparisonId: Value, now: string): (e: VesselEvent)
    requires FloatsConvert(r)
    ensures e.distinctId == EventDistinctId && e.event == EventName && e.timestamp == now
    ensures e.provider == provider && e.dataSource == provider && e.mmsi == mmsi && e.comparisonId == comparisonId
  {
    VesselEvent(
      EventDistinctId, EventName,
      provider, mmsi, GetOr(r, Name, Null), GetOr(r, Callsign, Null), GetOr(r, Type, Null),
      FieldFloat(r, Lat), FieldFloat(r, Lon), FieldFloat(r, Speed), FieldFloat(r, Course),
      FieldFloat(r, Heading), FieldFloat(r, Draught),
      GetOr(r, NavStatus, Null), GetOr(r, Destination, Text("")), now, GetOr(r, Imo, Null),
      comparisonId, provider)
  }

  /** `_send_to_posthog`: the event sent under "vesselfinder_scraper", or None
      when a numeric property does not convert; `now` is the time it reads
      from the clock. */
  function ScraperEvent(r: Record, comparisonId: string, now: string): (e: Option<VesselEvent>)
    ensures e.Some? <==> FloatsConvert(r)
    ensures e.Some? ==>
      e.value.provider == ProviderName && e.value.comparisonId == Text(comparisonId) && e.value.timestamp == now
  {
    if FloatsConvert(r) then Some(EventOf(r, ProviderName, Str(GetOr(r, Mmsi, Text(""))), Text(comparisonId), now))
    else None
  }

  /** `get_vessel_details` sends the event only with a truthy comparison id
      and a configured PostHog client. */
  function DetailsEvent(r: Record, comparisonId: Option<string>, analyticsReady: bool, now: string): (e: Option<VesselEvent>)
    ensures e.Some? ==> OptTruthy(comparisonId) && analyticsReady && e.value.comparisonId == Text(comparisonId.value)
  {
    if OptTruthy(comparisonId) && analyticsReady then ScraperEvent(r, comparisonId.value, now) else None
  }

  /** The reported coordinates are the record's, read with float(); a falsy
      coordinate is reported as missing. */
  lemma EventCoordinates(r: Record, provider: string, mmsi: Value, comparisonId: Value, now: string)
    requires FloatsConvert(r)
    ensures var e := EventOf(r, provider, mmsi, comparisonId, now);
      (IsSet(r, Lat) ==> e.lat == FloatOf(r[Lat])) && (!IsSet(r, Lat) ==> e.lat.None?)
      && (IsSet(r, Lon) ==> e.lon == FloatOf(r[Lon])) && (!IsSet(r, Lon) ==> e.lon.None?)
  {
    assert TruthyFloat(GetOr(r, Lat, Null)).Some?;
    assert TruthyFloat(GetOr(r, Lon, Null)).Some?;
  }

  /** A coordinate of exactly zero is reported as missing. */
  lemma ZeroCoordinateReportedMissing(r: Record, comparisonId: string, now: string)
    requires FloatsConvert(r) && Lat in r && r[Lat] == Float(0.0)
    ensures ScraperEvent(r, comparisonId, now).value.lat == None
  {
  }
}
