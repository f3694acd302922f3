/**
 The VesselFinder scraper's extractors as they run: a `VesselRecord` holds
 the `vessel_data` dictionary of `get_vessel_details` and each extractor
 updates it in place, walking API documents recursively and looping over log
 entries, script results, selectors, patterns and captioned elements. Every
 method states its new record as the corresponding function of module
 VesselFinderRules applied to the old one; the properties are proved there.
 */
module VesselFinder {
  import opened Wrappers
  import opened PyText
  import opened PyValues
  import opened Records
  import opened VesselFinderRules

  /** `vessel_data` of `get_vessel_details`. */
  class VesselRecord {
    var data: Record

    /** The record before any extractor runs. */
    constructor (mmsi: Option<string>, imo: Option<string>, comparisonId: Option<string>)
      ensures data == InitialVesselRecord(mmsi, imo, comparisonId)
    {
      data := InitialVesselRecord(mmsi, imo, comparisonId);
    }

    /** One item of the dict loop of `_parse_api_response`: the branch the
        elif chain takes, then its write; `raised` is a float() failure
        outside an inner try, which leaves the record as it was. */
    method ApplyKey(key: string, value: Json) returns (raised: bool)
      modifies this
      ensures KeyStep(old(data), (key, value)) == if raised then None else Some(data)
      ensures raised ==> data == old(data)
    {
      var b := ApiBranch(data, Lower(key));
      if b.None? {
        return false;
      }
      var f := b.value;
      var r := data;
      if f == Lat || f == Lon {
        if !JsonTruthy(value) {
          r := r[f := Null];
        } else {
          var x := ToFloat(value);
          if x.Some? {
            r := r[f := Float(Normalized(x.value))];
          }
        }
      } else if f in ApiNumericFields {
        if !JsonTruthy(value) {
          r := r[f := Null];
        } else {
          var x := ToFloat(value);
          if x.None? {
            return true;
          }
          r := r[f := Float(x.value)];
        }
      } else {
        r := r[f := Str(Stored(value))];
      }
      data := r;
      return false;
    }

    /** `for key, value in data.items()`, ended by the first float() failure. */
    method ApplyKeys(ms: seq<(string, Json)>) returns (raised: bool)
      modifies this
      ensures (data, raised) == KeyPass(old(data), ms)
    {
      var i := 0;
      while i < |ms|
        invariant 0 <= i <= |ms|
        invariant KeyPass(old(data), ms) == KeyPass(data, ms[i..])
      {
        KeyPassStep(data, ms, i);
        raised := ApplyKey(ms[i].0, ms[i].1);
        if raised {
          return;
        }
        i := i + 1;
      }
      return false;
    }

    /** `_parse_api_response`: a dict's own keys, then every nested dict or
        list value; a list's items; the exception handler of each call ends
        only that call. */
    method ParseApiResponse(doc: Json)
      modifies this
      ensures data == ParseApi(old(data), doc)
      decreases doc, 1
    {
      if doc.JObj? {
        ParseApiObject(data, doc);
        var raised := ApplyKeys(doc.members);
        if !raised {
          ParseNestedValues(doc);
        }
      } else {
        ParseApiOther(data, doc);
        if doc.JArr? {
          ParseListItems(doc);
        }
      }
    }

    /** `for item in data`: every item is walked in order. */
    method ParseListItems(doc: Json)
      requires doc.JArr?
      modifies this
      ensures data == ListItems(old(data), doc, 0)
      decreases doc, 0
    {
      var i := 0;
      while i < |doc.items|
        invariant 0 <= i <= |doc.items|
        invariant ListItems(old(data), doc, 0) == ListItems(data, doc, i)
      {
        ParseApiResponse(doc.items[i]);
        i := i + 1;
      }
    }

    /** `for value in data.values()`: recurse into the dicts and lists. */
    method ParseNestedValues(doc: Json)
      requires doc.JObj?
      modifies this
      ensures data == NestedValues(old(data), doc, 0)
      decreases doc, 0
    {
      var i := 0;
      while i < |doc.members|
        invariant 0 <= i <= |doc.members|
        invariant NestedValues(old(data), doc, 0) == NestedValues(data, doc, i)
      {
        var v := doc.members[i].1;
        if v.JObj? || v.JArr? {
          ParseApiResponse(v);
        }
        i := i + 1;
      }
    }

    /** `_extract_from_network_requests`: each vessel-endpoint response whose
        body decoded as JSON is walked, in log order. */
    method ExtractFromNetworkRequests(log: seq<LogEntry>)
      modifies this
      ensures data == Network(old(data), log)
    {
      var i := 0;
      while i < |log|
        invariant 0 <= i <= |log|
        invariant Network(old(data), log) == Network(data, log[i..])
      {
        assert log[i..][0] == log[i] && log[i..][1..] == log[i + 1..];
        var e := log[i];
        if e.kind == "Network.responseReceived" && VesselEndpoint(e.url) && e.body.Some? {
          ParseApiResponse(e.body.value);
        }
        i := i + 1;
      }
    }

    /** One `field_scripts` probe: only a falsy field is probed, and a
        non-None result is stored, read with float() when it is a number or
        a string. */
    method ProbeField(f: Field, result: Json)
      modifies this
      ensures data == ScriptField(old(data), f, result)
    {
      if !IsSet(data, f) {
        ScriptFieldStores(data, f, result);
        var v := ScriptValue(result);
        if v.Some? {
          data := data[f := v.value];
        }
      }
    }

    /** `_extract_from_javascript`: the object probes whose result is truthy
        are walked, then the five field probes run in their dict order. */
    method ExtractFromJavascript(s: ScriptOutputs)
      modifies this
      ensures data == JavaScript(old(data), s)
    {
      var i := 0;
      while i < |s.objects|
        invariant 0 <= i <= |s.objects|
        invariant ParseAll(old(data), s.objects) == ParseAll(data, s.objects[i..])
      {
        assert s.objects[i..][0] == s.objects[i] && s.objects[i..][1..] == s.objects[i + 1..];
        var result := s.objects[i];
        if JsonTruthy(result) {
          ParseApiResponse(result);
        } else {
          ParseApiFalsy(data, result);
        }
        i := i + 1;
      }
      ProbeField(Speed, s.speed);
      ProbeField(Course, s.course);
      ProbeField(Heading, s.heading);
      ProbeField(Lat, s.lat);
      ProbeField(Lon, s.lon);
    }

    /** The loop over one selector's elements: the first candidate text
        becomes the name while the name may still be replaced. */
    method NameFromElements(texts: seq<string>)
      modifies this
      ensures data == NameFromTexts(old(data), texts)
    {
      var i := 0;
      while i < |texts|
        invariant 0 <= i <= |texts|
        invariant data == old(data)
        invariant NameFromTexts(old(data), texts) == NameFromTexts(data, texts[i..])
      {
        assert texts[i..][0] == texts[i] && texts[i..][1..] == texts[i + 1..];
        var text := Strip(texts[i]);
        if NameCandidate(text) && NameReplaceable(data) {
          data := data[Name := Text(text)];
          return;
        }
        i := i + 1;
      }
    }

    /** The loop over the name selectors, left once the name is set and is
        not "VesselFinder". */
    method ExtractName(sels: seq<seq<string>>)
      modifies this
      ensures data == NameFromSelectors(old(data), sels)
    {
      var i := 0;
      while i < |sels|
        invariant 0 <= i <= |sels|
        invariant NameFromSelectors(old(data), sels) == NameFromSelectors(data, sels[i..])
      {
        assert sels[i..][0] == sels[i] && sels[i..][1..] == sels[i + 1..];
        NameFromElements(sels[i]);
        if IsSet(data, Name) && data[Name] != Text("VesselFinder") {
          return;
        }
        i := i + 1;
      }
    }

    /** `if not vessel_data[f]:` and a pattern loop over the body text. */
    method FillFromPatterns(f: Field, ms: seq<Option<string>>)
      modifies this
      ensures data == FillFirst(old(data), f, ms, Number)
    {
      if !IsSet(data, f) {
        var v := PickFirst(ms, Number);
        if v.Some? {
          data := data[f := v.value];
        }
      }
    }

    /** One captioned element: its stripped text is split at the first
        colon and handed to the elif chain. */
    method ApplyLabel(text: string)
      modifies this
      ensures data == LabelLine(old(data), text)
    {
      var parts := SplitAtFirst(Strip(text), ':');
      if parts.Some? {
        ApplyCaption(parts.value.0, parts.value.1);
      }
    }

    /** The lower-cased, stripped caption picks the branch of the elif chain
        and the stripped value is written there. */
    method ApplyCaption(caption: string, text: string)
      modifies this
      ensures data == Captioned(old(data), caption, text)
    {
      var r := data;
      var value := Strip(text);
      var b := LabelBranch(r, Lower(Strip(caption)));
      if b.Some? {
        var f := b.value;
        if f in LabelNumericFields {
          var x := LabelNumber(value);
          if x.Some? {
            r := r[f := Float(x.value)];
          }
        } else {
          r := r[f := Text(value)];
        }
      }
      CaptionedBranch(data, caption, text);
      data := r;
    }

    /** `_extract_from_page_elements`: the name, the speed, course and heading
        patterns, then the captioned elements in page order. */
    method ExtractFromPageElements(p: PageElements)
      modifies this
      ensures data == Elements(old(data), p)
    {
      ExtractName(p.nameTexts);
      FillFromPatterns(Speed, p.speedMatches);
      FillFromPatterns(Course, p.courseMatches);
      FillFromPatterns(Heading, p.headingMatches);
      var i := 0;
      while i < |p.labelled|
        invariant 0 <= i <= |p.labelled|
        invariant Elements(old(data), p) == LabelLines(data, p.labelled[i..])
      {
        assert p.labelled[i..][0] == p.labelled[i] && p.labelled[i..][1..] == p.labelled[i + 1..];
        ApplyLabel(p.labelled[i]);
        i := i + 1;
      }
    }

    /** The JSON objects found in the page's scripts, walked in order. */
    method ParseScriptObjects(objects: seq<Json>)
      modifies this
      ensures data == ParseAll(old(data), objects)
    {
      var i := 0;
      while i < |objects|
        invariant 0 <= i <= |objects|
        invariant ParseAll(old(data), objects) == ParseAll(data, objects[i..])
      {
        assert objects[i..][0] == objects[i] && objects[i..][1..] == objects[i + 1..];
        ParseApiResponse(objects[i]);
        i := i + 1;
      }
    }

    /** `_extract_from_html`: the JSON objects in the scripts, then, while a
        coordinate is falsy, the coordinate patterns in order; a match
        float() rejects ends the step. */
    method ExtractFromHtml(h: HtmlSource)
      modifies this
      ensures data == Html(old(data), h)
    {
      ParseScriptObjects(h.objects);
      if IsSet(data, Lat) && IsSet(data, Lon) {
        return;
      }
      var k := 0;
      while k < CoordinatePatternCount
        invariant 0 <= k <= CoordinatePatternCount
        invariant Html(old(data), h) == CoordinateFill(data, h.coordinates, k)
      {
        var failed := ApplyCoordinate(CoordinateAxis(k), CoordinateMatch(h.coordinates, k));
        if failed {
          return;
        }
        k := k + 1;
      }
    }

    /** One coordinate pattern: a match fills its field when that is falsy;
        `failed` is the float() failure, which changes nothing. */
    method ApplyCoordinate(axis: Field, found: Option<string>) returns (failed: bool)
      modifies this
      ensures CoordinateStep(old(data), axis, found) == if failed then None else Some(data)
      ensures failed ==> data == old(data)
    {
      if found.None? {
        return false;
      }
      var x := ParseFloat(found.value);
      if x.None? {
        return true;
      }
      if !IsSet(data, axis) {
        data := data[axis := Float(x.value)];
      }
      return false;
    }
  }

  /** `get_vessel_details`: the cleaned identifiers, the ValueError when both
      are falsy, the four extractors in order, and the `local_comparison`
      event sent when a comparison id is given and PostHog is configured;
      `now` is the time `_send_to_posthog` reads from the clock. */
  method GetVesselDetails(mmsi: Option<string>, imo: Option<string>, comparisonId: Option<string>,
                          p: VesselPage, analyticsReady: bool, now: string)
    returns (res: Result<Record>, event: Option<VesselEvent>)
    ensures res == VesselDetails(mmsi, imo, comparisonId, p)
    ensures event == if res.Success? then DetailsEvent(res.value, comparisonId, analyticsReady, now) else None
  {
    var m := CleanIdentifier(mmsi);
    var i := CleanIdentifier(imo);
    var target := VesselTarget(m, i);
    if target.Failure? {
      return Failure(target.error), None;
    }
    var v := new VesselRecord(m, i, comparisonId);
    v.ExtractFromNetworkRequests(p.log);
    v.ExtractFromJavascript(p.scripts);
    v.ExtractFromPageElements(p.elements);
    v.ExtractFromHtml(p.html);
    res := Success(v.data);
    event := None;
    if OptTruthy(comparisonId) && analyticsReady {
      event := ScraperEvent(v.data, comparisonId.value, now);
    }
  }
}
