/**
 The MarineTraffic (Selenium) scraper's extractors as they run: a
 `ShipRecord` holds the `ship_data` dictionary and each extractor updates it
 in place, looping over lines, rows, patterns and list items. Every method
 states its new record as the corresponding function of module
 MarineTrafficRules applied to the old one; the properties are proved there.
 */
module MarineTraffic {
  import opened Wrappers
  import opened PyText
  import opened PyValues
  import opened Records
  import opened MarineTrafficRules

  /** `ship_data` of `get_ship_details`. */
  class ShipRecord {
    var data: Record

    /** The record before any extractor runs. */
    constructor (mmsi: string)
      ensures data == InitialRecord(mmsi)
    {
      data := InitialRecord(mmsi);
    }

    /** `_extract_ship_name`: the heading texts are tried in order. */
    method ExtractShipName(candidates: seq<Option<string>>)
      modifies this
      ensures data == ShipName(old(data), candidates)
    {
      var v := PickFirst(candidates, TrimmedShort);
      if v.Some? {
        data := data[Name := v.value];
      }
    }

    /** One `if key in data: ... float(data[key]) ...` coordinate block. */
    method ApiCoordinateStep(ms: seq<(string, Json)>, key: string, f: Field)
      modifies this
      ensures data == ApiCoordinate(old(data), ms, key, f)
    {
      var r := data;
      var j := Lookup(ms, key);
      if j.Some? {
        var x := ToFloat(j.value);
        if x.Some? {
          r := r[f := Float(x.value)];
          r := r[CoordinatesFromApi := Raw(JBool(true))];
        }
      }
      data := r;
    }

    /** `_extract_coordinates_from_api_response` on a dict. */
    method ExtractFromApiObject(ms: seq<(string, Json)>)
      modifies this
      ensures data == ApiObject(old(data), ms)
    {
      ApiCoordinateStep(ms, "lat", Lat);
      ApiCoordinateStep(ms, "lon", Lon);
      var r := data;
      var i := 0;
      while i < |ApiMappedOrder|
        invariant 0 <= i <= |ApiMappedOrder|
        invariant ApiFields(data, ms, ApiMappedOrder) == ApiFields(r, ms, ApiMappedOrder[i..])
      {
        var f := ApiMappedOrder[i];
        assert ApiMappedOrder[i..][1..] == ApiMappedOrder[i + 1..];
        var j := Lookup(ms, ApiKey(f));
        if j.Some? && !IsSet(r, f) && j.value != JNull {
          if Numeric(f) {
            var x := ToFloat(j.value);
            if x.Some? {
              r := r[f := Float(x.value)];
            }
          } else {
            r := r[f := Stored(j.value)];
          }
        }
        i := i + 1;
      }
      data := r;
    }

    /** The list branch of `_extract_coordinates_from_api_response`: the
        dict items in order, stopping once lat and lon are both truthy. */
    method ExtractFromApiList(items: seq<Json>)
      modifies this
      ensures data == ApiItems(old(data), items).0
    {
      var i := 0;
      while i < |items|
        invariant 0 <= i <= |items|
        invariant ApiItems(old(data), items) == ApiItems(data, items[i..])
      {
        assert items[i..][1..] == items[i + 1..];
        if items[i].JObj? {
          ExtractFromApiObject(items[i].members);
          if IsSet(data, Lat) && IsSet(data, Lon) {
            return;
          }
        }
        i := i + 1;
      }
    }

    /** `_extract_coordinates_from_api_response`: a dict is read directly, a
        list item by item, anything else is ignored. */
    method ExtractCoordinatesFromApiResponse(doc: Json)
      modifies this
      ensures data == ApiResponse(old(data), doc)
    {
      match doc
      case JObj(ms) =>
        ExtractFromApiObject(ms);
      case JArr(items) =>
        ExtractFromApiList(items);
      case _ =>
    }

    /** `_parse_coordinate_text`: the patterns in order, stopping at the first
        pair that converts and lies in range. */
    method ParseCoordinateText(ms: seq<Option<(string, string)>>)
      modifies this
      ensures data == CoordinateText(old(data), ms)
    {
      var i := 0;
      while i < |ms|
        invariant 0 <= i <= |ms|
        invariant FirstValidPair(ms) == FirstValidPair(ms[i..])
      {
        assert ms[i..][1..] == ms[i + 1..];
        var p := ValidPair(ms[i]);
        if p.Some? {
          var r := data;
          if !FlagSet(r) {
            if !IsSet(r, Lat) {
              r := r[Lat := Float(p.value.0)];
            }
            if !IsSet(r, Lon) {
              r := r[Lon := Float(p.value.1)];
            }
          }
          data := r;
          return;
        }
        i := i + 1;
      }
    }

    /** `_extract_from_network_requests`: the captured responses in order; a
        JSON body that leaves lat and lon truthy raises the flag and ends the
        step; otherwise the direct API call's response is read last. */
    method ExtractFromNetworkRequests(caps: seq<Capture>, direct: Option<Json>)
      modifies this
      ensures data == NetworkRequests(old(data), caps, direct)
    {
      var i := 0;
      while i < |caps|
        invariant 0 <= i <= |caps|
        invariant NetworkCaptures(old(data), caps) == NetworkCaptures(data, caps[i..])
      {
        assert caps[i..][1..] == caps[i + 1..];
        var c := caps[i];
        if PositionUrl(c.url) {
          match c.body
          case NoBody =>
          case JsonBody(doc) =>
            ExtractCoordinatesFromApiResponse(doc);
            if IsSet(data, Lat) && IsSet(data, Lon) {
              data := data[CoordinatesFromApi := Raw(JBool(true))];
              return;
            }
          case TextBody(pairs) =>
            if !EndsWith(c.url, ".svg") {
              ParseCoordinateText(pairs);
            }
        }
        i := i + 1;
      }
      if direct.Some? && JsonTruthy(direct.value) {
        ExtractCoordinatesFromApiResponse(direct.value);
      }
    }

    /** The elif chain of the line loop on one key and value. */
    method ApplyLine(key: string, value: string)
      modifies this
      ensures data == KeyValueStep(old(data), key, value)
    {
      var r := data;
      match LineBranch(r, key) {
        case None =>
        case Some(f) =>
          match f {
            case Imo =>
              var d := FindSevenDigits(value);
              if d.Some? {
                r := r[Imo := Text(d.value)];
              }
            case Lat =>
              r := ParsedNumber(r, Lat, FirstSignedNumber(value));
            case Lon =>
              r := ParsedNumber(r, Lon, FirstSignedNumber(value));
            case Draught =>
              r := ParsedNumber(r, Draught, FirstDigitsAndPoints(value));
            case _ =>
              if Acceptable(value, LongPlaceholders) {
                r := r[f := Text(value)];
              }
          }
      }
      data := r;
    }

    /** One line of the body text: trimmed, split at its first colon and
        dispatched on the key. */
    method ApplyTextLine(line: string)
      modifies this
      ensures data == LineStep(old(data), line)
    {
      LineStepOf(data, line);
      var kv := LineKeyValue(line);
      if kv.Some? {
        ApplyLine(kv.value.0, kv.value.1);
      }
    }

    /** `_extract_from_all_text`: every line of the body text in order. */
    method ExtractFromAllText(text: string)
      modifies this
      ensures data == AllText(old(data), text)
    {
      var lines := Split(text, '\n');
      var i := 0;
      while i < |lines|
        invariant 0 <= i <= |lines|
        invariant data == Lines(old(data), lines[..i])
      {
        LinesStep(old(data), lines, i);
        ApplyTextLine(lines[i]);
        i := i + 1;
      }
      assert lines[..|lines|] == lines;
    }

    /** One table row: a label cell and a value cell. */
    method ApplyTableRow(cells: seq<string>)
      modifies this
      ensures data == TableRow(old(data), cells)
    {
      var r := data;
      if |cells| >= 2 {
        var value := Strip(cells[1]);
        match TableBranch(r, Lower(Strip(cells[0]))) {
          case None =>
          case Some(f) =>
            if f == Imo {
              var d := FindSevenDigits(value);
              if d.Some? {
                r := r[Imo := Text(d.value)];
              }
            } else if Acceptable(value, ShortPlaceholders) {
              r := r[f := Text(value)];
            }
        }
      }
      data := r;
    }

    /** The table loop of `_extract_vessel_details`. */
    method ExtractFromTables(rows: seq<seq<string>>)
      modifies this
      ensures data == TableRows(old(data), rows)
    {
      var i := 0;
      while i < |rows|
        invariant 0 <= i <= |rows|
        invariant data == TableRows(old(data), rows[..i])
      {
        assert rows[..i + 1][..i] == rows[..i];
        ApplyTableRow(rows[i]);
        i := i + 1;
      }
      assert rows[..|rows|] == rows;
    }

    /** `_parse_text_for_data` on one element's text. */
    method ParseTextForData(m: SectionMatches)
      modifies this
      ensures data == SectionText(old(data), m)
    {
      FillFromPatterns(Imo, [m.imo], Verbatim);
      FillFromPatterns(Callsign, m.callsigns, Verbatim);
      FillFromPatterns(Type, m.types, TrimmedShort);
    }

    /** `_extract_from_data_attributes`. */
    method ExtractFromDataAttributes(attrs: seq<(DataAttribute, string)>)
      modifies this
      ensures data == Attributes(old(data), attrs)
    {
      var r := data;
      var i := 0;
      while i < |attrs|
        invariant 0 <= i <= |attrs|
        invariant r == Attributes(old(data), attrs[..i])
      {
        assert attrs[..i + 1][..i] == attrs[..i];
        var (a, value) := attrs[i];
        var f := AttributeField(a);
        if value != "" {
          if a == DataLat || a == DataLon {
            var x := ParseFloat(value);
            if x.Some? {
              r := r[f := Float(x.value)];
            }
          } else if !IsSet(r, f) {
            r := r[f := Text(value)];
          }
        }
        i := i + 1;
      }
      assert attrs[..|attrs|] == attrs;
      data := r;
    }

    /** `_extract_vessel_details`: tables, detail sections, data attributes. */
    method ExtractVesselDetails(
      rows: seq<seq<string>>, sections: seq<SectionMatches>, attrs: seq<(DataAttribute, string)>)
      modifies this
      ensures data == VesselDetails(old(data), rows, sections, attrs)
    {
      ExtractFromTables(rows);
      var i := 0;
      ghost var r1 := data;
      while i < |sections|
        invariant 0 <= i <= |sections|
        invariant data == Sections(r1, sections[..i])
      {
        assert sections[..i + 1][..i] == sections[..i];
        ParseTextForData(sections[i]);
        i := i + 1;
      }
      assert sections[..|sections|] == sections;
      ExtractFromDataAttributes(attrs);
    }

    /** A guarded pattern loop: `if not ship_data[f]:` then the first usable
        match fills `f`. */
    method FillFromPatterns(f: Field, ms: seq<Option<string>>, kind: Conversion)
      modifies this
      ensures data == FillFirst(old(data), f, ms, kind)
    {
      if !IsSet(data, f) {
        var v := PickFirst(ms, kind);
        if v.Some? {
          data := data[f := v.value];
        }
      }
    }

    /** `_extract_position_data`. */
    method ExtractPositionData(p: PositionPage)
      modifies this
      ensures data == Position(old(data), p)
    {
      if !FlagSet(data) {
        FillFromPatterns(Lat, p.lats, Latitude);
      }
      if !FlagSet(data) {
        FillFromPatterns(Lon, p.lons, Longitude);
      }
      ghost var r2 := data;
      assert r2 == PositionCoordinates(old(data), p);
      FillFromPatterns(Speed, p.speeds, Number);
      FillFromPatterns(Course, p.courses, Number);
      FillFromPatterns(Heading, p.headings, Number);
      ghost var r3 := data;
      assert r3 == PositionNumbers(r2, p);
      var i := 0;
      while i < |p.events|
        invariant 0 <= i <= |p.events|
        invariant data == PositionEvents(r3, p.events[..i])
      {
        assert p.events[..i + 1][..i] == p.events[..i];
        match p.events[i] {
          case FillLat(x) =>
            if !IsSet(data, Lat) {
              data := data[Lat := Float(x)];
            }
          case FillLon(x) =>
            if !IsSet(data, Lon) {
              data := data[Lon := Float(x)];
            }
          case ParsedText(ms) =>
            ParseCoordinateText(ms);
        }
        i := i + 1;
      }
      assert p.events[..|p.events|] == p.events;
    }

    /** One element of `_extract_from_voyage_elements`: its selector and its
        text. */
    method ApplyVoyageElement(selector: string, text: string)
      modifies this
      ensures data == VoyageElement(old(data), selector, text)
    {
      var r := data;
      var t := Strip(text);
      var sel := Lower(selector);
      if Acceptable(t, LongPlaceholders) {
        if Contains(sel, "destination") && !IsSet(r, Destination) {
          r := r[Destination := Text(t)];
        } else if Contains(sel, "status") && !IsSet(r, NavStatus) {
          r := r[NavStatus := Text(t)];
        } else if Contains(sel, "draught") && !IsSet(r, Draught) {
          var m := FirstDigitsAndPoints(t);
          if m.Some? && ParseFloat(m.value).Some? {
            r := r[Draught := Float(ParseFloat(m.value).value)];
          }
        }
      }
      data := r;
    }

    /** `_extract_from_voyage_elements`: every element found, in order. */
    method ExtractFromVoyageElements(elements: seq<(string, string)>)
      modifies this
      ensures data == VoyageElements(old(data), elements)
    {
      var i := 0;
      while i < |elements|
        invariant 0 <= i <= |elements|
        invariant data == VoyageElements(old(data), elements[..i])
      {
        assert elements[..i + 1][..i] == elements[..i];
        ApplyVoyageElement(elements[i].0, elements[i].1);
        i := i + 1;
      }
      assert elements[..|elements|] == elements;
    }

    /** `_extract_voyage_data`: the guarded pattern loops, then the voyage
        elements. */
    method ExtractVoyageData(p: VoyagePage)
      modifies this
      ensures data == Voyage(old(data), p)
    {
      FillFromPatterns(Destination, p.destinations, TrimmedLong);
      FillFromPatterns(NavStatus, p.statuses, TrimmedLong);
      FillFromPatterns(Draught, p.draughts, Number);
      ExtractFromVoyageElements(p.elements);
    }

    /** `_update_from_json`: the mapping entries in order, each filling a
        falsy field with the JSON value as it is. */
    method UpdateFromJsonObject(ms: seq<(string, Json)>)
      modifies this
      ensures data == UpdateFromJson(old(data), ms)
    {
      var i := 0;
      while i < UpdateCount
        invariant 0 <= i <= UpdateCount
        invariant UpdateFields(old(data), ms, 0) == UpdateFields(data, ms, i)
      {
        var f := UpdateTarget(i);
        var j := Lookup(ms, UpdateKey(f));
        if j.Some? && !IsSet(data, f) {
          data := data[f := Stored(j.value)];
        }
        i := i + 1;
      }
    }

    /** `_extract_from_html`: every decoded script object in order. */
    method ExtractFromHtml(objects: seq<seq<(string, Json)>>)
      modifies this
      ensures data == HtmlFallback(old(data), objects)
    {
      var i := 0;
      while i < |objects|
        invariant 0 <= i <= |objects|
        invariant data == HtmlFallback(old(data), objects[..i])
      {
        HtmlFallbackStep(old(data), objects, i);
        UpdateFromJsonObject(objects[i]);
        i := i + 1;
      }
      assert objects[..|objects|] == objects;
    }

    /** `del ship_data['_coordinates_from_api']` when present. */
    method ClearApiFlag()
      modifies this
      ensures data == old(data) - {CoordinatesFromApi}
    {
      if CoordinatesFromApi in data {
        data := data - {CoordinatesFromApi};
      }
    }
  }

  /** `float(match.group(1))` into `f` when the pattern matched; a
      ValueError leaves the record as it is. */
  method ParsedNumber(r: Record, f: Field, m: Option<string>) returns (r': Record)
    ensures r' == NumberFrom(r, f, m)
  {
    r' := r;
    if m.Some? {
      var x := ParseFloat(m.value);
      if x.Some? {
        r' := r[f := Float(x.value)];
      }
    }
  }

  /** `get_ship_details(mmsi)`: the extractors in their order, the page
      extractors only while the API flag is down, and the flag removed before
      the record is returned. */
  method GetShipDetails(mmsi: string, p: Page) returns (result: Record)
    ensures result == ShipDetails(mmsi, p)
  {
    var rec := new ShipRecord(mmsi);
    rec.ExtractShipName(p.names);
    rec.ExtractFromNetworkRequests(p.captures, p.direct);
    if !FlagSet(rec.data) {
      rec.ExtractFromAllText(p.bodyText);
      rec.ExtractVesselDetails(p.tableRows, p.sections, p.attributes);
      rec.ExtractPositionData(p.position);
      rec.ExtractVoyageData(p.voyage);
    }
    rec.ExtractFromHtml(p.scripts);
    rec.ClearApiFlag();
    result := rec.data;
  }
}
