# Vessel-data scrapers and dispatch triggers, modelled in Dafny

The system collects AIS vessel data (position, speed, course, identity) for a
ship identified by MMSI or IMO from two providers, MarineTraffic and
VesselFinder. It reports each scrape to PostHog and starts scrapes remotely
through GitHub `repository_dispatch` events. This project models its core:

* **The MarineTraffic Selenium scraper** (`selenium_scraper.py`).
  `get_ship_details` builds a fixed `ship_data` dictionary. It then runs a
  series of extractors over what the browser returns:
  * the ship name;
  * the captured network responses, which can raise the
    `_coordinates_from_api` flag;
  * only while that flag is down: the "label: value" lines of the body text,
    the tables, the detail sections, the `data-*` attributes, the position
    patterns and the voyage patterns;
  * always: the JSON objects in the page source.

  The flag is removed before the dictionary is returned.
  `send_to_posthog` turns the record into a PostHog property bag.
* **The VesselFinder scraper** (`vesselfinder_scraper.py`).
  `get_vessel_details` chooses the target URL from the MMSI or the IMO. It
  builds `vessel_data` and fills it from, in this order:
  * captured API responses, walked recursively through nested objects and
    lists;
  * JavaScript globals;
  * page elements (name selectors and "caption: value" lines);
  * HTML patterns.

  Micro-degree coordinates are normalised. With a comparison id, the
  record is reported as a `local_comparison` event.
* **The GitHub Action entry point for VesselFinder**
  (`vesselfinder_action_scraper.py`). It cleans the identifier, runs the
  scraper, and sends its own `local_comparison` event.
* **The dispatch triggers.**
  * `trigger_github_action.py` starts the MarineTraffic scraper.
  * `trigger_multi_provider_action.py` starts one provider or all of them and
    validates which identifier each provider needs.
  * `django_github_integration.py` is a service class plus two Django views
    around the same dispatch.

  All three build the same dispatch URL, headers and body. A dispatch
  succeeds exactly on HTTP 204.

The browser, the network, the clock and PostHog are outside the model. What
they return becomes a parameter of the model:
* a `Page` (MarineTraffic) or `VesselPage` (VesselFinder) holds the DOM
  texts, regular-expression matches, script results and captured responses
  for one vessel page;
* a `PostOutcome` is what `requests.post` did: answered with a status and
  a body, timed out, or raised;
* `now` is the timestamp of a PostHog capture;
* whether PostHog is importable and configured is a boolean argument.

The scrapers' dictionaries are `Record`s, maps from `Field` to `Value`. A
Python falsy test (`not ship_data[f]`) is `!IsSet(r, f)`.

Each extractor appears twice:
* a pure function in `MarineTrafficRules` or `VesselFinderRules`, which
  states the step's effect on the record;
* a method of the classes `MarineTraffic.ShipRecord` and
  `VesselFinder.VesselRecord`, which performs the step in place with its
  loops and ensures that its new record is that function of the old one.

The properties are lemmas about the functions.

## Model

| member | source | states |
|---|---|---|
| `PyText.Strip` | selenium_scraper.py:295 | `str.strip()` and `str.strip(c)`: the result is no longer than the input and neither starts nor ends with a character that strip removes |
| `PyText.StripIsInfix` | selenium_scraper.py:295 | strip keeps an infix of the input and removes only whitespace (or `c`) on either side of it |
| `PyText.StripOf` | vesselfinder_scraper.py:174-177 | the partner of strip: stripping `p + m + q`, where `p` and `q` hold only removable characters and `m` has clean ends, gives back `m` |
| `PyText.StripClean` | selenium_scraper.py:304 | a text that neither starts nor ends with a removable character is its own strip |
| `PyText.Lower` | selenium_scraper.py:303 | `str.lower()`: same length, every character lowered in place |
| `PyText.LowerUnchanged` | selenium_scraper.py:303 | a text without capital letters is its own lower case |
| `PyText.IndexOf` | selenium_scraper.py:300-301 | the index returned holds the first occurrence of the character; None exactly when it does not occur |
| `PyText.Split` | selenium_scraper.py:292 | `text.split('\n')` yields at least one piece and no piece contains the separator |
| `PyText.SplitJoin` | selenium_scraper.py:292 | joining the pieces of a split with the separator gives back the text: every line is seen, in order |
| `PyText.JoinSplit` | selenium_scraper.py:292 | splitting the join of separator-free pieces gives back the pieces |
| `PyText.SplitAtFirst` | selenium_scraper.py:300-304 | `':' in line` / `line.split(':', 1)`: None exactly when the separator is absent; otherwise the text is the key, the separator and the value, and the key holds no separator |
| `PyText.SplitAtFirstJoined` | selenium_scraper.py:300-304 | the partner of `SplitAtFirst`: splitting `a + ':' + b`, where `a` has no colon, gives back `(a, b)` |
| `PyText.ParseUnsigned` | selenium_scraper.py:346 | the number an unsigned decimal text denotes is non-negative |
| `PyText.ParseUnsignedAccepts` | selenium_scraper.py:346 | `float()` without a sign accepts exactly the decimal texts: digits, or digits, a point and digits, with at least one digit |
| `PyText.ParseUnsignedDigits` | vesselfinder_scraper.py:527 | a run of digits reads as the whole number it spells |
| `PyText.ParseUnsignedDecimal` | selenium_scraper.py:346 | `d1.d2` reads as the value of `d1` plus the value of `d2` over 10 to the length of `d2` |
| `PyText.ParseFloatAccepts` | selenium_scraper.py:325 | `float()` accepts exactly a decimal text with an optional sign once surrounding whitespace is stripped |
| `PyText.ParseFloatOfInt` | selenium_scraper.py:325 | `float(str(i))` is `i` for every int, sign included |
| `PyText.ParseFloatSign` | selenium_scraper.py:509 | `float()` yields a negative value only for a text whose stripped form starts with a minus sign |
| `PyText.NatToDecimal` | django_github_integration.py:81 | `str(n)` of a natural number is a non-empty string of digits |
| `PyText.NatToDecimalRoundTrip` | django_github_integration.py:81 | the digits `str(n)` writes read back as `n` |
| `PyText.IntToDecimalRoundTrip` | django_github_integration.py:81 | `str(i)` of any int, sign included, reads back as `i`; the status rendered into the error message identifies the status |
| `PyText.FindSevenDigits` | selenium_scraper.py:308 | `re.search(r'(\d{7})', value)`: a match is the seven digits at the leftmost position where seven digits occur; None exactly when no position has seven digits |
| `PyText.FirstSignedNumber` | selenium_scraper.py:325 | `re.search(r'([+-]?\d+\.?\d*)', value)`: a match is an infix starting at the leftmost position where the pattern can start; it is an optional sign, digits, then optionally a point and digits; the character after it is not a digit, nor a point when the match has none; None exactly when the pattern can start nowhere |
| `PyText.FirstUnsignedNumber` | vesselfinder_scraper.py:527 | `re.findall(r'\d+\.?\d*', text)[0]`: a match is an infix starting at the leftmost digit; it is digits, then optionally a point and digits; the character after it is not a digit, nor a point when the match has none; None exactly when the text has no digit |
| `PyText.NumberEndGreedy` | vesselfinder_scraper.py:527 | from a digit, `\d+\.?\d*` takes the longest text of that shape: digits with at most one point, followed by neither a digit nor (when no point was taken) a point |
| `PyText.SignedMatchGreedy` | selenium_scraper.py:325 | a match of `[+-]?\d+\.?\d*` at a start position is a non-empty infix of that shape, ended greedily |
| `PyText.SignedNumberTakesAll` | selenium_scraper.py:325 | in `at -33.9 S` the search finds `-33.9`, the whole signed decimal |
| `PyText.FirstDigitsAndPoints` | selenium_scraper.py:346 | `re.search(r'([0-9.]+)', value)`: the whole run of digits and points at the leftmost such character; None exactly when there is none |
| `PyText.DigitOrPointRunTaken` | selenium_scraper.py:346 | `[0-9.]+` from a position takes an infix of digits and points that the text does not continue |
| `PyText.FirstStart` | selenium_scraper.py:308 | the scan returns the leftmost position at or after the start where a pattern can match, and None exactly when there is none |
| `PyValues.LookupFindsKey` | selenium_scraper.py:957-959 | `key in data` holds exactly when some entry has the key, and `data[key]` is the first such entry's value |
| `PyValues.LookupAppend` | trigger_multi_provider_action.py:67-79 | lookup in two objects' entries one after another: the first object's entry wins, otherwise the second's |
| `PyValues.Stored` | selenium_scraper.py:1308 | storing a decoded JSON value keeps its truthiness, and None stays None |
| `PyValues.Str` | selenium_scraper.py:1132 | `str(v)` returns a str as it is and renders anything else as a non-empty text |
| `PyValues.ToFloat` | selenium_scraper.py:959 | `float(j)` on a decoded value: ints and floats convert to their value; None, lists and dicts raise |
| `PyValues.FloatOf` | selenium_scraper.py:1136-1137 | `float(v)` on a record value: a float is itself and None raises |
| `PyValues.GetOr` | selenium_scraper.py:1132-1145 | `dict.get(k, default)`: the stored value when the key is present, otherwise the default |
| `PyValues.OptText` | vesselfinder_scraper.py:192-215 | an optional string argument becomes None exactly when it is absent, and the text otherwise |
| `Records.FillIfUnset` | selenium_scraper.py:1306-1308 | `if not d[f]: d[f] = v`: a truthy field is left as it is; a falsy one receives `v` |
| `Records.FillIfUnsetWrites` | selenium_scraper.py:1306-1308 | such a fill writes only `f` and keeps every truthy field |
| `Records.FirstCandidateIsFirst` | selenium_scraper.py:505-515 | the pattern loops pick the first usable match: None exactly when no match is usable, and otherwise some match whose predecessors were all unusable |
| `Records.PickFirst` | selenium_scraper.py:505-515 | the loop over the patterns, with a `break` at the first usable match, returns the first candidate |
| `Records.FillFirstFills` | selenium_scraper.py:537-551 | a guarded pattern loop leaves a truthy field alone, writes only its field and keeps every truthy field |
| `Records.FirstCandidateShape` | selenium_scraper.py:505-515 | the winning value has the shape its conversion demands: a float for number patterns, a latitude in [-90, 90] and a longitude in [-180, 180] for coordinate patterns, and a non-placeholder text for text patterns |
| `MarineTrafficRules.InitialRecord` | selenium_scraper.py:103-121 | the record has exactly the seventeen keys; provider and data_source are "MarineTraffic", mmsi is the argument, and every other key is None |
| `MarineTrafficRules.CoordinateValue` | selenium_scraper.py:957-973 | a coordinate value exists exactly when the key is present and `float()` accepts its value, and it is that float |
| `MarineTrafficRules.FieldWriteGuard` | selenium_scraper.py:985-997 | an `api_field_mapping` entry writes only into a falsy field, only a non-None value, and only when its key is present; a numeric target receives `float(value)` and the others the value as it is; an entry whose key is present with a non-null value that converts always writes |
| `MarineTrafficRules.ApiCoordinates` | selenium_scraper.py:957-973 | a lat (or lon) that converts is written whatever the field held, and it raises the flag; when neither converts the record is unchanged; nothing outside lat, lon and the flag is written |
| `MarineTrafficRules.ApiFieldsWrites` | selenium_scraper.py:985-997 | the mapping loop writes only the fields the mapping names |
| `MarineTrafficRules.ApiFieldsAt` | selenium_scraper.py:985-997 | in the mapping loop, each entry has the effect it would have on the starting record, since no two entries target the same field |
| `MarineTrafficRules.ApiObjectKeepsCoordinates` | selenium_scraper.py:975-997 | the mapping loop changes only the mapped fields, never lat, lon or the flag |
| `MarineTrafficRules.ApiMappingKeeps` | selenium_scraper.py:976-997 | the mapping loop never touches lat, lon or the flag, so they stay as the coordinate blocks left them |
| `MarineTrafficRules.ApiCoordinatesKeep` | selenium_scraper.py:957-973 | the coordinate blocks touch only lat, lon and the flag |
| `MarineTrafficRules.ApiLatOverwrites` | selenium_scraper.py:957-964 | an API lat that converts overwrites even a truthy lat and raises the flag |
| `MarineTrafficRules.ApiLonOverwrites` | selenium_scraper.py:966-973 | the same for lon |
| `MarineTrafficRules.ApiCoordinatesUnconvertible` | selenium_scraper.py:957-973 | when lat and lon are missing or fail `float()`, only mapped fields can change |
| `MarineTrafficRules.ApiFieldGuarded` | selenium_scraper.py:985-997 | each mapped field of the result holds exactly what its entry writes on the record the call started from, or keeps its value |
| `MarineTrafficRules.ApiObjectWrites` | selenium_scraper.py:951-997 | a dict response writes only lat, lon, the flag and the mapped fields |
| `MarineTrafficRules.ApiItemsAppend` | selenium_scraper.py:999-1005 | list items are processed in order: processing `xs + ys` processes `xs` and, unless that stopped, continues with `ys` |
| `MarineTrafficRules.ApiItemsStop` | selenium_scraper.py:999-1005 | the list loop stops early only once lat and lon are both truthy, and it writes only API fields |
| `MarineTrafficRules.ApiResponseWrites` | selenium_scraper.py:951-1008 | any response, whether dict, list or other, writes only lat, lon, the flag and the mapped fields |
| `MarineTrafficRules.ValidPair` | selenium_scraper.py:698-704 | a pair is used only when both groups pass `float()` and lie in range |
| `MarineTrafficRules.FirstValidPairIsFirst` | selenium_scraper.py:696-715 | the pair used is the earliest valid one; there is none exactly when every match is missing, unparsable or out of range |
| `MarineTrafficRules.CoordinateTextFills` | selenium_scraper.py:684-715 | coordinate text never writes while the API flag is up; it writes only lat and lon, only into falsy fields, and only the values of the first valid pair |
| `MarineTrafficRules.LineBranch` | selenium_scraper.py:306-349 | the elif branch a key takes targets one of imo, callsign, type, lat, lon, destination and draught, and only while that field is falsy |
| `MarineTrafficRules.LinesStep` | selenium_scraper.py:294-296 | the first i + 1 lines are processed as the first i lines followed by line i |
| `MarineTrafficRules.LineStepOf` | selenium_scraper.py:295-304 | a blank line or one without a colon changes nothing; any other line goes through the elif chain with its trimmed, lowercased key and its trimmed value |
| `MarineTrafficRules.KeyValueStepFills` | selenium_scraper.py:306-349 | one elif step fills only a falsy line field, with a value of the shape its branch accepts |
| `MarineTrafficRules.LineWriteFills` | selenium_scraper.py:306-349 | each branch body writes only its own field: seven digits for imo, a float for lat, lon and draught, and a non-placeholder text otherwise |
| `MarineTrafficRules.LineStepFills` | selenium_scraper.py:294-349 | one line fills only falsy line fields |
| `MarineTrafficRules.LinesFill` | selenium_scraper.py:294-349 | the line loop fills only falsy imo, callsign, type, lat, lon, destination and draught fields; imo only with seven digits; callsign, type and destination never with an empty or placeholder value |
| `MarineTrafficRules.AllTextFills` | selenium_scraper.py:285-353 | `_extract_from_all_text` keeps every truthy field and writes only the line fields |
| `MarineTrafficRules.TableBranch` | selenium_scraper.py:369-382 | the table branch targets imo, callsign or type, and only while that field is falsy |
| `MarineTrafficRules.TableRowFills` | selenium_scraper.py:364-384 | one table row fills only a falsy imo (seven digits), callsign or type (not a placeholder) |
| `MarineTrafficRules.FillsWithImo` | selenium_scraper.py:369-372 | writing seven digits into a falsy imo is a fill of imo alone |
| `MarineTrafficRules.TableRowsFill` | selenium_scraper.py:361-384 | the table loop fills only falsy imo, callsign and type fields |
| `MarineTrafficRules.SectionTextFills` | selenium_scraper.py:448-489 | one `_parse_text_for_data` call keeps every truthy field and writes only imo, callsign and type |
| `MarineTrafficRules.SectionsFill` | selenium_scraper.py:392-415 | the detail sections keep every truthy field and write only imo, callsign and type |
| `MarineTrafficRules.AttributeStepWrites` | selenium_scraper.py:430-441 | one attribute keeps every truthy field except lat and lon, and writes only the eight attribute fields |
| `MarineTrafficRules.AttributesWrite` | selenium_scraper.py:417-446 | `_extract_from_data_attributes` overwrites no truthy field other than lat and lon |
| `MarineTrafficRules.AttributeCoordinateOverwrites` | selenium_scraper.py:433-438 | a lat or lon attribute that `float()` accepts overwrites the coordinate even when it is already truthy |
| `MarineTrafficRules.PositionEventStepFills` | selenium_scraper.py:614-619 | each later position write fills only a falsy lat or lon |
| `MarineTrafficRules.PositionEventsFill` | selenium_scraper.py:587-591 | the position helpers keep every truthy field and write only lat and lon |
| `MarineTrafficRules.PositionFills` | selenium_scraper.py:491-594 | `_extract_position_data` fills only falsy lat, lon, speed, course and heading fields |
| `MarineTrafficRules.PositionCoordinatesFill` | selenium_scraper.py:497-534 | the lat and lon pattern loops keep every truthy field |
| `MarineTrafficRules.PositionNumbersFill` | selenium_scraper.py:536-585 | the speed, course and heading pattern loops keep every truthy field |
| `MarineTrafficRules.PositionPatternsInRange` | selenium_scraper.py:505-534 | a lat taken from the patterns lies in [-90, 90] and a lon in [-180, 180]: an out-of-range match is skipped, never clamped |
| `MarineTrafficRules.VoyageElementFills` | selenium_scraper.py:1242-1258 | one voyage element fills only a falsy destination or nav_status with a non-placeholder text, or a falsy draught with a float |
| `MarineTrafficRules.FillsWithText` | selenium_scraper.py:1246-1251 | writing an acceptable text into a falsy text field is a fill of that field alone |
| `MarineTrafficRules.FillsWithNumber` | selenium_scraper.py:1252-1258 | `float(re.search(...).group(1))` into a falsy numeric field is a fill of that field alone, and nothing when the match is missing or does not convert |
| `MarineTrafficRules.FillsWithFloat` | selenium_scraper.py:1255 | writing a float into a falsy numeric field is a fill of that field alone |
| `MarineTrafficRules.VoyageElementsFill` | selenium_scraper.py:1230-1263 | the voyage elements fill only falsy destination, nav_status and draught fields |
| `MarineTrafficRules.FillFirstIsFill` | selenium_scraper.py:1174-1222 | a guarded destination, status or draught pattern loop fills its field as the line rule demands |
| `MarineTrafficRules.FillFirstShape` | selenium_scraper.py:1174-1222 | a guarded pattern loop changes its field only from falsy, to a value of the shape its conversion produces |
| `MarineTrafficRules.VoyageFills` | selenium_scraper.py:1167-1228 | `_extract_voyage_data` fills only falsy destination, nav_status and draught fields; texts are never placeholders and draught is a number |
| `MarineTrafficRules.HtmlFallbackStep` | selenium_scraper.py:1277-1282 | the first i + 1 script objects are processed as the first i followed by object i |
| `MarineTrafficRules.UpdateFieldsKeep` | selenium_scraper.py:1306-1309 | each `_update_from_json` entry fills only a falsy target |
| `MarineTrafficRules.HtmlFallbackKeeps` | selenium_scraper.py:1265-1309 | the HTML fallback keeps every truthy field and writes only the mapping's fourteen targets |
| `MarineTrafficRules.NetworkStopSetsFlag` | selenium_scraper.py:921-930 | an early return from the capture loop leaves lat and lon truthy and the flag raised |
| `MarineTrafficRules.NetworkCapturesWrite` | selenium_scraper.py:895-942 | the capture loop writes only lat, lon, the flag and the API-mapped fields |
| `MarineTrafficRules.NetworkWrites` | selenium_scraper.py:887-949 | the network step, including the direct API call, writes only those fields |
| `MarineTrafficRules.PageExtractorsWrite` | selenium_scraper.py:155-162 | the gated page extractors write only the fields some extractor names, never provider, data_source or comparison_id |
| `MarineTrafficRules.AfterNetworkWrites` | selenium_scraper.py:147-152 | the name and network steps write only extractor fields |
| `MarineTrafficRules.NameAndNetworkWrite` | selenium_scraper.py:147-152 | the same, from any starting record |
| `MarineTrafficRules.ShipNameWrites` | selenium_scraper.py:177-200 | `_extract_ship_name` writes only the name |
| `MarineTrafficRules.ShipDetailsShape` | selenium_scraper.py:87-175 | the returned record has exactly the initial keys, with the internal flag gone; provider and data_source are still "MarineTraffic" and comparison_id is still None |
| `MarineTrafficRules.FinishShape` | selenium_scraper.py:155-170 | the gated extractors, the HTML fallback and the removal of the flag keep the initial keys and leave provider, data_source and comparison_id alone |
| `MarineTrafficRules.GateWrites` | selenium_scraper.py:155-162 | the gate writes only extractor fields whether or not the flag is up |
| `MarineTrafficRules.ExtractorWritesWithinRecord` | selenium_scraper.py:103-121 | every field an extractor writes is an initial key or the flag; the flag is not an initial key; provider, data_source and comparison_id are never written |
| `MarineTrafficRules.RemovingTheMarker` | selenium_scraper.py:169-170 | `del ship_data['_coordinates_from_api']` restores exactly the initial keys |
| `MarineTrafficRules.FallbackShape` | selenium_scraper.py:165-170 | the HTML fallback and the removal of the flag leave exactly the initial keys |
| `MarineTrafficRules.ShipDetailsGated` | selenium_scraper.py:152-170 | once the network step has raised the flag, only the HTML fallback runs, and every field the network step left truthy (API coordinates among them) reaches the result unchanged |
| `MarineTrafficRules.FinishGated` | selenium_scraper.py:155-170 | with the flag up, what follows the network step is the HTML fallback and the removal of the flag |
| `MarineTrafficRules.FallbackKeepsSet` | selenium_scraper.py:165-170 | truthy fields other than the flag survive the HTML fallback and the removal of the flag |
| `MarineTrafficRules.OptionalFloat` | selenium_scraper.py:1136-1137 | `float(v) if v is not None else None`: None stays None and a float is kept |
| `MarineTrafficRules.PosthogEvent` | selenium_scraper.py:1115-1165 | a capture is made exactly when PostHog is available, the API key is truthy, and `float()` accepts lat and lon (or they are None) |
| `MarineTrafficRules.PosthogKeepsZeros` | selenium_scraper.py:1130-1158 | the event is "marine_traffic_scrape" from "selenium_scraper", with provider "MarineTraffic" and data_source "selenium_scraper"; numeric fields are checked with `is not None`, so a zero is sent as zero; a missing lat is sent as None; destination defaults to "" only when absent; mmsi is sent as text; the timestamp and comparison_id are passed through |
| `MarineTraffic.ShipRecord.constructor` | selenium_scraper.py:103-121 | the new `ship_data` is the initial record: provider and data_source "MarineTraffic", the given mmsi, None elsewhere |
| `MarineTraffic.ShipRecord.ExtractShipName` | selenium_scraper.py:177-200 | the record after `_extract_ship_name` is `ShipName` of the record before, which writes only the name (`ShipNameWrites`) |
| `MarineTraffic.ShipRecord.ApiCoordinateStep` | selenium_scraper.py:957-973 | one `if 'lat' in data` block leaves the record that `ApiCoordinate` gives: an overwrite plus the flag when `float()` accepts the value, nothing otherwise |
| `MarineTraffic.ShipRecord.ExtractFromApiObject` | selenium_scraper.py:955-997 | the dict branch leaves `ApiObject` of the old record: both coordinate blocks, then the mapping loop in its order |
| `MarineTraffic.ShipRecord.ExtractFromApiList` | selenium_scraper.py:999-1005 | the list loop leaves what `ApiItems` gives: the dict items in order, stopping once lat and lon are both truthy |
| `MarineTraffic.ShipRecord.ExtractCoordinatesFromApiResponse` | selenium_scraper.py:951-1008 | the whole response step leaves `ApiResponse` of the old record; a scalar response changes nothing |
| `MarineTraffic.ShipRecord.ParseCoordinateText` | selenium_scraper.py:684-718 | the pattern loop leaves `CoordinateText` of the old record: the first in-range pair fills the falsy coordinates unless the flag is up |
| `MarineTraffic.ShipRecord.ExtractFromNetworkRequests` | selenium_scraper.py:887-949 | the capture loop leaves `NetworkRequests` of the old record, returning as soon as a JSON body leaves both coordinates truthy and running the direct calls otherwise |
| `MarineTraffic.ShipRecord.ApplyLine` | selenium_scraper.py:306-350 | one key/value line updates the record as `KeyValueStep` says: the first matching elif branch whose field is falsy, with its own parsing and placeholder test |
| `MarineTraffic.ShipRecord.ApplyTextLine` | selenium_scraper.py:295-304 | one body-text line leaves `LineStep` of the old record: a blank line or one without a colon changes nothing, otherwise its trimmed, lower-cased key and trimmed value go to the elif chain |
| `MarineTraffic.ShipRecord.ExtractFromAllText` | selenium_scraper.py:285-353 | the line loop leaves `AllText` of the old record: every stripped, non-blank line with a colon, in order |
| `MarineTraffic.ShipRecord.ApplyTableRow` | selenium_scraper.py:363-384 | one table row updates the record as `TableRow` says; a row with fewer than two cells changes nothing |
| `MarineTraffic.ShipRecord.ExtractFromTables` | selenium_scraper.py:361-384 | the rows are applied in order, leaving `TableRows` of the old record |
| `MarineTraffic.ShipRecord.ParseTextForData` | selenium_scraper.py:448-489 | one section text leaves `SectionText` of the old record: the IMO, call-sign and type patterns, each only while its field is falsy |
| `MarineTraffic.ShipRecord.ExtractFromDataAttributes` | selenium_scraper.py:417-446 | the attribute loop leaves `Attributes` of the old record: lat and lon overwritten when `float()` accepts them, the other attributes filling falsy fields |
| `MarineTraffic.ShipRecord.ExtractVesselDetails` | selenium_scraper.py:355-390 | tables, then detail sections, then data attributes, leaving `VesselDetails` of the old record |
| `MarineTraffic.ShipRecord.FillFromPatterns` | selenium_scraper.py:537-551 | a guarded pattern loop leaves `FillFirst` of the old record: nothing when the field is truthy, otherwise the first usable match |
| `MarineTraffic.ShipRecord.ExtractPositionData` | selenium_scraper.py:491-594 | the coordinate patterns (range-checked, skipped while the flag is up), the speed, course and heading patterns, and the position and map elements, leaving `Position` of the old record |
| `MarineTraffic.ShipRecord.ApplyVoyageElement` | selenium_scraper.py:1243-1258 | one voyage element updates the record as `VoyageElement` says: a non-placeholder text fills the falsy destination, status or draught its selector names |
| `MarineTraffic.ShipRecord.ExtractFromVoyageElements` | selenium_scraper.py:1230-1263 | the elements are applied in order, leaving `VoyageElements` of the old record |
| `MarineTraffic.ShipRecord.ExtractVoyageData` | selenium_scraper.py:1167-1228 | the destination, status and draught pattern loops, then the voyage elements, leaving `Voyage` of the old record |
| `MarineTraffic.ShipRecord.UpdateFromJsonObject` | selenium_scraper.py:1287-1309 | the mapping loop leaves `UpdateFromJson` of the old record, filling only falsy fields |
| `MarineTraffic.ShipRecord.ExtractFromHtml` | selenium_scraper.py:1265-1285 | every decoded script object is applied in order, leaving `HtmlFallback` of the old record |
| `MarineTraffic.ShipRecord.ClearApiFlag` | selenium_scraper.py:169-170 | the flag key is removed and nothing else changes |
| `MarineTraffic.ParsedNumber` | selenium_scraper.py:323-329 | `float(re.search(...).group(1))` inside `try`: the number is stored when the pattern matched and `float()` accepts it; otherwise the record is unchanged |
| `MarineTraffic.GetShipDetails` | selenium_scraper.py:87-172 | the method, run on a `ShipRecord`, returns exactly `ShipDetails(mmsi, page)`; `ShipDetailsShape` and `ShipDetailsGated` hold for that function |
| `VesselFinderRules.CleanIdentifier` | vesselfinder_scraper.py:174-177 | `str(x).strip('"').strip()` on a truthy identifier: no longer than the input and without surrounding whitespace; a falsy identifier is left alone |
| `VesselFinderRules.CleanIdentifierTrims` | vesselfinder_scraper.py:174-177 | the cleaned identifier is an infix of the input with only double quotes and whitespace removed around it |
| `VesselFinderRules.QuotedIdentifierCleaned` | vesselfinder_scraper.py:174-177 | an identifier pasted with its JSON quotes comes out as the bare identifier |
| `VesselFinderRules.QuotesCleanToEmpty` | vesselfinder_scraper.py:174-189 | a lone pair of quotes passes the truthiness test but cleans to "", which then counts as missing |
| `VesselFinderRules.VesselTarget` | vesselfinder_scraper.py:180-189 | the MMSI wins over the IMO; with neither truthy the result is the ValueError "Either MMSI or IMO must be provided" |
| `VesselFinderRules.SplitAfterZero` | vesselfinder_scraper.py:181 | the MMSI page address splits after `imo=0` at its first `&` |
| `VesselFinderRules.SplitAfterIdentifier` | vesselfinder_scraper.py:185 | the IMO page address splits after the IMO at its first `&` |
| `VesselFinderRules.MmsiQuery` | vesselfinder_scraper.py:181 | the MMSI page address carries `imo=0` and the MMSI |
| `VesselFinderRules.ImoQuery` | vesselfinder_scraper.py:185 | the IMO page address carries the IMO and `mmsi=0` |
| `VesselFinderRules.TargetRoundTrip` | vesselfinder_scraper.py:180-189 | the page address names the chosen identifier in its own query parameter and 0 in the other, whenever the identifier has no `&` |
| `VesselFinderRules.InitialVesselRecord` | vesselfinder_scraper.py:192-215 | the record has exactly the 22 keys; provider and data_source are "vesselfinder_data"; mmsi, imo and comparison_id are the arguments; every other field is None |
| `VesselFinderRules.ApiTests` | vesselfinder_scraper.py:352-401 | a key's tests: exact names for lat/latitude and lon/lng/longitude, substring tests for every other field, and every branch requires its field to be falsy |
| `VesselFinderRules.ApiBranchFrom` | vesselfinder_scraper.py:352-401 | a branch found from position `i` on is an API field whose test holds and whose field is falsy |
| `VesselFinderRules.ApiBranch` | vesselfinder_scraper.py:350-401 | the branch taken for a key is a falsy field whose key test the lower-cased key passes |
| `VesselFinderRules.ApiBranchIsFirst` | vesselfinder_scraper.py:352-401 | the elif chain takes the first branch whose test holds, and none exactly when no test holds |
| `VesselFinderRules.Normalized` | vesselfinder_scraper.py:366-367 | a reading within [-180, 180] is kept; a larger one is divided by a million; no clamping |
| `VesselFinderRules.MicroDegreesInRange` | vesselfinder_scraper.py:366-367 | any micro-degree reading up to 180,000,000 in magnitude lands in [-180, 180] |
| `VesselFinderRules.ApiWrite` | vesselfinder_scraper.py:353-401 | a branch writes only its field; the float branches fail (ending the dict) exactly when the value is truthy and `float()` rejects it; coordinates are normalised and a rejected coordinate is skipped |
| `VesselFinderRules.KeyStep` | vesselfinder_scraper.py:349-401 | one key writes only API fields and keeps every truthy field, or raises |
| `VesselFinderRules.KeyPass` | vesselfinder_scraper.py:349-401 | the dict loop writes only API fields and keeps every truthy field |
| `VesselFinderRules.KeyPassStops` | vesselfinder_scraper.py:346-413 | once `float()` raises, the keys after it are never read |
| `VesselFinderRules.KeyPassAppend` | vesselfinder_scraper.py:349-401 | without a failure, the loop over two runs of keys is the loop over the first run followed by the loop over the second |
| `VesselFinderRules.ParseApi` | vesselfinder_scraper.py:344-413 | `_parse_api_response` writes only API fields and never changes a truthy field, so the shallower or earlier value wins |
| `VesselFinderRules.NestedValues` | vesselfinder_scraper.py:404-406 | the recursion into a dict's values keeps every truthy field and writes only API fields |
| `VesselFinderRules.ListItems` | vesselfinder_scraper.py:408-410 | the recursion into a list's items keeps every truthy field and writes only API fields |
| `VesselFinderRules.ParseApiFalsy` | vesselfinder_scraper.py:347-410 | a falsy document (None, 0, "", an empty dict or list) changes nothing |
| `VesselFinderRules.ParseApiStops` | vesselfinder_scraper.py:346-413 | a `float()` failure keeps what the dict wrote before it and skips the rest of it and everything nested in it |
| `VesselFinderRules.ParseApiObject` | vesselfinder_scraper.py:347-406 | a dict: its own keys first, then (when nothing raised) its nested values in order |
| `VesselFinderRules.ParseApiOther` | vesselfinder_scraper.py:408-410 | a list is walked item by item; a scalar is ignored |
| `VesselFinderRules.ParseAll` | vesselfinder_scraper.py:584-587 | walking several documents in order keeps every truthy field and writes only API fields |
| `VesselFinderRules.Network` | vesselfinder_scraper.py:303-342 | the network step keeps every truthy field and writes only API fields |
| `VesselFinderRules.NetworkIgnoresOthers` | vesselfinder_scraper.py:315-331 | only vessel-endpoint responses with a JSON body are read: a log with none leaves the record unchanged |
| `VesselFinderRules.ScriptValue` | vesselfinder_scraper.py:652-653 | `float(result) if isinstance(result, (int, float, str)) else result`: None is skipped, numbers and booleans become floats, lists and dicts are stored as they are |
| `VesselFinderRules.ScriptField` | vesselfinder_scraper.py:648-655 | a field probe writes only its field and only while that field is falsy |
| `VesselFinderRules.ScriptFieldStores` | vesselfinder_scraper.py:648-655 | a probe of a falsy field stores the value its result reads as, and a rejected or null result stores nothing |
| `VesselFinderRules.JavaScript` | vesselfinder_scraper.py:616-659 | the JavaScript step keeps every truthy field and writes only API fields |
| `VesselFinderRules.FirstName` | vesselfinder_scraper.py:437-439 | the first element text, over all selectors, that is longer than two characters and not a placeholder |
| `VesselFinderRules.FirstNameAppend` | vesselfinder_scraper.py:434-447 | the first candidate of two runs of texts is the first run's, if any, else the second's |
| `VesselFinderRules.TitleLowered` | vesselfinder_scraper.py:439 | "VesselFinder" lower-cased is the placeholder "vesselfinder" |
| `VesselFinderRules.CandidateIsNotTitle` | vesselfinder_scraper.py:439-446 | a candidate name is never "VesselFinder", so once written it ends the selector loop |
| `VesselFinderRules.NameFromTextsFirst` | vesselfinder_scraper.py:437-443 | the inner loop writes the first candidate when the name is falsy or "VesselFinder", and otherwise nothing |
| `VesselFinderRules.NameFromSelectorsFirst` | vesselfinder_scraper.py:434-447 | the nested loops with their breaks write the first candidate over all selectors when the name is replaceable, and otherwise nothing |
| `VesselFinderRules.LabelTests` | vesselfinder_scraper.py:517-564 | because `and` binds tighter than `or`, "width" and "built" are checked unguarded while "beam", "year" and every other keyword need a falsy field |
| `VesselFinderRules.LabelBranchFrom` | vesselfinder_scraper.py:517-564 | a branch found from position `i` on is a caption field whose test holds |
| `VesselFinderRules.LabelBranch` | vesselfinder_scraper.py:517-564 | the branch taken is a caption field; apart from width and built, its field is falsy and its keyword is in the caption |
| `VesselFinderRules.LabelBranchIsFirst` | vesselfinder_scraper.py:517-564 | the caption chain takes the first branch whose test holds, and none exactly when no test holds |
| `VesselFinderRules.LabelWrite` | vesselfinder_scraper.py:517-564 | a branch writes only its field: the raw value for a text field, a non-negative number for a numeric one, nothing when no number parses |
| `VesselFinderRules.LabelNumber` | vesselfinder_scraper.py:527 | `float(re.findall(r'\d+\.?\d*', value)[0])` is never negative and is `float()` of the first unsigned number |
| `VesselFinderRules.LabelNumberNonNegative` | vesselfinder_scraper.py:527 | a number written from a caption is never negative: the pattern has no sign |
| `VesselFinderRules.LabelLine` | vesselfinder_scraper.py:510-515 | one element's text writes only caption fields; a text without a colon changes nothing |
| `VesselFinderRules.Captioned` | vesselfinder_scraper.py:514-564 | a stripped, lower-cased caption writes only caption fields |
| `VesselFinderRules.LabelLines` | vesselfinder_scraper.py:509-564 | the element loop writes only caption fields |
| `VesselFinderRules.LabelLineKeeps` | vesselfinder_scraper.py:509-564 | one element keeps every truthy field except width and built |
| `VesselFinderRules.CaptionedKeeps` | vesselfinder_scraper.py:514-564 | one caption keeps every truthy field except width and built |
| `VesselFinderRules.LabelLinesKeep` | vesselfinder_scraper.py:509-564 | the element loop keeps every truthy field except width and built |
| `VesselFinderRules.WidthLabelOverwrites` | vesselfinder_scraper.py:556 | a "width" caption that reaches its branch takes it even when width is already set |
| `VesselFinderRules.BeamLabelKeepsWidth` | vesselfinder_scraper.py:556 | a caption without "width" never takes the width branch while width is set |
| `VesselFinderRules.MotionWrites` | vesselfinder_scraper.py:454-500 | the speed, course and heading patterns write only those fields and keep every truthy field |
| `VesselFinderRules.NameWrites` | vesselfinder_scraper.py:434-447 | the name selectors write only the name, and only while it is falsy or "VesselFinder" |
| `VesselFinderRules.NameAndMotionWrites` | vesselfinder_scraper.py:422-500 | name and motion steps write only those four fields and change a truthy field only when it is a name still reading "VesselFinder" |
| `VesselFinderRules.ElementsWrites` | vesselfinder_scraper.py:415-569 | the page-element step writes only the name and caption fields |
| `VesselFinderRules.ElementsKeep` | vesselfinder_scraper.py:415-569 | apart from a "VesselFinder" name and the width and built overwrites, the page elements keep every truthy field |
| `VesselFinderRules.CoordinateFill` | vesselfinder_scraper.py:604-611 | the coordinate patterns write only lat and lon and keep every truthy field |
| `VesselFinderRules.CoordinateStep` | vesselfinder_scraper.py:605-611 | one pattern fills only its falsy axis; it fails (ending the step) exactly when it matched and `float()` rejects the match |
| `VesselFinderRules.Html` | vesselfinder_scraper.py:571-614 | the HTML step keeps every truthy field and writes only API fields; the coordinate patterns run only while lat or lon is falsy |
| `VesselFinderRules.HtmlFillsLatitude` | vesselfinder_scraper.py:594-611 | a falsy latitude takes the first "lat" match when `float()` accepts it; a rejected match leaves the record unchanged |
| `VesselFinderRules.ExtractedWrites` | vesselfinder_scraper.py:247-262 | the four extractors together write only API fields |
| `VesselFinderRules.VesselDetails` | vesselfinder_scraper.py:173-262 | `get_vessel_details` raises ValueError exactly when neither cleaned identifier is truthy |
| `VesselFinderRules.VesselDetailsShape` | vesselfinder_scraper.py:192-283 | the returned record has exactly the 22 keys, names "vesselfinder_data" as provider and data source, keeps the caller's comparison_id, and its timestamp is still None |
| `VesselFinderRules.ShapeKept` | vesselfinder_scraper.py:192-262 | writes limited to API fields keep the keys and the provider, data_source, comparison_id and timestamp |
| `VesselFinderRules.NetworkHasPriority` | vesselfinder_scraper.py:247-262 | a field the network step set keeps its value to the end, except a name still reading "VesselFinder" and the width and built overwrites |
| `VesselFinderRules.TruthyFloat` | vesselfinder_scraper.py:676-681 | `float(v) if v else None`: a falsy value gives None and a non-zero float is kept |
| `VesselFinderRules.EventOf` | vesselfinder_scraper.py:667-698 | the event is captured under distinct id `vesselfinder_scraper` as a `local_comparison` event, stamped with the given clock reading, and carries the given provider as provider and data_source, the given mmsi and the comparison id |
| `VesselFinderRules.ScraperEvent` | vesselfinder_scraper.py:661-704 | the `local_comparison` event is built exactly when every numeric property converts; it is tagged "vesselfinder_data", carries the comparison id and is stamped with the time read from the clock |
| `VesselFinderRules.DetailsEvent` | vesselfinder_scraper.py:280-281 | the event is sent only with a truthy comparison id and a configured PostHog client |
| `VesselFinderRules.EventCoordinates` | vesselfinder_scraper.py:676-677 | the reported coordinates are the record's read with `float()`, and a falsy coordinate is reported as missing |
| `VesselFinderRules.ZeroCoordinateReportedMissing` | vesselfinder_scraper.py:676 | a latitude of exactly 0.0 is reported as missing, because the test is truthiness rather than `is not None` |
| `VesselFinder.VesselRecord.constructor` | vesselfinder_scraper.py:192-215 | the new `vessel_data` is `InitialVesselRecord` of the arguments |
| `VesselFinder.VesselRecord.ApplyKey` | vesselfinder_scraper.py:350-401 | one item of the dict loop: the new record is the one `KeyStep` gives, or the record is unchanged and `raised` reports the `float()` failure |
| `VesselFinder.VesselRecord.ApplyKeys` | vesselfinder_scraper.py:349-401 | the dict loop leaves the record and failure flag `KeyPass` gives |
| `VesselFinder.VesselRecord.ParseApiResponse` | vesselfinder_scraper.py:344-413 | the recursive walk leaves `ParseApi` of the old record |
| `VesselFinder.VesselRecord.ParseListItems` | vesselfinder_scraper.py:408-410 | the list loop leaves `ListItems` of the old record |
| `VesselFinder.VesselRecord.ParseNestedValues` | vesselfinder_scraper.py:404-406 | the loop over a dict's values leaves `NestedValues` of the old record |
| `VesselFinder.VesselRecord.ExtractFromNetworkRequests` | vesselfinder_scraper.py:303-342 | the log loop leaves `Network` of the old record |
| `VesselFinder.VesselRecord.ProbeField` | vesselfinder_scraper.py:648-655 | one field probe leaves `ScriptField` of the old record |
| `VesselFinder.VesselRecord.ExtractFromJavascript` | vesselfinder_scraper.py:616-659 | the object probes, then the field probes, leaving `JavaScript` of the old record |
| `VesselFinder.VesselRecord.NameFromElements` | vesselfinder_scraper.py:437-443 | the loop over one selector's elements leaves `NameFromTexts` of the old record |
| `VesselFinder.VesselRecord.ExtractName` | vesselfinder_scraper.py:434-447 | the selector loop leaves `NameFromSelectors` of the old record |
| `VesselFinder.VesselRecord.FillFromPatterns` | vesselfinder_scraper.py:454-468 | a guarded pattern loop leaves `FillFirst` of the old record |
| `VesselFinder.VesselRecord.ExtractFromPageElements` | vesselfinder_scraper.py:415-569 | name, motion patterns and caption elements leave `Elements` of the old record |
| `VesselFinder.VesselRecord.ApplyLabel` | vesselfinder_scraper.py:510-515 | one element's text leaves `LabelLine` of the old record: a text without a colon changes nothing |
| `VesselFinder.VesselRecord.ApplyCaption` | vesselfinder_scraper.py:513-564 | the caption picks the branch and the stripped value is written there, leaving `Captioned` of the old record |
| `VesselFinder.VesselRecord.ParseScriptObjects` | vesselfinder_scraper.py:578-590 | the JSON objects of the scripts are walked in order, leaving `ParseAll` of the old record |
| `VesselFinder.VesselRecord.ExtractFromHtml` | vesselfinder_scraper.py:571-614 | the script objects, then the coordinate fallback, leave `Html` of the old record |
| `VesselFinder.VesselRecord.ApplyCoordinate` | vesselfinder_scraper.py:605-611 | one coordinate pattern leaves the record `CoordinateStep` gives, or reports the `float()` failure and changes nothing |
| `VesselFinder.GetVesselDetails` | vesselfinder_scraper.py:153-284 | the method returns exactly `VesselDetails` and sends exactly `DetailsEvent` of the result, stamped with the given clock reading |
| `Dispatch.DispatchUrl` | trigger_multi_provider_action.py:58 | the address starts with the GitHub API repository root, ends with `/dispatches`, and holds `owner/name` in between |
| `Dispatch.DispatchUrlNamesRepo` | trigger_github_action.py:37 | reading the owner and name back from the address gives the ones it was built from, whenever the owner has no slash |
| `Dispatch.DispatchHeaders` | trigger_multi_provider_action.py:60-64 | exactly Authorization, Accept and Content-Type; the GitHub v3 JSON type; the Authorization header carries the token after `token ` |
| `Dispatch.OptJson` | trigger_multi_provider_action.py:68-69 | an absent optional argument becomes JSON null, and only an absent one does |
| `Dispatch.DispatchBody` | trigger_multi_provider_action.py:81-84 | the body reads back as the event type and the client payload it was built from |
| `Dispatch.DispatchTo` | trigger_multi_provider_action.py:58-87 | the request goes to the named repository's dispatch address with the token's headers and carries the event type and client payload |
| `Dispatch.CommonPayload` | trigger_multi_provider_action.py:67-72 | exactly the keys mmsi, comparison_id, headless and send_to_posthog in that order, each with its argument |
| `Dispatch.Keys` | trigger_multi_provider_action.py:67-72 | the keys of a JSON object, one per entry, in order |
| `TriggerGithub.MarineTrafficRequest` | trigger_github_action.py:37-53 | the request names the repository, carries the token's headers, the event type "scrape-marine-traffic" and the four arguments unchanged in the client payload |
| `TriggerGithub.TriggerMarineTrafficScraper` | trigger_github_action.py:12-70 | the request is always posted; the result is True exactly for a 204 answer, False for another status, a timeout or any exception |
| `TriggerMulti.EventFor` | trigger_multi_provider_action.py:44-56 | "marinetraffic" maps to "scrape-marine-traffic", "vesselfinder" to "scrape-vesselfinder", and any other provider to none |
| `TriggerMulti.Validate` | trigger_multi_provider_action.py:42-56 | a request is allowed exactly for MarineTraffic with an MMSI or VesselFinder with an MMSI or IMO; its event type is the provider's; an unknown provider is refused by name |
| `TriggerMulti.ProviderEntriesLookup` | trigger_multi_provider_action.py:75-79 | imo is added only for VesselFinder; the two DataDocked flags, False unless passed, only for MarineTraffic |
| `TriggerMulti.PayloadKey` | trigger_multi_provider_action.py:67-79 | the provider's entries never change the four common keys, and any other key comes from them |
| `TriggerMulti.ClientPayloadEntries` | trigger_multi_provider_action.py:67-79 | the payload always holds the four common keys with their arguments; imo appears exactly for VesselFinder and the DataDocked flags exactly for MarineTraffic |
| `TriggerMulti.BuildClientPayload` | trigger_multi_provider_action.py:67-79 | inserting the provider's keys one at a time into the common dict gives the client payload |
| `TriggerMulti.DispatchFor` | trigger_multi_provider_action.py:42-84 | no request exactly when validation fails on the lower-cased provider; otherwise the request names the repository, carries the token, the provider's event type and the client payload |
| `TriggerMulti.TriggerScraper` | trigger_multi_provider_action.py:11-103 | the request posted is `DispatchFor`; the result is True exactly when a request went out and the answer is 204 |
| `TriggerMulti.ProviderNamesLowered` | trigger_multi_provider_action.py:42 | the two provider names are already lower case |
| `TriggerMulti.AllInvocationDispatch` | trigger_multi_provider_action.py:129-153 | each provider named by `trigger_all_providers` is dispatched exactly when the MMSI is non-empty, with its own event type |
| `TriggerMulti.AllRequests` | trigger_multi_provider_action.py:127-153 | two requests, MarineTraffic first and VesselFinder second, with the token's headers and to the same repository |
| `TriggerMulti.TriggerAllProviders` | trigger_multi_provider_action.py:106-163 | the result has exactly the keys "marinetraffic" and "vesselfinder", each True exactly when the MMSI is non-empty and that dispatch got 204; the requests posted are `AllRequests` |
| `TriggerMulti.MainRun` | trigger_multi_provider_action.py:166-227 | without a token or any identifier, or for "all" without an MMSI, `main` returns with nothing posted; otherwise it posts the chosen requests and exits 1 exactly when some trigger reported failure |
| `TriggerMulti.MainRunTargetsRepository` | trigger_multi_provider_action.py:182-224 | every request `main` posts carries the token and names the configured repository, the owner and name defaulting when unset |
| `TriggerMulti.MarineTrafficWithoutMmsiFails` | trigger_multi_provider_action.py:44-48 | MarineTraffic asked for with only an IMO posts nothing and exits 1 |
| `TriggerMulti.VesselFinderByImo` | trigger_multi_provider_action.py:49-53 | VesselFinder asked for with only an IMO posts one "scrape-vesselfinder" request whose payload carries that IMO |
| `DjangoTrigger.JsonStr` | django_github_integration.py:73 | `str()` of a string is itself and of an int reads back as that int |
| `DjangoTrigger.MessageText` | django_github_integration.py:73 | a fixed message is its text; the success message starts with "Scraper triggered successfully for MMSI: " |
| `DjangoTrigger.ServiceRequest` | django_github_integration.py:47-63 | the request names the repository (name defaulting to "marine-traffic-scrapping"), carries the token, "scrape-marine-traffic" and headless and send_to_posthog forced to True |
| `DjangoTrigger.TriggerScraper` | django_github_integration.py:41-96 | without token or owner: "GitHub configuration missing" and no request; 204: success with mmsi and comparison_id echoed; another status: "GitHub API error: <status>" with the body as details; timeout and other exceptions: their messages; success exactly for 204 |
| `DjangoTrigger.ServiceMatchesScript` | django_github_integration.py:47-67 | the service posts exactly what the stand-alone trigger script posts with both flags on |
| `DjangoTrigger.ViewPost` | django_github_integration.py:107-136 | invalid JSON or a falsy mmsi: 400; a body that is not an object: 500; otherwise the service's result with 200 exactly when it succeeded, 500 otherwise |
| `DjangoTrigger.ViewSucceedsForAcceptedDispatch` | django_github_integration.py:142-171 | a request with a non-empty string mmsi is answered 200 exactly when the service is configured and GitHub answers 204, and the message then names that mmsi |
| `VesselFinderAction.ActionMmsi` | vesselfinder_action_scraper.py:40-47 | a string mmsi has its double quotes stripped; when that leaves nothing the raw value is reported instead |
| `VesselFinderAction.ActionMmsiAgreesOnCleanValues` | vesselfinder_action_scraper.py:40-47 | an mmsi without quotes is reported as the scraper's own event reports it |
| `VesselFinderAction.ActionSend` | vesselfinder_action_scraper.py:22-80 | an event is pushed exactly when the API key is truthy and every numeric property converts; it is tagged "VesselFinder" as provider and data source, carries the comparison id and is stamped with the time read from the clock |
| `VesselFinderAction.ActionEventMirrorsScraperEvent` | vesselfinder_action_scraper.py:45-63 | the action's event differs from the scraper's own event only in the provider and data-source names, the mmsi cleaning and the timestamps |
| `VesselFinderAction.ActionMain` | vesselfinder_action_scraper.py:83-166 | exit 1 without an identifier, without credentials or when the scrape fails; otherwise exit 0 with the scraped record, and the action's event exactly when a comparison id was given and the push succeeded |
| `VesselFinderAction.TwoEventsPerComparison` | vesselfinder_action_scraper.py:119-136 | with a comparison id and a PostHog key, a successful run sends two `local_comparison` events, both under distinct id `vesselfinder_scraper` (vesselfinder_action_scraper.py:69-70, vesselfinder_scraper.py:695-696), for the same comparison under different provider names, each stamped with its own clock reading |
| `VesselFinderAction.QuotesOnlyIdentifierFails` | vesselfinder_action_scraper.py:95-124 | an identifier that cleans to nothing passes the argument check but ends the run with status 1 |

## Behaviour as written

These are the places where the code's behaviour is easy to misread; the
model follows the code as written:

* **The `and not field` guard.** In `_parse_api_response`
  (vesselfinder_scraper.py:352-401) and in the caption chain (517-564),
  each guard is part of its `elif` condition. A key whose first matching
  branch names a field that is already set therefore falls through to
  later branches. The model's `Taken` test, `ApiBranchIsFirst` and
  `LabelBranchIsFirst` state exactly this: the first branch whose keyword
  matches *and* whose field is falsy.
* **Width and built captions.** `'width' in label or 'beam' in label and
  not vessel_data['width']` parses as `width or (beam and not set)`
  (vesselfinder_scraper.py:556, 561). A "width" or "built" caption
  therefore overwrites a value that is already set
  (`WidthLabelOverwrites`).
* **Placeholder filtering happens only on some paths.** MarineTraffic
  rejects "unknown", "n/a", "-" and "upgrade to unlock" only in the line
  loop, the tables, the ship name, the section type, the voyage patterns
  and the voyage elements, each with its own list. VesselFinder's API walk
  and caption loop store the raw text.
* **Micro-degree scaling is VesselFinder-only.** The MarineTraffic API
  step stores `float(value)` as it is.
* **API coordinates are not protected from every writer.** The
  MarineTraffic API step overwrites lat and lon; so do the `data-lat` and
  `data-lon` attributes, but those run only while the flag is down. On
  VesselFinder there is no flag: network data wins only because later
  steps fill falsy fields (`NetworkHasPriority`).
* **A zero coordinate.** VesselFinder's event builders test truthiness,
  so a coordinate of exactly 0.0 is reported as missing
  (`ZeroCoordinateReportedMissing`). MarineTraffic's test is
  `is not None` and sends zeros (`PosthogKeepsZeros`).
* **Identifier cleaning.** A lone pair of quotes passes the argument check
  and then cleans to "", which `get_vessel_details` treats as missing
  (`QuotesOnlyIdentifierFails`).
* **Two events per comparison.** `vesselfinder_action_scraper.py` sends its
  own `local_comparison` event on top of the one `get_vessel_details`
  already sent (`TwoEventsPerComparison`).
* **The action's exit status.** The action exits 0 whenever a record comes
  back, whether or not it holds coordinates: the record is a non-empty
  dict and so always truthy.

## Left out

- Browser driving is not modelled: `setup_driver`, `login`, `_expand_content`, `_scroll_page`, `_click_tabs`, `_interact_with_map`, the waits and sleeps, and the CDP log and body reads. What they yield is a `Page` or `VesselPage` argument.
- Regular expressions are not run on page text. Each pattern's first match on the page text or HTML is an `Option<string>` input, and only the loops that try patterns in order are modelled. The four small patterns applied to values computed inside the loops are written as scanners in `PyText`.
- `_extract_from_position_elements`, `_extract_coordinates_from_map`, `_extract_coordinates_from_js` and `_extract_coordinates_from_source` (selenium_scraper.py:596-886) are not modelled step by step. Their writes arrive as an ordered list of `PositionEvent`s: fill lat, fill lon, or parse a coordinate text.
- `_try_direct_api_calls` (selenium_scraper.py:1010-1113) is not modelled: how it finds the ship id and fetches the position URL. Its decoded response is the `direct` argument. That response goes through the same API step, which is modelled.
- `json.loads` is an input: a `Json` value. Objects are entry lists with distinct keys, and a body that does not decode is its own case. Documents with duplicate keys are outside the model.
- `PyText.ParseFloat`: handles whitespace, a sign and a decimal number with an optional point. Exponents, `inf`, `nan` and digit underscores are treated as rejected. Real numbers stand in for IEEE doubles, so the rounding of `/ 1000000.0` is not modelled.
- `PyText.Lower`: lowers ASCII letters only.
- `PyText.FirstStart`: `\d` in the four small patterns, and the digits `float()` reads, are the ASCII digits only. Python also accepts every other Unicode decimal digit there (Arabic-Indic or full-width digits, for example).
- `PyText.Strip`: removes the characters `str.isspace()` accepts among ASCII, Latin-1 and the Unicode space separators. It does not follow later changes to Python's Unicode tables.
- `PyValues.Str`: renders a non-string value as an opaque `StrOf` value, not as its Python text.
- `DjangoTrigger.MessageText`: has no text for the success message when the posted mmsi is a float, a list or a dict, since `str()` of those is not spelled out.
- The PostHog captures `vessel_data_scraped` and `vessel_data_scrape_failed` in `get_vessel_details` (vesselfinder_scraper.py:264-276, 288-299) are not modelled. They are fixed property bags sent to an external service. Only the `local_comparison` events are modelled.
- `posthog.capture` and `requests.post` are outside the model. The model states only what is handed to them and what their answer (a `PostOutcome`) leads to.
- `datetime.now()` is outside the model: each capture's timestamp is a `now` argument (`PosthogEvent`, `ScraperEvent`, `ActionSend`), and the two readings of one VesselFinder action run are the `Clock` argument of `ActionMain`. A timestamp is kept as its ISO text. Logging and `print` output are also outside the model.
- Importing PostHog is modelled only as a boolean argument; a failed import is not.
- Exceptions other than the modelled ones are not covered: for example the driver failing mid-extractor, or the decoded request body failing in a Django view other than by not being an object. A failed VesselFinder session is `None` for the action's page.
- Command-line parsing with `argparse` is not modelled. The parsed arguments are a datatype. `--headless` and `--send-to-posthog` are store-true flags with default True, so they are always True.
- `main` of trigger_github_action.py is an example invocation and is not modelled.
- `get_ship_data_selenium` and `get_vessel_data` are not modelled. They only create the scraper, call `get_ship_details` / `get_vessel_details` and close the browser; the first also sends the MarineTraffic event when asked.
- `identifier_type` and the log lines built from it are not modelled, apart from the MMSI-over-IMO choice the URL makes.
