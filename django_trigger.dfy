/**
 The Django integration: a service that posts the MarineTraffic dispatch from
 the site's settings and describes the outcome in a result dict, and the POST
 view that reads `mmsi` and `comparison_id` from a JSON body and answers with
 that dict and a status code. The decoded request body and what
 `requests.post` returned are inputs.
 */
module DjangoTrigger {
  import opened Wrappers
  import opened PyText
  import opened PyValues
  import opened Dispatch
  import opened TriggerGithub

  /** GITHUB_TOKEN, GITHUB_REPO_OWNER and GITHUB_REPO_NAME from the settings;
      None when the setting is absent. */
  datatype TriggerConfig = TriggerConfig(token: Option<string>, owner: Option<string>, name: Option<string>)

  function RepoName(c: TriggerConfig): string {
    if c.name.Some? then c.name.value else "marine-traffic-scrapping"
  }

  /** Both the token and the owner are present and non-empty. */
  predicate Configured(c: TriggerConfig) {
    OptTruthy(c.token) && OptTruthy(c.owner)
  }

  /** A result message: a fixed text, or the success message, which embeds
      `str(mmsi)` of whatever JSON value the caller sent. */
  datatype Message = Plain(text: string) | TriggeredFor(mmsi: Json)

  /** The result dict: `success`, `message`, and the entries after them. */
  datatype ResultDict = ResultDict(success: bool, message: Message, extra: seq<(string, Json)>)

  const TriggeredPrefix: string := "Scraper triggered successfully for MMSI: "
  const ApiErrorPrefix: string := "GitHub API error: "

  /** Python `str()` of a decoded JSON value, where it is spelled out here. */
  function JsonStr(j: Json): (s: Option<string>)
    ensures j.JStr? ==> s == Some(j.s)
    ensures j.JInt? ==> s.Some? && ParseInt(s.value) == Some(j.i)
  {
    match j
    case JNull => Some("None")
    case JBool(b) => Some(if b then "True" else "False")
    case JInt(i) => IntToDecimalRoundTrip(i); Some(IntToDecimal(i))
    case JStr(t) => Some(t)
    case _ => None
  }

  /** The text of a message; None where `str()` of a float, a list or a dict
      would be needed. */
  function MessageText(m: Message): (t: Option<string>)
    ensures m.Plain? ==> t == Some(m.text)
    ensures m.TriggeredFor? && t.Some? ==> StartsWith(t.value, TriggeredPrefix)
  {
    match m
    case Plain(s) => Some(s)
    case TriggeredFor(j) =>
      match JsonStr(j)
      case None => None
      case Some(s) => Some(TriggeredPrefix + s)
  }

  /** The status code read back from an API-error message. */
  function ApiErrorStatus(d: ResultDict): Option<int> {
    if d.message.Plain? && StartsWith(d.message.text, ApiErrorPrefix) then
      ParseInt(d.message.text[|ApiErrorPrefix|..])
    else None
  }

  /** The request the service posts once it is configured. */
  function ServiceRequest(c: TriggerConfig, mmsi: Json, comparisonId: Json): (r: DispatchRequest)
    requires Configured(c)
    ensures r.headers == DispatchHeaders(c.token.value)
    ensures '/' !in c.owner.value ==> RepoOfUrl(r.url) == Some((c.owner.value, RepoName(c)))
    ensures EventType(r.payload) == Some(MarineTrafficEvent)
    ensures ClientPayload(r.payload) == Some(CommonPayload(mmsi, comparisonId, true, true))
  {
    DispatchTo(c.token.value, c.owner.value, RepoName(c), MarineTrafficEvent,
               CommonPayload(mmsi, comparisonId, true, true))
  }

  /** `trigger_scraper`: nothing is posted without a token and an owner;
      otherwise the dispatch is posted and the dict reports success exactly
      for a 204 answer, the status and response text for another answer, a
      timeout, or the text of any other exception. */
  function TriggerScraper(c: TriggerConfig, mmsi: Json, comparisonId: Json, outcome: PostOutcome)
    : (res: (Option<DispatchRequest>, ResultDict))
    ensures res.0.None? <==> !Configured(c)
    ensures res.0.Some? ==> res.0.value == ServiceRequest(c, mmsi, comparisonId)
    ensures !Configured(c) ==> res.1 == ResultDict(false, Plain("GitHub configuration missing"), [])
    ensures res.1.success <==> Configured(c) && Accepted(outcome)
    ensures res.1.success ==>
      res.1.message == TriggeredFor(mmsi) && res.1.extra == [("mmsi", mmsi), ("comparison_id", comparisonId)]
    ensures Configured(c) && outcome.Responded? && outcome.status != 204 ==>
      ApiErrorStatus(res.1) == Some(outcome.status) && res.1.extra == [("details", JStr(outcome.body))]
    ensures Configured(c) && outcome.TimedOut? ==> res.1 == ResultDict(false, Plain("Request timeout"), [])
    ensures Configured(c) && outcome.Raised? ==> res.1 == ResultDict(false, Plain("Error: " + outcome.error), [])
  {
    if !Configured(c) then (None, ResultDict(false, Plain("GitHub configuration missing"), []))
    else
      var request := ServiceRequest(c, mmsi, comparisonId);
      match outcome
      case Responded(status, body) =>
        if status == 204 then
          (Some(request), ResultDict(true, TriggeredFor(mmsi), [("mmsi", mmsi), ("comparison_id", comparisonId)]))
        else
          var text := ApiErrorPrefix + IntToDecimal(status);
          IntToDecimalRoundTrip(status);
          assert text[..|ApiErrorPrefix|] == ApiErrorPrefix && text[|ApiErrorPrefix|..] == IntToDecimal(status);
          (Some(request), ResultDict(false, Plain(text), [("details", JStr(body))]))
      case TimedOut => (Some(request), ResultDict(false, Plain("Request timeout"), []))
      case Raised(e) => (Some(request), ResultDict(false, Plain("Error: " + e), []))
  }

  /** For a textual MMSI and comparison id, the service posts exactly what the
      stand-alone trigger script posts with both flags on. */
  lemma ServiceMatchesScript(c: TriggerConfig, mmsi: string, comparisonId: Option<string>, outcome: PostOutcome)
    requires Configured(c)
    ensures TriggerScraper(c, JStr(mmsi), OptJson(comparisonId), outcome).0
      == Some(MarineTrafficRequest(c.token.value, c.owner.value, RepoName(c), mmsi, comparisonId, true, true))
  {
  }

  // ---------------------------------------------------------------------------
  // The POST views

  /** `data.get(k)` on a decoded JSON object. */
  function Get(ms: seq<(string, Json)>, k: string): Json {
    match Lookup(ms, k)
    case None => JNull
    case Some(v) => v
  }

  /** The Python type name of a decoded JSON value that is not a dict. */
  function TypeName(j: Json): string {
    match j
    case JNull => "NoneType"
    case JBool(_) => "bool"
    case JInt(_) => "int"
    case JFloat(_) => "float"
    case JStr(_) => "str"
    case JArr(_) => "list"
    case JObj(_) => "dict"
  }

  datatype ViewResponse = ViewResponse(status: int, body: ResultDict)

  /** The POST handler: `body` is the decoded request body, None when it is
      not valid JSON. A body that is not a JSON object fails on `.get` and is
      answered 500 with the attribute error's text. */
  function ViewPost(c: TriggerConfig, body: Option<Json>, outcome: PostOutcome)
    : (v: (Option<DispatchRequest>, ViewResponse))
    ensures body.None? ==>
      v == (None, ViewResponse(400, ResultDict(false, Plain("Invalid JSON in request body"), [])))
    ensures body.Some? && !body.value.JObj? ==>
      v == (None, ViewResponse(500, ResultDict(false,
        Plain("Server error: '" + TypeName(body.value) + "' object has no attribute 'get'"), [])))
    ensures body.Some? && body.value.JObj? && !JsonTruthy(Get(body.value.members, "mmsi")) ==>
      v == (None, ViewResponse(400, ResultDict(false, Plain("MMSI is required"), [])))
    ensures body.Some? && body.value.JObj? && JsonTruthy(Get(body.value.members, "mmsi")) ==>
      var mmsi := Get(body.value.members, "mmsi");
      var comparisonId := Get(body.value.members, "comparison_id");
      v.0 == TriggerScraper(c, mmsi, comparisonId, outcome).0
      && v.1.body == TriggerScraper(c, mmsi, comparisonId, outcome).1
    ensures v.1.status == 200 <==> v.1.body.success
    ensures v.1.status == 200 || v.1.status == 400 || v.1.status == 500
    ensures v.1.body.success <==>
      body.Some? && body.value.JObj? && JsonTruthy(Get(body.value.members, "mmsi")) && Configured(c) && Accepted(outcome)
  {
    match body
    case None => (None, ViewResponse(400, ResultDict(false, Plain("Invalid JSON in request body"), [])))
    case Some(JObj(ms)) =>
      var mmsi := Get(ms, "mmsi");
      var comparisonId := Get(ms, "comparison_id");
      if !JsonTruthy(mmsi) then (None, ViewResponse(400, ResultDict(false, Plain("MMSI is required"), [])))
      else
        var (sent, result) := TriggerScraper(c, mmsi, comparisonId, outcome);
        (sent, ViewResponse(if result.success then 200 else 500, result))
    case Some(j) =>
      (None, ViewResponse(500, ResultDict(false,
        Plain("Server error: '" + TypeName(j) + "' object has no attribute 'get'"), [])))
  }

  /** A well-formed request whose MMSI is a string is answered 200 exactly
      when GitHub accepts the dispatch, and the success message then names
      that MMSI. */
  lemma ViewSucceedsForAcceptedDispatch(c: TriggerConfig, ms: seq<(string, Json)>, mmsi: string, outcome: PostOutcome)
    requires Lookup(ms, "mmsi") == Some(JStr(mmsi)) && mmsi != ""
    ensures var v := ViewPost(c, Some(JObj(ms)), outcome);
      (v.1.status == 200 <==> Configured(c) && Accepted(outcome))
      && (v.1.status == 200 ==> MessageText(v.1.body.message) == Some(TriggeredPrefix + mmsi))
  {
  }
}
