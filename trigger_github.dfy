/**
 `trigger_marine_traffic_scraper`: one `repository_dispatch` request with the
 fixed event type `scrape-marine-traffic`, the caller's arguments echoed in
 the client payload, and success exactly when GitHub answers 204.
 */
module TriggerGithub {
  import opened Wrappers
  import opened PyValues
  import opened Dispatch

  const MarineTrafficEvent: string := "scrape-marine-traffic"

  /** The request `trigger_marine_traffic_scraper` posts. */
  function MarineTrafficRequest(token: string, owner: string, name: string, mmsi: string,
                                comparisonId: Option<string>, headless: bool, sendToPosthog: bool)
    : (r: DispatchRequest)
    ensures r.headers == DispatchHeaders(token)
    ensures '/' !in owner ==> RepoOfUrl(r.url) == Some((owner, name))
    ensures EventType(r.payload) == Some(MarineTrafficEvent)
    ensures var p := ClientPayload(r.payload);
      p.Some? && Keys(p.value) == CommonKeys
      && Lookup(p.value, "mmsi") == Some(JStr(mmsi))
      && Lookup(p.value, "comparison_id") == Some(OptJson(comparisonId))
      && Lookup(p.value, "headless") == Some(JBool(headless))
      && Lookup(p.value, "send_to_posthog") == Some(JBool(sendToPosthog))
  {
    DispatchTo(token, owner, name, MarineTrafficEvent,
               CommonPayload(JStr(mmsi), OptJson(comparisonId), headless, sendToPosthog))
  }

  /** `trigger_marine_traffic_scraper`: the request is always posted; the
      result is True for a 204 answer and False for any other status, a
      timeout or any other exception. */
  function TriggerMarineTrafficScraper(token: string, owner: string, name: string, mmsi: string,
                                       comparisonId: Option<string>, headless: bool, sendToPosthog: bool,
                                       outcome: PostOutcome)
    : (res: (DispatchRequest, bool))
    ensures res.0 == MarineTrafficRequest(token, owner, name, mmsi, comparisonId, headless, sendToPosthog)
    ensures res.1 <==> outcome.Responded? && outcome.status == 204
    ensures outcome.TimedOut? || outcome.Raised? ==> !res.1
  {
    (MarineTrafficRequest(token, owner, name, mmsi, comparisonId, headless, sendToPosthog), Accepted(outcome))
  }
}
