/**
 The GitHub `repository_dispatch` request every trigger script sends: the
 endpoint address built from the repository owner and name, the three
 headers, the `{event_type, client_payload}` body, and the outcome of the
 POST, which the model receives as an input.
 */
module Dispatch {
  import opened Wrappers
  import opened PyText
  import opened PyValues

  const ApiRoot: string := "https://api.github.com/repos/"
  const DispatchesSuffix: string := "/dispatches"

  /** `f"https://api.github.com/repos/{owner}/{name}/dispatches"`. */
  function DispatchUrl(owner: string, name: string): (u: string)
    ensures StartsWith(u, ApiRoot) && EndsWith(u, DispatchesSuffix)
    ensures |ApiRoot| + |DispatchesSuffix| <= |u|
    ensures u[|ApiRoot|..|u| - |DispatchesSuffix|] == owner + "/" + name
  {
    var u := ApiRoot + owner + "/" + name + DispatchesSuffix;
    assert u[..|ApiRoot|] == ApiRoot;
    assert u[|u| - |DispatchesSuffix|..] == DispatchesSuffix;
    u
  }

  /** The owner and repository a dispatch address names. */
  function RepoOfUrl(u: string): Option<(string, string)> {
    if StartsWith(u, ApiRoot) && EndsWith(u, DispatchesSuffix) && |ApiRoot| + |DispatchesSuffix| <= |u| then
      SplitAtFirst(u[|ApiRoot|..|u| - |DispatchesSuffix|], '/')
    else None
  }

  /** The address names the repository it was built from, as long as the
      owner holds no slash. */
  lemma DispatchUrlNamesRepo(owner: string, name: string)
    ensures '/' !in owner ==> RepoOfUrl(DispatchUrl(owner, name)) == Some((owner, name))
  {
    if '/' !in owner {
      SplitAtFirstJoined(owner, name, '/');
    }
  }

  const TokenPrefix: string := "token "

  /** The Authorization, Accept and Content-Type headers of the POST. */
  function DispatchHeaders(token: string): (h: map<string, string>)
    ensures h.Keys == {"Authorization", "Accept", "Content-Type"}
    ensures h["Accept"] == "application/vnd.github.v3+json" && h["Content-Type"] == "application/json"
    ensures TokenOf(h) == Some(token)
  {
    var auth := TokenPrefix + token;
    assert auth[..|TokenPrefix|] == TokenPrefix && auth[|TokenPrefix|..] == token;
    map["Authorization" := auth, "Accept" := "application/vnd.github.v3+json",
        "Content-Type" := "application/json"]
  }

  /** The token a `token <github_token>` Authorization header carries. */
  function TokenOf(h: map<string, string>): Option<string> {
    if "Authorization" in h && StartsWith(h["Authorization"], TokenPrefix) then
      Some(h["Authorization"][|TokenPrefix|..])
    else None
  }

  /** What `requests.post` did: answered with a status and a body text,
      raised `requests.exceptions.Timeout`, or raised another exception. */
  datatype PostOutcome = Responded(status: int, body: string) | TimedOut | Raised(error: string)

  /** GitHub answers 204 No Content to an accepted dispatch. */
  predicate Accepted(o: PostOutcome) {
    o.Responded? && o.status == 204
  }

  /** An optional string argument as it goes into a JSON body. */
  function OptJson(s: Option<string>): (j: Json)
    ensures j == JNull <==> s.None?
  {
    match s
    case None => JNull
    case Some(t) => JStr(t)
  }

  /** A request handed to `requests.post`. */
  datatype DispatchRequest = DispatchRequest(url: string, headers: map<string, string>, payload: Json)

  /** `{"event_type": ..., "client_payload": {...}}`. */
  function DispatchBody(eventType: string, client: seq<(string, Json)>): (j: Json)
    ensures EventType(j) == Some(eventType) && ClientPayload(j) == Some(client)
  {
    var ms := [("event_type", JStr(eventType)), ("client_payload", JObj(client))];
    assert ms[1..] == [("client_payload", JObj(client))];
    assert |ms[0].0| != |"client_payload"|;
    assert Lookup(ms, "client_payload") == Lookup(ms[1..], "client_payload") == Some(JObj(client));
    assert Lookup(ms, "event_type") == Some(JStr(eventType));
    JObj(ms)
  }

  function EventType(j: Json): Option<string> {
    if j.JObj? then
      match Lookup(j.members, "event_type")
      case Some(JStr(e)) => Some(e)
      case _ => None
    else None
  }

  function ClientPayload(j: Json): Option<seq<(string, Json)>> {
    if j.JObj? then
      match Lookup(j.members, "client_payload")
      case Some(JObj(ms)) => Some(ms)
      case _ => None
    else None
  }

  /** The request to the dispatch endpoint of `owner/name`. */
  function DispatchTo(token: string, owner: string, name: string, eventType: string, client: seq<(string, Json)>)
    : (r: DispatchRequest)
    ensures StartsWith(r.url, ApiRoot) && r.headers == DispatchHeaders(token)
    ensures '/' !in owner ==> RepoOfUrl(r.url) == Some((owner, name))
    ensures EventType(r.payload) == Some(eventType) && ClientPayload(r.payload) == Some(client)
  {
    DispatchUrlNamesRepo(owner, name);
    DispatchRequest(DispatchUrl(owner, name), DispatchHeaders(token), DispatchBody(eventType, client))
  }

  const CommonKeys: seq<string> := ["mmsi", "comparison_id", "headless", "send_to_posthog"]

  /** The four client-payload entries every trigger sends, in this order. */
  function CommonPayload(mmsi: Json, comparisonId: Json, headless: bool, sendToPosthog: bool)
    : (p: seq<(string, Json)>)
    ensures Keys(p) == CommonKeys
    ensures Lookup(p, "mmsi") == Some(mmsi) && Lookup(p, "comparison_id") == Some(comparisonId)
    ensures Lookup(p, "headless") == Some(JBool(headless))
    ensures Lookup(p, "send_to_posthog") == Some(JBool(sendToPosthog))
    ensures forall k | k !in CommonKeys :: Lookup(p, k).None?
  {
    var p3 := [("send_to_posthog", JBool(sendToPosthog))];
    var p2 := [("headless", JBool(headless))] + p3;
    var p1 := [("comparison_id", comparisonId)] + p2;
    var p := [("mmsi", mmsi)] + p1;
    assert p[1..] == p1 && p1[1..] == p2 && p2[1..] == p3 && p3[1..] == [];
    assert Lookup(p3, "send_to_posthog") == Some(JBool(sendToPosthog));
    assert Lookup(p2, "headless") == Some(JBool(headless));
    assert Lookup(p2, "send_to_posthog") == Some(JBool(sendToPosthog));
    assert Lookup(p1, "headless") == Some(JBool(headless));
    assert Lookup(p1, "send_to_posthog") == Some(JBool(sendToPosthog));
    assert Keys(p)[0] == "mmsi" && Keys(p)[1] == "comparison_id" && Keys(p)[2] == "headless";
    assert Keys(p)[3] == "send_to_posthog";
    forall k | k !in CommonKeys
      ensures Lookup(p, k).None?
    {
      assert k != "mmsi" && k != "comparison_id" && k != "headless" && k != "send_to_posthog";
      assert Lookup(p3, k) == Lookup(p3[1..], k) == None;
      assert Lookup(p, k) == Lookup(p1, k) == Lookup(p2, k) == Lookup(p3, k);
    }
    p
  }

  /** The keys of a JSON object, in order. */
  function Keys(ms: seq<(string, Json)>): (ks: seq<string>)
    ensures |ks| == |ms| && forall i | 0 <= i < |ms| :: ks[i] == ms[i].0
  {
    if ms == [] then [] else [ms[0].0] + Keys(ms[1..])
  }
}
