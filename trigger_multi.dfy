/**
 The unified trigger script: `trigger_scraper` validates the provider and
 identifiers, builds the client payload with its provider-specific entries
 and reports success exactly for a 204 answer; `trigger_all_providers`
 triggers MarineTraffic and then VesselFinder for one MMSI; `main` decides
 from the environment and the arguments what to trigger and the exit code.
 What `requests.post` returned is an input.
 */
module TriggerMulti {
  import opened Wrappers
  import opened PyText
  import opened PyValues
  import opened Dispatch

  const MarineTrafficProvider: string := "marinetraffic"
  const VesselFinderProvider: string := "vesselfinder"

  /** The event type of a (lower-cased) provider name; None for an unknown one. */
  function EventFor(provider: string): (e: Option<string>)
    ensures provider == MarineTrafficProvider ==> e == Some("scrape-marine-traffic")
    ensures provider == VesselFinderProvider ==> e == Some("scrape-vesselfinder")
    ensures e.None? <==> provider != MarineTrafficProvider && provider != VesselFinderProvider
  {
    if provider == MarineTrafficProvider then Some("scrape-marine-traffic")
    else if provider == VesselFinderProvider then Some("scrape-vesselfinder")
    else None
  }

  /** The checks before any request: MarineTraffic needs an MMSI, VesselFinder
      an MMSI or an IMO, and any other provider is refused. The success value
      is the event type; a failure carries the message printed. */
  function Validate(provider: string, mmsi: Option<string>, imo: Option<string>): (r: Result<string>)
    ensures r.Success? <==>
      (provider == MarineTrafficProvider && OptTruthy(mmsi))
      || (provider == VesselFinderProvider && (OptTruthy(mmsi) || OptTruthy(imo)))
    ensures r.Success? ==> EventFor(provider) == Some(r.value)
    ensures EventFor(provider).None? ==> r == Failure("Unknown provider: " + provider)
  {
    if provider == MarineTrafficProvider then
      if !OptTruthy(mmsi) then Failure("MMSI is required for MarineTraffic")
      else Success("scrape-marine-traffic")
    else if provider == VesselFinderProvider then
      if !OptTruthy(mmsi) && !OptTruthy(imo) then Failure("Either MMSI or IMO must be provided for VesselFinder")
      else Success("scrape-vesselfinder")
    else Failure("Unknown provider: " + provider)
  }

  /** `kwargs.get(k, False)`. */
  function KwargOrFalse(kwargs: seq<(string, Json)>, k: string): Json {
    match Lookup(kwargs, k)
    case None => JBool(false)
    case Some(v) => v
  }

  /** The entries the payload gets after the common four: `imo` for
      VesselFinder, the two DataDocked flags for MarineTraffic. */
  function ProviderEntries(provider: string, imo: Option<string>, kwargs: seq<(string, Json)>)
    : seq<(string, Json)>
  {
    if provider == VesselFinderProvider then [("imo", OptJson(imo))]
    else if provider == MarineTrafficProvider then
      [("fetch_datadocked", KwargOrFalse(kwargs, "fetch_datadocked")),
       ("fetch_datadocked_satellite", KwargOrFalse(kwargs, "fetch_datadocked_satellite"))]
    else []
  }

  /** The client payload: the four common entries, then the provider's own. */
  function ClientPayloadOf(provider: string, mmsi: Option<string>, imo: Option<string>,
                           comparisonId: Option<string>, headless: bool, sendToPosthog: bool,
                           kwargs: seq<(string, Json)>)
    : seq<(string, Json)>
  {
    CommonPayload(OptJson(mmsi), OptJson(comparisonId), headless, sendToPosthog)
      + ProviderEntries(provider, imo, kwargs)
  }

  /** Which provider-specific keys are present, and with which values. */
  lemma ProviderEntriesLookup(provider: string, imo: Option<string>, kwargs: seq<(string, Json)>)
    ensures var e := ProviderEntries(provider, imo, kwargs);
      Lookup(e, "imo") == (if provider == VesselFinderProvider then Some(OptJson(imo)) else None)
      && Lookup(e, "fetch_datadocked") ==
           (if provider == MarineTrafficProvider then Some(KwargOrFalse(kwargs, "fetch_datadocked")) else None)
      && Lookup(e, "fetch_datadocked_satellite") ==
           (if provider == MarineTrafficProvider then Some(KwargOrFalse(kwargs, "fetch_datadocked_satellite")) else None)
  {
    var e := ProviderEntries(provider, imo, kwargs);
    if provider == VesselFinderProvider {
      assert e[1..] == [];
      assert Lookup(e, "fetch_datadocked") == Lookup(e[1..], "fetch_datadocked");
      assert Lookup(e, "fetch_datadocked_satellite") == Lookup(e[1..], "fetch_datadocked_satellite");
    } else if provider == MarineTrafficProvider {
      var rest := [("fetch_datadocked_satellite", KwargOrFalse(kwargs, "fetch_datadocked_satellite"))];
      assert e[1..] == rest && rest[1..] == [];
      assert Lookup(e, "imo") == Lookup(rest, "imo") == Lookup(rest[1..], "imo");
      assert Lookup(e, "fetch_datadocked_satellite") == Lookup(rest, "fetch_datadocked_satellite");
    }
  }

  /** A key of the common four keeps its common value after the provider's
      entries are appended; any other key takes the appended entries' value. */
  lemma PayloadKey(mmsi: Json, comparisonId: Json, headless: bool, sendToPosthog: bool,
                   extra: seq<(string, Json)>, k: string)
    ensures var common := CommonPayload(mmsi, comparisonId, headless, sendToPosthog);
      Lookup(common + extra, k) == if k in CommonKeys then Lookup(common, k) else Lookup(extra, k)
  {
    var common := CommonPayload(mmsi, comparisonId, headless, sendToPosthog);
    LookupAppend(common, extra, k);
    if k in CommonKeys {
      assert Keys(common) == CommonKeys;
      var i :| 0 <= i < |CommonKeys| && CommonKeys[i] == k;
      assert i == 0 || i == 1 || i == 2 || i == 3;
    }
  }

  /** The entries of the client payload: the common four always, `imo` only
      for VesselFinder, the DataDocked flags (False unless passed) only for
      MarineTraffic. */
  lemma ClientPayloadEntries(provider: string, mmsi: Option<string>, imo: Option<string>,
                             comparisonId: Option<string>, headless: bool, sendToPosthog: bool,
                             kwargs: seq<(string, Json)>)
    ensures var p := ClientPayloadOf(provider, mmsi, imo, comparisonId, headless, sendToPosthog, kwargs);
      Lookup(p, "mmsi") == Some(OptJson(mmsi)) && Lookup(p, "comparison_id") == Some(OptJson(comparisonId))
      && Lookup(p, "headless") == Some(JBool(headless)) && Lookup(p, "send_to_posthog") == Some(JBool(sendToPosthog))
      && (Lookup(p, "imo").Some? <==> provider == VesselFinderProvider)
      && (provider == VesselFinderProvider ==> Lookup(p, "imo") == Some(OptJson(imo)))
      && (Lookup(p, "fetch_datadocked").Some? <==> provider == MarineTrafficProvider)
      && (provider == MarineTrafficProvider ==>
            Lookup(p, "fetch_datadocked") == Some(KwargOrFalse(kwargs, "fetch_datadocked"))
            && Lookup(p, "fetch_datadocked_satellite") == Some(KwargOrFalse(kwargs, "fetch_datadocked_satellite")))
  {
    var m, c := OptJson(mmsi), OptJson(comparisonId);
    var e := ProviderEntries(provider, imo, kwargs);
    ProviderEntriesLookup(provider, imo, kwargs);
    PayloadKey(m, c, headless, sendToPosthog, e, "mmsi");
    PayloadKey(m, c, headless, sendToPosthog, e, "comparison_id");
    PayloadKey(m, c, headless, sendToPosthog, e, "headless");
    PayloadKey(m, c, headless, sendToPosthog, e, "send_to_posthog");
    assert "imo" !in CommonKeys && "fetch_datadocked" !in CommonKeys && "fetch_datadocked_satellite" !in CommonKeys;
    PayloadKey(m, c, headless, sendToPosthog, e, "imo");
    PayloadKey(m, c, headless, sendToPosthog, e, "fetch_datadocked");
    PayloadKey(m, c, headless, sendToPosthog, e, "fetch_datadocked_satellite");
  }

  /** The client payload, built as the source builds it: the common dict,
      then the provider-specific keys inserted one at a time. */
  method BuildClientPayload(provider: string, mmsi: Option<string>, imo: Option<string>,
                            comparisonId: Option<string>, headless: bool, sendToPosthog: bool,
                            kwargs: seq<(string, Json)>)
    returns (p: seq<(string, Json)>)
    ensures p == ClientPayloadOf(provider, mmsi, imo, comparisonId, headless, sendToPosthog, kwargs)
  {
    p := CommonPayload(OptJson(mmsi), OptJson(comparisonId), headless, sendToPosthog);
    if provider == VesselFinderProvider {
      p := p + [("imo", OptJson(imo))];
    } else if provider == MarineTrafficProvider {
      var common := p;
      var f := ("fetch_datadocked", KwargOrFalse(kwargs, "fetch_datadocked"));
      var g := ("fetch_datadocked_satellite", KwargOrFalse(kwargs, "fetch_datadocked_satellite"));
      p := p + [f];
      p := p + [g];
      assert p == common + [f, g];
    }
  }

  /** The arguments of one `trigger_scraper` call. */
  datatype Invocation = Invocation(
    token: string, owner: string, name: string, provider: string,
    mmsi: Option<string>, imo: Option<string>, comparisonId: Option<string>,
    headless: bool, sendToPosthog: bool, kwargs: seq<(string, Json)>)

  /** The request `trigger_scraper` posts, or None when validation returns
      False before any request. */
  function DispatchFor(inv: Invocation): (r: Option<DispatchRequest>)
    ensures r.None? <==> Validate(Lower(inv.provider), inv.mmsi, inv.imo).Failure?
    ensures r.Some? ==>
      r.value.headers == DispatchHeaders(inv.token)
      && ('/' !in inv.owner ==> RepoOfUrl(r.value.url) == Some((inv.owner, inv.name)))
      && EventType(r.value.payload) == EventFor(Lower(inv.provider))
      && ClientPayload(r.value.payload) == Some(ClientPayloadOf(Lower(inv.provider), inv.mmsi, inv.imo,
           inv.comparisonId, inv.headless, inv.sendToPosthog, inv.kwargs))
  {
    var provider := Lower(inv.provider);
    match Validate(provider, inv.mmsi, inv.imo)
    case Failure(_) => None
    case Success(e) =>
      Some(DispatchTo(inv.token, inv.owner, inv.name, e,
        ClientPayloadOf(provider, inv.mmsi, inv.imo, inv.comparisonId, inv.headless, inv.sendToPosthog, inv.kwargs)))
  }

  /** `trigger_scraper`: the request posted, if any, and the result, which
      is True exactly when a request went out and GitHub answered 204. */
  method TriggerScraper(inv: Invocation, outcome: PostOutcome) returns (sent: Option<DispatchRequest>, ok: bool)
    ensures sent == DispatchFor(inv)
    ensures ok <==> sent.Some? && outcome.Responded? && outcome.status == 204
  {
    var provider := Lower(inv.provider);
    var event := Validate(provider, inv.mmsi, inv.imo);
    if event.Failure? {
      return None, false;
    }
    var client := BuildClientPayload(provider, inv.mmsi, inv.imo, inv.comparisonId, inv.headless,
                                     inv.sendToPosthog, inv.kwargs);
    var request := DispatchRequest(DispatchUrl(inv.owner, inv.name), DispatchHeaders(inv.token),
                                   DispatchBody(event.value, client));
    sent := Some(request);
    ok := outcome.Responded? && outcome.status == 204;
  }

  /** The call `trigger_all_providers` makes for one provider. */
  function AllInvocation(token: string, owner: string, name: string, provider: string, mmsi: string,
                         comparisonId: Option<string>, headless: bool, sendToPosthog: bool)
    : Invocation
  {
    Invocation(token, owner, name, provider, Some(mmsi), None, comparisonId, headless, sendToPosthog, [])
  }

  lemma ProviderNamesLowered(t: string)
    requires t == MarineTrafficProvider || t == VesselFinderProvider
    ensures Lower(t) == t
  {
    LowerUnchanged(t);
  }

  /** A provider named by `trigger_all_providers` is dispatched exactly when
      the MMSI is non-empty, with that provider's event type. */
  lemma AllInvocationDispatch(token: string, owner: string, name: string, provider: string, mmsi: string,
                              comparisonId: Option<string>, headless: bool, sendToPosthog: bool)
    requires provider == MarineTrafficProvider || provider == VesselFinderProvider
    ensures var r := DispatchFor(AllInvocation(token, owner, name, provider, mmsi, comparisonId, headless, sendToPosthog));
      (r.Some? <==> mmsi != "")
      && (r.Some? ==> EventType(r.value.payload) == EventFor(provider))
  {
    var inv := AllInvocation(token, owner, name, provider, mmsi, comparisonId, headless, sendToPosthog);
    ProviderNamesLowered(provider);
    assert Lower(inv.provider) == provider;
    var v := Validate(provider, Some(mmsi), None);
    assert v.Success? <==> OptTruthy(Some(mmsi));
    assert DispatchFor(inv).None? <==> v.Failure?;
  }

  /** The two requests `trigger_all_providers` posts for a non-empty MMSI:
      MarineTraffic first, then VesselFinder, both to the same repository. */
  function AllRequests(token: string, owner: string, name: string, mmsi: string,
                       comparisonId: Option<string>, headless: bool, sendToPosthog: bool)
    : (rs: seq<DispatchRequest>)
    requires mmsi != ""
    ensures |rs| == 2
    ensures EventType(rs[0].payload) == Some("scrape-marine-traffic")
    ensures EventType(rs[1].payload) == Some("scrape-vesselfinder")
    ensures rs[0].headers == DispatchHeaders(token) && rs[1].headers == DispatchHeaders(token)
    ensures '/' !in owner ==> RepoOfUrl(rs[0].url) == Some((owner, name)) && RepoOfUrl(rs[1].url) == Some((owner, name))
  {
    var mt := AllInvocation(token, owner, name, MarineTrafficProvider, mmsi, comparisonId, headless, sendToPosthog);
    var vf := AllInvocation(token, owner, name, VesselFinderProvider, mmsi, comparisonId, headless, sendToPosthog);
    AllInvocationDispatch(token, owner, name, MarineTrafficProvider, mmsi, comparisonId, headless, sendToPosthog);
    AllInvocationDispatch(token, owner, name, VesselFinderProvider, mmsi, comparisonId, headless, sendToPosthog);
    [DispatchFor(mt).value, DispatchFor(vf).value]
  }

  /** `trigger_all_providers`: MarineTraffic first, then VesselFinder, with
      the same MMSI; the result maps exactly those two names to whether each
      dispatch was accepted, which needs a non-empty MMSI and a 204 answer. */
  method TriggerAllProviders(token: string, owner: string, name: string, mmsi: string,
                             comparisonId: Option<string>, headless: bool, sendToPosthog: bool,
                             marineTrafficOutcome: PostOutcome, vesselFinderOutcome: PostOutcome)
    returns (results: map<string, bool>, sent: seq<DispatchRequest>)
    ensures results.Keys == {MarineTrafficProvider, VesselFinderProvider}
    ensures results[MarineTrafficProvider] <==> mmsi != "" && Accepted(marineTrafficOutcome)
    ensures results[VesselFinderProvider] <==> mmsi != "" && Accepted(vesselFinderOutcome)
    ensures sent == if mmsi == "" then [] else AllRequests(token, owner, name, mmsi, comparisonId, headless, sendToPosthog)
  {
    AllInvocationDispatch(token, owner, name, MarineTrafficProvider, mmsi, comparisonId, headless, sendToPosthog);
    AllInvocationDispatch(token, owner, name, VesselFinderProvider, mmsi, comparisonId, headless, sendToPosthog);
    results := map[];
    sent := [];
    var mt := AllInvocation(token, owner, name, MarineTrafficProvider, mmsi, comparisonId, headless, sendToPosthog);
    var r1, ok1 := TriggerScraper(mt, marineTrafficOutcome);
    results := results[MarineTrafficProvider := ok1];
    if r1.Some? {
      sent := sent + [r1.value];
    }
    var vf := AllInvocation(token, owner, name, VesselFinderProvider, mmsi, comparisonId, headless, sendToPosthog);
    var r2, ok2 := TriggerScraper(vf, vesselFinderOutcome);
    results := results[VesselFinderProvider := ok2];
    if r2.Some? {
      sent := sent + [r2.value];
    }
  }

  // ---------------------------------------------------------------------------
  // main

  /** The `--provider` choices argparse accepts. */
  datatype ProviderChoice = ChooseMarineTraffic | ChooseVesselFinder | ChooseAll

  function ChoiceName(c: ProviderChoice): string {
    match c
    case ChooseMarineTraffic => MarineTrafficProvider
    case ChooseVesselFinder => VesselFinderProvider
    case ChooseAll => "all"
  }

  /** The parsed command line; `--headless` and `--send-to-posthog` are
      store-true flags that default to True, so both are always True. */
  datatype MainArgs = MainArgs(
    provider: ProviderChoice, mmsi: Option<string>, imo: Option<string>, comparisonId: Option<string>)

  /** GITHUB_TOKEN, GITHUB_REPO_OWNER and GITHUB_REPO_NAME; None when unset. */
  datatype MainEnv = MainEnv(token: Option<string>, owner: Option<string>, name: Option<string>)

  function RepoOwner(env: MainEnv): string {
    if env.owner.Some? then env.owner.value else "your-username"
  }

  function RepoName(env: MainEnv): string {
    if env.name.Some? then env.name.value else "marine-traffic-scrapping"
  }

  /** The requests `main` posts and its exit status (0 for a normal return). */
  datatype MainOutcome = MainOutcome(sent: seq<DispatchRequest>, exitCode: int)

  /** `main` goes on to trigger: a token, some identifier, and an MMSI when
      every provider is asked for. */
  predicate Proceeds(env: MainEnv, args: MainArgs) {
    OptTruthy(env.token) && (OptTruthy(args.mmsi) || OptTruthy(args.imo))
    && (args.provider == ChooseAll ==> OptTruthy(args.mmsi))
  }

  /** The single-provider call `main` makes. */
  function SingleInvocation(env: MainEnv, args: MainArgs): Invocation
    requires env.token.Some?
  {
    Invocation(env.token.value, RepoOwner(env), RepoName(env), ChoiceName(args.provider),
               args.mmsi, args.imo, args.comparisonId, true, true, [])
  }

  /** `main`: the checks that return early, then either both providers or
      the chosen one; `first` and `second` are the answers to the posts in
      order. The process fails exactly when some trigger reported failure. */
  function MainRun(env: MainEnv, args: MainArgs, first: PostOutcome, second: PostOutcome): (m: MainOutcome)
    ensures !Proceeds(env, args) ==> m == MainOutcome([], 0)
    ensures Proceeds(env, args) && args.provider == ChooseAll ==>
      m.sent == AllRequests(env.token.value, RepoOwner(env), RepoName(env), args.mmsi.value, args.comparisonId, true, true)
      && (m.exitCode == 0 <==> Accepted(first) && Accepted(second))
    ensures Proceeds(env, args) && args.provider != ChooseAll ==>
      (m.sent == if DispatchFor(SingleInvocation(env, args)).Some? then [DispatchFor(SingleInvocation(env, args)).value] else [])
      && (m.exitCode == 0 <==> m.sent != [] && Accepted(first))
    ensures m.exitCode == 0 || m.exitCode == 1
  {
    if !OptTruthy(env.token) then MainOutcome([], 0)
    else if !OptTruthy(args.mmsi) && !OptTruthy(args.imo) then MainOutcome([], 0)
    else if args.provider == ChooseAll then
      if !OptTruthy(args.mmsi) then MainOutcome([], 0)
      else
        var ok := Accepted(first) && Accepted(second);
        MainOutcome(AllRequests(env.token.value, RepoOwner(env), RepoName(env), args.mmsi.value,
                                args.comparisonId, true, true), if ok then 0 else 1)
    else
      match DispatchFor(SingleInvocation(env, args))
      case None => MainOutcome([], 1)
      case Some(r) => MainOutcome([r], if Accepted(first) then 0 else 1)
  }

  /** Every request `main` posts carries the token's headers and names the
      configured repository, the owner and name defaulting when unset. */
  lemma MainRunTargetsRepository(env: MainEnv, args: MainArgs, first: PostOutcome, second: PostOutcome)
    ensures var m := MainRun(env, args, first, second);
      forall i | 0 <= i < |m.sent| ::
        m.sent[i].headers == DispatchHeaders(env.token.value)
        && ('/' !in RepoOwner(env) ==> RepoOfUrl(m.sent[i].url) == Some((RepoOwner(env), RepoName(env))))
  {
  }

  /** A single-provider run whose identifiers the provider refuses ends with
      status 1 and posts nothing: MarineTraffic asked for with only an IMO. */
  lemma MarineTrafficWithoutMmsiFails(env: MainEnv, args: MainArgs, first: PostOutcome, second: PostOutcome)
    requires OptTruthy(env.token) && args.provider == ChooseMarineTraffic
    requires !OptTruthy(args.mmsi) && OptTruthy(args.imo)
    ensures MainRun(env, args, first, second) == MainOutcome([], 1)
  {
    ProviderNamesLowered(MarineTrafficProvider);
  }

  /** A single VesselFinder run with only an IMO posts one request whose
      client payload carries that IMO. */
  lemma VesselFinderByImo(env: MainEnv, args: MainArgs, first: PostOutcome, second: PostOutcome)
    requires OptTruthy(env.token) && args.provider == ChooseVesselFinder
    requires !OptTruthy(args.mmsi) && OptTruthy(args.imo)
    ensures var m := MainRun(env, args, first, second);
      |m.sent| == 1 && EventType(m.sent[0].payload) == Some("scrape-vesselfinder")
      && ClientPayload(m.sent[0].payload).Some?
      && Lookup(ClientPayload(m.sent[0].payload).value, "imo") == Some(JStr(args.imo.value))
  {
    ProviderNamesLowered(VesselFinderProvider);
    ClientPayloadEntries(VesselFinderProvider, args.mmsi, args.imo, args.comparisonId, true, true, []);
  }
}
