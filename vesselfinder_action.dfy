/**
 The GitHub Actions entry point for VesselFinder: it checks its arguments and
 credentials, runs `get_vessel_data` (which builds the record and may itself
 send a `local_comparison` event), and then pushes its own `local_comparison`
 event when a comparison id was given. The browser session is an input: None
 when the driver or the login fails.
 */
module VesselFinderAction {
  import opened Wrappers
  import opened PyText
  import opened PyValues
  import opened Records
  import opened VesselFinderRules

  const ActionProvider: string := "VesselFinder"

  /** The record's mmsi as the action reports it: a string value has its
      double quotes stripped, and when that leaves nothing (or the value is
      falsy) the raw value is reported instead. */
  function ActionMmsi(r: Record): (m: Value)
    ensures m.Text? || m.StrOf?
    ensures Mmsi !in r ==> m == Text("")
    ensures Mmsi in r && r[Mmsi].Text? && Strip(r[Mmsi].s, Some('"')) != "" ==>
      m == Text(Strip(r[Mmsi].s, Some('"')))
    ensures Mmsi in r && r[Mmsi].Text? && Strip(r[Mmsi].s, Some('"')) == "" ==> m == r[Mmsi]
  {
    var v := GetOr(r, Mmsi, Null);
    var cleaned :=
      match v
      case Text(s) => if s != "" then Text(Strip(s, Some('"'))) else v
      case Raw(JStr(s)) => if s != "" then Text(Strip(s, Some('"'))) else v
      case _ => v;
    if Truthy(cleaned) then Str(cleaned) else Str(GetOr(r, Mmsi, Text("")))
  }

  /** A record whose mmsi is already free of quotes is reported as the
      scraper reports it. */
  lemma ActionMmsiAgreesOnCleanValues(r: Record)
    requires Mmsi in r && r[Mmsi].Text? && r[Mmsi].s != ""
    requires r[Mmsi].s[0] != '"' && r[Mmsi].s[|r[Mmsi].s| - 1] != '"'
    ensures ActionMmsi(r) == Str(GetOr(r, Mmsi, Text("")))
  {
    var s := r[Mmsi].s;
    StripClean(s, Some('"'));
  }

  /** `send_to_posthog`: the event pushed, or None when there is no API key
      or a numeric property does not convert (the function then returns
      False); `now` is the time it reads from the clock. */
  function ActionSend(r: Record, comparisonId: string, apiKey: Option<string>, now: string): (e: Option<VesselEvent>)
    ensures e.Some? <==> OptTruthy(apiKey) && FloatsConvert(r)
    ensures e.Some? ==>
      e.value.provider == ActionProvider && e.value.dataSource == ActionProvider
      && e.value.mmsi == ActionMmsi(r) && e.value.comparisonId == Text(comparisonId)
      && e.value.timestamp == now
  {
    if !OptTruthy(apiKey) then None
    else if !FloatsConvert(r) then None
    else Some(EventOf(r, ActionProvider, ActionMmsi(r), Text(comparisonId), now))
  }

  /** The action's event differs from the scraper's own event only in the
      provider and data-source names, in how the mmsi is cleaned and in the
      time each sender read from the clock. */
  lemma ActionEventMirrorsScraperEvent(r: Record, comparisonId: string, apiKey: Option<string>,
                                       scrapeNow: string, pushNow: string)
    requires OptTruthy(apiKey) && FloatsConvert(r)
    ensures ActionSend(r, comparisonId, apiKey, pushNow).value
      == ScraperEvent(r, comparisonId, scrapeNow).value.(provider := ActionProvider, dataSource := ActionProvider,
                                                         mmsi := ActionMmsi(r), timestamp := pushNow)
  {
  }

  // ---------------------------------------------------------------------------
  // main

  /** The parsed command line; `--headless` and `--send-to-posthog` are
      store-true flags that default to True, so both are always True. */
  datatype ActionArgs = ActionArgs(mmsi: Option<string>, imo: Option<string>, comparisonId: Option<string>)

  /** POSTHOG_API_KEY, VESSELFINDER_EMAIL and VESSELFINDER_PASSWORD. */
  datatype ActionEnv = ActionEnv(posthogKey: Option<string>, email: Option<string>, password: Option<string>)

  /** The exit status, the scraped record, the event `get_vessel_data` sent
      and the event the action pushed afterwards. */
  datatype ActionOutcome = ActionOutcome(
    exitCode: int, data: Option<Record>, scraperEvent: Option<VesselEvent>, actionEvent: Option<VesselEvent>)

  /** The two `datetime.now()` readings of one run: the one `_send_to_posthog`
      takes inside the scrape, and the later one `send_to_posthog` takes. */
  datatype Clock = Clock(scrape: string, push: string)

  /** The arguments and credentials `main` needs before it scrapes. */
  predicate Admitted(args: ActionArgs, env: ActionEnv) {
    (OptTruthy(args.mmsi) || OptTruthy(args.imo)) && OptTruthy(env.email) && OptTruthy(env.password)
  }

  /** `main`: exit 1 without an identifier, without credentials, when the
      scrape raises or returns nothing; otherwise push the action's event
      when a comparison id was given and exit 0. */
  function ActionMain(args: ActionArgs, env: ActionEnv, page: Option<VesselPage>, clock: Clock): (o: ActionOutcome)
    ensures o.exitCode == 0 || o.exitCode == 1
    ensures o.exitCode == 0 <==> o.data.Some?
    ensures o.data.Some? <==>
      Admitted(args, env) && page.Some? && VesselDetails(args.mmsi, args.imo, args.comparisonId, page.value).Success?
    ensures o.data.Some? ==> o.data == Some(VesselDetails(args.mmsi, args.imo, args.comparisonId, page.value).value)
    ensures o.data.None? ==> o.scraperEvent.None? && o.actionEvent.None?
    ensures o.data.Some? ==>
      o.scraperEvent == DetailsEvent(o.data.value, args.comparisonId, OptTruthy(env.posthogKey), clock.scrape)
      && (o.actionEvent.Some? <==> OptTruthy(args.comparisonId) && OptTruthy(env.posthogKey) && FloatsConvert(o.data.value))
      && (o.actionEvent.Some? ==> o.actionEvent == ActionSend(o.data.value, args.comparisonId.value, env.posthogKey, clock.push))
  {
    if !Admitted(args, env) || page.None? then ActionOutcome(1, None, None, None)
    else
      match VesselDetails(args.mmsi, args.imo, args.comparisonId, page.value)
      case Failure(_) => ActionOutcome(1, None, None, None)
      case Success(r) =>
        var scraperEvent := DetailsEvent(r, args.comparisonId, OptTruthy(env.posthogKey), clock.scrape);
        var actionEvent :=
          if OptTruthy(args.comparisonId) then ActionSend(r, args.comparisonId.value, env.posthogKey, clock.push) else None;
        ActionOutcome(0, Some(r), scraperEvent, actionEvent)
  }

  /** With a comparison id and a PostHog key, a successful run sends two
      `local_comparison` events for the same comparison, one per provider
      name and each stamped with its own clock reading, whenever the numeric
      fields convert. */
  lemma TwoEventsPerComparison(args: ActionArgs, env: ActionEnv, page: Option<VesselPage>, clock: Clock)
    requires OptTruthy(args.comparisonId) && OptTruthy(env.posthogKey)
    requires ActionMain(args, env, page, clock).data.Some? && FloatsConvert(ActionMain(args, env, page, clock).data.value)
    ensures var o := ActionMain(args, env, page, clock);
      o.scraperEvent.Some? && o.actionEvent.Some?
      && o.scraperEvent.value.comparisonId == o.actionEvent.value.comparisonId
      && o.scraperEvent.value.distinctId == o.actionEvent.value.distinctId == "vesselfinder_scraper"
      && o.scraperEvent.value.event == o.actionEvent.value.event == "local_comparison"
      && o.scraperEvent.value.provider != o.actionEvent.value.provider
      && o.scraperEvent.value.timestamp == clock.scrape && o.actionEvent.value.timestamp == clock.push
  {
    var o := ActionMain(args, env, page, clock);
    assert |ProviderName| != |ActionProvider|;
  }

  /** An identifier that cleaning empties (a lone pair of quotes) ends the
      run with status 1 even though the argument check let it through. */
  lemma QuotesOnlyIdentifierFails(env: ActionEnv, page: VesselPage, clock: Clock)
    requires OptTruthy(env.email) && OptTruthy(env.password)
    ensures ActionMain(ActionArgs(Some("\"\""), None, None), env, Some(page), clock).exitCode == 1
  {
    var args := ActionArgs(Some("\"\""), None, None);
    QuotesCleanToEmpty();
    assert VesselDetails(args.mmsi, args.imo, args.comparisonId, page).Failure?;
  }
}
