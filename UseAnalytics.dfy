/**
 * The page-view hook of analytics/hooks/useAnalytics.ts: a fixed table from
 * path to screen name, and the effect that tracks one page view per
 * location change.
 */
module UseAnalytics {
  import opened Outcomes
  import opened Analytics

  /** `pathMap` */
  const PathMap: map<string, string> :=
    map["/" := "landing", "/auth" := "authentication", "/onboarding" := "onboarding", "/dashboard" := "dashboard"]

  const ScreenNames: set<string> := {"landing", "authentication", "onboarding", "dashboard", "unknown"}

  /** `pathMap[pathname] || 'unknown'`: an exact lookup, with 'unknown' for every other path. */
  function ScreenNameFromPath(pathname: string): (name: string)
    ensures name in ScreenNames && name != ""
    ensures pathname in PathMap ==> name == PathMap[pathname]
    ensures pathname !in PathMap ==> name == "unknown"
    ensures name == "unknown" <==> pathname !in PathMap
  {
    if pathname in PathMap && PathMap[pathname] != "" then PathMap[pathname] else "unknown"
  }

  /** The four known routes, and two near misses that are not matched. */
  lemma ScreenNameExamples()
    ensures ScreenNameFromPath("/") == "landing"
    ensures ScreenNameFromPath("/auth") == "authentication"
    ensures ScreenNameFromPath("/onboarding") == "onboarding"
    ensures ScreenNameFromPath("/dashboard") == "dashboard"
    ensures ScreenNameFromPath("/dashboard/") == "unknown"
    ensures ScreenNameFromPath("/analytics") == "unknown"
  {
    assert "/dashboard/" != "/dashboard" by { assert |"/dashboard/"| != |"/dashboard"|; }
    assert "/analytics" !in PathMap by {
      assert "/analytics"[1] == 'a';
      assert "/analytics" != "/auth" by { assert |"/analytics"| != |"/auth"|; }
    }
  }

  /** The page view the effect tracks for `pathname`. */
  function LocationPageView(pathname: string): (ev: Event)
    ensures ev == PageViewEvent(pathname, Some(ScreenNameFromPath(pathname)))
    ensures ev.attributes["route"] == Str(pathname)
    ensures ev.attributes["screenName"] == Str(ScreenNameFromPath(pathname))
  {
    PageViewEvent(pathname, Some(ScreenNameFromPath(pathname)))
  }

  /** The hook always supplies a non-empty screen name, so the route-based fallback of `trackPageView` is never used. */
  lemma HookNeverFallsBack(pathname: string)
    ensures ScreenNameFallback(pathname, Some(ScreenNameFromPath(pathname))) == ScreenNameFromPath(pathname)
    ensures LocationPageView(pathname).attributes["screenName"] in set n | n in ScreenNames :: Str(n)
  {
  }

  /** The effect, run once per location change. */
  method OnLocationChange(client: AnalyticsClient, pathname: string, timestamp: string,
                          navigator: Option<string>, recordOutcome: Call<()>)
    modifies client`recorded
    ensures client.recorded == old(client.recorded) +
              (if IsConfigured(client.env)
               then [RecordedEvent("page_view",
                                   StringAttributes(Enrich(LocationPageView(pathname).attributes, client.sessionId,
                                                           timestamp, UserAgentOf(navigator))))]
               else [])
  {
    client.Track(LocationPageView(pathname), timestamp, navigator, recordOutcome);
  }
}
