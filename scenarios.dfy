/** The middleware driven end to end with the shipped cookie settings and
    the corrected domain table: fresh request, session and response objects,
    one call of the hook, and what the caller can rely on afterwards. */
module Scenarios {
  import opened HttpTypes
  import opened SessionConfig
  import opened DomainResolver
  import opened HostPattern
  import opened CookieLifecycle
  import opened Middleware
  import opened SampleDomains

  const TwoWeeks: int := 1209600

  /** A modified session on a 200 response without a session cookie gets one
      fresh cookie for ".example.com" lasting two weeks. */
  method RefreshScenario(now: int, key: string)
    returns (cookies: seq<CookieAction>, vary: seq<string>, error: Option<SuspiciousOperation>)
    ensures error == None && vary == []
    ensures cookies == [SetCookie("sessionid", key, Some(TwoWeeks), Some(now + TwoWeeks), ".example.com", "/",
                                  Some(true), Some(true), "Lax")]
  {
    var host := "app.example.com";
    CorrectedRoutesEachDomain("shop.domain.com", host);
    var session := new Session(false, true, false, false, TwoWeeks, None);
    var response := new Response(200);
    error := ProcessResponse(CorrectedSampleConfig, FragmentMatches, Request(host, map[], session),
                             response, now, Saved(key));
    cookies, vary := response.cookies, response.vary;
  }

  /** With the corrected table, the same request on a host under domain.com
      gets its cookie for ".domain.com". */
  method DomainHostRefreshScenario(now: int, key: string)
    returns (cookies: seq<CookieAction>, error: Option<SuspiciousOperation>)
    ensures error == None
    ensures cookies == [SetCookie("sessionid", key, Some(TwoWeeks), Some(now + TwoWeeks), ".domain.com", "/",
                                  Some(true), Some(true), "Lax")]
  {
    var host := "shop.domain.com";
    CorrectedRoutesEachDomain(host, "app.example.com");
    var session := new Session(false, true, false, false, TwoWeeks, None);
    var response := new Response(200);
    error := ProcessResponse(CorrectedSampleConfig, FragmentMatches, Request(host, map[], session),
                             response, now, Saved(key));
    cookies := response.cookies;
  }

  /** With the shipped table the same request on "shop.domain.com" gets its
      cookie for ".example.com" instead. */
  method ShippedDomainHostRefreshScenario(now: int, key: string)
    returns (cookies: seq<CookieAction>, error: Option<SuspiciousOperation>)
    ensures error == None
    ensures cookies == [SetCookie("sessionid", key, Some(TwoWeeks), Some(now + TwoWeeks), ".example.com", "/",
                                  Some(true), Some(true), "Lax")]
  {
    var host := "shop.domain.com";
    SampleAlwaysExampleDomain(FragmentMatches, host);
    var session := new Session(false, true, false, false, TwoWeeks, None);
    var response := new Response(200);
    error := ProcessResponse(SampleConfig, FragmentMatches, Request(host, map[], session),
                             response, now, Saved(key));
    cookies := response.cookies;
  }

  /** A request carrying "sessionid" whose session is now empty gets exactly
      one delete-cookie, whatever the session's other flags say, and nothing
      is saved. */
  method DeleteScenario(now: int, accessed: bool, modified: bool, outcome: SaveOutcome)
    returns (cookies: seq<CookieAction>, vary: seq<string>, saveCalls: nat)
    ensures cookies == [DeleteCookie("sessionid", "/", ".example.com", "Lax")]
    ensures vary == [] && saveCalls == 0
  {
    var host := "app.example.com";
    CorrectedRoutesEachDomain("shop.domain.com", host);
    var session := new Session(accessed, modified, true, false, TwoWeeks, Some("stale"));
    var response := new Response(200);
    var _ := ProcessResponse(CorrectedSampleConfig, FragmentMatches,
                             Request(host, map["sessionid" := "stale"], session), response, now, outcome);
    cookies, vary, saveCalls := response.cookies, response.vary, session.saveCalls;
  }

  /** A session deleted by a concurrent request: the hook raises and sets no
      cookie, but the Vary entry added before the save stays on the response. */
  method ConcurrentLogoutScenario(now: int)
    returns (cookies: seq<CookieAction>, vary: seq<string>, error: Option<SuspiciousOperation>)
    ensures error == Some(SuspiciousOperation(SessionDeletedMessage))
    ensures cookies == [] && vary == ["Cookie"]
  {
    var session := new Session(true, true, false, false, TwoWeeks, Some("gone"));
    var response := new Response(200);
    error := ProcessResponse(CorrectedSampleConfig, FragmentMatches,
                             Request("app.example.com", map["sessionid" := "gone"], session),
                             response, now, UpdateError);
    cookies, vary := response.cookies, response.vary;
  }

  /** A modified session on a 500 response is neither saved nor refreshed. */
  method ServerErrorScenario(now: int, outcome: SaveOutcome)
    returns (cookies: seq<CookieAction>, vary: seq<string>, saveCalls: nat, error: Option<SuspiciousOperation>)
    ensures cookies == [] && vary == ["Cookie"] && saveCalls == 0 && error == None
  {
    var session := new Session(true, true, false, false, TwoWeeks, Some("k"));
    var response := new Response(500);
    error := ProcessResponse(CorrectedSampleConfig, FragmentMatches,
                             Request("app.example.com", map["sessionid" := "k"], session),
                             response, now, outcome);
    cookies, vary, saveCalls := response.cookies, response.vary, session.saveCalls;
  }

  /** A response without a session passes through unchanged. */
  method NoSessionScenario(now: int, status: int, outcome: SaveOutcome)
    returns (cookies: seq<CookieAction>, vary: seq<string>, error: Option<SuspiciousOperation>)
    ensures cookies == [] && vary == [] && error == None
  {
    var response := new Response(status);
    error := ProcessResponse(CorrectedSampleConfig, FragmentMatches,
                             Request("app.example.com", map["sessionid" := "x"], null),
                             response, now, outcome);
    cookies, vary := response.cookies, response.vary;
  }
}
