/** What one response should receive, as a function of the session's flags,
    the configuration, the resolved domain, the status code and the outcome
    of saving the session: a delete-cookie, a fresh set-cookie, or nothing,
    an optional `Vary: Cookie`, and the error a vanished session raises. */
module CookieLifecycle {
  import opened HttpTypes
  import opened SessionConfig

  /** What the middleware reads from the session object. `empty` is the value
      `is_empty()` returned before anything was saved. */
  datatype SessionFlags = SessionFlags(
    accessed: bool,
    modified: bool,
    empty: bool,
    expireAtBrowserClose: bool,
    expiryAge: int)

  /** What the session store does when `save()` is called: it stores the
      session and leaves `key` as its session key, or it fails because the
      stored record was deleted meanwhile. */
  datatype SaveOutcome = Saved(key: string) | UpdateError

  /** The error the middleware raises when saving fails. */
  datatype SuspiciousOperation = SuspiciousOperation(message: string)

  const SessionDeletedMessage: string :=
    "The request's session was deleted before the request completed. " +
    "The user may have logged out in a concurrent request, for example."

  /** The effect of one response on its collaborators: cookie actions and
      Vary entries appended to the response, whether `save()` is called, and
      whether the call ends in `SuspiciousOperation`. */
  datatype Plan = Plan(cookies: seq<CookieAction>, vary: seq<string>, saves: bool, raises: bool)

  /** The session has something worth storing. A modified session that is
      not empty always has, whatever the configuration says; an empty one
      never has. */
  predicate WantsSave(config: Config, s: SessionFlags): (r: bool)
    ensures r ==> !s.empty
    ensures s.modified && !s.empty ==> r
    ensures config.saveEveryRequest ==> (r <==> !s.empty)
  {
    (s.modified || config.saveEveryRequest) && !s.empty
  }

  /** The cookie the request brought is dropped: it held a session that is
      now empty. Only a request that sent the cookie can have it dropped, and
      a session whose cookie is dropped is never one worth storing, under
      any configuration. */
  predicate ClearsCookie(cookiePresent: bool, s: SessionFlags): (r: bool)
    ensures r ==> cookiePresent
    ensures r ==> forall config :: !WantsSave(config, s)
  {
    cookiePresent && s.empty
  }

  /** The max-age and absolute expiry of a refreshed cookie. */
  function CookieLifetime(s: SessionFlags, now: int): (r: (Option<int>, Option<int>))
    ensures s.expireAtBrowserClose <==> r.0.None?
    ensures s.expireAtBrowserClose <==> r.1.None?
    ensures r.0.Some? ==> r.0.value == s.expiryAge && r.1.Some? && r.1.value == now + r.0.value
  {
    if s.expireAtBrowserClose then (None, None)
    else (Some(s.expiryAge), Some(now + s.expiryAge))
  }

  /** The deletion instruction: the same name, path, domain and same-site
      attribute the cookie was set with, so that the browser drops that one. */
  function ExpiredCookie(config: Config, domain: string): (c: CookieAction)
    ensures c.DeleteCookie?
    ensures forall key, s, now :: var f := FreshCookie(config, domain, key, s, now);
              c.name == f.name && c.path == f.path && c.domain == f.domain && c.sameSite == f.sameSite
  {
    DeleteCookie(config.cookieName, config.cookiePath, domain, config.sameSite)
  }

  /** The refreshed session cookie carrying `key`. */
  function FreshCookie(config: Config, domain: string, key: string, s: SessionFlags, now: int): (c: CookieAction)
    ensures c.SetCookie? && c.name == config.cookieName && c.value == key
    ensures c.domain == domain && c.path == config.cookiePath && c.sameSite == config.sameSite
    ensures c.secure == OrNone(config.secure) && c.httpOnly == OrNone(config.httpOnly)
    ensures (c.maxAge, c.expires) == CookieLifetime(s, now)
  {
    var (maxAge, expires) := CookieLifetime(s, now);
    SetCookie(config.cookieName, key, maxAge, expires, domain, config.cookiePath,
              OrNone(config.secure), OrNone(config.httpOnly), config.sameSite)
  }

  /** The decision for one response. */
  function Decide(config: Config, domain: string, cookiePresent: bool, s: SessionFlags,
                  status: int, now: int, outcome: SaveOutcome): (p: Plan)
    // Delete branch: exactly one delete-cookie, nothing else, whatever the other flags are.
    ensures ClearsCookie(cookiePresent, s) ==>
              p == Plan([ExpiredCookie(config, domain)], [], false, false)
    // Otherwise `Vary: Cookie` exactly when the session was accessed.
    ensures !ClearsCookie(cookiePresent, s) ==>
              p.vary == if s.accessed then ["Cookie"] else []
    // Save only for a session worth storing and a response that is not a 500.
    ensures p.saves <==> WantsSave(config, s) && status != 500
    // A failed save is the only error and leaves no cookie behind.
    ensures p.raises <==> p.saves && outcome.UpdateError?
    ensures p.raises ==> p.cookies == []
    // A set-cookie is emitted exactly for a successful save, and it is the fresh cookie.
    ensures !ClearsCookie(cookiePresent, s) ==>
              p.cookies == if p.saves && outcome.Saved? then [FreshCookie(config, domain, outcome.key, s, now)] else []
  {
    if ClearsCookie(cookiePresent, s) then
      Plan([ExpiredCookie(config, domain)], [], false, false)
    else
      var vary := if s.accessed then ["Cookie"] else [];
      if !WantsSave(config, s) || status == 500 then
        Plan([], vary, false, false)
      else
        match outcome
        case UpdateError => Plan([], vary, true, true)
        case Saved(key) => Plan([FreshCookie(config, domain, key, s, now)], vary, true, false)
  }

  /** A 500 response never saves the session and never gets a set-cookie,
      even for a modified session. */
  lemma ServerErrorNeverRefreshes(config: Config, domain: string, cookiePresent: bool, s: SessionFlags,
                                  now: int, outcome: SaveOutcome)
    ensures var p := Decide(config, domain, cookiePresent, s, 500, now, outcome);
            !p.saves && !p.raises && forall c :: c in p.cookies ==> c.DeleteCookie?
  {
  }

  /** At most one cookie action per response: a delete-cookie and a
      set-cookie never appear together. */
  lemma AtMostOneCookieAction(config: Config, domain: string, cookiePresent: bool, s: SessionFlags,
                              status: int, now: int, outcome: SaveOutcome)
    ensures |Decide(config, domain, cookiePresent, s, status, now, outcome).cookies| <= 1
  {
  }

  /** A request that brought no session cookie never gets a delete-cookie. */
  lemma NoCookieNoDelete(config: Config, domain: string, s: SessionFlags,
                         status: int, now: int, outcome: SaveOutcome)
    ensures forall c :: c in Decide(config, domain, false, s, status, now, outcome).cookies ==> c.SetCookie?
  {
  }
}
