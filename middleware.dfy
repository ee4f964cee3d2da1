/** The middleware's response hook over the framework's request, response
    and session objects. The response and the session are changed in place;
    the framework's calls on them are modelled as appending records. */
module Middleware {
  import opened HttpTypes
  import opened SessionConfig
  import opened DomainResolver
  import opened CookieLifecycle

  /** The outgoing response: its status code, the cookie calls made on it in
      order, and its Vary header entries. */
  class Response {
    const statusCode: int
    var cookies: seq<CookieAction>
    var vary: seq<string>

    constructor (status: int)
      ensures statusCode == status && cookies == [] && vary == []
    {
      statusCode := status;
      cookies := [];
      vary := [];
    }

    method DeleteCookie(name: string, path: string, domain: string, sameSite: string)
      modifies this
      ensures cookies == old(cookies) + [CookieAction.DeleteCookie(name, path, domain, sameSite)]
      ensures vary == old(vary)
    {
      cookies := cookies + [CookieAction.DeleteCookie(name, path, domain, sameSite)];
    }

    /** Adds header names to Vary; the framework's removal of duplicates is not modelled. */
    method PatchVaryHeaders(headers: seq<string>)
      modifies this
      ensures vary == old(vary) + headers
      ensures cookies == old(cookies)
    {
      vary := vary + headers;
    }

    method SetCookie(name: string, value: string, maxAge: Option<int>, expires: Option<int>,
                     domain: string, path: string, secure: Option<bool>, httpOnly: Option<bool>,
                     sameSite: string)
      modifies this
      ensures cookies == old(cookies) + [CookieAction.SetCookie(name, value, maxAge, expires, domain, path, secure, httpOnly, sameSite)]
      ensures vary == old(vary)
    {
      cookies := cookies + [CookieAction.SetCookie(name, value, maxAge, expires, domain, path, secure, httpOnly, sameSite)];
    }
  }

  /** The request's session, as far as the middleware sees it. `saveCalls`
      counts the calls to `save()`. */
  class Session {
    var accessed: bool
    var modified: bool
    var empty: bool
    var expireAtBrowserClose: bool
    var expiryAge: int
    var sessionKey: Option<string>
    var saveCalls: nat

    constructor (accessed: bool, modified: bool, empty: bool, expireAtBrowserClose: bool,
                 expiryAge: int, sessionKey: Option<string>)
      ensures Flags() == SessionFlags(accessed, modified, empty, expireAtBrowserClose, expiryAge)
      ensures this.sessionKey == sessionKey && saveCalls == 0
    {
      this.accessed := accessed;
      this.modified := modified;
      this.empty := empty;
      this.expireAtBrowserClose := expireAtBrowserClose;
      this.expiryAge := expiryAge;
      this.sessionKey := sessionKey;
      saveCalls := 0;
    }

    function Flags(): SessionFlags
      reads this
    {
      SessionFlags(accessed, modified, empty, expireAtBrowserClose, expiryAge)
    }

    /** Stores the session; what the store does is given by `outcome`. */
    method Save(outcome: SaveOutcome) returns (ok: bool)
      modifies this
      ensures ok <==> outcome.Saved?
      ensures sessionKey == if ok then Some(outcome.key) else old(sessionKey)
      ensures saveCalls == old(saveCalls) + 1
      ensures Flags() == old(Flags())
    {
      ok := outcome.Saved?;
      if ok {
        sessionKey := Some(outcome.key);
      }
      saveCalls := saveCalls + 1;
    }
  }

  /** The incoming request: its host, its cookies by name, and its session,
      which is null when no session is attached to it. */
  datatype Request = Request(host: string, cookies: map<string, string>, session: Session?)

  /** The cookie decision for a request whose session is attached and whose
      domain is resolved: delete, refresh, or leave the cookie, and patch Vary. */
  method UpdateSessionCookie(config: Config, domain: string, cookiePresent: bool, session: Session,
                             response: Response, now: int, outcome: SaveOutcome)
    returns (error: Option<SuspiciousOperation>)
    modifies response, session
    ensures var p := Decide(config, domain, cookiePresent, old(session.Flags()), response.statusCode, now, outcome);
            && response.cookies == old(response.cookies) + p.cookies
            && response.vary == old(response.vary) + p.vary
            && error == (if p.raises then Some(SuspiciousOperation(SessionDeletedMessage)) else None)
            && session.saveCalls == old(session.saveCalls) + (if p.saves then 1 else 0)
            && session.sessionKey == (if p.saves && outcome.Saved? then Some(outcome.key) else old(session.sessionKey))
            && session.Flags() == old(session.Flags())
  {
    var accessed, modified, empty := session.accessed, session.modified, session.empty;
    ghost var flags := session.Flags();
    // Naming the plan once brings Decide's contract into the proof.
    ghost var plan := Decide(config, domain, cookiePresent, flags, response.statusCode, now, outcome);
    error := None;
    if cookiePresent && empty {
      response.DeleteCookie(config.cookieName, config.cookiePath, domain, config.sameSite);
    } else {
      if accessed {
        response.PatchVaryHeaders(["Cookie"]);
      }
      if (modified || config.saveEveryRequest) && !empty {
        var maxAge: Option<int>, expires: Option<int>;
        if session.expireAtBrowserClose {
          maxAge, expires := None, None;
        } else {
          maxAge := Some(session.expiryAge);
          expires := Some(now + maxAge.value);
        }
        assert (maxAge, expires) == CookieLifetime(flags, now);
        if response.statusCode != 500 {
          var ok := session.Save(outcome);
          if !ok {
            return Some(SuspiciousOperation(SessionDeletedMessage));
          }
          response.SetCookie(config.cookieName, session.sessionKey.value, maxAge, expires, domain,
                             config.cookiePath, OrNone(config.secure), OrNone(config.httpOnly),
                             config.sameSite);
        }
      }
    }
  }

  /** The response hook. Returns the error raised, if any; the response is
      changed in place. */
  method ProcessResponse(config: Config, matches: Matcher, request: Request, response: Response,
                         now: int, outcome: SaveOutcome)
    returns (error: Option<SuspiciousOperation>)
    modifies response, request.session
    // Without a session the response is left alone.
    ensures request.session == null ==>
              error == None && response.cookies == old(response.cookies) && response.vary == old(response.vary)
    ensures request.session != null ==>
              var p := Decide(config, ResolvedDomain(config, matches, request.host),
                              config.cookieName in request.cookies, old(request.session.Flags()),
                              response.statusCode, now, outcome);
              && response.cookies == old(response.cookies) + p.cookies
              && response.vary == old(response.vary) + p.vary
              && error == (if p.raises then Some(SuspiciousOperation(SessionDeletedMessage)) else None)
              && request.session.saveCalls == old(request.session.saveCalls) + (if p.saves then 1 else 0)
              && request.session.sessionKey == (if p.saves && outcome.Saved? then Some(outcome.key)
                                                else old(request.session.sessionKey))
              && request.session.Flags() == old(request.session.Flags())
  {
    var session := request.session;
    if session == null {
      return None;
    }
    var domain := ResolveDomain(config, matches, request.host);
    error := UpdateSessionCookie(config, domain, config.cookieName in request.cookies, session,
                                 response, now, outcome);
  }
}
