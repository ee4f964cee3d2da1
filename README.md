# Session cookie domain middleware, modelled in Dafny

`SessionHostDomainMiddleware` is a Django session middleware that overrides
one hook, `process_response`. For every response it does two things.

- It picks the cookie domain for the request's host. It tries an ordered
  table of (cookie domain, host pattern) rules: the first rule whose pattern
  matches the start of the host wins. If no rule matches, the configured
  default domain is used.
- It decides what happens to the session cookie:
  - If the request brought the cookie and the session is now empty, the
    cookie is deleted.
  - Otherwise an accessed session adds `Cookie` to the response's Vary
    header.
  - A session worth storing (modified, or save-every-request is on; and not
    empty) is saved and its cookie refreshed, except on a 500 response.
  - If the session's stored record was deleted concurrently, the save fails
    and the hook raises `SuspiciousOperation`.

The model keeps the source's shape:

- `SessionConfig`: the class constants, as a configuration record. It holds
  the shipped table and a corrected one (see Findings).
- `DomainResolver`: the rule loop, as a method with loop invariants. It is
  proved against a first-match function, and that function is proved equal
  to "the first of all matching rules' domains".
- `CookieLifecycle`: the decision tree, as a function `Decide` from the
  session flags, configuration, domain, status code, clock and save outcome
  to the effects on the response. Its contract states the properties the
  hook promises.
- `Middleware`: the response and the session as classes, changed in place.
  A `Request` datatype carries a nullable session. `ProcessResponse` and
  `UpdateSessionCookie` are the hook; their postconditions give the new
  response and session state in terms of `Decide`.
- `HostPattern`: a matcher for the single regular-expression shape the
  shipped table uses, proved equal to its existential meaning.
- `SampleDomains`: the shipped and the corrected tables evaluated on
  concrete hosts.
- `Scenarios`: end-to-end calls of the hook on fresh objects.

Decisions about the collaborators:

- The regular-expression engine is a parameter `matches(pattern, host)`.
- The clock is an integer `now`, in seconds.
- The cookie's `expires` is kept as an absolute number of seconds, not as an
  HTTP-date string.
- What `save()` does is a `SaveOutcome` parameter: it stores the session
  under a given key, or it fails with `UpdateError`.

`patch_vary_headers` (middleware.py:49) runs before `save()`
(middleware.py:63), so an accessed session whose save fails still leaves
`Cookie` in the Vary list. `Decide`'s contract and
`Scenarios.ConcurrentLogoutScenario` state this.

## Model

| member | source | states |
|---|---|---|
| `DomainResolver.FirstMatchFrom` | middleware.py:35-38 | the index returned matches the host and no earlier rule does; None exactly when no rule from the start position matches |
| `DomainResolver.ChosenRule` | middleware.py:35-38 | the chosen rule matches the host and no earlier rule does; there is none exactly when no rule matches |
| `DomainResolver.ResolvedDomain` | middleware.py:33-38 | the domain is that of the earliest matching rule; it is the default when no rule matches |
| `DomainResolver.ResolveDomain` | middleware.py:32-38 | the loop that starts from the default and breaks at the first match yields exactly the resolved domain |
| `DomainResolver.LaterMatchNeverChosen` | middleware.py:35-38 | when rules i < j both match, rule j is never chosen and the chosen rule is at or before i |
| `DomainResolver.FirstMatchFromIsHeadOfMatching` | middleware.py:35-38 | the first match from a position is the head of the list of domains of all matching rules from it |
| `DomainResolver.ResolvedIsFirstMatchingDomain` | middleware.py:33-38 | the resolved domain is the first domain among all matching rules, or the default when there are none |
| `DomainResolver.SampleSecondRuleUnreachable` | middleware.py:19-22 | with the shipped table the ".domain.com" rule is never chosen, for any host and any matcher |
| `DomainResolver.SampleAlwaysExampleDomain` | middleware.py:18-38 | with the shipped table every host resolves to ".example.com" |
| `HttpTypes.OrNone` | middleware.py:76-77 | `flag or None` is set exactly when the flag is true and is never false |
| `CookieLifecycle.ClearsCookie` | middleware.py:40 | the cookie is dropped only when the request sent it, and a session whose cookie is dropped is never one worth saving, under any configuration |
| `CookieLifecycle.WantsSave` | middleware.py:50 | a session worth saving is never empty; a modified non-empty session always is; with save-every-request, exactly the non-empty ones are |
| `CookieLifecycle.ExpiredCookie` | middleware.py:41-46 | a delete-cookie with the same name, path, domain and same-site as the cookie a refresh would set |
| `CookieLifecycle.CookieLifetime` | middleware.py:51-57 | no max-age and no expires with expire-at-browser-close; otherwise max-age is the expiry age and expires is now + max-age |
| `CookieLifecycle.FreshCookie` | middleware.py:71-79 | the set-cookie carries the configured name, path and same-site, the given domain and key, secure and httponly as `flag or None`, and the lifetime above |
| `CookieLifecycle.Decide` | middleware.py:40-79 | delete branch: exactly one delete-cookie with the configured name, path and same-site and the resolved domain, and no Vary, save or error; otherwise Vary gets `Cookie` iff the session was accessed; save iff (modified or save-every-request) and not empty and status is not 500; error iff saving fails, and then no cookie; a set-cookie exactly for a successful save |
| `CookieLifecycle.ServerErrorNeverRefreshes` | middleware.py:59-63 | with status 500 there is no save, no error and no set-cookie |
| `CookieLifecycle.AtMostOneCookieAction` | middleware.py:40-79 | a response gets at most one cookie action |
| `CookieLifecycle.NoCookieNoDelete` | middleware.py:40-46 | a request without the session cookie never receives a delete-cookie |
| `Middleware.Response.DeleteCookie` | middleware.py:41-46 | appends one delete record and leaves Vary alone |
| `Middleware.Response.PatchVaryHeaders` | middleware.py:49 | appends the header names to Vary and leaves the cookies alone |
| `Middleware.Response.SetCookie` | middleware.py:71-79 | appends one set-cookie record and leaves Vary alone |
| `Middleware.Session.Save` | middleware.py:62-64 | succeeds exactly for a `Saved` outcome, which then sets the session key; counts the call; leaves the flags unchanged |
| `Middleware.UpdateSessionCookie` | middleware.py:40-79 | the response's cookies and Vary list grow by exactly the decision's entries, save is called once exactly when the decision saves, and the error is raised exactly when the decision says so |
| `Middleware.ProcessResponse` | middleware.py:24-80 | without a session nothing changes; with one, the new response and session state is the decision for the resolved domain, the cookie's presence and the session's flags |
| `HostPattern.Compile` | middleware.py:20-21 | a pattern is accepted exactly when it is the class run followed by a tail without special characters, and it is that run plus the tail |
| `HostPattern.TailMatchesPrefix` | middleware.py:36 | the tail matches exactly when each of its characters matches the host's at the same position ('.' any but newline) |
| `HostPattern.StarThenMatch` | middleware.py:36 | a tail matching at the start is a match; any match needs at least as many host characters as the tail has |
| `HostPattern.FragmentMatches` | middleware.py:36 | only patterns of the supported shape match anything, a match needs a host as long as the pattern's tail, and for such a pattern the answer is the search for its tail |
| `HostPattern.StarThenMatchIffSplit` | middleware.py:36 | the backtracking search succeeds exactly when some run of class characters is followed by text the tail matches |
| `SampleDomains.DomainHostMissesExamplePattern` | middleware.py:20-21 | "shop.domain.com" does not match the ".example.com" pattern |
| `SampleDomains.DomainHostMatchesDomainPattern` | middleware.py:20-21 | "shop.domain.com" matches the corrected ".domain.com" pattern |
| `SampleDomains.ExampleHostMatchesExamplePattern` | middleware.py:20 | "app.example.com" matches the ".example.com" pattern |
| `SampleDomains.AsWrittenDomainHostGetsExampleDomain` | middleware.py:18-22 | as shipped, "shop.domain.com" matches no rule and resolves to ".example.com" |
| `SampleDomains.CorrectedRoutesEachDomain` | middleware.py:19-22 | with the corrected table "shop.domain.com" gets rule 2 and ".domain.com", and "app.example.com" gets ".example.com" |
| `SessionConfig.SampleTablesWellFormed` | middleware.py:12-22 | both sample tables hold two rules with distinct domains, ".example.com" first and also the default; the corrected configuration differs from the shipped one only in the second rule's pattern |
| `Scenarios.RefreshScenario` | middleware.py:50-79 | a modified session on a 200 response gets one two-week cookie for ".example.com" with secure, httponly and "Lax" |
| `Scenarios.DomainHostRefreshScenario` | middleware.py:50-79 | with the corrected table, the same request on "shop.domain.com" gets its cookie for ".domain.com" |
| `Scenarios.ShippedDomainHostRefreshScenario` | middleware.py:18-79 | with the shipped table, the same request on "shop.domain.com" gets its cookie for ".example.com" |
| `Scenarios.DeleteScenario` | middleware.py:40-46 | an emptied session whose cookie was sent gets exactly one delete-cookie, no Vary and no save, whatever accessed and modified are |
| `Scenarios.ConcurrentLogoutScenario` | middleware.py:47-69 | a failed save raises `SuspiciousOperation`, sets no cookie and keeps the Vary entry |
| `Scenarios.ServerErrorScenario` | middleware.py:59-63 | a modified session on a 500 response gets no save and no cookie |
| `Scenarios.NoSessionScenario` | middleware.py:25-30 | a request without a session leaves the response unchanged |

## Left out

- The regular-expression engine: `re.compile(p).match` is the `matches` parameter. `HostPattern.FragmentMatches` covers only patterns made of the class run `[a-zA-Z0-9\-_.:]*` followed by plain characters and `.`. It matches no host for any other pattern, whereas Python would interpret that pattern.
- Malformed patterns: `re.compile` raising on an invalid pattern is not modelled.
- `request.get_host()` (middleware.py:32): the model's `Request.host` is the value it returns, port included. Its check of the host against the framework's allowed hosts, and the `DisallowedHost` error it raises out of the hook, are not modelled.
- Time: `time.time()` is a float, and `http_date` renders the expiry as an HTTP date. The model takes an integer `now` and keeps `expires` as whole seconds.
- `get_expiry_age`, `get_expire_at_browser_close` and `is_empty`: these are read as session fields. Their own computation, in the framework's session base class, is not part of this model.
- Django's `SessionMiddleware` itself: session loading, store persistence and key generation are out of scope. A save's effect is given by a `SaveOutcome` parameter.
- Middleware.Response.PatchVaryHeaders: appends and does not model the framework's removal of duplicate, case-insensitive Vary entries.
- The response's cookie calls: these are records appended to a list. The Set-Cookie and deletion header text they produce is not modelled.
- The concurrent logout behind `UpdateError`: it appears only as the `UpdateError` outcome.
- Exception classes: `SuspiciousOperation` is an error value returned by the hook, not a Python exception hierarchy.
- Missing session: this is the `AttributeError` path. It is modelled as a null session reference on the request. An `AttributeError` raised from inside `accessed`, `modified` or `is_empty()` for another reason is not distinguished.
- The domain table: it is a sequence of pairs, so unlike a Python dict it could repeat a domain. Domains are never compared, so nothing depends on this.

## Findings

| source | as written | input that shows it | evidently intended | confidence | as-written member | corrected member |
|---|---|---|---|---|---|---|
| middleware.py:21 | the ".domain.com" rule carries the same pattern as the ".example.com" rule, `[a-zA-Z0-9\-_.:]*.example.com`, so it can never be chosen | host "shop.domain.com" matches no rule and gets the default cookie domain ".example.com", which a browser refuses for that host | the rule's pattern reads `[a-zA-Z0-9\-_.:]*.domain.com`, so "shop.domain.com" gets ".domain.com" | medium, not executed | `SampleDomains.AsWrittenDomainHostGetsExampleDomain` | `SampleDomains.CorrectedRoutesEachDomain` |
