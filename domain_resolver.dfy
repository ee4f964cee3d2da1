/** Picks the cookie domain for a request host: the domain of the first rule,
    in table order, whose host pattern matches the host, or the configured
    default when none does. */
module DomainResolver {
  import opened HttpTypes
  import opened SessionConfig

  /** The regular-expression engine, which is not modelled: `matches(p, h)`
      holds when pattern `p` matches at the start of host `h`, as Python's
      `re.compile(p).match(h)` does. */
  type Matcher = (string, string) -> bool

  /** The index of the first rule at or after `from` whose pattern matches `host`. */
  function FirstMatchFrom(rules: seq<DomainRule>, matches: Matcher, host: string, from: nat): (r: Option<nat>)
    requires from <= |rules|
    ensures r.Some? ==> from <= r.value < |rules| && matches(rules[r.value].pattern, host)
    ensures r.Some? ==> forall k :: from <= k < r.value ==> !matches(rules[k].pattern, host)
    ensures r.None? <==> forall k :: from <= k < |rules| ==> !matches(rules[k].pattern, host)
    decreases |rules| - from
  {
    if from == |rules| then None
    else if matches(rules[from].pattern, host) then Some(from)
    else FirstMatchFrom(rules, matches, host, from + 1)
  }

  /** The index of the rule whose domain the host gets, if any rule matches. */
  function ChosenRule(config: Config, matches: Matcher, host: string): (r: Option<nat>)
    ensures r.Some? ==> r.value < |config.rules| && matches(config.rules[r.value].pattern, host)
    ensures r.Some? ==> forall k :: 0 <= k < r.value ==> !matches(config.rules[k].pattern, host)
    ensures r.None? <==> forall k :: 0 <= k < |config.rules| ==> !matches(config.rules[k].pattern, host)
  {
    FirstMatchFrom(config.rules, matches, host, 0)
  }

  /** The domain the session cookie is scoped to for `host`. */
  function ResolvedDomain(config: Config, matches: Matcher, host: string): (d: string)
    ensures forall i :: 0 <= i < |config.rules| && matches(config.rules[i].pattern, host) &&
                        (forall k :: 0 <= k < i ==> !matches(config.rules[k].pattern, host))
                        ==> d == config.rules[i].domain
    ensures (forall k :: 0 <= k < |config.rules| ==> !matches(config.rules[k].pattern, host))
            ==> d == config.defaultDomain
  {
    match ChosenRule(config, matches, host)
    case Some(i) => config.rules[i].domain
    case None => config.defaultDomain
  }

  /** The rule loop of the middleware: start from the default domain and
      stop at the first rule whose pattern matches. */
  method ResolveDomain(config: Config, matches: Matcher, host: string) returns (domain: string)
    ensures domain == ResolvedDomain(config, matches, host)
  {
    domain := config.defaultDomain;
    var i := 0;
    while i < |config.rules|
      invariant 0 <= i <= |config.rules|
      invariant forall k :: 0 <= k < i ==> !matches(config.rules[k].pattern, host)
      invariant domain == config.defaultDomain
    {
      if matches(config.rules[i].pattern, host) {
        domain := config.rules[i].domain;
        break;
      }
      i := i + 1;
    }
  }

  /** A rule that matches is never chosen when an earlier rule matches too. */
  lemma LaterMatchNeverChosen(config: Config, matches: Matcher, host: string, i: nat, j: nat)
    requires i < j < |config.rules|
    requires matches(config.rules[i].pattern, host) && matches(config.rules[j].pattern, host)
    ensures ChosenRule(config, matches, host) != Some(j)
    ensures ChosenRule(config, matches, host).Some?
    ensures ChosenRule(config, matches, host).value <= i
  {
  }

  /** Reference definition: the domains of all matching rules, in table order. */
  function MatchingDomains(rules: seq<DomainRule>, matches: Matcher, host: string): seq<string> {
    if rules == [] then []
    else if matches(rules[0].pattern, host) then [rules[0].domain] + MatchingDomains(rules[1..], matches, host)
    else MatchingDomains(rules[1..], matches, host)
  }

  lemma {:induction false} FirstMatchFromIsHeadOfMatching(rules: seq<DomainRule>, matches: Matcher, host: string, from: nat)
    requires from <= |rules|
    ensures FirstMatchFrom(rules, matches, host, from).None? <==> MatchingDomains(rules[from..], matches, host) == []
    ensures FirstMatchFrom(rules, matches, host, from).Some? ==>
              MatchingDomains(rules[from..], matches, host)[0] == rules[FirstMatchFrom(rules, matches, host, from).value].domain
    decreases |rules| - from
  {
    if from < |rules| {
      assert rules[from..][1..] == rules[from + 1..];
      FirstMatchFromIsHeadOfMatching(rules, matches, host, from + 1);
    }
  }

  /** First match wins: the resolved domain is the first of all matching
      rules' domains, and the default only when there are none. */
  lemma ResolvedIsFirstMatchingDomain(config: Config, matches: Matcher, host: string)
    ensures var ds := MatchingDomains(config.rules, matches, host);
            ResolvedDomain(config, matches, host) == if ds == [] then config.defaultDomain else ds[0]
  {
    assert config.rules[0..] == config.rules;
    FirstMatchFromIsHeadOfMatching(config.rules, matches, host, 0);
  }

  /** With the shipped table the second rule can never be chosen, because it
      carries the same pattern as the first. */
  lemma SampleSecondRuleUnreachable(matches: Matcher, host: string)
    ensures ChosenRule(SampleConfig, matches, host) != Some(1)
  {
    assert SampleConfig.rules[0].pattern == SampleConfig.rules[1].pattern;
  }

  /** With the shipped table every host gets ".example.com", whatever the
      regular-expression engine answers. */
  lemma SampleAlwaysExampleDomain(matches: Matcher, host: string)
    ensures ResolvedDomain(SampleConfig, matches, host) == ".example.com"
  {
    SampleSecondRuleUnreachable(matches, host);
  }
}
