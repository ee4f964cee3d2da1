/** The shipped domain table on concrete hosts, using the fragment matcher
    for its host patterns: as shipped, hosts under domain.com are given
    cookies for ".example.com"; with the second pattern corrected they get
    ".domain.com". */
module SampleDomains {
  import opened HttpTypes
  import opened SessionConfig
  import opened DomainResolver
  import opened HostPattern

  const ExampleTail: string := ".example.com"
  const DomainTail: string := ".domain.com"

  lemma CompileClassRunThen(tail: string)
    requires forall k :: 0 <= k < |tail| ==> !IsMeta(tail[k])
    ensures Compile(ClassStar + tail) == Some(tail)
  {
    var p := ClassStar + tail;
    assert p[|ClassStar|..] == tail;
    forall k | |ClassStar| <= k < |p| ensures !IsMeta(p[k]) {
      assert p[k] == tail[k - |ClassStar|];
    }
  }

  lemma CompileExamplePattern()
    ensures Compile(ExampleHostPattern) == Some(ExampleTail)
  {
    CompileClassRunThen(ExampleTail);
  }

  lemma CompileDomainPattern()
    ensures Compile(DomainHostPattern) == Some(DomainTail)
  {
    CompileClassRunThen(DomainTail);
  }

  /** A run of class characters followed by text the tail matches is matched. */
  lemma RunThenMatches(tail: string, run: string, rest: string)
    requires forall k :: 0 <= k < |run| ==> InHostClass(run[k])
    requires TailMatchesPrefix(tail, rest)
    ensures StarThenMatch(tail, run + rest)
  {
    var s := run + rest;
    assert s[|run|..] == rest;
    forall k | 0 <= k < |run| ensures InHostClass(s[k]) {
      assert s[k] == run[k];
    }
    StarThenMatchIffSplit(tail, s);
  }

  /** The matcher answers for a pattern of the supported shape with the
      search for its tail. */
  lemma FragmentMatchesCompiled(pattern: string, tail: string, host: string)
    requires Compile(pattern) == Some(tail)
    ensures FragmentMatches(pattern, host) == StarThenMatch(tail, host)
  {
  }

  // The hosts below are parameters, which keeps these proofs cheap.

  lemma DomainTailMatchesItself()
    ensures TailMatchesPrefix(DomainTail, DomainTail)
  {
    TailMatchesItself(DomainTail);
  }

  lemma ShopIsHostRun()
    ensures forall k :: 0 <= k < |"shop"| ==> InHostClass("shop"[k])
  {
  }

  lemma DomainHostSplits(host: string)
    requires host == "shop.domain.com"
    ensures "shop" + DomainTail == host
  {
  }

  lemma DomainHostMatchesDomainTail(host: string)
    requires host == "shop.domain.com"
    ensures StarThenMatch(DomainTail, host)
  {
    DomainTailMatchesItself();
    ShopIsHostRun();
    RunThenMatches(DomainTail, "shop", DomainTail);
    DomainHostSplits(host);
  }

  /** "shop.domain.com" matches the ".domain.com" pattern after the run "shop". */
  lemma DomainHostMatchesDomainPattern(host: string)
    requires host == "shop.domain.com"
    ensures FragmentMatches(DomainHostPattern, host)
  {
    DomainHostMatchesDomainTail(host);
    CompileDomainPattern();
    FragmentMatchesCompiled(DomainHostPattern, DomainTail, host);
  }

  lemma DomainHostMissesExampleTail(host: string)
    requires host == "shop.domain.com"
    ensures !StarThenMatch(ExampleTail, host)
  {
    forall i | 0 <= i <= |host| ensures !TailMatchesPrefix(ExampleTail, host[i..]) {
      if i <= 3 {
        assert host[i..][1] == host[i + 1] != ExampleTail[1];
      }
    }
    StarThenMatchIffSplit(ExampleTail, host);
  }

  /** "shop.domain.com" does not match the ".example.com" pattern: wherever
      the run of class characters stops, no 'e' follows one character later. */
  lemma DomainHostMissesExamplePattern(host: string)
    requires host == "shop.domain.com"
    ensures !FragmentMatches(ExampleHostPattern, host)
  {
    DomainHostMissesExampleTail(host);
    CompileExamplePattern();
    FragmentMatchesCompiled(ExampleHostPattern, ExampleTail, host);
  }

  lemma ExampleTailMatchesItself()
    ensures TailMatchesPrefix(ExampleTail, ExampleTail)
  {
    TailMatchesItself(ExampleTail);
  }

  lemma AppIsHostRun()
    ensures forall k :: 0 <= k < |"app"| ==> InHostClass("app"[k])
  {
  }

  lemma ExampleHostSplits(host: string)
    requires host == "app.example.com"
    ensures "app" + ExampleTail == host
  {
  }

  lemma ExampleHostMatchesExampleTail(host: string)
    requires host == "app.example.com"
    ensures StarThenMatch(ExampleTail, host)
  {
    ExampleTailMatchesItself();
    AppIsHostRun();
    RunThenMatches(ExampleTail, "app", ExampleTail);
    ExampleHostSplits(host);
  }

  /** "app.example.com" matches the ".example.com" pattern after the run "app". */
  lemma ExampleHostMatchesExamplePattern(host: string)
    requires host == "app.example.com"
    ensures FragmentMatches(ExampleHostPattern, host)
  {
    ExampleHostMatchesExampleTail(host);
    CompileExamplePattern();
    FragmentMatchesCompiled(ExampleHostPattern, ExampleTail, host);
  }

  /** As shipped: a host under domain.com matches neither rule and falls back
      to ".example.com", a domain the browser will not accept from it. */
  lemma AsWrittenDomainHostGetsExampleDomain(host: string)
    requires host == "shop.domain.com"
    ensures forall k :: 0 <= k < |SampleConfig.rules| ==> !FragmentMatches(SampleConfig.rules[k].pattern, host)
    ensures ResolvedDomain(SampleConfig, FragmentMatches, host) == ".example.com"
  {
    DomainHostMissesExamplePattern(host);
    SampleAlwaysExampleDomain(FragmentMatches, host);
  }

  /** With a table of two rules, a host the first rule misses and the second
      matches gets the second rule. */
  lemma SecondOfTwoChosen(config: Config, matches: Matcher, host: string)
    requires |config.rules| == 2
    requires !matches(config.rules[0].pattern, host) && matches(config.rules[1].pattern, host)
    ensures ChosenRule(config, matches, host) == Some(1)
    ensures ResolvedDomain(config, matches, host) == config.rules[1].domain
  {
  }

  /** Corrected: each host gets the cookie domain it belongs to. */
  lemma CorrectedRoutesEachDomain(domainHost: string, exampleHost: string)
    requires domainHost == "shop.domain.com" && exampleHost == "app.example.com"
    ensures ResolvedDomain(CorrectedSampleConfig, FragmentMatches, domainHost) == ".domain.com"
    ensures ChosenRule(CorrectedSampleConfig, FragmentMatches, domainHost) == Some(1)
    ensures ResolvedDomain(CorrectedSampleConfig, FragmentMatches, exampleHost) == ".example.com"
  {
    DomainHostMissesExamplePattern(domainHost);
    DomainHostMatchesDomainPattern(domainHost);
    SecondOfTwoChosen(CorrectedSampleConfig, FragmentMatches, domainHost);
    ExampleHostMatchesExamplePattern(exampleHost);
  }
}
