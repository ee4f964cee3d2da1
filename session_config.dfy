/** The middleware's configuration record: the cookie attributes and the
    ordered table of (cookie domain, host pattern) rules. */
module SessionConfig {

  /** One entry of the domain table: cookies for hosts matching `pattern`
      are scoped to `domain`. */
  datatype DomainRule = DomainRule(domain: string, pattern: string)

  datatype Config = Config(
    secure: bool,
    httpOnly: bool,
    saveEveryRequest: bool,
    cookieName: string,
    cookiePath: string,
    sameSite: string,
    defaultDomain: string,
    rules: seq<DomainRule>)   // in insertion order, which is the order they are tried in

  /** The run of host characters both sample patterns start with. */
  const HostCharRun: string := @"[a-zA-Z0-9\-_.:]*"

  /** The pattern both sample rules carry: `[a-zA-Z0-9\-_.:]*.example.com`. */
  const ExampleHostPattern: string := HostCharRun + ".example.com"

  /** The configuration the middleware class ships with. */
  const SampleConfig: Config := Config(
    secure := true,
    httpOnly := true,
    saveEveryRequest := false,
    cookieName := "sessionid",
    cookiePath := "/",
    sameSite := "Lax",
    defaultDomain := ".example.com",
    rules := [DomainRule(".example.com", ExampleHostPattern),
              DomainRule(".domain.com", ExampleHostPattern)])

  /** The pattern the ".domain.com" rule evidently should carry. */
  const DomainHostPattern: string := HostCharRun + ".domain.com"

  /** The shipped configuration with the second rule's pattern corrected. */
  const CorrectedSampleConfig: Config := SampleConfig.(
    rules := [DomainRule(".example.com", ExampleHostPattern),
              DomainRule(".domain.com", DomainHostPattern)])

  /** The domains of a table are distinct, as the keys of a Python dict are. */
  predicate DistinctDomains(rules: seq<DomainRule>) {
    forall i, j :: 0 <= i < j < |rules| ==> rules[i].domain != rules[j].domain
  }

  /** Both sample tables are tables of two rules with distinct domains,
      ".example.com" first, and fall back to ".example.com". */
  lemma SampleTablesWellFormed()
    ensures DistinctDomains(SampleConfig.rules) && DistinctDomains(CorrectedSampleConfig.rules)
    ensures |SampleConfig.rules| == 2 && SampleConfig.rules[0].domain == SampleConfig.defaultDomain
    ensures CorrectedSampleConfig == SampleConfig.(rules := CorrectedSampleConfig.rules)
    ensures |CorrectedSampleConfig.rules| == 2 && CorrectedSampleConfig.rules[0] == SampleConfig.rules[0]
    ensures CorrectedSampleConfig.rules[1].domain == SampleConfig.rules[1].domain
  {
  }
}
