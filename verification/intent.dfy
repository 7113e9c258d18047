/**
 * The thinking phase of the workflow engine: lexical classifiers over the
 * user's request (intent, target, risk, required capabilities) and the
 * fallback used when the language-model call fails.
 */
module Intent {
  import opened Wrappers
  import opened Text
  import opened Keywords
  import opened Patterns
  import opened Workflow

  const ReconWords: seq<string> := ["scan", "nmap", "port", "enumerate"]
  const VulnWords: seq<string> := ["vulnerability", "vuln", "security", "weakness"]
  const ExploitWords: seq<string> := ["exploit", "attack", "penetrate"]
  const NetworkWords: seq<string> := ["network", "topology", "routing"]
  const ReportWords: seq<string> := ["report", "summary", "analysis"]

  /** The intent groups in the order they are tried. */
  const IntentRules: seq<Rule<OperationType>> := [
    Rule(ReconWords, Reconnaissance),
    Rule(VulnWords, VulnerabilityScan),
    Rule(ExploitWords, Exploitation),
    Rule(NetworkWords, NetworkAnalysis),
    Rule(ReportWords, Reporting)
  ]

  /**
   * The first keyword group found in the lower-cased request decides the
   * intent; a request matching none is reconnaissance.
   */
  function ExtractIntent(request: string): (r: OperationType)
    ensures var lc := Lower(request);
      && (r == Reconnaissance <==>
            AnyIn(lc, ReconWords)
            || (!AnyIn(lc, VulnWords) && !AnyIn(lc, ExploitWords)
                && !AnyIn(lc, NetworkWords) && !AnyIn(lc, ReportWords)))
      && (r == VulnerabilityScan <==> !AnyIn(lc, ReconWords) && AnyIn(lc, VulnWords))
      && (r == Exploitation <==>
            !AnyIn(lc, ReconWords) && !AnyIn(lc, VulnWords) && AnyIn(lc, ExploitWords))
      && (r == NetworkAnalysis <==>
            !AnyIn(lc, ReconWords) && !AnyIn(lc, VulnWords) && !AnyIn(lc, ExploitWords)
            && AnyIn(lc, NetworkWords))
      && (r == Reporting <==>
            !AnyIn(lc, ReconWords) && !AnyIn(lc, VulnWords) && !AnyIn(lc, ExploitWords)
            && !AnyIn(lc, NetworkWords) && AnyIn(lc, ReportWords))
  {
    var lc := Lower(request);
    var k := FirstRuleIn(lc, IntentRules);
    assert k == 0 <==> AnyIn(lc, ReconWords);
    assert k == 1 ==> AnyIn(lc, VulnWords);
    assert k == 2 ==> AnyIn(lc, ExploitWords);
    assert k == 3 ==> AnyIn(lc, NetworkWords);
    assert k == 4 ==> AnyIn(lc, ReportWords);
    assert k > 1 ==> !AnyIn(lc, IntentRules[1].words);
    assert k > 2 ==> !AnyIn(lc, IntentRules[2].words);
    assert k > 3 ==> !AnyIn(lc, IntentRules[3].words);
    assert k > 4 ==> !AnyIn(lc, IntentRules[4].words);
    if k < |IntentRules| then IntentRules[k].value else Reconnaissance
  }

  /** Texts whose presence selects the loopback address. */
  const LocalWords: seq<string> := ["localhost", "local", "127.0.0.1"]

  const Loopback := "127.0.0.1"
  const UnknownTarget := "unknown"

  /**
   * The leftmost IPv4-shaped span, else the leftmost domain-shaped span, else
   * the loopback address when a local word occurs in the lower-cased request,
   * else "unknown". Never empty.
   */
  function ExtractTarget(request: string): (r: string)
    ensures r != ""
  {
    match Search(Ipv4, request)
    case Some((i, j)) => request[i..j]
    case None =>
      match Search(Domain, request)
      case Some((i, j)) => request[i..j]
      case None => if AnyIn(Lower(request), LocalWords) then Loopback else UnknownTarget
  }

  /** `s[i..j]` is the match `re.search` reports: it matches and none starts earlier. */
  ghost predicate Leftmost(pat: Pattern, s: string, i: nat, j: nat) {
    Matches(pat, s, i, j) && forall k: nat, e: nat :: k < i ==> !Matches(pat, s, k, e)
  }

  ghost predicate Occurs(pat: Pattern, s: string) {
    exists i: nat, j: nat :: Matches(pat, s, i, j)
  }

  /** A leftmost match is the one `Search` reports. */
  lemma LeftmostIsSearch(pat: Pattern, s: string, i: nat, j: nat)
    requires Leftmost(pat, s, i, j)
    ensures Search(pat, s) == Some((i, j))
  {
    SearchSpec(pat, s);
    var (i0, j0) := Search(pat, s).value;
    assert i0 == i;
    MatchEndSpec(pat, s, i, j);
    MatchEndSpec(pat, s, i, j0);
  }

  /**
   * The target sources are tried in order: an IPv4-shaped match anywhere wins
   * (its leftmost occurrence), then a domain match, then the local words.
   */
  lemma TargetSpec(request: string)
    ensures forall i: nat, j: nat :: Leftmost(Ipv4, request, i, j) ==>
      ExtractTarget(request) == request[i..j]
    ensures !Occurs(Ipv4, request) ==> forall i: nat, j: nat ::
      Leftmost(Domain, request, i, j) ==> ExtractTarget(request) == request[i..j]
    ensures !Occurs(Ipv4, request) && !Occurs(Domain, request) ==>
      (ExtractTarget(request) == Loopback <==> AnyIn(Lower(request), LocalWords))
      && (ExtractTarget(request) == UnknownTarget <==> !AnyIn(Lower(request), LocalWords))
    ensures Occurs(Ipv4, request) ==> DottedQuad(ExtractTarget(request))
    ensures !Occurs(Ipv4, request) && Occurs(Domain, request) ==> DomainShaped(ExtractTarget(request))
  {
    forall i: nat, j: nat | Leftmost(Ipv4, request, i, j)
      ensures ExtractTarget(request) == request[i..j]
    {
      LeftmostIsSearch(Ipv4, request, i, j);
    }
    SearchSpec(Ipv4, request);
    SearchSpec(Domain, request);
    if !Occurs(Ipv4, request) {
      forall i: nat, j: nat | Leftmost(Domain, request, i, j)
        ensures ExtractTarget(request) == request[i..j]
      {
        LeftmostIsSearch(Domain, request, i, j);
      }
    }
  }

  /**
   * Any request mentioning "local" without a dotted address or domain is
   * aimed at the loopback address: "Analyze the local network topology" yields
   * "127.0.0.1", not "unknown".
   */
  lemma LocalNetworkTarget()
    ensures ExtractTarget("Analyze the local network topology") == Loopback
    ensures ExtractIntent("Analyze the local network topology") == NetworkAnalysis
  {
    LocalNetworkLoopback();
    LocalNetworkIntent();
  }

  lemma LocalNetworkLoopback()
    ensures ExtractTarget("Analyze the local network topology") == Loopback
  {
    LocalNetworkNoMatch();
    LowerLocalNetwork();
    LocalNetworkMentionsLocal();
  }

  lemma LocalNetworkNoMatch()
    ensures Search(Ipv4, "Analyze the local network topology").None?
    ensures Search(Domain, "Analyze the local network topology").None?
  {
    NoDotNoMatch(Ipv4, "Analyze the local network topology");
    NoDotNoMatch(Domain, "Analyze the local network topology");
  }

  lemma LocalNetworkMentionsLocal()
    ensures AnyIn("analyze the local network topology", LocalWords)
  {
    var lc := "analyze the local network topology";
    assert lc[12] == 'l' && lc[13] == 'o' && lc[14] == 'c' && lc[15] == 'a' && lc[16] == 'l';
    assert lc[12..17] == "local";
    assert ContainsAt(lc, LocalWords[1], 12);
  }

  lemma LocalNetworkIntent()
    ensures ExtractIntent("Analyze the local network topology") == NetworkAnalysis
  {
    LowerLocalNetwork();
    assert ContainsAt("analyze the local network topology", NetworkWords[0], 18);
    LocalNetworkWords();
  }

  lemma LowerLocalNetwork()
    ensures Lower("Analyze the local network topology") == "analyze the local network topology"
  {
  }

  /** None of the earlier intent groups occurs in the lower-cased example. */
  lemma LocalNetworkWords()
    ensures !AnyIn("analyze the local network topology", ReconWords)
    ensures !AnyIn("analyze the local network topology", VulnWords)
    ensures !AnyIn("analyze the local network topology", ExploitWords)
  {
    LocalNetworkNotRecon();
    LocalNetworkNotVuln();
    LocalNetworkNotExploit();
  }

  lemma LocalNetworkNotRecon()
    ensures !AnyIn("analyze the local network topology", ReconWords)
  {
    var lc := "analyze the local network topology";
    AbsentPair(lc, ReconWords[0]);
    AbsentPair(lc, ReconWords[1]);
    LocalNetworkNoPort();
    AbsentPair(lc, ReconWords[3]);
  }

  /** "topology" has "po" but not "por". */
  lemma LocalNetworkNoPort()
    ensures !Contains("analyze the local network topology", "port")
  {
    AbsentTriple("analyze the local network topology", "port");
  }

  lemma LocalNetworkNotVuln()
    ensures !AnyIn("analyze the local network topology", VulnWords)
  {
    var lc := "analyze the local network topology";
    AbsentPair(lc, VulnWords[0]);
    AbsentPair(lc, VulnWords[1]);
    AbsentPair(lc, VulnWords[2]);
    AbsentPair(lc, VulnWords[3]);
  }

  lemma LocalNetworkNotExploit()
    ensures !AnyIn("analyze the local network topology", ExploitWords)
  {
    var lc := "analyze the local network topology";
    AbsentPair(lc, ExploitWords[0]);
    AbsentPair(lc, ExploitWords[1]);
    AbsentPair(lc, ExploitWords[2]);
  }

  /** A word whose first two letters never occur side by side in `s` is absent. */
  lemma AbsentPair(s: string, w: string)
    requires |w| >= 2
    requires forall i :: 0 <= i < |s| - 1 ==> s[i] != w[0] || s[i + 1] != w[1]
    ensures !Contains(s, w)
  {
    forall i | 0 <= i <= |s| - |w|
      ensures !ContainsAt(s, w, i)
    {
      assert s[i..i + |w|][0] == s[i];
      assert s[i..i + |w|][1] == s[i + 1];
    }
  }

  /** A word whose first three letters never occur side by side in `s` is absent. */
  lemma AbsentTriple(s: string, w: string)
    requires |w| >= 3
    requires forall i :: 0 <= i < |s| - 2 ==> s[i] != w[0] || s[i + 1] != w[1] || s[i + 2] != w[2]
    ensures !Contains(s, w)
  {
    forall i | 0 <= i <= |s| - |w|
      ensures !ContainsAt(s, w, i)
    {
      assert s[i..i + |w|][0] == s[i];
      assert s[i..i + |w|][1] == s[i + 1];
      assert s[i..i + |w|][2] == s[i + 2];
    }
  }

  const HighRiskWords: seq<string> := ["exploit", "attack", "penetrate", "hack"]
  const MediumRiskWords: seq<string> := ["vulnerability", "scan", "probe"]

  /** The request's risk word: high before medium before low; never critical. */
  function AssessRisk(request: string): (r: RiskLevel)
    ensures r == High <==> AnyIn(Lower(request), HighRiskWords)
    ensures r == Medium <==> !AnyIn(Lower(request), HighRiskWords) && AnyIn(Lower(request), MediumRiskWords)
    ensures r == Low <==> !AnyIn(Lower(request), HighRiskWords) && !AnyIn(Lower(request), MediumRiskWords)
  {
    var rules := [Rule(HighRiskWords, High), Rule(MediumRiskWords, Medium)];
    var k := FirstRuleIn(Lower(request), rules);
    assert k == 0 <==> AnyIn(Lower(request), HighRiskWords);
    assert k == 1 ==> AnyIn(Lower(request), MediumRiskWords);
    assert k > 1 ==> !AnyIn(Lower(request), rules[1].words);
    if k < |rules| then rules[k].value else Low
  }

  /** The capability names, in the order the source appends them. */
  datatype Capability = PortScanning | VulnerabilityAssessment | ExploitationFramework | NetworkAnalysisCapability

  function CapabilityName(c: Capability): string {
    match c
    case PortScanning => "port_scanning"
    case VulnerabilityAssessment => "vulnerability_assessment"
    case ExploitationFramework => "exploitation_framework"
    case NetworkAnalysisCapability => "network_analysis"
  }

  /** Position of a capability in the source's fixed order. */
  function Rank(c: Capability): nat {
    match c
    case PortScanning => 0
    case VulnerabilityAssessment => 1
    case ExploitationFramework => 2
    case NetworkAnalysisCapability => 3
  }

  /** The lower-cased request asks for capability `c`. */
  predicate Needs(lc: string, c: Capability) {
    match c
    case PortScanning => Contains(lc, "nmap") || Contains(lc, "scan")
    case VulnerabilityAssessment => Contains(lc, "vulnerability")
    case ExploitationFramework => Contains(lc, "metasploit")
    case NetworkAnalysisCapability => Contains(lc, "network")
  }

  function When(c: Capability, b: bool): seq<Capability> {
    if b then [c] else []
  }

  /**
   * The capabilities the request needs, as an ordered subsequence of
   * port_scanning, vulnerability_assessment, exploitation_framework,
   * network_analysis: strictly increasing in that order, hence free of
   * duplicates and at most four long.
   */
  function RequiredCapabilities(request: string): (r: seq<Capability>)
    ensures forall c :: c in r <==> Needs(Lower(request), c)
    ensures forall i, j :: 0 <= i < j < |r| ==> Rank(r[i]) < Rank(r[j])
    ensures forall i, j :: 0 <= i < j < |r| ==> r[i] != r[j]
    ensures |r| <= 4
  {
    var lc := Lower(request);
    When(PortScanning, Needs(lc, PortScanning))
      + When(VulnerabilityAssessment, Needs(lc, VulnerabilityAssessment))
      + When(ExploitationFramework, Needs(lc, ExploitationFramework))
      + When(NetworkAnalysisCapability, Needs(lc, NetworkAnalysisCapability))
  }

  /** What the language-model call gave: a reply, or an exception. */
  datatype OracleReply = Reply(content: string) | Unavailable(reason: string)

  /** The `ai_analysis` entry: the model's reply, or the fallback notice. */
  datatype Analysis = ModelAnalysis(content: string) | FallbackNotice

  const FallbackText := "AI analysis unavailable - using fallback"

  function AnalysisText(a: Analysis): string {
    match a
    case ModelAnalysis(c) => c
    case FallbackNotice => FallbackText
  }

  /** The thinking result without its timestamp. */
  datatype ThinkingResult = ThinkingResult(
    originalRequest: string,
    analysis: Analysis,
    intent: OperationType,
    target: string,
    risk: RiskLevel,
    capabilities: seq<Capability>)

  /** `_fallback_thinking_analysis`: the lexical classifiers alone. */
  function FallbackThinking(request: string): (t: ThinkingResult)
    ensures t.analysis == FallbackNotice && t.originalRequest == request
    ensures t.target != "" && t.risk != Critical
  {
    ThinkingResult(request, FallbackNotice, ExtractIntent(request), ExtractTarget(request),
                   AssessRisk(request), RequiredCapabilities(request))
  }

  /**
   * The thinking phase once the prompt is built: the model's reply is kept as
   * the analysis; when the call raises, the fallback result is returned. The
   * classifiers' answers never depend on the model.
   */
  function ThinkingPhase(request: string, oracle: OracleReply): (t: ThinkingResult)
    ensures t.analysis == FallbackNotice <==> oracle.Unavailable?
    ensures oracle.Reply? ==> t.analysis == ModelAnalysis(oracle.content)
    ensures t.(analysis := FallbackNotice) == FallbackThinking(request)
  {
    match oracle
    case Reply(content) => FallbackThinking(request).(analysis := ModelAnalysis(content))
    case Unavailable(_) => FallbackThinking(request)
  }

  /** Two model replies lead to thinking results that differ in the analysis alone. */
  lemma OracleOnlyChangesAnalysis(request: string, a: OracleReply, b: OracleReply)
    ensures ThinkingPhase(request, a).(analysis := FallbackNotice)
         == ThinkingPhase(request, b).(analysis := FallbackNotice)
    ensures ThinkingPhase(request, a).intent == ThinkingPhase(request, b).intent
    ensures ThinkingPhase(request, a).target == ThinkingPhase(request, b).target
  {
  }
}
