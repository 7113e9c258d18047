/**
 * `OutputAnalyzer.analyze_output`: three fixed lexical rules over a command's
 * output, each adding one finding and its recommendation.
 */
module Analyzer {
  import opened Text

  datatype Risk = Low | Medium | High

  /** A finding with the recommendation the analyzer always pairs with it. */
  datatype Rule = Rule(finding: string, recommendation: string)

  const OpenPorts := Rule("Open ports detected", "Investigate open services")
  const Vulnerabilities := Rule("Potential vulnerabilities found", "Perform detailed vulnerability assessment")
  const LargeOutput := Rule("Large output detected", "Consider filtering output")

  /** Output strictly longer than this many characters is reported as large. */
  const LargeOutputThreshold := 10000

  /** The analyzer's report; the timestamp in its metadata is left out. */
  datatype Insights = Insights(
    findings: seq<string>,
    recommendations: seq<string>,
    risk: Risk,
    command: string,
    outputLength: nat)

  predicate OpenPortSignal(output: string) {
    Contains(Lower(output), "open") && Contains(Lower(output), "port")
  }

  predicate VulnerableSignal(output: string) {
    Contains(Lower(output), "vulnerable")
  }

  predicate IsLarge(output: string) {
    |output| > LargeOutputThreshold
  }

  /** Position of a finding in the order the analyzer checks its rules. */
  function Rank(finding: string): nat {
    if finding == OpenPorts.finding then 0
    else if finding == Vulnerabilities.finding then 1
    else 2
  }

  function Fired(r: Rule, fires: bool): seq<Rule> {
    if fires then [r] else []
  }

  /** The three findings have the ranks 0, 1 and 2. */
  lemma RuleRanks()
    ensures Rank(OpenPorts.finding) == 0
    ensures Rank(Vulnerabilities.finding) == 1
    ensures Rank(LargeOutput.finding) == 2
  {
    assert Vulnerabilities.finding[0] != OpenPorts.finding[0];
    assert LargeOutput.finding[0] != OpenPorts.finding[0];
    assert LargeOutput.finding[0] != Vulnerabilities.finding[0];
  }

  /** Whichever rules fire, their findings come in rank order, each at most once. */
  lemma FiredInOrder(a: bool, b: bool, c: bool)
    ensures var rules := Fired(OpenPorts, a) + Fired(Vulnerabilities, b) + Fired(LargeOutput, c);
      forall i, j :: 0 <= i < j < |rules| ==> Rank(rules[i].finding) < Rank(rules[j].finding)
  {
    RuleRanks();
  }

  function AnalyzeOutput(output: string, command: string): (r: Insights)
    ensures r.risk == High <==> VulnerableSignal(output)
    ensures r.risk == Medium <==> !VulnerableSignal(output) && OpenPortSignal(output)
    ensures r.risk == Low <==> !VulnerableSignal(output) && !OpenPortSignal(output)
    ensures |r.findings| == |r.recommendations| <= 3
    ensures forall k :: 0 <= k < |r.findings| ==>
              Rule(r.findings[k], r.recommendations[k]) in [OpenPorts, Vulnerabilities, LargeOutput]
    ensures OpenPorts.finding in r.findings <==> OpenPortSignal(output)
    ensures Vulnerabilities.finding in r.findings <==> VulnerableSignal(output)
    ensures LargeOutput.finding in r.findings <==> IsLarge(output)
    ensures forall i, j :: 0 <= i < j < |r.findings| ==> Rank(r.findings[i]) < Rank(r.findings[j])
    ensures r.outputLength == |output| && r.command == command
  {
    var rules := Fired(OpenPorts, OpenPortSignal(output))
      + Fired(Vulnerabilities, VulnerableSignal(output))
      + Fired(LargeOutput, IsLarge(output));
    assert OpenPorts in rules <==> OpenPortSignal(output);
    assert Vulnerabilities in rules <==> VulnerableSignal(output);
    assert LargeOutput in rules <==> IsLarge(output);
    var findings := seq(|rules|, k requires 0 <= k < |rules| => rules[k].finding);
    assert forall k :: 0 <= k < |rules| ==> rules[k] in [OpenPorts, Vulnerabilities, LargeOutput];
    FiredInOrder(OpenPortSignal(output), VulnerableSignal(output), IsLarge(output));
    forall r | r in rules
      ensures r.finding in findings
    {
      var k :| 0 <= k < |rules| && rules[k] == r;
      assert findings[k] == r.finding;
    }
    var risk := if VulnerableSignal(output) then High
      else if OpenPortSignal(output) then Medium
      else Low;
    Insights(
      findings,
      seq(|rules|, k requires 0 <= k < |rules| => rules[k].recommendation),
      risk, command, |output|)
  }
}
