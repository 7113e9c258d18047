/**
 * The server's simulated handlers: `SecurityToolsHandler.execute_command`,
 * which answers a command by its prefix without running anything, and
 * `AIHandler.process_query`, a canned reply chosen by keyword precedence.
 */
module ToolRouter {
  import opened Text

  /** The dictionary `execute_command` returns. */
  datatype ToolReply = ToolReply(tool: string, status: string, output: string, progress: int)

  /** `target or 'localhost'`. */
  function TargetOrLocalhost(target: string): string {
    if target == "" then "localhost" else target
  }

  /**
   * The reply to a command: "nmap" and "sqlmap" prefixes (case-sensitive)
   * report a running scan at 10 and 15 percent; anything else is echoed as an
   * executed terminal command at 100 percent. A reply's tool is either
   * "terminal" or a prefix of the command, and its progress and status follow
   * from the tool.
   */
  function ExecuteCommand(command: string, target: string := ""): (r: ToolReply)
    ensures r.tool in {"nmap", "sqlmap", "terminal"}
    ensures r.tool == "nmap" <==> StartsWith(command, "nmap")
    ensures r.tool == "sqlmap" <==> StartsWith(command, "sqlmap")
    ensures r.tool != "terminal" ==> StartsWith(command, r.tool)
    ensures r.status == "running" <==> r.tool != "terminal"
    ensures r.status == "executed" <==> r.tool == "terminal"
    ensures r.progress == 10 <==> r.tool == "nmap"
    ensures r.progress == 15 <==> r.tool == "sqlmap"
    ensures r.progress == 100 <==> r.tool == "terminal"
    ensures r.tool == "nmap" ==> r.output == "Starting Nmap scan on " + TargetOrLocalhost(target) + "...\n"
    ensures r.tool == "sqlmap" ==> r.output == "SQLMap injection testing on " + target + "...\n"
    ensures r.tool == "terminal" ==> r.output == "$ " + command + "\nExecuted: " + command + "\n"
  {
    assert StartsWith(command, "nmap") ==> command[..4][0] == 'n';
    assert StartsWith(command, "sqlmap") ==> command[..6][0] == 's';
    if StartsWith(command, "nmap") then
      ToolReply("nmap", "running", "Starting Nmap scan on " + TargetOrLocalhost(target) + "...\n", 10)
    else if StartsWith(command, "sqlmap") then
      ToolReply("sqlmap", "running", "SQLMap injection testing on " + target + "...\n", 15)
    else
      ToolReply("terminal", "executed", "$ " + command + "\nExecuted: " + command + "\n", 100)
  }

  /** A running scan's output names its target, or "localhost" when none is given. */
  lemma ScanOutputNamesTarget(command: string, target: string)
    ensures var r := ExecuteCommand(command, target);
      r.tool == "nmap" ==> Contains(r.output, TargetOrLocalhost(target))
    ensures var r := ExecuteCommand(command, target);
      r.tool == "sqlmap" ==> Contains(r.output, target)
  {
    var r := ExecuteCommand(command, target);
    if r.tool == "nmap" {
      var p := "Starting Nmap scan on ";
      assert r.output[|p|..|p| + |TargetOrLocalhost(target)|] == TargetOrLocalhost(target);
      assert ContainsAt(r.output, TargetOrLocalhost(target), |p|);
    }
    if r.tool == "sqlmap" {
      var p := "SQLMap injection testing on ";
      assert r.output[|p|..|p| + |target|] == target;
      assert ContainsAt(r.output, target, |p|);
    }
  }

  /** A terminal reply gives the command back: it can be read off after the "$ " prompt. */
  lemma TerminalEchoesCommand(command: string, target: string)
    ensures var r := ExecuteCommand(command, target);
      r.tool == "terminal" ==>
        StartsWith(r.output, "$ ") && r.output[2..2 + |command|] == command
  {
  }

  /** The pictographs the replies open with. */
  const MagnifyingGlass := '\U{1F50D}'
  const WarningSign := '\U{26A0}'
  const EmojiStyle := '\U{FE0F}'
  const Robot := '\U{1F916}'
  const Brain := '\U{1F9E0}'

  const ScanText := [MagnifyingGlass] + " AI Analysis: Initiating network scan for target analysis..."
  const ExploitPrefix := [WarningSign, EmojiStyle] + "  AI Suggestion: Potential vulnerabilities detected. Recommended approach: "
  const HelpText := [Robot] + " AI Assistant: Available commands: scan, exploit, nmap, sqlmap, metasploit, status"
  const DefaultPrefix := [Brain] + " AI Response: Processing '"
  const DefaultSuffix := "'. Analyzing security context..."

  /** Which canned reply a query gets. */
  datatype ReplyKind = ScanReply | ExploitReply | HelpReply | DefaultReply

  /** "scan" before "exploit" before "help", in the lower-cased query. */
  function ReplyKindFor(query: string): (k: ReplyKind)
    ensures k == ScanReply <==> Contains(Lower(query), "scan")
    ensures k == ExploitReply <==> !Contains(Lower(query), "scan") && Contains(Lower(query), "exploit")
    ensures k == HelpReply <==>
      !Contains(Lower(query), "scan") && !Contains(Lower(query), "exploit") && Contains(Lower(query), "help")
  {
    var lc := Lower(query);
    if Contains(lc, "scan") then ScanReply
    else if Contains(lc, "exploit") then ExploitReply
    else if Contains(lc, "help") then HelpReply
    else DefaultReply
  }

  /**
   * `process_query`: each reply kind is recognisable from the reply's first
   * character, and the exploit and default replies quote the query verbatim.
   */
  function ProcessQuery(query: string): (r: string)
    ensures r == ScanText <==> ReplyKindFor(query) == ScanReply
    ensures r == HelpText <==> ReplyKindFor(query) == HelpReply
    ensures StartsWith(r, ExploitPrefix) <==> ReplyKindFor(query) == ExploitReply
    ensures StartsWith(r, DefaultPrefix) <==> ReplyKindFor(query) == DefaultReply
    ensures ReplyKindFor(query) == ExploitReply ==> r[|ExploitPrefix|..] == query
    ensures ReplyKindFor(query) == DefaultReply ==>
      |r| == |DefaultPrefix| + |query| + |DefaultSuffix|
      && r[|DefaultPrefix|..|DefaultPrefix| + |query|] == query
      && r[|DefaultPrefix| + |query|..] == DefaultSuffix
  {
    var r := match ReplyKindFor(query)
      case ScanReply => ScanText
      case ExploitReply => ExploitPrefix + query
      case HelpReply => HelpText
      case DefaultReply => DefaultPrefix + query + DefaultSuffix;
    assert r[0] == match ReplyKindFor(query)
      case ScanReply => ScanText[0]
      case ExploitReply => ExploitPrefix[0]
      case HelpReply => HelpText[0]
      case DefaultReply => DefaultPrefix[0];
    assert ScanText[0] == MagnifyingGlass && ExploitPrefix[0] == WarningSign;
    assert HelpText[0] == Robot && DefaultPrefix[0] == Brain;
    assert (ExploitPrefix + query)[..|ExploitPrefix|] == ExploitPrefix;
    assert (DefaultPrefix + query + DefaultSuffix)[..|DefaultPrefix|] == DefaultPrefix;
    FirstCharDecides(r, ExploitPrefix);
    FirstCharDecides(r, DefaultPrefix);
    r
  }

  /** A string whose first character differs from a prefix's does not start with it. */
  lemma FirstCharDecides(r: string, p: string)
    requires |r| > 0 && |p| > 0
    ensures StartsWith(r, p) ==> r[0] == p[0]
  {
    if |p| <= |r| {
      assert r[..|p|][0] == r[0];
    }
  }

  /** Case does not matter: queries equal after lower-casing get the same kind of reply. */
  lemma QueryCaseInsensitive(a: string, b: string)
    requires Lower(a) == Lower(b)
    ensures ReplyKindFor(a) == ReplyKindFor(b)
  {
  }

  /** "scan" wins over every other keyword, whatever else the query says. */
  lemma ScanTakesPrecedence(query: string)
    requires Contains(Lower(query), "scan")
    ensures ProcessQuery(query) == ScanText
  {
  }
}
