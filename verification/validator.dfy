/**
 * `SecurityValidator.validate_command`: a deny-list scan of the lower-cased
 * command, then a classification of its first whitespace-separated field.
 */
module Validator {
  import opened Wrappers
  import opened Text
  import opened Keywords

  /** Destructive signatures, in the order they are tried. */
  const DangerousCommands: seq<string> := [
    "rm -rf /", "del /f /s /q", "format", "fdisk", "dd if=", "shutdown", "reboot",
    "powershell.exe", "wget", "curl", ":(){ :|: & };:", "mkfs", "curl | sh"
  ]

  /** First fields that are recognised security tools. */
  const AllowedSecurityTools: seq<string> := [
    "nmap", "ncat", "netstat", "ss", "ping", "traceroute", "dig", "nslookup",
    "sqlmap", "dirb", "gobuster", "nikto", "hydra", "john", "hashcat",
    "metasploit", "msfconsole", "msfvenom", "aircrack-ng", "airodump-ng",
    "burpsuite", "zaproxy", "wireshark", "tshark", "tcpdump"
  ]

  /** First fields that add no warning at all. */
  const BenignCommands: seq<string> := ["ls", "cat", "grep", "ps", "top", "htop", "history"]

  const DangerPrefix := "Dangerous command detected: "
  const ToolPrefix := "Security tool: "
  const UnknownPrefix := "Unknown command: "

  const DeniedLevel := 10
  const ToolLevel := 2
  const UnknownLevel := 5

  /** The validator's verdict; the timestamp is left out. */
  datatype Validation = Validation(dangerLevel: int, warnings: seq<string>, isAllowed: bool)

  /** The command contains some deny-list entry, ignoring ASCII case. */
  predicate Denied(command: string) {
    AnyIn(Lower(command), DangerousCommands)
  }

  function Validate(command: string): (v: Validation)
    ensures !v.isAllowed <==> Denied(command)
    ensures !v.isAllowed <==> v.dangerLevel == DeniedLevel
    ensures v.isAllowed ==> v.dangerLevel in {0, ToolLevel, UnknownLevel}
    ensures 1 <= |v.warnings| <= 2 || (v.isAllowed && v.warnings == [])
  {
    var lc := Lower(command);
    var d := FirstWordIn(lc, DangerousCommands);
    var allowed := d == |DangerousCommands|;
    var level := if allowed then 0 else DeniedLevel;
    var warnings := if allowed then [] else [DangerPrefix + DangerousCommands[d]];
    match FirstField(command)
    case None => Validation(level, warnings, allowed)
    case Some(tool) =>
      if tool in AllowedSecurityTools then
        Validation(Max(level, ToolLevel), warnings + [ToolPrefix + tool], allowed)
      else if tool !in BenignCommands then
        Validation(Max(level, UnknownLevel), warnings + [UnknownPrefix + tool], allowed)
      else
        Validation(level, warnings, allowed)
  }

  /** Number of entries of `ws` that start with `p`. */
  function CountStartingWith(ws: seq<string>, p: string): (n: nat)
    ensures n <= |ws|
  {
    if ws == [] then 0
    else (if StartsWith(ws[0], p) then 1 else 0) + CountStartingWith(ws[1..], p)
  }

  lemma CountStartingWithAppend(a: seq<string>, b: seq<string>, p: string)
    ensures CountStartingWith(a + b, p) == CountStartingWith(a, p) + CountStartingWith(b, p)
  {
    if a != [] {
      assert (a + b)[0] == a[0];
      assert (a + b)[1..] == a[1..] + b;
      CountStartingWithAppend(a[1..], b, p);
    } else {
      assert a + b == b;
    }
  }

  /**
   * A denied command is reported once: the first warning names the earliest
   * deny-list entry (in table order) found in the lower-cased command, and no
   * other warning carries the "Dangerous command detected" prefix.
   */
  lemma DeniedReport(command: string, k: nat)
    requires k < |DangerousCommands|
    requires Contains(Lower(command), DangerousCommands[k])
    requires forall j :: 0 <= j < k ==> !Contains(Lower(command), DangerousCommands[j])
    ensures Validate(command).dangerLevel == DeniedLevel && !Validate(command).isAllowed
    ensures Validate(command).warnings[0] == DangerPrefix + DangerousCommands[k]
    ensures CountStartingWith(Validate(command).warnings, DangerPrefix) == 1
  {
    var v := Validate(command);
    var first := DangerPrefix + DangerousCommands[k];
    assert StartsWith(first, DangerPrefix);
    assert v.warnings[..1] == [first];
    if |v.warnings| == 2 {
      var w := v.warnings[1];
      assert StartsWith(w, ToolPrefix) || StartsWith(w, UnknownPrefix);
      assert w[0] != DangerPrefix[0];
      assert !StartsWith(w, DangerPrefix);
      assert v.warnings == [first] + [w];
      CountStartingWithAppend([first], [w], DangerPrefix);
    } else {
      assert v.warnings == [first];
    }
  }

  /**
   * The first field is compared case-sensitively: a listed tool raises the
   * level to at least 2 and appends a "Security tool" warning; a field that is
   * neither a tool nor benign raises it to at least 5 and appends an "Unknown
   * command" warning; a benign field or an all-blank command changes nothing
   * beyond the deny-list stage.
   */
  lemma FieldClassification(command: string)
    ensures var v := Validate(command);
      var base := if Denied(command) then DeniedLevel else 0;
      var baseWarnings := if Denied(command) then 1 else 0;
      match FirstField(command)
      case None => v.dangerLevel == base && |v.warnings| == baseWarnings
      case Some(t) =>
        && (t in AllowedSecurityTools ==>
              v.dangerLevel == Max(base, ToolLevel) && |v.warnings| == baseWarnings + 1
              && v.warnings[baseWarnings] == ToolPrefix + t)
        && (t !in AllowedSecurityTools && t !in BenignCommands ==>
              v.dangerLevel == Max(base, UnknownLevel) && |v.warnings| == baseWarnings + 1
              && v.warnings[baseWarnings] == UnknownPrefix + t)
        && (t in BenignCommands ==> v.dangerLevel == base && |v.warnings| == baseWarnings)
  {
    assert forall t :: t in BenignCommands ==> t !in AllowedSecurityTools;
  }

  /** Different texts after a common prefix give different strings. */
  lemma PrefixCancel(p: string, x: string, y: string)
    requires x != y
    ensures p + x != p + y
  {
    assert (p + x)[|p|..] == x;
    assert (p + y)[|p|..] == y;
  }

  /**
   * The entry "curl | sh" is never the one reported: any command that
   * contains it also contains the earlier entry "curl".
   */
  lemma CurlPipeShShadowed(command: string)
    ensures Denied(command) ==> Validate(command).warnings[0] != DangerPrefix + "curl | sh"
  {
    var d := FirstWordIn(Lower(command), DangerousCommands);
    CurlBeforePipe(Lower(command));
    if Denied(command) {
      DeniedReport(command, d);
      EarlierEntriesDiffer(d);
      PrefixCancel(DangerPrefix, DangerousCommands[d], "curl | sh");
    }
  }

  lemma EarlierEntriesDiffer(d: nat)
    requires d < |DangerousCommands| - 1
    ensures DangerousCommands[d] != "curl | sh"
  {
  }

  /** The deny-list scan of any text stops before its last entry. */
  lemma CurlBeforePipe(lc: string)
    ensures FirstWordIn(lc, DangerousCommands) != |DangerousCommands| - 1
  {
    var d := FirstWordIn(lc, DangerousCommands);
    if Contains(lc, "curl | sh") {
      CurlPipeMentionsCurl(lc);
      assert Contains(lc, DangerousCommands[9]);
      assert d <= 9;
    } else {
      assert d != |DangerousCommands| - 1;
    }
  }

  lemma CurlPipeMentionsCurl(lc: string)
    requires Contains(lc, "curl | sh")
    ensures Contains(lc, "curl")
  {
    assert ContainsAt("curl | sh", "curl", 0);
    ContainsTransitive(lc, "curl | sh", "curl");
  }

  /**
   * The entry "format" is matched as a bare substring, so a harmless command
   * mentioning "information" is denied.
   */
  lemma InformationIsDenied()
    ensures !Validate("cat information.txt").isAllowed
    ensures Validate("cat information.txt").dangerLevel == DeniedLevel
  {
    var lc := Lower("cat information.txt");
    assert lc[6..12] == "format";
    assert ContainsAt(lc, DangerousCommands[2], 6);
  }
}
