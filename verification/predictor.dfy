/**
 * `CommandPredictor.predict_next_commands`: follow-up commands suggested by
 * the keys of a static table found in the lower-cased command.
 *
 * The source removes duplicates by passing the list through a `set`, so the
 * order of the answer is whatever the set's iteration order is; the model
 * therefore pins down the answer's contents and size only.
 */
module Predictor {
  import opened Wrappers
  import opened Text

  /** A table key and the follow-up commands it suggests. */
  datatype FollowUp = FollowUp(key: string, commands: seq<string>)

  const CommandPatterns: seq<FollowUp> := [
    FollowUp("nmap", ["nmap -sV", "nmap -sC", "nmap -A", "nmap -p-"]),
    FollowUp("scan", ["nmap", "nikto", "dirb", "gobuster"]),
    FollowUp("exploit", ["msfconsole", "sqlmap", "hydra"]),
    FollowUp("network", ["netstat", "ss", "ping", "traceroute"]),
    FollowUp("enumeration", ["enum4linux", "smbclient", "showmount"])
  ]

  /** Follow-ups taken per matching key (`commands[:3]`). */
  const PerKey := 3

  /** Cap on the number of predictions (`predictions[:5]`). */
  const MaxPredictions := 5

  /** `commands[:3]`, clamped like a Python slice. */
  function Top(f: FollowUp): seq<string> {
    f.commands[..Min(PerKey, |f.commands|)]
  }

  /** `x` is one of the first three follow-ups of a key that occurs in `lc`. */
  ghost predicate SuggestedBy(lc: string, table: seq<FollowUp>, x: string) {
    exists k :: 0 <= k < |table| && Contains(lc, table[k].key) && x in Top(table[k])
  }

  /** The list built before de-duplication, keys in table order. */
  function Suggestions(lc: string, table: seq<FollowUp>): (r: seq<string>)
    ensures forall x :: x in r <==> SuggestedBy(lc, table, x)
    decreases |table|
  {
    if table == [] then []
    else
      var rest := Suggestions(lc, table[1..]);
      assert forall x :: SuggestedBy(lc, table[1..], x) ==> SuggestedBy(lc, table, x) by {
        forall x | SuggestedBy(lc, table[1..], x)
          ensures SuggestedBy(lc, table, x)
        {
          var k :| 0 <= k < |table[1..]| && Contains(lc, table[1..][k].key) && x in Top(table[1..][k]);
          assert table[k + 1] == table[1..][k];
        }
      }
      assert forall x :: SuggestedBy(lc, table, x) ==> (x in Top(table[0]) && Contains(lc, table[0].key)) || SuggestedBy(lc, table[1..], x) by {
        forall x | SuggestedBy(lc, table, x)
          ensures (x in Top(table[0]) && Contains(lc, table[0].key)) || SuggestedBy(lc, table[1..], x)
        {
          var k :| 0 <= k < |table| && Contains(lc, table[k].key) && x in Top(table[k]);
          if k > 0 { assert table[1..][k - 1] == table[k]; }
        }
      }
      (if Contains(lc, table[0].key) then Top(table[0]) else []) + rest
  }

  /** Distinct suggestions other than the command itself. */
  function Candidates(command: string): set<string> {
    (set x | x in Suggestions(Lower(command), CommandPatterns)) - {command}
  }

  predicate NoDuplicates(r: seq<string>) {
    forall i, j :: 0 <= i < j < |r| ==> r[i] != r[j]
  }

  /** Up to `cap` distinct members of `all`, in an unspecified order. */
  method TakeDistinct(all: set<string>, cap: nat) returns (r: seq<string>)
    ensures NoDuplicates(r)
    ensures forall x :: x in r ==> x in all
    ensures |r| == Min(cap, |all|)
  {
    var pool := all;
    r := [];
    while |r| < cap && pool != {}
      invariant pool <= all
      invariant |r| <= cap
      invariant NoDuplicates(r)
      invariant forall x :: x in r ==> x in all && x !in pool
      invariant |r| + |pool| == |all|
      decreases |pool|
    {
      var x :| x in pool;
      r := r + [x];
      pool := pool - {x};
    }
  }

  /**
   * Up to five distinct suggestions, none equal to the command itself, each
   * taken from the first three follow-ups of a key found in the lower-cased
   * command; as many as there are candidates, up to the cap.
   */
  method PredictNextCommands(command: string) returns (r: seq<string>)
    ensures NoDuplicates(r)
    ensures forall x :: x in r ==> x != command && SuggestedBy(Lower(command), CommandPatterns, x)
    ensures |r| == Min(MaxPredictions, |Candidates(command)|)
    ensures (forall k :: 0 <= k < |CommandPatterns| ==> !Contains(Lower(command), CommandPatterns[k].key)) ==> r == []
  {
    var all := Candidates(command);
    r := TakeDistinct(all, MaxPredictions);
    if forall k :: 0 <= k < |CommandPatterns| ==> !Contains(Lower(command), CommandPatterns[k].key) {
      assert forall x :: !SuggestedBy(Lower(command), CommandPatterns, x);
      assert all == {};
    }
  }
}
