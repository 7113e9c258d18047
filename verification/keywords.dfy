/**
 * First-match keyword tables. Every classifier of the core is a chain of
 * `if any(word in text for word in group)` tests, tried in a fixed order,
 * where the first group that matches decides; these functions are that chain
 * with the table as data.
 */
module Keywords {
  import opened Text

  /** `any(w in text for w in words)`. */
  predicate AnyIn(text: string, words: seq<string>) {
    exists k :: 0 <= k < |words| && Contains(text, words[k])
  }

  /** Index of the first entry of `words` that occurs in `text`; `|words|` when none does. */
  function FirstWordIn(text: string, words: seq<string>): (k: nat)
    ensures k <= |words|
    ensures k < |words| ==> Contains(text, words[k])
    ensures forall j :: 0 <= j < k ==> !Contains(text, words[j])
    decreases |words|
  {
    if |words| == 0 then 0
    else if Contains(text, words[0]) then 0
    else 1 + FirstWordIn(text, words[1..])
  }

  /** A keyword group and the answer it selects. */
  datatype Rule<T> = Rule(words: seq<string>, value: T)

  /** Index of the first rule with a keyword in `text`; `|rules|` when none has one. */
  function FirstRuleIn<T>(text: string, rules: seq<Rule<T>>): (k: nat)
    ensures k <= |rules|
    ensures k < |rules| ==> AnyIn(text, rules[k].words)
    ensures forall j :: 0 <= j < k ==> !AnyIn(text, rules[j].words)
    decreases |rules|
  {
    if |rules| == 0 then 0
    else if AnyIn(text, rules[0].words) then 0
    else 1 + FirstRuleIn(text, rules[1..])
  }
}
