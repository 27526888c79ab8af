/**
 * Kotlin `when { "k1" in text -> o1; "k2" in text -> o2; …; else -> d }`:
 * a priority list of substring tests where the first keyword found wins.
 */
module KeywordRules {
  import opened Text

  datatype Rule = Rule(keyword: string, output: string)

  /** The output of the first rule whose keyword occurs in `text`, else `fallback`. */
  function FirstMatch(text: string, rules: seq<Rule>, fallback: string): string
    decreases |rules|
  {
    if rules == [] then fallback
    else if Contains(text, rules[0].keyword) then rules[0].output
    else FirstMatch(text, rules[1..], fallback)
  }

  /** No rule's keyword occurs before position `j`. */
  predicate NoneBefore(text: string, rules: seq<Rule>, j: nat)
    requires j <= |rules|
  {
    forall i :: 0 <= i < j ==> !Contains(text, rules[i].keyword)
  }

  /**
   * The declarative reading of the chain: rule `j` decides when its keyword
   * occurs and none before it does; with no keyword present the fallback does.
   */
  lemma {:induction false} FirstMatchSpec(text: string, rules: seq<Rule>, fallback: string)
    ensures NoneBefore(text, rules, |rules|) ==> FirstMatch(text, rules, fallback) == fallback
    ensures forall j :: 0 <= j < |rules| && Contains(text, rules[j].keyword) && NoneBefore(text, rules, j) ==>
              FirstMatch(text, rules, fallback) == rules[j].output
    decreases |rules|
  {
    if rules != [] {
      FirstMatchSpec(text, rules[1..], fallback);
      if !Contains(text, rules[0].keyword) {
        forall j | 1 <= j <= |rules| && NoneBefore(text, rules, j)
          ensures NoneBefore(text, rules[1..], j - 1)
        {
          assert forall i :: 0 <= i < j - 1 ==> rules[1..][i] == rules[i + 1];
        }
        forall j | 1 <= j < |rules| ensures rules[1..][j - 1] == rules[j] { }
      }
    }
  }

  /** With no keyword present the chain falls through to the fallback. */
  lemma {:induction false} FirstMatchNone(text: string, rules: seq<Rule>, fallback: string)
    requires NoneBefore(text, rules, |rules|)
    ensures FirstMatch(text, rules, fallback) == fallback
    decreases |rules|
  {
    if rules != [] {
      assert NoneBefore(text, rules[1..], |rules| - 1) by {
        forall i | 0 <= i < |rules| - 1 ensures rules[1..][i] == rules[i + 1] { }
      }
      FirstMatchNone(text, rules[1..], fallback);
    }
  }

  /** The result is the output of some rule or the fallback. */
  lemma {:induction false} FirstMatchRange(text: string, rules: seq<Rule>, fallback: string)
    ensures FirstMatch(text, rules, fallback) == fallback ||
            exists j :: 0 <= j < |rules| && FirstMatch(text, rules, fallback) == rules[j].output
    decreases |rules|
  {
    if rules != [] && !Contains(text, rules[0].keyword) {
      FirstMatchRange(text, rules[1..], fallback);
      if FirstMatch(text, rules, fallback) != fallback {
        var j :| 0 <= j < |rules[1..]| && FirstMatch(text, rules, fallback) == rules[1..][j].output;
        assert rules[1..][j] == rules[j + 1];
      }
    }
  }

  /** Every keyword is non-empty and starts with a character that does not occur in `p`. */
  predicate KeywordsAvoid(rules: seq<Rule>, p: string) {
    forall i :: 0 <= i < |rules| ==> rules[i].keyword != [] && rules[i].keyword[0] !in p
  }

  /** Text in front of `x` that shares no first keyword character does not change the choice. */
  lemma {:induction false} FirstMatchAfterPrefix(p: string, x: string, rules: seq<Rule>, fallback: string)
    requires KeywordsAvoid(rules, p)
    ensures FirstMatch(p + x, rules, fallback) == FirstMatch(x, rules, fallback)
    decreases |rules|
  {
    if rules != [] {
      ContainsAfterPrefix(p, x, rules[0].keyword);
      assert KeywordsAvoid(rules[1..], p) by {
        forall i | 0 <= i < |rules[1..]| ensures rules[1..][i] == rules[i + 1] { }
      }
      FirstMatchAfterPrefix(p, x, rules[1..], fallback);
    }
  }
}
