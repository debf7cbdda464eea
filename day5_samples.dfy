/**
 * The sample input of the day 5 tests (src/day5.rs:85-112), taken as the
 * rules and updates `parse` makes of it, and the answer 143 that
 * `part1_sample_input` expects (src/day5.rs:124-127). Each update gets
 * the first index of every page it may hold, then its verdict; the six
 * shares are then added up.
 */
module Day5Samples {
  import opened Text
  import opened Day5

  const RULES_0: seq<Rule> := [Rule(47, 53), Rule(97, 13), Rule(97, 61)]
  const RULES_1: seq<Rule> := [Rule(97, 47), Rule(75, 29), Rule(61, 13)]
  const RULES_2: seq<Rule> := [Rule(75, 53), Rule(29, 13), Rule(97, 29)]
  const RULES_3: seq<Rule> := [Rule(53, 29), Rule(61, 53), Rule(97, 53)]
  const RULES_4: seq<Rule> := [Rule(61, 29), Rule(47, 13), Rule(75, 47)]
  const RULES_5: seq<Rule> := [Rule(97, 75), Rule(47, 61), Rule(75, 61)]
  const RULES_6: seq<Rule> := [Rule(47, 29), Rule(75, 13), Rule(53, 13)]
  /** The 21 ordering rules, three to a row (a long display is costly to index). */
  const RULES: seq<Rule> := RULES_0 + RULES_1 + RULES_2 + RULES_3 + RULES_4 + RULES_5 + RULES_6

  const U0: Update := Update([75, 47, 61, 53, 29])
  const U1: Update := Update([97, 61, 53, 29, 13])
  const U2: Update := Update([75, 29, 13])
  const U3: Update := Update([75, 97, 47, 61, 53])
  const U4: Update := Update([61, 13, 29])
  const U5: Update := Update([97, 13, 75, 29, 47])

  /** The first index of a page that occurs at `k` and not before it. */
  lemma IndexOfAt(s: seq<int>, k: nat, x: int)
    requires k < |s| && s[k] == x && forall j :: 0 <= j < k ==> s[j] != x
    ensures IndexOf(s, x) == k
  {
  }

  /** The first index of a page that does not occur is the length. */
  lemma IndexOfNone(s: seq<int>, x: int)
    requires forall j :: 0 <= j < |s| ==> s[j] != x
    ensures IndexOf(s, x) == |s|
  {
  }

  /** `rules` lists the sample rules in order. */
  predicate SampleRules(rules: seq<Rule>) {
    |rules| == 21
    && rules[0] == Rule(47, 53)
    && rules[1] == Rule(97, 13)
    && rules[2] == Rule(97, 61)
    && rules[3] == Rule(97, 47)
    && rules[4] == Rule(75, 29)
    && rules[5] == Rule(61, 13)
    && rules[6] == Rule(75, 53)
    && rules[7] == Rule(29, 13)
    && rules[8] == Rule(97, 29)
    && rules[9] == Rule(53, 29)
    && rules[10] == Rule(61, 53)
    && rules[11] == Rule(97, 53)
    && rules[12] == Rule(61, 29)
    && rules[13] == Rule(47, 13)
    && rules[14] == Rule(75, 47)
    && rules[15] == Rule(97, 75)
    && rules[16] == Rule(47, 61)
    && rules[17] == Rule(75, 61)
    && rules[18] == Rule(47, 29)
    && rules[19] == Rule(75, 13)
    && rules[20] == Rule(53, 13)
  }

  /** The first index of each sample page in [75, 47, 61, 53, 29]. */
  lemma Positions0(s: seq<int>)
    requires |s| == 5 && s[0] == 75 && s[1] == 47 && s[2] == 61 && s[3] == 53 && s[4] == 29
    ensures IndexOf(s, 13) == 5
    ensures IndexOf(s, 29) == 4
    ensures IndexOf(s, 47) == 1
    ensures IndexOf(s, 53) == 3
    ensures IndexOf(s, 61) == 2
    ensures IndexOf(s, 75) == 0
    ensures IndexOf(s, 97) == 5
  {
    IndexOfAt(s, 0, 75);
    IndexOfAt(s, 1, 47);
    IndexOfAt(s, 2, 61);
    IndexOfAt(s, 3, 53);
    IndexOfAt(s, 4, 29);
    IndexOfNone(s, 13);
    IndexOfNone(s, 97);
  }

  /** [75, 47, 61, 53, 29] keeps every rule that applies to it. */
  lemma Verdict0(u: Update, rules: seq<Rule>)
    requires |u.pages| == 5 && u.pages[0] == 75 && u.pages[1] == 47 && u.pages[2] == 61 && u.pages[3] == 53 && u.pages[4] == 29
    requires SampleRules(rules)
    ensures IsValid(u, rules)
  {
    Positions0(u.pages);
    forall i | 0 <= i < |rules| ensures CheckRule(u, rules[i]) != Some(false) {
      assert i == 0 || i == 1 || i == 2 || i == 3 || i == 4 || i == 5 || i == 6 || i == 7 || i == 8 || i == 9 || i == 10 || i == 11 || i == 12 || i == 13 || i == 14 || i == 15 || i == 16 || i == 17 || i == 18 || i == 19 || i == 20;
    }
  }

  /** The first index of each sample page in [97, 61, 53, 29, 13]. */
  lemma Positions1(s: seq<int>)
    requires |s| == 5 && s[0] == 97 && s[1] == 61 && s[2] == 53 && s[3] == 29 && s[4] == 13
    ensures IndexOf(s, 13) == 4
    ensures IndexOf(s, 29) == 3
    ensures IndexOf(s, 47) == 5
    ensures IndexOf(s, 53) == 2
    ensures IndexOf(s, 61) == 1
    ensures IndexOf(s, 75) == 5
    ensures IndexOf(s, 97) == 0
  {
    IndexOfAt(s, 0, 97);
    IndexOfAt(s, 1, 61);
    IndexOfAt(s, 2, 53);
    IndexOfAt(s, 3, 29);
    IndexOfAt(s, 4, 13);
    IndexOfNone(s, 47);
    IndexOfNone(s, 75);
  }

  /** [97, 61, 53, 29, 13] keeps every rule that applies to it. */
  lemma Verdict1(u: Update, rules: seq<Rule>)
    requires |u.pages| == 5 && u.pages[0] == 97 && u.pages[1] == 61 && u.pages[2] == 53 && u.pages[3] == 29 && u.pages[4] == 13
    requires SampleRules(rules)
    ensures IsValid(u, rules)
  {
    Positions1(u.pages);
    forall i | 0 <= i < |rules| ensures CheckRule(u, rules[i]) != Some(false) {
      assert i == 0 || i == 1 || i == 2 || i == 3 || i == 4 || i == 5 || i == 6 || i == 7 || i == 8 || i == 9 || i == 10 || i == 11 || i == 12 || i == 13 || i == 14 || i == 15 || i == 16 || i == 17 || i == 18 || i == 19 || i == 20;
    }
  }

  /** The first index of each sample page in [75, 29, 13]. */
  lemma Positions2(s: seq<int>)
    requires |s| == 3 && s[0] == 75 && s[1] == 29 && s[2] == 13
    ensures IndexOf(s, 13) == 2
    ensures IndexOf(s, 29) == 1
    ensures IndexOf(s, 47) == 3
    ensures IndexOf(s, 53) == 3
    ensures IndexOf(s, 61) == 3
    ensures IndexOf(s, 75) == 0
    ensures IndexOf(s, 97) == 3
  {
    IndexOfAt(s, 0, 75);
    IndexOfAt(s, 1, 29);
    IndexOfAt(s, 2, 13);
    IndexOfNone(s, 47);
    IndexOfNone(s, 53);
    IndexOfNone(s, 61);
    IndexOfNone(s, 97);
  }

  /** [75, 29, 13] keeps every rule that applies to it. */
  lemma Verdict2(u: Update, rules: seq<Rule>)
    requires |u.pages| == 3 && u.pages[0] == 75 && u.pages[1] == 29 && u.pages[2] == 13
    requires SampleRules(rules)
    ensures IsValid(u, rules)
  {
    Positions2(u.pages);
    forall i | 0 <= i < |rules| ensures CheckRule(u, rules[i]) != Some(false) {
      assert i == 0 || i == 1 || i == 2 || i == 3 || i == 4 || i == 5 || i == 6 || i == 7 || i == 8 || i == 9 || i == 10 || i == 11 || i == 12 || i == 13 || i == 14 || i == 15 || i == 16 || i == 17 || i == 18 || i == 19 || i == 20;
    }
  }

  /** The first index of each sample page in [75, 97, 47, 61, 53]. */
  lemma Positions3(s: seq<int>)
    requires |s| == 5 && s[0] == 75 && s[1] == 97 && s[2] == 47 && s[3] == 61 && s[4] == 53
    ensures IndexOf(s, 13) == 5
    ensures IndexOf(s, 29) == 5
    ensures IndexOf(s, 47) == 2
    ensures IndexOf(s, 53) == 4
    ensures IndexOf(s, 61) == 3
    ensures IndexOf(s, 75) == 0
    ensures IndexOf(s, 97) == 1
  {
    IndexOfAt(s, 0, 75);
    IndexOfAt(s, 1, 97);
    IndexOfAt(s, 2, 47);
    IndexOfAt(s, 3, 61);
    IndexOfAt(s, 4, 53);
    IndexOfNone(s, 13);
    IndexOfNone(s, 29);
  }

  /** [75, 97, 47, 61, 53] puts 97 after 75, against rule 15. */
  lemma Verdict3(u: Update, rules: seq<Rule>)
    requires |u.pages| == 5 && u.pages[0] == 75 && u.pages[1] == 97 && u.pages[2] == 47 && u.pages[3] == 61 && u.pages[4] == 53
    requires SampleRules(rules)
    ensures !IsValid(u, rules)
  {
    Positions3(u.pages);
    assert CheckRule(u, rules[15]) == Some(false);
  }

  /** The first index of each sample page in [61, 13, 29]. */
  lemma Positions4(s: seq<int>)
    requires |s| == 3 && s[0] == 61 && s[1] == 13 && s[2] == 29
    ensures IndexOf(s, 13) == 1
    ensures IndexOf(s, 29) == 2
    ensures IndexOf(s, 47) == 3
    ensures IndexOf(s, 53) == 3
    ensures IndexOf(s, 61) == 0
    ensures IndexOf(s, 75) == 3
    ensures IndexOf(s, 97) == 3
  {
    IndexOfAt(s, 0, 61);
    IndexOfAt(s, 1, 13);
    IndexOfAt(s, 2, 29);
    IndexOfNone(s, 47);
    IndexOfNone(s, 53);
    IndexOfNone(s, 75);
    IndexOfNone(s, 97);
  }

  /** [61, 13, 29] puts 29 after 13, against rule 7. */
  lemma Verdict4(u: Update, rules: seq<Rule>)
    requires |u.pages| == 3 && u.pages[0] == 61 && u.pages[1] == 13 && u.pages[2] == 29
    requires SampleRules(rules)
    ensures !IsValid(u, rules)
  {
    Positions4(u.pages);
    assert CheckRule(u, rules[7]) == Some(false);
  }

  /** The first index of each sample page in [97, 13, 75, 29, 47]. */
  lemma Positions5(s: seq<int>)
    requires |s| == 5 && s[0] == 97 && s[1] == 13 && s[2] == 75 && s[3] == 29 && s[4] == 47
    ensures IndexOf(s, 13) == 1
    ensures IndexOf(s, 29) == 3
    ensures IndexOf(s, 47) == 4
    ensures IndexOf(s, 53) == 5
    ensures IndexOf(s, 61) == 5
    ensures IndexOf(s, 75) == 2
    ensures IndexOf(s, 97) == 0
  {
    IndexOfAt(s, 0, 97);
    IndexOfAt(s, 1, 13);
    IndexOfAt(s, 2, 75);
    IndexOfAt(s, 3, 29);
    IndexOfAt(s, 4, 47);
    IndexOfNone(s, 53);
    IndexOfNone(s, 61);
  }

  /** [97, 13, 75, 29, 47] puts 29 after 13, against rule 7. */
  lemma Verdict5(u: Update, rules: seq<Rule>)
    requires |u.pages| == 5 && u.pages[0] == 97 && u.pages[1] == 13 && u.pages[2] == 75 && u.pages[3] == 29 && u.pages[4] == 47
    requires SampleRules(rules)
    ensures !IsValid(u, rules)
  {
    Positions5(u.pages);
    assert CheckRule(u, rules[7]) == Some(false);
  }

  /** What one update adds to the answer: its middle page if it is valid. */
  function Share(u: Update, rules: seq<Rule>): int {
    if IsValid(u, rules) then Middle(u) else 0
  }

  /** The first update's share, then the rest. */
  lemma SumCons(us: seq<Update>, rules: seq<Rule>)
    requires us != []
    ensures SumValidMiddles(us, rules) == Share(us[0], rules) + SumValidMiddles(us[1..], rules)
  {
  }

  /** The sum over six updates, one share at a time. */
  lemma SumOfSix(us: seq<Update>, rules: seq<Rule>)
    requires |us| == 6
    ensures SumValidMiddles(us, rules) == Share(us[0], rules) + Share(us[1], rules) + Share(us[2], rules) + Share(us[3], rules) + Share(us[4], rules) + Share(us[5], rules)
  {
    SumCons(us, rules);
    SumCons(us[1..], rules);
    SumCons(us[2..], rules);
    SumCons(us[3..], rules);
    SumCons(us[4..], rules);
    SumCons(us[5..], rules);
    assert us[1..][1..] == us[2..] && us[2..][1..] == us[3..] && us[3..][1..] == us[4..];
    assert us[4..][1..] == us[5..] && us[5..][1..] == [];
  }

  /** What `parse` makes of the sample text. */
  const SAMPLE: DailyInput := DailyInput(RULES, [U0, U1, U2, U3, U4, U5])

  lemma RulesListed()
    ensures SampleRules(RULES)
  {
  }

  lemma Share0()
    ensures Share(U0, RULES) == 61
  {
    RulesListed();
    Verdict0(U0, RULES);
  }

  lemma Share1()
    ensures Share(U1, RULES) == 53
  {
    RulesListed();
    Verdict1(U1, RULES);
  }

  lemma Share2()
    ensures Share(U2, RULES) == 29
  {
    RulesListed();
    Verdict2(U2, RULES);
  }

  lemma Share3()
    ensures Share(U3, RULES) == 0
  {
    RulesListed();
    Verdict3(U3, RULES);
  }

  lemma Share4()
    ensures Share(U4, RULES) == 0
  {
    RulesListed();
    Verdict4(U4, RULES);
  }

  lemma Share5()
    ensures Share(U5, RULES) == 0
  {
    RulesListed();
    Verdict5(U5, RULES);
  }

  /** `part1_sample_input`: the three valid updates have middles 61, 53 and 29. */
  lemma SamplePart1()
    ensures Part1(SAMPLE) == 143
  {
    Share0();
    Share1();
    Share2();
    Share3();
    Share4();
    Share5();
    SumOfSix(SAMPLE.updates, RULES);
  }
}
