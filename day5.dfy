/**
 * Day 5: page-ordering rules (src/day5.rs). The input holds `before|after`
 * rules, an empty line, then comma-separated updates. An update is valid
 * when every rule whose two pages both occur in it has the first `before`
 * ahead of the first `after`; the answer sums the middle pages of the valid
 * updates.
 */
module Day5 {
  import opened Text

  datatype Rule = Rule(before: int, after: int)

  datatype Update = Update(pages: seq<int>)

  datatype DailyInput = DailyInput(rules: seq<Rule>, updates: seq<Update>)

  // ---------------------------------------------------------------------
  // parse

  /** A rule line: `split_once("|")` succeeds and both sides are integers. */
  predicate IsRuleLine(line: string) {
    match SplitOnce(line, '|')
    case None => false
    case Some((lhs, rhs)) => IsIntToken(lhs) && IsIntToken(rhs)
  }

  function ParseRule(line: string): Rule
    requires IsRuleLine(line)
  {
    var (lhs, rhs) := SplitOnce(line, '|').value;
    Rule(ParseInt(lhs), ParseInt(rhs))
  }

  /** An update line: every piece between commas is an integer. */
  predicate IsUpdateLine(line: string) {
    forall i :: 0 <= i < |Split(line, ',')| ==> IsIntToken(Split(line, ',')[i])
  }

  function ParseInts(tokens: seq<string>): (ns: seq<int>)
    requires forall i :: 0 <= i < |tokens| ==> IsIntToken(tokens[i])
    ensures |ns| == |tokens|
    ensures forall i :: 0 <= i < |tokens| ==> ns[i] == ParseInt(tokens[i])
  {
    if tokens == [] then [] else [ParseInt(tokens[0])] + ParseInts(tokens[1..])
  }

  function ParseUpdate(line: string): Update
    requires IsUpdateLine(line)
  {
    Update(ParseInts(Split(line, ',')))
  }

  function ParseRules(lines: seq<string>): (rs: seq<Rule>)
    requires forall i :: 0 <= i < |lines| ==> IsRuleLine(lines[i])
    ensures |rs| == |lines|
    ensures forall i :: 0 <= i < |lines| ==> rs[i] == ParseRule(lines[i])
  {
    if lines == [] then [] else [ParseRule(lines[0])] + ParseRules(lines[1..])
  }

  function ParseUpdates(lines: seq<string>): (us: seq<Update>)
    requires forall i :: 0 <= i < |lines| ==> IsUpdateLine(lines[i])
    ensures |us| == |lines|
    ensures forall i :: 0 <= i < |lines| ==> us[i] == ParseUpdate(lines[i])
  {
    if lines == [] then [] else [ParseUpdate(lines[0])] + ParseUpdates(lines[1..])
  }

  /** The number of rules: how far `take_while(!is_empty)` gets. */
  function RuleCount(lines: seq<string>): (n: nat)
    ensures n <= |lines|
    ensures forall i :: 0 <= i < n ==> lines[i] != ""
    ensures n < |lines| ==> lines[n] == ""
  {
    IndexOf(lines, "")
  }

  /** The lines `parse` reads without panicking. */
  predicate WellFormedLines(lines: seq<string>) {
    var n := RuleCount(lines);
    (forall i :: 0 <= i < n ==> IsRuleLine(lines[i])) &&
    (forall i :: n + 1 <= i < |lines| ==> IsUpdateLine(lines[i]))
  }

  predicate WellFormed(input: string) {
    WellFormedLines(Lines(input))
  }

  /** `parse` on the lines of the input: the rules are the lines before the
      first empty line, the updates are the lines after it. */
  function ParseLines(lines: seq<string>): (d: DailyInput)
    requires WellFormedLines(lines)
    ensures |d.rules| == RuleCount(lines)
    ensures forall i :: 0 <= i < |d.rules| ==> lines[i] != "" && d.rules[i] == ParseRule(lines[i])
    ensures |d.rules| < |lines| ==> lines[|d.rules|] == ""
    ensures |d.updates| == (if |d.rules| < |lines| then |lines| - |d.rules| - 1 else 0)
    ensures forall j :: 0 <= j < |d.updates| ==> d.updates[j] == ParseUpdate(lines[|d.rules| + 1 + j])
  {
    var n := RuleCount(lines);
    var head := lines[..n];
    assert forall i :: 0 <= i < n ==> head[i] == lines[i];
    var rules := ParseRules(head);
    if n < |lines| then
      var rest := lines[n + 1..];
      assert forall j :: 0 <= j < |rest| ==> rest[j] == lines[n + 1 + j];
      DailyInput(rules, ParseUpdates(rest))
    else DailyInput(rules, [])
  }

  /** `parse`: one rule per line of the input before its first empty line,
      one update per line after it. */
  function Parse(input: string): (d: DailyInput)
    requires WellFormed(input)
    ensures var lines := Lines(input);
      && |d.rules| == RuleCount(lines)
      && (forall i :: 0 <= i < |d.rules| ==> d.rules[i] == ParseRule(lines[i]))
      && |d.updates| == (if |d.rules| < |lines| then |lines| - |d.rules| - 1 else 0)
      && (forall j :: 0 <= j < |d.updates| ==> d.updates[j] == ParseUpdate(lines[|d.rules| + 1 + j]))
  {
    ParseLines(Lines(input))
  }

  // ---------------------------------------------------------------------
  // The text an input comes from

  /** The characters of a decimal integer. */
  predicate IsNumberChar(c: char) {
    c == '-' || IsDigit(c)
  }

  predicate IsNumberText(t: string) {
    forall k :: 0 <= k < |t| ==> IsNumberChar(t[k])
  }

  lemma NumberText(i: int)
    ensures IsNumberText(IntToString(i))
  {
  }

  function RuleLine(r: Rule): string {
    IntToString(r.before) + "|" + IntToString(r.after)
  }

  function Numbers(pages: seq<int>): (ts: seq<string>)
    ensures |ts| == |pages|
    ensures forall i :: 0 <= i < |pages| ==> ts[i] == IntToString(pages[i])
  {
    if pages == [] then [] else [IntToString(pages[0])] + Numbers(pages[1..])
  }

  function UpdateLine(u: Update): string
    requires u.pages != []
  {
    Join(Numbers(u.pages), ',')
  }

  function RuleLines(rules: seq<Rule>): (ls: seq<string>)
    ensures |ls| == |rules|
    ensures forall i :: 0 <= i < |rules| ==> ls[i] == RuleLine(rules[i])
  {
    if rules == [] then [] else [RuleLine(rules[0])] + RuleLines(rules[1..])
  }

  function UpdateLines(updates: seq<Update>): (ls: seq<string>)
    requires forall j :: 0 <= j < |updates| ==> updates[j].pages != []
    ensures |ls| == |updates|
    ensures forall j :: 0 <= j < |updates| ==> ls[j] == UpdateLine(updates[j])
  {
    if updates == [] then [] else [UpdateLine(updates[0])] + UpdateLines(updates[1..])
  }

  /** The puzzle text of an input: rule lines, an empty line, update lines. */
  function Format(d: DailyInput): string
    requires forall j :: 0 <= j < |d.updates| ==> d.updates[j].pages != []
  {
    Unlines(RuleLines(d.rules) + [""] + UpdateLines(d.updates))
  }

  lemma RuleLineRoundTrip(r: Rule)
    ensures RuleLine(r) != "" && '\n' !in RuleLine(r) && !EndsWithCR(RuleLine(r))
    ensures IsRuleLine(RuleLine(r)) && ParseRule(RuleLine(r)) == r
  {
    var a, b := IntToString(r.before), IntToString(r.after);
    NumberText(r.before);
    NumberText(r.after);
    ParseIntToString(r.before);
    ParseIntToString(r.after);
    assert '|' !in a;
    SplitOnceJoin(a, b, '|');
    assert RuleLine(r) == a + ['|'] + b;
    assert RuleLine(r)[|RuleLine(r)| - 1] == b[|b| - 1];
  }

  /** Numbers joined by commas contain no line break. */
  lemma {:induction false} JoinNumbers(parts: seq<string>)
    requires |parts| >= 1
    requires forall i :: 0 <= i < |parts| ==> parts[i] != [] && IsNumberText(parts[i])
    ensures var s := Join(parts, ',');
      s != [] && '\n' !in s && IsNumberChar(s[|s| - 1])
    ensures forall i :: 0 <= i < |parts| ==> ',' !in parts[i]
  {
    if |parts| > 1 {
      JoinNumbers(parts[1..]);
      var rest := Join(parts[1..], ',');
      assert Join(parts, ',') == parts[0] + [','] + rest;
    }
  }

  lemma {:induction false} ParseNumbers(pages: seq<int>)
    ensures forall i :: 0 <= i < |pages| ==> IsIntToken(Numbers(pages)[i])
    ensures ParseInts(Numbers(pages)) == pages
  {
    if pages != [] {
      ParseIntToString(pages[0]);
      ParseNumbers(pages[1..]);
      assert Numbers(pages)[1..] == Numbers(pages[1..]);
    }
  }

  lemma UpdateLineRoundTrip(u: Update)
    requires u.pages != []
    ensures '\n' !in UpdateLine(u) && !EndsWithCR(UpdateLine(u))
    ensures IsUpdateLine(UpdateLine(u)) && ParseUpdate(UpdateLine(u)) == u
  {
    var tokens := Numbers(u.pages);
    forall i | 0 <= i < |tokens| ensures tokens[i] != [] && IsNumberText(tokens[i]) {
      NumberText(u.pages[i]);
    }
    JoinNumbers(tokens);
    SplitJoin(tokens, ',');
    ParseNumbers(u.pages);
  }

  /** `parse` reads back the rules and updates that `Format` wrote. */
  lemma ParseFormat(d: DailyInput)
    requires forall j :: 0 <= j < |d.updates| ==> d.updates[j].pages != []
    ensures WellFormed(Format(d)) && Parse(Format(d)) == d
  {
    var rl := RuleLines(d.rules);
    var ul := UpdateLines(d.updates);
    var lines := rl + ([""] + ul);
    assert lines == rl + [""] + ul;
    forall i | 0 <= i < |rl|
      ensures rl[i] != "" && '\n' !in rl[i] && !EndsWithCR(rl[i])
      ensures IsRuleLine(rl[i]) && ParseRule(rl[i]) == d.rules[i]
    {
      RuleLineRoundTrip(d.rules[i]);
    }
    forall j | 0 <= j < |ul|
      ensures '\n' !in ul[j] && !EndsWithCR(ul[j])
      ensures IsUpdateLine(ul[j]) && ParseUpdate(ul[j]) == d.updates[j]
    {
      UpdateLineRoundTrip(d.updates[j]);
    }
    LinesEntries(rl, ul);
    LinesUnlines(lines);
    assert Lines(Format(d)) == lines;
    ParseSections(rl, ul, d);
  }

  lemma UpdatesOf(ul: seq<string>, us: seq<Update>)
    requires |ul| == |us|
    requires forall j :: 0 <= j < |ul| ==> IsUpdateLine(ul[j]) && ParseUpdate(ul[j]) == us[j]
    ensures ParseUpdates(ul) == us
  {
  }

  lemma RulesOf(rl: seq<string>, rs: seq<Rule>)
    requires |rl| == |rs|
    requires forall i :: 0 <= i < |rl| ==> IsRuleLine(rl[i]) && ParseRule(rl[i]) == rs[i]
    ensures ParseRules(rl) == rs
  {
  }

  lemma ParseSections(rl: seq<string>, ul: seq<string>, d: DailyInput)
    requires |rl| == |d.rules| && |ul| == |d.updates|
    requires forall i :: 0 <= i < |rl| ==> rl[i] != "" && IsRuleLine(rl[i]) && ParseRule(rl[i]) == d.rules[i]
    requires forall j :: 0 <= j < |ul| ==> IsUpdateLine(ul[j]) && ParseUpdate(ul[j]) == d.updates[j]
    ensures WellFormedLines(rl + ([""] + ul)) && ParseLines(rl + ([""] + ul)) == d
  {
    var lines := rl + ([""] + ul);
    var n := |rl|;
    assert "" !in rl;
    IndexOfAfterPrefix(rl, [""] + ul, "");
    assert RuleCount(lines) == n;
    assert lines[..n] == rl;
    assert lines[n + 1..] == ul;
    forall i | 0 <= i < n ensures IsRuleLine(lines[i]) {
      assert lines[i] == lines[..n][i];
    }
    forall i | n + 1 <= i < |lines| ensures IsUpdateLine(lines[i]) {
      assert lines[i] == lines[n + 1..][i - n - 1];
    }
    assert WellFormedLines(lines);
    assert lines[..n] == rl;
    assert lines[n + 1..] == ul;
    RulesOf(rl, d.rules);
    UpdatesOf(ul, d.updates);
    var p := ParseLines(lines);
    assert p.rules == d.rules;
    assert p.updates == d.updates;
  }

  lemma LinesEntries(rl: seq<string>, ul: seq<string>)
    requires forall i :: 0 <= i < |rl| ==> '\n' !in rl[i] && !EndsWithCR(rl[i])
    requires forall j :: 0 <= j < |ul| ==> '\n' !in ul[j] && !EndsWithCR(ul[j])
    ensures var lines := rl + ([""] + ul);
      forall i :: 0 <= i < |lines| ==> '\n' !in lines[i] && !EndsWithCR(lines[i])
  {
    var lines := rl + ([""] + ul);
    forall i | 0 <= i < |lines| ensures '\n' !in lines[i] && !EndsWithCR(lines[i]) {
      if i < |rl| { assert lines[i] == rl[i]; }
      else if i == |rl| { assert lines[i] == ""; }
      else { assert lines[i] == ul[i - |rl| - 1]; }
    }
  }

  // ---------------------------------------------------------------------
  // check_rule and part1

  /** `find_position` result order: (index, page) tuples compare
      lexicographically. */
  predicate PositionLess(i: nat, p: int, j: nat, q: int) {
    i < j || (i == j && p < q)
  }

  /** `check_rule`: `None` when the rule does not apply to the update,
      otherwise whether the first `before` comes ahead of the first `after`. */
  function CheckRule(u: Update, r: Rule): (res: Option<bool>)
    ensures res.None? <==> r.before !in u.pages || r.after !in u.pages
    ensures res.Some? ==> res.value == (IndexOf(u.pages, r.before) < IndexOf(u.pages, r.after))
  {
    var i := IndexOf(u.pages, r.before);
    if i == |u.pages| then None
    else
      var j := IndexOf(u.pages, r.after);
      if j == |u.pages| then None
      else Some(PositionLess(i, u.pages[i], j, u.pages[j]))
  }

  /** Where both pages occur, the rule holds exactly when `before` occurs
      somewhere ahead of the first `after`. */
  lemma CheckRuleAhead(u: Update, r: Rule)
    requires r.before in u.pages && r.after in u.pages
    ensures CheckRule(u, r) == Some(r.before in u.pages[..IndexOf(u.pages, r.after)])
  {
    var j := IndexOf(u.pages, r.after);
    var i := IndexOf(u.pages, r.before);
    if i < j {
      assert u.pages[..j][i] == r.before;
    }
  }

  /** `.all(|rule| check_rule(update, rule).unwrap_or(true))`. */
  function AllRulesHold(u: Update, rules: seq<Rule>): (ok: bool)
    ensures ok <==> forall i :: 0 <= i < |rules| ==> CheckRule(u, rules[i]) != Some(false)
  {
    if rules == [] then true
    else
      (match CheckRule(u, rules[0]) case None => true case Some(b) => b) && AllRulesHold(u, rules[1..])
  }

  function IsValid(u: Update, rules: seq<Rule>): bool {
    AllRulesHold(u, rules)
  }

  /** A rule that does not apply to an update never makes it invalid, wherever
      it stands among the rules. */
  lemma InapplicableRule(u: Update, rs1: seq<Rule>, r: Rule, rs2: seq<Rule>)
    requires r.before !in u.pages || r.after !in u.pages
    ensures IsValid(u, rs1 + [r] + rs2) == IsValid(u, rs1 + rs2)
  {
    var all, rest := rs1 + [r] + rs2, rs1 + rs2;
    assert CheckRule(u, r) == None;
    if IsValid(u, rest) {
      forall i | 0 <= i < |all| ensures CheckRule(u, all[i]) != Some(false) {
        if i < |rs1| { assert all[i] == rest[i]; }
        else if i > |rs1| { assert all[i] == rest[i - 1]; }
      }
    }
    if IsValid(u, all) {
      forall i | 0 <= i < |rest| ensures CheckRule(u, rest[i]) != Some(false) {
        if i < |rs1| { assert all[i] == rest[i]; }
        else { assert all[i + 1] == rest[i]; }
      }
    }
  }

  /** A further rule can only reject updates, never admit them. */
  lemma MoreRulesFewerValid(u: Update, rules: seq<Rule>, r: Rule)
    ensures IsValid(u, rules + [r]) ==> IsValid(u, rules)
  {
    assert forall i :: 0 <= i < |rules| ==> (rules + [r])[i] == rules[i];
  }

  /** The page at `len/2`, or 0 for an update without pages. */
  function Middle(u: Update): (m: int)
    ensures u.pages != [] ==> m in u.pages
    ensures u.pages == [] ==> m == 0
  {
    if |u.pages| / 2 < |u.pages| then u.pages[|u.pages| / 2] else 0
  }

  /** The middle page has as many pages before it as after it, or one more
      before it when the count is even. */
  lemma MiddleIsCentral(u: Update)
    requires u.pages != []
    ensures exists k :: 0 <= k < |u.pages| && Middle(u) == u.pages[k] && 0 <= |u.pages[..k]| - |u.pages[k + 1..]| <= 1
  {
    var k := |u.pages| / 2;
    assert |u.pages[..k]| == k && |u.pages[k + 1..]| == |u.pages| - k - 1;
  }

  /** The sum of the middle pages of the valid updates, in one pass. Only
      valid updates contribute: with none the sum is 0, and with
      non-negative pages it is never negative. */
  function SumValidMiddles(updates: seq<Update>, rules: seq<Rule>): (s: int)
    ensures (forall j :: 0 <= j < |updates| ==> !IsValid(updates[j], rules)) ==> s == 0
    ensures NonNegativePages(updates) ==> s >= 0
  {
    if updates == [] then 0
    else
      assert forall j :: 0 <= j < |updates| - 1 ==> updates[1..][j] == updates[j + 1];
      (if IsValid(updates[0], rules) then Middle(updates[0]) else 0) + SumValidMiddles(updates[1..], rules)
  }

  predicate NonNegativePages(updates: seq<Update>) {
    forall j, k :: 0 <= j < |updates| && 0 <= k < |updates[j].pages| ==> updates[j].pages[k] >= 0
  }

  /** Reference pipeline of `part1`, stage by stage: the valid updates ... */
  function ValidUpdates(updates: seq<Update>, rules: seq<Rule>): (vs: seq<Update>)
    ensures |vs| <= |updates|
    ensures forall k :: 0 <= k < |vs| ==> vs[k] in updates && IsValid(vs[k], rules)
    ensures forall j :: 0 <= j < |updates| && IsValid(updates[j], rules) ==> updates[j] in vs
  {
    if updates == [] then []
    else
      var rest := ValidUpdates(updates[1..], rules);
      assert forall j :: 1 <= j < |updates| ==> updates[j] == updates[1..][j - 1];
      if IsValid(updates[0], rules) then [updates[0]] + rest else rest
  }

  /** ... their middle pages ... */
  function Middles(updates: seq<Update>): (ms: seq<int>)
    ensures |ms| == |updates|
    ensures forall k :: 0 <= k < |updates| ==> ms[k] == Middle(updates[k])
  {
    if updates == [] then [] else [Middle(updates[0])] + Middles(updates[1..])
  }

  /** ... and their sum. */
  function Sum(xs: seq<int>): int {
    if xs == [] then 0 else xs[0] + Sum(xs[1..])
  }

  /** The fused sum is the filter, map and sum of the pipeline. */
  lemma {:induction false} SumValidMiddlesIsPipeline(updates: seq<Update>, rules: seq<Rule>)
    ensures SumValidMiddles(updates, rules) == Sum(Middles(ValidUpdates(updates, rules)))
  {
    if updates != [] {
      SumValidMiddlesIsPipeline(updates[1..], rules);
      var rest := ValidUpdates(updates[1..], rules);
      if IsValid(updates[0], rules) {
        assert Middles([updates[0]] + rest) == [Middle(updates[0])] + Middles(rest) by {
          assert ([updates[0]] + rest)[1..] == rest;
        }
      }
    }
  }

  /** `part1`: the middle pages of the updates every rule admits, summed. */
  function Part1(d: DailyInput): (s: int)
    ensures s == Sum(Middles(ValidUpdates(d.updates, d.rules)))
  {
    SumValidMiddlesIsPipeline(d.updates, d.rules);
    SumValidMiddles(d.updates, d.rules)
  }

  lemma {:induction false} SumAppend(a: seq<Update>, b: seq<Update>, rules: seq<Rule>)
    ensures SumValidMiddles(a + b, rules) == SumValidMiddles(a, rules) + SumValidMiddles(b, rules)
  {
    if a != [] {
      assert (a + b)[0] == a[0] && (a + b)[1..] == a[1..] + b;
      SumAppend(a[1..], b, rules);
    } else {
      assert a + b == b;
    }
  }

  lemma {:induction false} MoreRulesSmallerSum(updates: seq<Update>, rules: seq<Rule>, r: Rule)
    requires NonNegativePages(updates)
    ensures SumValidMiddles(updates, rules + [r]) <= SumValidMiddles(updates, rules)
  {
    if updates != [] {
      MoreRulesFewerValid(updates[0], rules, r);
      MoreRulesSmallerSum(updates[1..], rules, r);
    }
  }
}
