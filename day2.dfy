/**
 * Day 2: counting the safe reports (src/day2.rs). A report is one line of
 * whitespace-separated numbers; it is safe when it is sorted one way or the
 * other and every two neighbours differ by 1 to 3.
 */
module Day2 {
  import opened Text

  /** `Iterator::is_sorted`: no element is larger than the next one. */
  predicate IsSorted(s: seq<nat>) {
    forall i :: 0 <= i < |s| - 1 ==> s[i] <= s[i + 1]
  }

  function Reverse(s: seq<nat>): (r: seq<nat>)
    ensures |r| == |s|
    ensures forall i :: 0 <= i < |s| ==> r[i] == s[|s| - 1 - i]
  {
    if s == [] then [] else Reverse(s[1..]) + [s[0]]
  }

  /** `usize::abs_diff`. */
  function AbsDiff(a: nat, b: nat): nat {
    if a < b then b - a else a - b
  }

  /** The zip of the report with itself shifted by one: every adjacent
      difference lies in 1..=3. */
  predicate GapsInRange(s: seq<nat>) {
    forall i :: 0 <= i < |s| - 1 ==> 1 <= AbsDiff(s[i], s[i + 1]) <= 3
  }

  /** The filter's verdict on one report. `is_sorted` alone lets equal
      neighbours through; the gap test rejects them. */
  predicate IsSafe(report: seq<nat>)
    ensures IsSafe(report) ==> forall i :: 0 <= i < |report| - 1 ==> report[i] != report[i + 1]
  {
    (IsSorted(report) || IsSorted(Reverse(report))) && GapsInRange(report)
  }

  /** Reference definitions: each step goes up by 1 to 3, or down by 1 to 3. */
  predicate StepsUp(s: seq<nat>) {
    forall i :: 0 <= i < |s| - 1 ==> s[i] + 1 <= s[i + 1] <= s[i] + 3
  }

  predicate StepsDown(s: seq<nat>) {
    forall i :: 0 <= i < |s| - 1 ==> s[i + 1] + 1 <= s[i] <= s[i + 1] + 3
  }

  predicate IsNonIncreasing(s: seq<nat>) {
    forall i :: 0 <= i < |s| - 1 ==> s[i + 1] <= s[i]
  }

  lemma SortedReverse(s: seq<nat>)
    ensures IsSorted(Reverse(s)) <==> IsNonIncreasing(s)
  {
    var r := Reverse(s);
    if IsSorted(r) {
      forall i | 0 <= i < |s| - 1 ensures s[i + 1] <= s[i] {
        var j := |s| - 2 - i;
        assert r[j] == s[i + 1] && r[j + 1] == s[i];
      }
    }
    if IsNonIncreasing(s) {
      forall j | 0 <= j < |r| - 1 ensures r[j] <= r[j + 1] {
        var i := |s| - 2 - j;
        assert r[j] == s[i + 1] && r[j + 1] == s[i];
      }
    }
  }

  /** A report counts exactly when it climbs, or falls, by 1 to 3 at every
      step; for two or more numbers, that is strictly monotone. */
  lemma SafeIffSteps(s: seq<nat>)
    ensures IsSafe(s) <==> StepsUp(s) || StepsDown(s)
  {
    SortedReverse(s);
  }

  /** With fewer than two numbers there is no pair to check. */
  lemma ShortReportIsSafe(s: seq<nat>)
    requires |s| <= 1
    ensures IsSafe(s)
  {
  }

  lemma ReverseReverse(s: seq<nat>)
    ensures Reverse(Reverse(s)) == s
  {
  }

  lemma UpReversed(s: seq<nat>)
    requires StepsUp(s)
    ensures StepsDown(Reverse(s))
  {
    var r := Reverse(s);
    forall j | 0 <= j < |r| - 1 ensures r[j + 1] + 1 <= r[j] <= r[j + 1] + 3 {
      assert r[j] == s[|s| - 1 - j] && r[j + 1] == s[|s| - 2 - j];
    }
  }

  lemma DownReversed(s: seq<nat>)
    requires StepsDown(s)
    ensures StepsUp(Reverse(s))
  {
    var r := Reverse(s);
    forall j | 0 <= j < |r| - 1 ensures r[j] + 1 <= r[j + 1] <= r[j] + 3 {
      assert r[j] == s[|s| - 1 - j] && r[j + 1] == s[|s| - 2 - j];
    }
  }

  /** Reading a report backwards gives the same verdict. */
  lemma SafeReversed(s: seq<nat>)
    ensures IsSafe(Reverse(s)) == IsSafe(s)
  {
    var r := Reverse(s);
    ReverseReverse(s);
    SafeIffSteps(s);
    SafeIffSteps(r);
    if StepsUp(s) { UpReversed(s); }
    if StepsDown(s) { DownReversed(s); }
    if StepsUp(r) { UpReversed(r); }
    if StepsDown(r) { DownReversed(r); }
  }

  /** Every whitespace-separated token of the line is a `usize`. */
  predicate IsReportLine(line: string) {
    forall i :: 0 <= i < |SplitAsciiWhitespace(line)| ==> IsNatToken(SplitAsciiWhitespace(line)[i])
  }

  function ParseAll(tokens: seq<string>): (ns: seq<nat>)
    requires forall i :: 0 <= i < |tokens| ==> IsNatToken(tokens[i])
    ensures |ns| == |tokens|
    ensures forall i :: 0 <= i < |tokens| ==> ns[i] == ParseNat(tokens[i])
  {
    if tokens == [] then [] else [ParseNat(tokens[0])] + ParseAll(tokens[1..])
  }

  /** The numbers of one line. */
  function Report(line: string): seq<nat>
    requires IsReportLine(line)
  {
    ParseAll(SplitAsciiWhitespace(line))
  }

  /** The positions of the safe lines. */
  ghost function SafeLines(lines: seq<string>): set<nat>
    requires forall i :: 0 <= i < |lines| ==> IsReportLine(lines[i])
  {
    set i | 0 <= i < |lines| && IsSafe(Report(lines[i]))
  }

  /** `.filter(..).count()` over the lines. */
  function CountSafe(lines: seq<string>): (n: nat)
    requires forall i :: 0 <= i < |lines| ==> IsReportLine(lines[i])
    ensures n <= |lines|
    ensures n == |SafeLines(lines)|
  {
    if lines == [] then 0
    else
      var init := lines[..|lines| - 1];
      var last := |lines| - 1;
      assert SafeLines(lines) == SafeLines(init) + (if IsSafe(Report(lines[last])) then {last} else {});
      CountSafe(init) + (if IsSafe(Report(lines[last])) then 1 else 0)
  }

  /** Part 1: the number of safe lines; never more than there are lines. */
  function Part1(input: string): (n: nat)
    requires forall i :: 0 <= i < |Lines(input)| ==> IsReportLine(Lines(input)[i])
    ensures n <= |Lines(input)|
    ensures n == |SafeLines(Lines(input))|
  {
    CountSafe(Lines(input))
  }
}
