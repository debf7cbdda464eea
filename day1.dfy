/**
 * Day 1: the total distance between two location lists (src/day1.rs).
 * Each line holds a left and a right number; both columns are sorted and
 * the absolute differences of the pairs are summed.
 */
module Day1 {
  import opened Text

  /** A line whose first two whitespace-separated tokens are integers
      (the two `next().unwrap().parse().unwrap()` calls). */
  predicate IsPairLine(line: string) {
    var ws := SplitWhitespace(line);
    |ws| >= 2 && IsIntToken(ws[0]) && IsIntToken(ws[1])
  }

  predicate AllPairLines(lines: seq<string>) {
    forall i :: 0 <= i < |lines| ==> IsPairLine(lines[i])
  }

  /** The number in column `k` (0 for `left`, 1 for `rght`) of one line. */
  function Entry(line: string, k: nat): int
    requires IsPairLine(line) && k < 2
  {
    ParseInt(SplitWhitespace(line)[k])
  }

  /** Column `k` of the lines, in line order: what the pushes build. */
  function Column(lines: seq<string>, k: nat): (c: seq<int>)
    requires AllPairLines(lines) && k < 2
    ensures |c| == |lines|
    ensures forall i :: 0 <= i < |lines| ==> c[i] == Entry(lines[i], k)
  {
    if lines == [] then []
    else Column(lines[..|lines| - 1], k) + [Entry(lines[|lines| - 1], k)]
  }

  /** Ascending: no element is larger than the next one. */
  predicate SortedAsc(s: seq<int>) {
    forall i :: 0 <= i < |s| - 1 ==> s[i] <= s[i + 1]
  }

  lemma {:induction false} SortedHeadIsLeast(s: seq<int>, k: nat)
    requires SortedAsc(s) && k < |s|
    ensures s[0] <= s[k]
  {
    if k > 0 {
      assert SortedAsc(s[1..]);
      SortedHeadIsLeast(s[1..], k - 1);
    }
  }

  function Insert(x: int, s: seq<int>): (r: seq<int>)
    requires SortedAsc(s)
    ensures SortedAsc(r)
    ensures |r| == |s| + 1
    ensures r[0] == if s == [] || x <= s[0] then x else s[0]
    ensures multiset(r) == multiset(s) + multiset{x}
  {
    if s == [] || x <= s[0] then [x] + s
    else
      assert s == [s[0]] + s[1..];
      var t := Insert(x, s[1..]);
      assert SortedAsc(s[1..]);
      assert forall i :: 0 <= i < |t| - 1 ==> t[i] <= t[i + 1];
      assert s[0] <= t[0];
      assert multiset([s[0]] + t) == multiset{s[0]} + multiset(t);
      [s[0]] + t
  }

  /** `Vec::sort`: an ascending permutation of the input. */
  function Sort(s: seq<int>): (r: seq<int>)
    ensures SortedAsc(r)
    ensures |r| == |s|
    ensures multiset(r) == multiset(s)
  {
    if s == [] then []
    else
      assert s == [s[0]] + s[1..];
      Insert(s[0], Sort(s[1..]))
  }

  /** Taking the same element off two equal multisets leaves equal ones. */
  lemma DropSame<T>(a: seq<T>, b: seq<T>)
    requires a != [] && b != [] && a[0] == b[0]
    requires multiset(a) == multiset(b)
    ensures multiset(a[1..]) == multiset(b[1..])
  {
    assert a == [a[0]] + a[1..];
    assert b == [b[0]] + b[1..];
    var ma, mb := multiset(a[1..]), multiset(b[1..]);
    assert multiset(a) == multiset{a[0]} + ma;
    assert multiset(b) == multiset{a[0]} + mb;
    forall y ensures ma[y] == mb[y] {
      assert multiset(a)[y] == multiset{a[0]}[y] + ma[y];
      assert multiset(b)[y] == multiset{a[0]}[y] + mb[y];
    }
  }

  lemma SameHead(a: seq<int>, b: seq<int>)
    requires a != [] && SortedAsc(a) && SortedAsc(b) && multiset(a) == multiset(b)
    ensures b != [] && a[0] == b[0]
  {
    assert a[0] in multiset(b);
    var i :| 0 <= i < |b| && b[i] == a[0];
    assert b[0] in multiset(a);
    var j :| 0 <= j < |a| && a[j] == b[0];
    SortedHeadIsLeast(a, j);
    SortedHeadIsLeast(b, i);
  }

  /** There is only one ascending arrangement of a multiset, so whatever
      sort the library uses, the sorted column is determined. */
  lemma {:induction false} SortedUnique(a: seq<int>, b: seq<int>)
    requires SortedAsc(a) && SortedAsc(b) && multiset(a) == multiset(b)
    ensures a == b
    decreases |a|
  {
    if a == [] {
      assert |b| == |multiset(b)| == 0;
    } else {
      SameHead(a, b);
      DropSame(a, b);
      assert SortedAsc(a[1..]) && SortedAsc(b[1..]);
      SortedUnique(a[1..], b[1..]);
      assert a == [a[0]] + a[1..] && b == [b[0]] + b[1..];
    }
  }

  function Abs(x: int): nat {
    if x < 0 then -x else x
  }

  /** `zip` / `map(abs(l - r))` / `sum` over two lists of equal length. */
  function SumAbsDiff(l: seq<int>, r: seq<int>): (d: int)
    requires |l| == |r|
    ensures d >= 0
    ensures d == 0 <==> l == r
  {
    if l == [] then 0
    else
      assert l == [l[0]] + l[1..] && r == [r[0]] + r[1..];
      Abs(l[0] - r[0]) + SumAbsDiff(l[1..], r[1..])
  }

  lemma {:induction false} SumAbsDiffSymmetric(l: seq<int>, r: seq<int>)
    requires |l| == |r|
    ensures SumAbsDiff(l, r) == SumAbsDiff(r, l)
  {
    if l != [] {
      SumAbsDiffSymmetric(l[1..], r[1..]);
    }
  }

  /** The answer for two columns of equal length: pair the sorted columns. */
  function Distance(left: seq<int>, right: seq<int>): (d: int)
    requires |left| == |right|
    ensures d >= 0
  {
    SumAbsDiff(Sort(left), Sort(right))
  }

  /** Part 1: fill `left` and `rght` line by line, sort both, then sum the
      distances of the pairs. */
  method Part1(input: string) returns (total: int)
    requires AllPairLines(Lines(input))
    ensures total >= 0
    ensures total == Distance(Column(Lines(input), 0), Column(Lines(input), 1))
  {
    var lines := Lines(input);
    var left: seq<int> := [];
    var rght: seq<int> := [];
    for i := 0 to |lines|
      invariant left == Column(lines[..i], 0)
      invariant rght == Column(lines[..i], 1)
    {
      ColumnSnoc(lines, i, 0);
      ColumnSnoc(lines, i, 1);
      var words := SplitWhitespace(lines[i]);
      left := left + [ParseInt(words[0])];
      rght := rght + [ParseInt(words[1])];
    }
    assert lines[..|lines|] == lines;
    left := Sort(left);
    rght := Sort(rght);
    total := SumAbsDiff(left, rght);
  }

  lemma ColumnSnoc(lines: seq<string>, i: nat, k: nat)
    requires AllPairLines(lines) && i < |lines| && k < 2
    ensures AllPairLines(lines[..i]) && AllPairLines(lines[..i + 1])
    ensures Column(lines[..i + 1], k) == Column(lines[..i], k) + [Entry(lines[i], k)]
  {
    assert lines[..i + 1][..i] == lines[..i];
  }

  /** The distance is zero exactly when the two columns hold the same
      numbers, each as often. */
  lemma ZeroIffSameMultiset(left: seq<int>, right: seq<int>)
    requires |left| == |right|
    ensures Distance(left, right) == 0 <==> multiset(left) == multiset(right)
  {
    if multiset(left) == multiset(right) {
      SortedUnique(Sort(left), Sort(right));
    }
  }

  /** Swapping the two columns leaves the answer unchanged. */
  lemma SwapColumns(left: seq<int>, right: seq<int>)
    requires |left| == |right|
    ensures Distance(left, right) == Distance(right, left)
  {
    SumAbsDiffSymmetric(Sort(left), Sort(right));
  }

  /** Removing the element at `j`, and the first element, from equal
      multisets. */
  lemma DropAt<T>(a: seq<T>, b: seq<T>, j: nat)
    requires a != [] && j < |b| && b[j] == a[0]
    requires multiset(a) == multiset(b)
    ensures multiset(a[1..]) == multiset(b[..j] + b[j + 1..])
  {
    assert a == [a[0]] + a[1..];
    assert b == b[..j] + [b[j]] + b[j + 1..];
    assert multiset(a) == multiset{a[0]} + multiset(a[1..]);
    assert multiset(b) == multiset(b[..j]) + multiset{b[j]} + multiset(b[j + 1..]);
    var ma, mb := multiset(a[1..]), multiset(b[..j] + b[j + 1..]);
    assert mb == multiset(b[..j]) + multiset(b[j + 1..]);
    assert multiset(b) == multiset{a[0]} + mb;
    forall y ensures ma[y] == mb[y] {
      assert multiset(a)[y] == multiset{a[0]}[y] + ma[y];
      assert multiset(b)[y] == multiset{a[0]}[y] + mb[y];
    }
  }

  lemma RemoveAtMultiset<T>(s: seq<T>, j: nat)
    requires j < |s|
    ensures multiset(s) == multiset(s[..j] + s[j + 1..]) + multiset{s[j]}
  {
    assert s == s[..j] + [s[j]] + s[j + 1..];
  }

  lemma InsertAtMultiset<T>(e: T, rest: seq<T>, s: seq<T>, j: nat)
    requires j < |s| && s[j] == e
    requires multiset(rest) == multiset(s[..j] + s[j + 1..])
    ensures multiset([e] + rest) == multiset(s)
  {
    RemoveAtMultiset(s, j);
  }

  lemma ColumnRemoveAt(b: seq<string>, j: nat, k: nat)
    requires AllPairLines(b) && j < |b| && k < 2
    ensures AllPairLines(b[..j] + b[j + 1..])
    ensures Column(b[..j] + b[j + 1..], k) == Column(b, k)[..j] + Column(b, k)[j + 1..]
  {
    var b' := b[..j] + b[j + 1..];
    assert forall i :: 0 <= i < |b'| ==> b'[i] == if i < j then b[i] else b[i + 1];
  }

  lemma ColumnCons(a: seq<string>, k: nat)
    requires AllPairLines(a) && a != [] && k < 2
    ensures AllPairLines(a[1..])
    ensures Column(a, k) == [Entry(a[0], k)] + Column(a[1..], k)
  {
  }

  /** Lines that are a permutation of each other give columns that are. */
  lemma {:induction false} ColumnPermutation(a: seq<string>, b: seq<string>, k: nat)
    requires AllPairLines(a) && AllPairLines(b) && k < 2
    requires multiset(a) == multiset(b)
    ensures multiset(Column(a, k)) == multiset(Column(b, k))
    decreases |a|
  {
    if a == [] {
      assert |b| == |multiset(b)| == 0;
    } else {
      assert a[0] in multiset(b);
      var j :| 0 <= j < |b| && b[j] == a[0];
      DropAt(a, b, j);
      ColumnCons(a, k);
      ColumnRemoveAt(b, j, k);
      var b' := b[..j] + b[j + 1..];
      ColumnPermutation(a[1..], b', k);
      InsertAtMultiset(Entry(a[0], k), Column(a[1..], k), Column(b, k), j);
    }
  }

  /** The order of the input lines does not matter. */
  lemma ReorderLines(a: seq<string>, b: seq<string>)
    requires AllPairLines(a) && AllPairLines(b)
    requires multiset(a) == multiset(b)
    ensures Distance(Column(a, 0), Column(a, 1)) == Distance(Column(b, 0), Column(b, 1))
  {
    ColumnPermutation(a, b, 0);
    ColumnPermutation(a, b, 1);
    SortedUnique(Sort(Column(a, 0)), Sort(Column(b, 0)));
    SortedUnique(Sort(Column(a, 1)), Sort(Column(b, 1)));
  }
}
