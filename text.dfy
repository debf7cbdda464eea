/**
 * The pieces of Rust's string library that the puzzle solvers lean on,
 * stated as functions on sequences: `str::lines`, `str::split`,
 * `str::split_once`, `str::split_whitespace` / `split_ascii_whitespace`,
 * `slice::iter().position` and the integer parsers behind `str::parse`.
 * Each comes with the round trip that pins down what it means.
 */
module Text {

  /** One byte of a UTF-8 buffer (`u8`). */
  type byte = b: int | 0 <= b < 256

  datatype Option<+T> = None | Some(value: T)

  /** Index of the first `x` in `s`, or `|s|` when `x` does not occur
      (`iter().position(..)`, with "not found" as the length). */
  function IndexOf<T(==)>(s: seq<T>, x: T): (k: nat)
    ensures k <= |s|
    ensures k < |s| ==> s[k] == x
    ensures forall j :: 0 <= j < k ==> s[j] != x
    ensures k == |s| <==> x !in s
  {
    if s == [] then 0
    else if s[0] == x then 0
    else 1 + IndexOf(s[1..], x)
  }

  // ---------------------------------------------------------------------
  // str::lines

  predicate EndsWithCR(l: string) {
    |l| > 0 && l[|l| - 1] == '\r'
  }

  /** A line that ended in "\r\n" loses its '\r'. */
  function DropCR(l: string): string {
    if EndsWithCR(l) then l[..|l| - 1] else l
  }

  /** `str::lines`: the text is cut at every '\n'; a '\r' right before a
      '\n' is dropped with it; a final '\n' does not start an empty line,
      and a last line without '\n' is kept as it is. */
  function Lines(s: string): (ls: seq<string>)
    ensures forall i :: 0 <= i < |ls| ==> '\n' !in ls[i]
    ensures |ls| <= |s|
    decreases |s|
  {
    if s == [] then []
    else
      var k := IndexOf(s, '\n');
      if k == |s| then [s]
      else [DropCR(s[..k])] + Lines(s[k + 1..])
  }

  /** Each line followed by a '\n'. */
  function Unlines(ls: seq<string>): string {
    if ls == [] then "" else ls[0] + "\n" + Unlines(ls[1..])
  }

  lemma {:induction false} LinesUnlines(ls: seq<string>)
    requires forall i :: 0 <= i < |ls| ==> '\n' !in ls[i] && !EndsWithCR(ls[i])
    ensures Lines(Unlines(ls)) == ls
  {
    if ls != [] {
      var s := Unlines(ls);
      var l := ls[0];
      assert s == l + ("\n" + Unlines(ls[1..]));
      IndexOfAfterPrefix(l, "\n" + Unlines(ls[1..]), '\n');
      assert IndexOf(s, '\n') == |l|;
      assert s[..|l|] == l;
      assert s[|l| + 1..] == Unlines(ls[1..]);
      LinesUnlines(ls[1..]);
    }
  }

  /** Each line followed by "\r\n", as a text written on Windows has it. */
  function UnlinesCRLF(ls: seq<string>): string {
    if ls == [] then "" else ls[0] + "\r\n" + UnlinesCRLF(ls[1..])
  }

  /** `lines` also gives back a list of lines written with "\r\n" endings:
      each '\r' goes with the '\n' after it. */
  lemma {:induction false} LinesUnlinesCRLF(ls: seq<string>)
    requires forall i :: 0 <= i < |ls| ==> '\n' !in ls[i] && !EndsWithCR(ls[i])
    ensures Lines(UnlinesCRLF(ls)) == ls
  {
    if ls != [] {
      var s := UnlinesCRLF(ls);
      var l := ls[0];
      var lr := l + "\r";
      assert s == lr + ("\n" + UnlinesCRLF(ls[1..]));
      assert '\n' !in lr;
      IndexOfAfterPrefix(lr, "\n" + UnlinesCRLF(ls[1..]), '\n');
      assert s[..|lr|] == lr;
      assert DropCR(lr) == l by {
        assert lr[..|lr| - 1] == l;
      }
      assert s[|lr| + 1..] == UnlinesCRLF(ls[1..]);
      LinesUnlinesCRLF(ls[1..]);
    }
  }

  /** A text that ends in neither '\n' nor '\r' splits into the same
      lines whether or not a final '\n' is added. */
  lemma {:induction false} LinesFinalNewline(s: string)
    requires s != [] && s[|s| - 1] != '\n' && s[|s| - 1] != '\r'
    ensures Lines(s + "\n") == Lines(s)
    decreases |s|
  {
    var t := s + "\n";
    var k := IndexOf(s, '\n');
    if k == |s| {
      LastLine(s);
    } else {
      var rest := s[k + 1..];
      assert k < |s| - 1;
      assert rest != [] && rest[|rest| - 1] == s[|s| - 1];
      IndexOfPrefix(s, "\n", '\n');
      assert t[..k] == s[..k] && t[k + 1..] == rest + "\n";
      LinesFinalNewline(rest);
    }
  }

  lemma LastLine(s: string)
    requires s != [] && '\n' !in s && !EndsWithCR(s)
    ensures Lines(s + "\n") == [s] == Lines(s)
  {
    var t := s + "\n";
    IndexOfAfterPrefix(s, "\n", '\n');
    assert t[..|s|] == s;
    assert t[|s| + 1..] == [];
  }

  lemma IndexOfAfterPrefix<T>(a: seq<T>, b: seq<T>, x: T)
    requires x !in a && b != [] && b[0] == x
    ensures IndexOf(a + b, x) == |a|
  {
    if a != [] {
      assert (a + b)[1..] == a[1..] + b;
      IndexOfAfterPrefix(a[1..], b, x);
    }
  }

  lemma IndexOfPrefix<T>(a: seq<T>, b: seq<T>, x: T)
    requires x in a
    ensures IndexOf(a + b, x) == IndexOf(a, x)
  {
    if a[0] != x {
      assert (a + b)[1..] == a[1..] + b;
      IndexOfPrefix(a[1..], b, x);
    }
  }

  lemma IndexOfAbsent<T>(a: seq<T>, b: seq<T>, x: T)
    requires x !in a
    ensures IndexOf(a + b, x) == |a| + IndexOf(b, x)
  {
    if a != [] {
      assert (a + b)[0] == a[0] && (a + b)[1..] == a[1..] + b;
      IndexOfAbsent(a[1..], b, x);
    } else {
      assert a + b == b;
    }
  }

  // ---------------------------------------------------------------------
  // str::split and str::split_once on one character

  /** `str::split(sep)`: all pieces between separators, empty ones
      included; the empty text gives one empty piece. */
  function Split(s: string, sep: char): (parts: seq<string>)
    ensures |parts| >= 1
    ensures forall i :: 0 <= i < |parts| ==> sep !in parts[i]
    decreases |s|
  {
    var k := IndexOf(s, sep);
    if k == |s| then [s] else [s[..k]] + Split(s[k + 1..], sep)
  }

  /** The pieces put back together with `sep` between them. */
  function Join(parts: seq<string>, sep: char): string
    requires |parts| >= 1
  {
    if |parts| == 1 then parts[0] else parts[0] + [sep] + Join(parts[1..], sep)
  }

  lemma {:induction false} SplitJoin(parts: seq<string>, sep: char)
    requires |parts| >= 1
    requires forall i :: 0 <= i < |parts| ==> sep !in parts[i]
    ensures Split(Join(parts, sep), sep) == parts
  {
    if |parts| == 1 {
      assert IndexOf(parts[0], sep) == |parts[0]|;
    } else {
      var s := Join(parts, sep);
      var rest := Join(parts[1..], sep);
      assert s == parts[0] + ([sep] + rest);
      IndexOfAfterPrefix(parts[0], [sep] + rest, sep);
      assert s[..|parts[0]|] == parts[0];
      assert s[|parts[0]| + 1..] == rest;
      SplitJoin(parts[1..], sep);
    }
  }

  lemma {:induction false} JoinSplit(s: string, sep: char)
    ensures Join(Split(s, sep), sep) == s
    decreases |s|
  {
    var k := IndexOf(s, sep);
    if k < |s| {
      var parts := Split(s, sep);
      assert parts == [s[..k]] + Split(s[k + 1..], sep);
      assert parts[1..] == Split(s[k + 1..], sep);
      JoinSplit(s[k + 1..], sep);
      assert Join(parts, sep) == s[..k] + [sep] + Join(parts[1..], sep);
      assert s == s[..k] + [sep] + s[k + 1..];
    }
  }

  /** `str::split_once(sep)`: the text before and after the first `sep`. */
  function SplitOnce(s: string, sep: char): (r: Option<(string, string)>)
    ensures r.None? <==> sep !in s
    ensures r.Some? ==> r.value.0 + [sep] + r.value.1 == s && sep !in r.value.0
  {
    var k := IndexOf(s, sep);
    if k == |s| then None
    else
      assert s == s[..k] + [sep] + s[k + 1..];
      Some((s[..k], s[k + 1..]))
  }

  lemma SplitOnceJoin(a: string, b: string, sep: char)
    requires sep !in a
    ensures SplitOnce(a + [sep] + b, sep) == Some((a, b))
  {
    var s := a + [sep] + b;
    assert s == a + ([sep] + b);
    IndexOfAfterPrefix(a, [sep] + b, sep);
    assert s[..|a|] == a;
    assert s[|a| + 1..] == b;
  }

  // ---------------------------------------------------------------------
  // str::split_whitespace and str::split_ascii_whitespace

  /** `char::is_whitespace`: the Unicode White_Space property. */
  predicate IsWhitespace(c: char) {
    ('\t' <= c <= '\r') || c == ' ' || c == '\U{0085}' || c == '\U{00A0}' || c == '\U{1680}'
    || ('\U{2000}' <= c <= '\U{200A}') || c == '\U{2028}' || c == '\U{2029}' || c == '\U{202F}'
    || c == '\U{205F}' || c == '\U{3000}'
  }

  /** `u8::is_ascii_whitespace`: space, tab, line feed, form feed and
      carriage return (not the vertical tab). */
  predicate IsAsciiWhitespace(c: char) {
    c == ' ' || c == '\t' || c == '\n' || c == '\U{000C}' || c == '\r'
  }

  /** Index of the first character of `s` that satisfies `space`, or `|s|`. */
  function FirstSpace(s: string, space: char -> bool): (k: nat)
    ensures k <= |s|
    ensures k < |s| ==> space(s[k])
    ensures forall j :: 0 <= j < k ==> !space(s[j])
  {
    if s == [] then 0 else if space(s[0]) then 0 else 1 + FirstSpace(s[1..], space)
  }

  /** The maximal non-empty runs of characters that are not `space`. */
  function Words(s: string, space: char -> bool): (ws: seq<string>)
    ensures forall i :: 0 <= i < |ws| ==> ws[i] != [] && forall j :: 0 <= j < |ws[i]| ==> !space(ws[i][j])
    decreases |s|
  {
    if s == [] then []
    else if space(s[0]) then Words(s[1..], space)
    else
      var k := FirstSpace(s, space);
      [s[..k]] + Words(s[k..], space)
  }

  /** `str::split_whitespace`. */
  function SplitWhitespace(s: string): seq<string> {
    Words(s, IsWhitespace)
  }

  /** `str::split_ascii_whitespace`. */
  function SplitAsciiWhitespace(s: string): seq<string> {
    Words(s, IsAsciiWhitespace)
  }

  /** Words separated by single spaces. */
  function Unwords(ws: seq<string>): string {
    if ws == [] then "" else if |ws| == 1 then ws[0] else ws[0] + " " + Unwords(ws[1..])
  }

  lemma {:induction false} WordsSkipsSpaces(pre: string, s: string, space: char -> bool)
    requires forall j :: 0 <= j < |pre| ==> space(pre[j])
    ensures Words(pre + s, space) == Words(s, space)
    decreases |pre|
  {
    if pre != [] {
      assert (pre + s)[0] == pre[0] && space(pre[0]);
      assert (pre + s)[1..] == pre[1..] + s;
      WordsSkipsSpaces(pre[1..], s, space);
    } else {
      assert pre + s == s;
    }
  }

  lemma FirstSpaceAfterWord(w: string, rest: string, space: char -> bool)
    requires forall j :: 0 <= j < |w| ==> !space(w[j])
    requires rest == [] || space(rest[0])
    ensures FirstSpace(w + rest, space) == |w|
  {
    if w != [] {
      assert (w + rest)[1..] == w[1..] + rest;
      FirstSpaceAfterWord(w[1..], rest, space);
    }
  }

  /** Splitting at whitespace undoes joining non-empty, space-free tokens
      with single spaces. */
  lemma {:induction false} WordsUnwords(ws: seq<string>)
    requires forall i :: 0 <= i < |ws| ==> ws[i] != [] && forall j :: 0 <= j < |ws[i]| ==> !IsAsciiWhitespace(ws[i][j])
    ensures SplitAsciiWhitespace(Unwords(ws)) == ws
  {
    if ws != [] {
      var w := ws[0];
      var rest := if |ws| == 1 then "" else " " + Unwords(ws[1..]);
      assert Unwords(ws) == w + rest;
      FirstSpaceAfterWord(w, rest, IsAsciiWhitespace);
      assert (w + rest)[..|w|] == w;
      assert (w + rest)[|w|..] == rest;
      if |ws| > 1 {
        WordsSkipsSpaces(" ", Unwords(ws[1..]), IsAsciiWhitespace);
        WordsUnwords(ws[1..]);
      }
    }
  }

  // ---------------------------------------------------------------------
  // Integer tokens: what `str::parse::<usize>()` / `::<i32>()` accept

  predicate IsDigit(c: char) {
    '0' <= c <= '9'
  }

  predicate IsDigits(t: string) {
    |t| > 0 && forall i :: 0 <= i < |t| ==> IsDigit(t[i])
  }

  function DigitValue(c: char): (d: nat)
    requires IsDigit(c)
    ensures d <= 9
  {
    c as int - '0' as int
  }

  /** The decimal value of a run of digits, most significant first. */
  function DecimalValue(t: string): nat
    requires forall i :: 0 <= i < |t| ==> IsDigit(t[i])
    decreases |t|
  {
    if t == [] then 0
    else DecimalValue(t[..|t| - 1]) * 10 + DigitValue(t[|t| - 1])
  }

  /** Accepted by the unsigned parsers: digits with an optional '+'. */
  predicate IsNatToken(t: string) {
    IsDigits(t) || (|t| >= 2 && t[0] == '+' && IsDigits(t[1..]))
  }

  /** Accepted by the signed parsers: digits with an optional '+' or '-'. */
  predicate IsIntToken(t: string) {
    IsNatToken(t) || (|t| >= 2 && t[0] == '-' && IsDigits(t[1..]))
  }

  function ParseNat(t: string): nat
    requires IsNatToken(t)
  {
    if t[0] == '+' then DecimalValue(t[1..]) else DecimalValue(t)
  }

  function ParseInt(t: string): int
    requires IsIntToken(t)
  {
    if t[0] == '-' then -(DecimalValue(t[1..]) as int) else ParseNat(t)
  }

  /** The shortest decimal spelling of `n`. */
  function NatToString(n: nat): (t: string)
    ensures IsDigits(t)
    decreases n
  {
    var d := [('0' as int + n % 10) as char];
    if n < 10 then d else NatToString(n / 10) + d
  }

  /** The decimal spelling of `i`, with a '-' when it is negative. */
  function IntToString(i: int): string {
    if i < 0 then "-" + NatToString(-i) else NatToString(i)
  }

  lemma {:induction false} DecimalNatToString(n: nat)
    ensures DecimalValue(NatToString(n)) == n
    decreases n
  {
    var t := NatToString(n);
    if n >= 10 {
      DecimalNatToString(n / 10);
      assert t[..|t| - 1] == NatToString(n / 10);
    }
  }

  lemma ParseNatToString(n: nat)
    ensures IsNatToken(NatToString(n)) && ParseNat(NatToString(n)) == n
  {
    DecimalNatToString(n);
  }

  lemma ParseIntToString(i: int)
    ensures IsIntToken(IntToString(i)) && ParseInt(IntToString(i)) == i
  {
    if i < 0 {
      var t := IntToString(i);
      assert t[1..] == NatToString(-i);
      DecimalNatToString(-i);
    } else {
      DecimalNatToString(i);
    }
  }
}
