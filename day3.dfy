/**
 * Day 3: the corrupted-memory scanner (src/day3.rs). `read_memory` reads
 * the input one byte at a time and recognises `mul(X,Y)` with one to three
 * digits per operand, keeping the digits in two 3-slot buffers. With
 * `do_do` set it also follows `do` / `don't` markers and skips the products
 * read while multiplication is disabled.
 *
 * `Step` states what the loop body does to the scanner's state, `Run` folds
 * it over the input, and the method `ReadMemory` is the loop itself over
 * two arrays and local variables, proved to compute `Run`.
 */
module Day3 {
  import opened Text

  const ZERO: byte := '0' as int
  const NINE: byte := '9' as int
  const M: byte := 'm' as int
  const U: byte := 'u' as int
  const L: byte := 'l' as int
  const LPAREN: byte := '(' as int
  const RPAREN: byte := ')' as int
  const COMMA: byte := ',' as int
  const D: byte := 'd' as int
  const O: byte := 'o' as int
  const N: byte := 'n' as int
  const QUOTE: byte := '\'' as int
  const T: byte := 't' as int

  predicate IsDigitByte(b: byte) {
    ZERO <= b <= NINE
  }

  /** Every slot of a digit buffer holds a value 0..=9. */
  predicate DigitsOk(d: seq<byte>) {
    forall i :: 0 <= i < |d| ==> d[i] <= 9
  }

  // ---------------------------------------------------------------------
  // parse_digit

  datatype DigitResult = DigitResult(accepted: bool, digits: seq<byte>, len: nat)

  /** `parse_digit`: store one more decimal digit if the byte is one and the
      buffer has room. */
  function ParseDigit(b: byte, digits: seq<byte>, len: nat): (r: DigitResult)
    ensures r.accepted <==> IsDigitByte(b) && len < |digits|
    ensures r.accepted ==> r.len == len + 1 && r.digits == digits[len := b - ZERO]
    ensures !r.accepted ==> r.len == len && r.digits == digits
    ensures |r.digits| == |digits| && r.len <= |digits| + (if len > |digits| then len - |digits| else 0)
    ensures DigitsOk(digits) ==> DigitsOk(r.digits)
  {
    if IsDigitByte(b) && len < |digits| then DigitResult(true, digits[len := b - ZERO], len + 1)
    else DigitResult(false, digits, len)
  }

  /** `parse_digit` on the array itself: writes at most the slot `digitLen`. */
  method ParseDigitInto(b: byte, digit: array<byte>, digitLen: nat) returns (accepted: bool, newLen: nat)
    modifies digit
    ensures var r := ParseDigit(b, old(digit[..]), digitLen);
      accepted == r.accepted && digit[..] == r.digits && newLen == r.len
  {
    var isDigit := ZERO <= b <= NINE;
    if isDigit && digitLen < digit.Length {
      digit[digitLen] := b - ZERO;
      newLen := digitLen + 1;
      accepted := true;
    } else {
      newLen := digitLen;
      accepted := false;
    }
  }

  // ---------------------------------------------------------------------
  // The operands

  /** The `match x_len` / `match y_len` arms: the first `len` slots read as a
      decimal number, most significant first. Lengths other than 1..=3 are the
      panic arms, so they are excluded here. */
  function Operand(d: seq<byte>, len: nat): nat
    requires |d| == 3 && 1 <= len <= 3
  {
    if len == 1 then d[0] as int
    else if len == 2 then d[0] as int * 10 + d[1] as int
    else d[0] as int * 100 + d[1] as int * 10 + d[2] as int
  }

  /** Reference reading of a digit sequence, most significant first. */
  function DecimalOf(ds: seq<byte>): nat {
    if ds == [] then 0 else DecimalOf(ds[..|ds| - 1]) * 10 + ds[|ds| - 1]
  }

  /** Each arm of the operand match is the decimal value of the stored
      digits. */
  lemma OperandIsDecimal(d: seq<byte>, len: nat)
    requires |d| == 3 && 1 <= len <= 3
    ensures Operand(d, len) == DecimalOf(d[..len])
  {
    assert d[..1][..0] == [];
    assert DecimalOf(d[..1]) == d[0];
    if len >= 2 {
      assert d[..2][..1] == d[..1];
      assert DecimalOf(d[..2]) == d[0] as int * 10 + d[1] as int;
    }
    if len == 3 {
      assert d[..3][..2] == d[..2];
      assert DecimalOf(d[..3]) == (d[0] as int * 10 + d[1] as int) * 10 + d[2] as int;
    }
  }

  /** One `match x_len` (or `y_len`) on the buffer itself. The `_` arm,
      the panic, is unreachable for the lengths the scanner keeps. */
  method ReadOperand(d: array<byte>, len: nat) returns (v: nat)
    requires d.Length == 3 && 1 <= len <= 3
    ensures v == Operand(d[..], len)
  {
    if len == 1 {
      v := d[0] as int;
    } else if len == 2 {
      v := d[0] as int * 10 + d[1] as int;
    } else if len == 3 {
      v := d[0] as int * 100 + d[1] as int * 10 + d[2] as int;
    } else {
      assert false;
    }
  }

  // ---------------------------------------------------------------------
  // The scanner state and one step of the loop

  /** The locals of `read_memory` (the arrays as their contents). */
  datatype Scanner = Scanner(
    x: seq<byte>, y: seq<byte>, xLen: nat, yLen: nat,
    isParsing: bool, foundComma: bool, prev: byte, sum: nat,
    mulEnabled: bool, readingDos: bool)

  const Init: Scanner := Scanner([0, 0, 0], [0, 0, 0], 0, 0, false, false, 0, 0, true, false)

  /** What holds between bytes: the buffers keep three digits, both lengths
      stay within 0..=3, a `y` digit is only ever read after an `x` digit, and
      while a number is being read at least one `x` digit is stored. */
  ghost predicate Inv(s: Scanner) {
    && |s.x| == 3 && |s.y| == 3 && s.xLen <= 3 && s.yLen <= 3
    && DigitsOk(s.x) && DigitsOk(s.y)
    && (s.yLen > 0 ==> s.xLen >= 1)
    && (s.isParsing && (IsDigitByte(s.prev) || s.prev == COMMA) ==> s.xLen >= 1)
  }

  /** The amount `sum` grows by, as the three-way `if` on lines 55-61 has it. */
  function Added(x: nat, y: nat, doDo: bool, mulEnabled: bool): nat {
    if doDo && mulEnabled then x * y
    else if doDo && !mulEnabled then 0
    else x * y
  }

  /** A ')' after at least one `y` digit completes a multiplication: add the
      product and reset the buffers. */
  function Complete(s: Scanner, b: byte, doDo: bool): (r: Scanner)
    requires Inv(s)
    ensures b == RPAREN && s.yLen > 0 ==>
      && r.sum == s.sum + Added(Operand(s.x, s.xLen), Operand(s.y, s.yLen), doDo, s.mulEnabled)
      && r.xLen == 0 && r.yLen == 0 && !r.foundComma && r.prev == 0
    ensures !(b == RPAREN && s.yLen > 0) ==> r == s
    // Neither the parse flag, the enable flags nor the digit slots change.
    ensures r.isParsing == s.isParsing && r.mulEnabled == s.mulEnabled && r.readingDos == s.readingDos
    ensures r.x == s.x && r.y == s.y
  {
    if b == RPAREN && s.yLen > 0 then
      var x := Operand(s.x, s.xLen);
      var y := Operand(s.y, s.yLen);
      s.(sum := s.sum + Added(x, y, doDo, s.mulEnabled),
         xLen := 0, yLen := 0, foundComma := false, prev := 0)
    else s
  }

  /** The `is_parsing = match prev { .. }` of lines 72-95. The arms for ')'
      and for any other byte both stop the parse. */
  function Recognise(s: Scanner, b: byte): (r: Scanner)
    // The parse goes on only on the bytes that can follow in `mul(X,Y)`.
    ensures r.isParsing ==> IsDigitByte(b) || b == COMMA || b == U || b == L || b == LPAREN
    // The sum, the enable flags and `prev` are left alone.
    ensures r.sum == s.sum && r.mulEnabled == s.mulEnabled && r.readingDos == s.readingDos && r.prev == s.prev
  {
    var p := s.prev;
    if p == M then s.(isParsing := b == U)
    else if p == U then s.(isParsing := b == L)
    else if p == L then s.(isParsing := b == LPAREN)
    else if p == LPAREN then
      var d := ParseDigit(b, s.x, s.xLen);
      s.(foundComma := false, x := d.digits, xLen := d.len, isParsing := d.accepted)
    else if IsDigitByte(p) then
      if s.foundComma then
        var d := ParseDigit(b, s.y, s.yLen);
        s.(y := d.digits, yLen := d.len, isParsing := d.accepted || b == COMMA)
      else
        var d := ParseDigit(b, s.x, s.xLen);
        s.(x := d.digits, xLen := d.len, isParsing := d.accepted || b == COMMA)
    else if p == COMMA then
      var d := ParseDigit(b, s.y, s.yLen);
      s.(foundComma := true, y := d.digits, yLen := d.len, isParsing := d.accepted)
    else s.(isParsing := false)
  }

  /** The `match prev` of lines 97-131, which follows `do` and `don't`. */
  function TrackDos(s: Scanner, b: byte): (r: Scanner)
    // Only the two enable flags may change.
    ensures r == s.(mulEnabled := r.mulEnabled, readingDos := r.readingDos)
    // The enable flag changes only on the byte after "do", "don" or "don'"
    // while such a word is being read, and only the 't' of "don't" clears it.
    ensures r.mulEnabled != s.mulEnabled ==> s.readingDos && (s.prev == O || s.prev == N || s.prev == QUOTE)
    ensures s.mulEnabled && !r.mulEnabled ==> s.prev == QUOTE && b == T
    // "do" starts a word exactly on the 'o' after 'd'.
    ensures s.prev == D ==> r.readingDos == (b == O)
  {
    var p := s.prev;
    if p == D then s.(readingDos := b == O)
    else if p == O then
      if b != N && s.readingDos then s.(readingDos := false, mulEnabled := true) else s
    else if p == N then
      if b != QUOTE && s.readingDos then s.(readingDos := false, mulEnabled := true) else s
    else if p == QUOTE then
      s.(mulEnabled := if b == T && s.readingDos then false else if s.readingDos then true else s.mulEnabled,
         readingDos := false)
    else s
  }

  /** One iteration of the `for_each` closure. */
  function Step(s: Scanner, b: byte, doDo: bool): (r: Scanner)
    requires Inv(s)
    ensures Inv(r)
    ensures r.prev == b
    ensures r.sum >= s.sum
    // A ')' with a `y` digit buffered adds Operand(x) * Operand(y), or
    // nothing when `do_do` is set and multiplication is disabled, and
    // resets the parse.
    ensures s.isParsing && b == RPAREN && s.yLen > 0 ==>
      && r.sum == s.sum + (if doDo && !s.mulEnabled then 0 else Operand(s.x, s.xLen) * Operand(s.y, s.yLen))
      && r.xLen == 0 && r.yLen == 0 && !r.foundComma && !r.isParsing
    ensures !(s.isParsing && b == RPAREN && s.yLen > 0) ==> r.sum == s.sum
    // Outside a parse, a new one starts exactly on 'm', with empty buffers.
    ensures !s.isParsing ==> r.isParsing == (b == M) && r.xLen == 0 && r.yLen == 0
    // Inside a parse it goes on only on the bytes that can follow in
    // `mul(X,Y)`; any other byte ends it.
    ensures s.isParsing && r.isParsing ==> IsDigitByte(b) || b == COMMA || b == U || b == L || b == LPAREN
    // The enable flag changes only on the byte after "do", "don" or "don'",
    // and it is cleared only by the 't' of "don't".
    ensures r.mulEnabled != s.mulEnabled ==>
      !s.isParsing && s.readingDos && (s.prev == O || s.prev == N || s.prev == QUOTE)
    ensures s.mulEnabled && !r.mulEnabled ==> s.prev == QUOTE && b == T
    ensures s.isParsing ==> r.mulEnabled == s.mulEnabled && r.readingDos == s.readingDos
  {
    if s.isParsing then
      ParsingStep(s, b, doDo);
      Recognise(Complete(s, b, doDo), b).(prev := b)
    else
      IdleStep(s, b);
      TrackDos(s, b).(isParsing := b == M, yLen := 0, xLen := 0, prev := b)
  }

  /** The half of `Step` inside a parse: complete, then recognise. */
  lemma ParsingStep(s: Scanner, b: byte, doDo: bool)
    requires Inv(s) && s.isParsing
    ensures var r := Recognise(Complete(s, b, doDo), b).(prev := b);
      && Inv(r)
      && r.sum >= s.sum
      && (b == RPAREN && s.yLen > 0 ==>
            && r.sum == s.sum + (if doDo && !s.mulEnabled then 0 else Operand(s.x, s.xLen) * Operand(s.y, s.yLen))
            && r.xLen == 0 && r.yLen == 0 && !r.foundComma && !r.isParsing)
      && (!(b == RPAREN && s.yLen > 0) ==> r.sum == s.sum)
      && (r.isParsing ==> IsDigitByte(b) || b == COMMA || b == U || b == L || b == LPAREN)
      && r.mulEnabled == s.mulEnabled && r.readingDos == s.readingDos
  {
    var c := Complete(s, b, doDo);
    assert Inv(c) && c.isParsing && c.mulEnabled == s.mulEnabled && c.readingDos == s.readingDos;
    assert b == RPAREN && s.yLen > 0 ==> c.prev == 0 && c.xLen == 0 && c.yLen == 0 && !c.foundComma;
    RecogniseStep(c, b);
  }

  /** `Recognise` inside a parse keeps the invariant and touches neither
      the sum nor the enable flags; after a ')' it ends the parse. */
  lemma RecogniseStep(c: Scanner, b: byte)
    requires Inv(c) && c.isParsing
    ensures var r := Recognise(c, b).(prev := b);
      && Inv(r) && r.sum == c.sum
      && r.mulEnabled == c.mulEnabled && r.readingDos == c.readingDos
      && (b == RPAREN ==> !r.isParsing)
      && (r.isParsing ==> IsDigitByte(b) || b == COMMA || b == U || b == L || b == LPAREN)
      && (c.prev == 0 ==> r == c.(isParsing := false, prev := b))
  {
    var p := c.prev;
    if p == LPAREN {
      var d := ParseDigit(b, c.x, c.xLen);
      assert d.accepted ==> d.len >= 1;
    } else if IsDigitByte(p) {
      assert c.xLen >= 1;
    } else if p == COMMA {
      assert c.xLen >= 1;
    }
  }

  /** The half of `Step` outside a parse: follow `do` / `don't`. */
  lemma IdleStep(s: Scanner, b: byte)
    requires Inv(s) && !s.isParsing
    ensures var r := TrackDos(s, b).(isParsing := b == M, yLen := 0, xLen := 0, prev := b);
      && Inv(r)
      && r.sum == s.sum
      && (r.mulEnabled != s.mulEnabled ==> s.readingDos && (s.prev == O || s.prev == N || s.prev == QUOTE))
      && (s.mulEnabled && !r.mulEnabled ==> s.prev == QUOTE && b == T)
  {
  }

  /** The loop: the closure applied to every byte in order. */
  function RunFrom(s: Scanner, bs: seq<byte>, doDo: bool): (r: Scanner)
    requires Inv(s)
    ensures Inv(r)
    ensures r.sum >= s.sum
    decreases |bs|
  {
    if bs == [] then s else RunFrom(Step(s, bs[0], doDo), bs[1..], doDo)
  }

  /** The state after the whole input. */
  function Run(input: seq<byte>, doDo: bool): (r: Scanner)
    ensures Inv(r)
  {
    RunFrom(Init, input, doDo)
  }

  lemma {:induction false} RunFromSnoc(s: Scanner, bs: seq<byte>, b: byte, doDo: bool)
    requires Inv(s)
    ensures RunFrom(s, bs + [b], doDo) == Step(RunFrom(s, bs, doDo), b, doDo)
    decreases |bs|
  {
    if bs == [] {
      assert [b][1..] == [];
    } else {
      assert (bs + [b])[1..] == bs[1..] + [b];
      RunFromSnoc(Step(s, bs[0], doDo), bs[1..], b, doDo);
    }
  }

  lemma {:induction false} RunFromAppend(s: Scanner, a: seq<byte>, b: seq<byte>, doDo: bool)
    requires Inv(s)
    ensures RunFrom(s, a + b, doDo) == RunFrom(RunFrom(s, a, doDo), b, doDo)
    decreases |a|
  {
    if a == [] {
      assert a + b == b;
    } else {
      assert (a + b)[0] == a[0] && (a + b)[1..] == a[1..] + b;
      RunFromAppend(Step(s, a[0], doDo), a[1..], b, doDo);
    }
  }

  /** `sum` never decreases as bytes are consumed. */
  lemma SumNeverDecreases(input: seq<byte>, i: nat, doDo: bool)
    requires i <= |input|
    ensures Run(input[..i], doDo).sum <= Run(input, doDo).sum
  {
    assert input == input[..i] + input[i..];
    RunFromAppend(Init, input[..i], input[i..], doDo);
  }

  // ---------------------------------------------------------------------
  // read_memory, part1 and part2

  /** The locals that the `for_each` closure of `read_memory` captures and
      updates: the two digit arrays and the scalar state. */
  class Memory {
    const x: array<byte>
    const y: array<byte>
    var xLen: nat
    var yLen: nat
    var isParsing: bool
    var foundComma: bool
    var prev: byte
    var sum: nat
    var mulEnabled: bool
    var readingDos: bool
    const doDo: bool

    ghost function State(): Scanner
      reads this, x, y
    {
      Scanner(x[..], y[..], xLen, yLen, isParsing, foundComma, prev, sum, mulEnabled, readingDos)
    }

    ghost predicate Valid()
      reads this, x, y
    {
      x.Length == 3 && y.Length == 3 && x != y && Inv(State())
    }

    /** Lines 17-27: both buffers zeroed, multiplication enabled. */
    constructor (doDo: bool)
      ensures Valid() && State() == Init && this.doDo == doDo
      ensures fresh(x) && fresh(y)
    {
      x := new byte[3](_ => 0);
      y := new byte[3](_ => 0);
      xLen, yLen := 0, 0;
      isParsing, foundComma := false, false;
      prev := 0;
      sum := 0;
      mulEnabled, readingDos := true, false;
      this.doDo := doDo;
      new;
      assert x[..] == [0, 0, 0] && y[..] == [0, 0, 0];
    }

    /** Lines 31-70: a ')' after at least one `y` digit adds the product
        and resets the parse. */
    method CompleteMul(b: byte)
      requires Valid() && isParsing
      modifies this
      ensures Valid() && State() == Complete(old(State()), b, doDo)
    {
      ghost var s0 := State();
      if b == RPAREN {
        if yLen > 0 {
          var xv := ReadOperand(x, xLen);
          var yv := ReadOperand(y, yLen);
          ghost var add := Added(xv, yv, doDo, mulEnabled);
          assert add == Added(Operand(s0.x, s0.xLen), Operand(s0.y, s0.yLen), doDo, s0.mulEnabled);
          sum := sum + if doDo && mulEnabled then xv * yv
                       else if doDo && !mulEnabled then 0
                       else xv * yv;
          assert sum == s0.sum + add;
          xLen := 0;
          yLen := 0;
          foundComma := false;
          prev := 0;
          assert State() == s0.(sum := s0.sum + add, xLen := 0, yLen := 0, foundComma := false, prev := 0);
        }
      }
    }

    /** Lines 72-95: whether the parse goes on after this byte. */
    method RecogniseByte(b: byte)
      requires x.Length == 3 && y.Length == 3 && x != y
      modifies this, x, y
      ensures State() == Recognise(old(State()), b)
    {
      if prev == M {
        isParsing := b == U;
      } else if prev == U {
        isParsing := b == L;
      } else if prev == L {
        isParsing := b == LPAREN;
      } else if prev == LPAREN {
        foundComma := false;
        isParsing, xLen := ParseDigitInto(b, x, xLen);
      } else if ZERO <= prev <= NINE {
        var isDigit;
        if foundComma {
          isDigit, yLen := ParseDigitInto(b, y, yLen);
        } else {
          isDigit, xLen := ParseDigitInto(b, x, xLen);
        }
        isParsing := isDigit || b == COMMA;
      } else if prev == COMMA {
        foundComma := true;
        isParsing, yLen := ParseDigitInto(b, y, yLen);
      } else {
        isParsing := false;
      }
    }

    /** Lines 97-134: follow `do` / `don't`, then start a parse on 'm'. */
    method TrackDosByte(b: byte)
      modifies this
      ensures State() == TrackDos(old(State()), b).(isParsing := b == M, yLen := 0, xLen := 0)
    {
      if prev == D {
        readingDos := b == O;
      } else if prev == O {
        if b != N && readingDos {
          readingDos := false;
          mulEnabled := true;
        }
      } else if prev == N {
        if b != QUOTE && readingDos {
          readingDos := false;
          mulEnabled := true;
        }
      } else if prev == QUOTE {
        mulEnabled := if b == T && readingDos then false
                      else if readingDos then true
                      else mulEnabled;
        readingDos := false;
      }
      isParsing := b == M;
      yLen := 0;
      xLen := 0;
    }

    /** The closure body for one byte. */
    method Feed(b: byte)
      requires Valid()
      modifies this, x, y
      ensures Valid() && State() == Step(old(State()), b, doDo)
    {
      ghost var s0 := State();
      ghost var t: Scanner;
      if isParsing {
        CompleteMul(b);
        ghost var s1 := State();
        RecogniseByte(b);
        t := Recognise(s1, b);
      } else {
        TrackDosByte(b);
        t := TrackDos(s0, b).(isParsing := b == M, yLen := 0, xLen := 0);
      }
      assert State() == t;
      prev := b;
      assert State() == t.(prev := b) == Step(s0, b, doDo);
    }
  }

  /** `read_memory`: feed every byte of the input to the closure. */
  method ReadMemory(input: seq<byte>, doDo: bool) returns (sum: nat)
    ensures sum == Run(input, doDo).sum
  {
    var m := new Memory(doDo);
    for i := 0 to |input|
      invariant m.Valid() && m.doDo == doDo
      invariant RunFrom(Init, input[..i], doDo) == m.State()
    {
      m.Feed(input[i]);
      assert input[..i + 1] == input[..i] + [input[i]];
      RunFromSnoc(Init, input[..i], input[i], doDo);
    }
    assert input[..|input|] == input;
    sum := m.sum;
  }

  /** Part 1: every completed multiplication counts. */
  method Part1(input: seq<byte>) returns (n: nat)
    ensures n == Run(input, false).sum
  {
    n := ReadMemory(input, false);
  }

  /** Part 2: only the multiplications read while enabled count. */
  method Part2(input: seq<byte>) returns (n: nat)
    ensures n == Run(input, true).sum
  {
    n := ReadMemory(input, true);
  }

  // ---------------------------------------------------------------------
  // Properties of the two parts

  /** Two states that differ at most in `sum`. */
  predicate SameButSum(a: Scanner, b: Scanner) {
    && a.x == b.x && a.y == b.y && a.xLen == b.xLen && a.yLen == b.yLen
    && a.isParsing == b.isParsing && a.foundComma == b.foundComma && a.prev == b.prev
    && a.mulEnabled == b.mulEnabled && a.readingDos == b.readingDos
  }

  lemma CompleteDoDo(s: Scanner, t: Scanner, b: byte)
    requires Inv(s) && Inv(t) && SameButSum(s, t)
    ensures SameButSum(Complete(s, b, true), Complete(t, b, false))
    ensures Complete(s, b, true).sum - s.sum <= Complete(t, b, false).sum - t.sum
  {
    assert s.x == t.x && s.y == t.y && s.xLen == t.xLen && s.yLen == t.yLen;
  }

  lemma RecogniseSameButSum(s: Scanner, t: Scanner, b: byte)
    requires SameButSum(s, t)
    ensures SameButSum(Recognise(s, b), Recognise(t, b))
    ensures Recognise(s, b).sum == s.sum && Recognise(t, b).sum == t.sum
  {
    var p := s.prev;
    if p == M {
    } else if p == U {
    } else if p == L {
    } else if p == LPAREN {
      var d := ParseDigit(b, s.x, s.xLen);
      assert Recognise(s, b) == s.(foundComma := false, x := d.digits, xLen := d.len, isParsing := d.accepted);
      assert Recognise(t, b) == t.(foundComma := false, x := d.digits, xLen := d.len, isParsing := d.accepted);
    } else if IsDigitByte(p) {
      if s.foundComma {
        var d := ParseDigit(b, s.y, s.yLen);
        assert Recognise(s, b) == s.(y := d.digits, yLen := d.len, isParsing := d.accepted || b == COMMA);
        assert Recognise(t, b) == t.(y := d.digits, yLen := d.len, isParsing := d.accepted || b == COMMA);
      } else {
        var d := ParseDigit(b, s.x, s.xLen);
        assert Recognise(s, b) == s.(x := d.digits, xLen := d.len, isParsing := d.accepted || b == COMMA);
        assert Recognise(t, b) == t.(x := d.digits, xLen := d.len, isParsing := d.accepted || b == COMMA);
      }
    } else if p == COMMA {
      var d := ParseDigit(b, s.y, s.yLen);
      assert Recognise(s, b) == s.(foundComma := true, y := d.digits, yLen := d.len, isParsing := d.accepted);
      assert Recognise(t, b) == t.(foundComma := true, y := d.digits, yLen := d.len, isParsing := d.accepted);
    }
  }

  lemma TrackDosSameButSum(s: Scanner, t: Scanner, b: byte)
    requires SameButSum(s, t)
    ensures SameButSum(TrackDos(s, b), TrackDos(t, b))
    ensures TrackDos(s, b).sum == s.sum && TrackDos(t, b).sum == t.sum
  {
    assert s.prev == t.prev && s.readingDos == t.readingDos && s.mulEnabled == t.mulEnabled;
  }

  lemma StepDoDo(s: Scanner, t: Scanner, b: byte)
    requires Inv(s) && Inv(t) && SameButSum(s, t)
    ensures SameButSum(Step(s, b, true), Step(t, b, false))
    ensures Step(s, b, true).sum - s.sum <= Step(t, b, false).sum - t.sum
  {
    assert s.isParsing == t.isParsing;
    if s.isParsing {
      CompleteDoDo(s, t, b);
      RecogniseSameButSum(Complete(s, b, true), Complete(t, b, false), b);
    } else {
      TrackDosSameButSum(s, t, b);
    }
  }

  lemma {:induction false} RunDoDo(s: Scanner, t: Scanner, bs: seq<byte>)
    requires Inv(s) && Inv(t) && SameButSum(s, t) && s.sum <= t.sum
    ensures SameButSum(RunFrom(s, bs, true), RunFrom(t, bs, false))
    ensures RunFrom(s, bs, true).sum <= RunFrom(t, bs, false).sum
    decreases |bs|
  {
    if bs != [] {
      StepDoDo(s, t, bs[0]);
      RunDoDo(Step(s, bs[0], true), Step(t, bs[0], false), bs[1..]);
    }
  }

  /** The `do_do` flag changes only what is added: part 2 never exceeds
      part 1, and the scanners agree on everything else. */
  lemma Part2AtMostPart1(input: seq<byte>)
    ensures Run(input, true).sum <= Run(input, false).sum
    ensures SameButSum(Run(input, true), Run(input, false))
  {
    RunDoDo(Init, Init, input);
  }

  /** Without `do_do` the enable flag is irrelevant: a completion adds the
      product whatever the flag says. */
  lemma Part1IgnoresEnable(s: Scanner, b: byte)
    requires Inv(s) && s.isParsing && b == RPAREN && s.yLen > 0
    ensures Step(s, b, false).sum == s.sum + Operand(s.x, s.xLen) * Operand(s.y, s.yLen)
    ensures Step(s, b, false).sum == Step(s.(mulEnabled := !s.mulEnabled), b, false).sum
  {
  }

  // ---------------------------------------------------------------------
  // do and don't

  const DONT: seq<byte> := [D, O, N, QUOTE, T]

  /** Outside a parse a step is the `do` / `don't` tracking alone. */
  lemma IdleStepIs(s: Scanner, b: byte, doDo: bool)
    requires Inv(s) && !s.isParsing
    ensures Step(s, b, doDo) == TrackDos(s, b).(isParsing := b == M, yLen := 0, xLen := 0, prev := b)
  {
  }

  /** A 'd' starts the tracking from any state. */
  lemma ReadD(s: Scanner, doDo: bool)
    requires Inv(s)
    ensures var r := Step(s, D, doDo); Inv(r) && !r.isParsing && r.prev == D
  {
  }

  /** "do" from any state: not parsing, reading a marker. */
  lemma ReadDo(s: Scanner, doDo: bool) returns (r: Scanner)
    requires Inv(s)
    ensures r == RunFrom(s, [D, O], doDo)
    ensures Inv(r) && !r.isParsing && r.prev == O && r.readingDos
  {
    var s1 := Step(s, D, doDo);
    ReadD(s, doDo);
    IdleStepIs(s1, O, doDo);
    r := Step(s1, O, doDo);
    assert RunFrom(s1, [D, O][1..], doDo) == r;
  }

  /** "don" from any state: not parsing, reading a marker. */
  lemma ReadDon(s: Scanner, doDo: bool) returns (r: Scanner)
    requires Inv(s)
    ensures r == RunFrom(s, [D, O, N], doDo)
    ensures Inv(r) && !r.isParsing && r.prev == N && r.readingDos
  {
    var s2 := ReadDo(s, doDo);
    IdleStepIs(s2, N, doDo);
    r := Step(s2, N, doDo);
    RunFromSnoc(s, [D, O], N, doDo);
    assert [D, O] + [N] == [D, O, N];
  }

  /** "don'" from any state: not parsing, reading a marker. */
  lemma ReadDonQuote(s: Scanner, doDo: bool) returns (r: Scanner)
    requires Inv(s)
    ensures r == RunFrom(s, [D, O, N, QUOTE], doDo)
    ensures Inv(r) && !r.isParsing && r.prev == QUOTE && r.readingDos
  {
    var s3 := ReadDon(s, doDo);
    IdleStepIs(s3, QUOTE, doDo);
    r := Step(s3, QUOTE, doDo);
    RunFromSnoc(s, [D, O, N], QUOTE, doDo);
    assert [D, O, N] + [QUOTE] == [D, O, N, QUOTE];
  }

  /** "don't" clears the enable flag, from any state. */
  lemma DontDisables(s: Scanner, doDo: bool)
    requires Inv(s)
    ensures !RunFrom(s, DONT, doDo).mulEnabled
  {
    var s4 := ReadDonQuote(s, doDo);
    IdleStepIs(s4, T, doDo);
    RunFromSnoc(s, [D, O, N, QUOTE], T, doDo);
    assert [D, O, N, QUOTE] + [T] == DONT;
  }

  /** "do" followed by anything but 'n' sets the enable flag. */
  lemma DoEnables(s: Scanner, c: byte, doDo: bool)
    requires Inv(s) && c != N
    ensures RunFrom(s, [D, O, c], doDo).mulEnabled
  {
    var s2 := ReadDo(s, doDo);
    IdleStepIs(s2, c, doDo);
    RunFromSnoc(s, [D, O], c, doDo);
    assert [D, O] + [c] == [D, O, c];
  }

  /** "don" followed by anything but '\'' sets the enable flag. */
  lemma DonEnables(s: Scanner, c: byte, doDo: bool)
    requires Inv(s) && c != QUOTE
    ensures RunFrom(s, [D, O, N, c], doDo).mulEnabled
  {
    var s3 := ReadDon(s, doDo);
    IdleStepIs(s3, c, doDo);
    RunFromSnoc(s, [D, O, N], c, doDo);
    assert [D, O, N] + [c] == [D, O, N, c];
  }

  /** "don'" followed by anything but 't' sets the enable flag. */
  lemma DonQuoteEnables(s: Scanner, c: byte, doDo: bool)
    requires Inv(s) && c != T
    ensures RunFrom(s, [D, O, N, QUOTE, c], doDo).mulEnabled
  {
    var s4 := ReadDonQuote(s, doDo);
    IdleStepIs(s4, c, doDo);
    RunFromSnoc(s, [D, O, N, QUOTE], c, doDo);
    assert [D, O, N, QUOTE] + [c] == [D, O, N, QUOTE, c];
  }

  // ---------------------------------------------------------------------
  // Reading mul(X,Y)

  /** The bytes of a run of decimal digits. */
  function DigitBytes(t: string): (bs: seq<byte>)
    requires forall i :: 0 <= i < |t| ==> IsDigit(t[i])
    ensures |bs| == |t|
    ensures forall i :: 0 <= i < |t| ==> bs[i] == t[i] as int && IsDigitByte(bs[i])
  {
    if t == [] then []
    else
      assert IsDigit(t[0]);
      var b: byte := t[0] as int;
      [b] + DigitBytes(t[1..])
  }

  /** The stored values of the digits of a decimal spelling read back as
      its value. */
  lemma {:induction false} DecimalOfStored(t: string)
    requires forall i :: 0 <= i < |t| ==> IsDigit(t[i])
    ensures AllDigitBytes(DigitBytes(t)) && DecimalOf(Stored(DigitBytes(t))) == DecimalValue(t)
  {
    DecimalOfDigits(Stored(DigitBytes(t)), t);
  }

  /** Digit values that match a spelling digit by digit read as its value. */
  lemma {:induction false} DecimalOfDigits(vs: seq<byte>, t: string)
    requires forall i :: 0 <= i < |t| ==> IsDigit(t[i])
    requires |vs| == |t| && forall i :: 0 <= i < |t| ==> vs[i] as int == DigitValue(t[i])
    ensures DecimalOf(vs) == DecimalValue(t)
    decreases |t|
  {
    if t != [] {
      var n := |t|;
      assert forall i :: 0 <= i < n - 1 ==> vs[..n - 1][i] == vs[i] && t[..n - 1][i] == t[i];
      DecimalOfDigits(vs[..n - 1], t[..n - 1]);
    }
  }

  /** Numbers below 1000 are spelled with at most three digits. */
  lemma ShortSpelling(n: nat)
    requires n < 1000
    ensures 1 <= |NatToString(n)| <= 3
  {
    if n >= 10 {
      assert |NatToString(n)| == |NatToString(n / 10)| + 1;
      if n / 10 >= 10 {
        assert |NatToString(n / 10)| == |NatToString(n / 100)| + 1;
      }
    }
  }

  predicate AllDigitBytes(bs: seq<byte>) {
    forall i :: 0 <= i < |bs| ==> IsDigitByte(bs[i])
  }

  /** What `parse_digit` stores for a run of digit bytes. */
  function Stored(bs: seq<byte>): (vs: seq<byte>)
    requires AllDigitBytes(bs)
    ensures |vs| == |bs|
    ensures forall i :: 0 <= i < |bs| ==> vs[i] == bs[i] - ZERO
  {
    if bs == [] then [] else [bs[0] - ZERO] + Stored(bs[1..])
  }

  /** The buffer `d` after `parse_digit` has stored the digits `bs` from
      slot `len` on, one slot at a time. */
  function Written(d: seq<byte>, len: nat, bs: seq<byte>): (w: seq<byte>)
    requires AllDigitBytes(bs) && len + |bs| <= |d|
    ensures |w| == |d|
    decreases |bs|
  {
    if bs == [] then d else Written(d[len := bs[0] - ZERO], len + 1, bs[1..])
  }

  /** The written slots hold the stored values, after the untouched ones. */
  lemma {:induction false} WrittenPrefix(d: seq<byte>, len: nat, bs: seq<byte>)
    requires AllDigitBytes(bs) && len + |bs| <= |d|
    ensures Written(d, len, bs)[..len + |bs|] == d[..len] + Stored(bs)
    decreases |bs|
  {
    if bs != [] {
      var v, d1, rest := bs[0] - ZERO, d[len := bs[0] - ZERO], Stored(bs[1..]);
      calc {
        Written(d, len, bs)[..len + |bs|];
        Written(d1, len + 1, bs[1..])[..len + 1 + |bs[1..]|];
        { WrittenPrefix(d1, len + 1, bs[1..]); }
        d1[..len + 1] + rest;
        { assert d1[..len + 1] == d[..len] + [v]; }
        d[..len] + [v] + rest;
        d[..len] + ([v] + rest);
        d[..len] + Stored(bs);
      }
    }
  }

  /** The first byte, then the rest. */
  lemma RunFromCons(s: Scanner, bs: seq<byte>, doDo: bool)
    requires Inv(s) && bs != []
    ensures RunFrom(s, bs, doDo) == RunFrom(Step(s, bs[0], doDo), bs[1..], doDo)
  {
  }

  /** One digit after '(' or after an `x` digit is stored in `x`. */
  lemma StepXDigit(s: Scanner, c: byte, doDo: bool)
    requires Inv(s) && s.isParsing && IsDigitByte(c) && s.xLen < 3
    requires s.prev == LPAREN || (IsDigitByte(s.prev) && !s.foundComma)
    ensures Step(s, c, doDo) == s.(x := s.x[s.xLen := c - ZERO], xLen := s.xLen + 1, prev := c, foundComma := false)
  {
    assert Complete(s, c, doDo) == s;
  }

  /** One digit after ',' or after a `y` digit is stored in `y`. */
  lemma StepYDigit(s: Scanner, c: byte, doDo: bool)
    requires Inv(s) && s.isParsing && IsDigitByte(c) && s.yLen < 3
    requires s.prev == COMMA || (IsDigitByte(s.prev) && s.foundComma)
    ensures Step(s, c, doDo) == s.(y := s.y[s.yLen := c - ZERO], yLen := s.yLen + 1, prev := c, foundComma := true)
  {
    assert Complete(s, c, doDo) == s;
  }

  /** A ',' after an `x` digit keeps the parse going and stores nothing. */
  lemma StepComma(s: Scanner, doDo: bool)
    requires Inv(s) && s.isParsing && IsDigitByte(s.prev) && !s.foundComma
    ensures Step(s, COMMA, doDo) == s.(prev := COMMA)
  {
    assert Complete(s, COMMA, doDo) == s;
  }

  /** A second ',', after a `y` digit, also keeps the parse going and stores
      nothing: the digits after it are appended to `y`. */
  lemma StepSecondComma(s: Scanner, doDo: bool)
    requires Inv(s) && s.isParsing && IsDigitByte(s.prev) && s.foundComma
    ensures Step(s, COMMA, doDo) == s.(prev := COMMA)
  {
    assert Complete(s, COMMA, doDo) == s;
  }

  /** A ')' with a `y` digit stored adds the product and ends the parse. */
  lemma StepClose(s: Scanner, doDo: bool)
    requires Inv(s) && s.isParsing && s.yLen > 0
    ensures var r := Step(s, RPAREN, doDo);
      && r.sum == s.sum + Added(Operand(s.x, s.xLen), Operand(s.y, s.yLen), doDo, s.mulEnabled)
      && r.mulEnabled == s.mulEnabled && !r.isParsing && r.xLen == 0 && r.yLen == 0 && !r.foundComma
  {
  }

  /** A digit after '(' or after an `x` digit goes into `x`; the rest is
      read from there. */
  lemma ReadXDigit(s: Scanner, bs: seq<byte>, doDo: bool)
    requires Inv(s) && s.isParsing && bs != [] && IsDigitByte(bs[0]) && s.xLen < 3
    requires s.prev == LPAREN || (IsDigitByte(s.prev) && !s.foundComma)
    ensures RunFrom(s, bs, doDo) == RunFrom(
      s.(x := s.x[s.xLen := bs[0] - ZERO], xLen := s.xLen + 1, prev := bs[0], foundComma := false), bs[1..], doDo)
  {
    StepXDigit(s, bs[0], doDo);
  }

  /** A digit after ',' or after a `y` digit goes into `y`; the rest is
      read from there. */
  lemma ReadYDigit(s: Scanner, bs: seq<byte>, doDo: bool)
    requires Inv(s) && s.isParsing && bs != [] && IsDigitByte(bs[0]) && s.yLen < 3
    requires s.prev == COMMA || (IsDigitByte(s.prev) && s.foundComma)
    ensures RunFrom(s, bs, doDo) == RunFrom(
      s.(y := s.y[s.yLen := bs[0] - ZERO], yLen := s.yLen + 1, prev := bs[0], foundComma := true), bs[1..], doDo)
  {
    StepYDigit(s, bs[0], doDo);
  }

  /** The parse state once the digits `bs` have been stored in `x`. */
  function AfterX(s: Scanner, bs: seq<byte>): Scanner
    requires bs != [] && AllDigitBytes(bs) && s.xLen + |bs| <= |s.x|
  {
    s.(x := Written(s.x, s.xLen, bs), xLen := s.xLen + |bs|, prev := bs[|bs| - 1], foundComma := false)
  }

  /** The parse state once the digits `bs` have been stored in `y`. */
  function AfterY(s: Scanner, bs: seq<byte>): Scanner
    requires bs != [] && AllDigitBytes(bs) && s.yLen + |bs| <= |s.y|
  {
    s.(y := Written(s.y, s.yLen, bs), yLen := s.yLen + |bs|, prev := bs[|bs| - 1], foundComma := true)
  }

  /** Storing the first digit and then the rest is storing them all. */
  lemma AfterXNext(s: Scanner, bs: seq<byte>)
    requires |bs| > 1 && AllDigitBytes(bs) && s.xLen + |bs| <= |s.x|
    ensures AfterX(s.(x := s.x[s.xLen := bs[0] - ZERO], xLen := s.xLen + 1, prev := bs[0], foundComma := false), bs[1..])
      == AfterX(s, bs)
  {
    assert bs[1..][|bs| - 2] == bs[|bs| - 1];
  }

  /** Storing the first digit and then the rest is storing them all. */
  lemma AfterYNext(s: Scanner, bs: seq<byte>)
    requires |bs| > 1 && AllDigitBytes(bs) && s.yLen + |bs| <= |s.y|
    ensures AfterY(s.(y := s.y[s.yLen := bs[0] - ZERO], yLen := s.yLen + 1, prev := bs[0], foundComma := true), bs[1..])
      == AfterY(s, bs)
  {
    assert bs[1..][|bs| - 2] == bs[|bs| - 1];
  }

  /** Storing a single digit. */
  lemma AfterXOne(s: Scanner, bs: seq<byte>)
    requires |bs| == 1 && AllDigitBytes(bs) && s.xLen + 1 <= |s.x|
    ensures s.(x := s.x[s.xLen := bs[0] - ZERO], xLen := s.xLen + 1, prev := bs[0], foundComma := false)
      == AfterX(s, bs)
  {
    var d := s.x[s.xLen := bs[0] - ZERO];
    assert bs[1..] == [];
    assert Written(s.x, s.xLen, bs) == Written(d, s.xLen + 1, []) == d;
  }

  /** Storing a single digit. */
  lemma AfterYOne(s: Scanner, bs: seq<byte>)
    requires |bs| == 1 && AllDigitBytes(bs) && s.yLen + 1 <= |s.y|
    ensures s.(y := s.y[s.yLen := bs[0] - ZERO], yLen := s.yLen + 1, prev := bs[0], foundComma := true)
      == AfterY(s, bs)
  {
    var d := s.y[s.yLen := bs[0] - ZERO];
    assert bs[1..] == [];
    assert Written(s.y, s.yLen, bs) == Written(d, s.yLen + 1, []) == d;
  }

  /** Digits read after '(' or after an `x` digit go into `x`. */
  lemma {:induction false} ReadXDigits(s: Scanner, bs: seq<byte>, doDo: bool)
    requires Inv(s) && s.isParsing && bs != [] && AllDigitBytes(bs)
    requires s.prev == LPAREN || (IsDigitByte(s.prev) && !s.foundComma)
    requires s.xLen + |bs| <= 3
    ensures RunFrom(s, bs, doDo) == AfterX(s, bs)
    decreases |bs|
  {
    ReadXDigit(s, bs, doDo);
    var s1 := s.(x := s.x[s.xLen := bs[0] - ZERO], xLen := s.xLen + 1, prev := bs[0], foundComma := false);
    if |bs| > 1 {
      ReadXDigits(s1, bs[1..], doDo);
      AfterXNext(s, bs);
    } else {
      assert bs[1..] == [];
      AfterXOne(s, bs);
    }
  }

  /** Digits read after ',' or after a `y` digit go into `y`. */
  lemma {:induction false} ReadYDigits(s: Scanner, bs: seq<byte>, doDo: bool)
    requires Inv(s) && s.isParsing && bs != [] && AllDigitBytes(bs) && s.xLen >= 1
    requires s.prev == COMMA || (IsDigitByte(s.prev) && s.foundComma)
    requires s.yLen + |bs| <= 3
    ensures RunFrom(s, bs, doDo) == AfterY(s, bs)
    decreases |bs|
  {
    ReadYDigit(s, bs, doDo);
    var s1 := s.(y := s.y[s.yLen := bs[0] - ZERO], yLen := s.yLen + 1, prev := bs[0], foundComma := true);
    if |bs| > 1 {
      ReadYDigits(s1, bs[1..], doDo);
      AfterYNext(s, bs);
    } else {
      assert bs[1..] == [];
      AfterYOne(s, bs);
    }
  }

  /** The text `mul(X,`, with X in decimal. */
  function MulOpen(x: nat): seq<byte> {
    [M, U, L, LPAREN] + DigitBytes(NatToString(x)) + [COMMA]
  }

  /** The text `mul(X,Y)`, with X and Y in decimal. */
  function MulBytes(x: nat, y: nat): seq<byte> {
    MulOpen(x) + DigitBytes(NatToString(y)) + [RPAREN]
  }

  /** The state once "mul(" has been read outside a parse. */
  function Opened(s: Scanner): Scanner {
    TrackDos(s, M).(isParsing := true, xLen := 0, yLen := 0, prev := LPAREN)
  }

  /** "mul(" outside a parse starts one with empty buffers. */
  lemma ReadMulPrefix(s: Scanner, doDo: bool)
    requires Inv(s) && !s.isParsing
    ensures RunFrom(s, [M, U, L, LPAREN], doDo) == Opened(s)
  {
    var s1 := Step(s, M, doDo);
    var s2 := Step(s1, U, doDo);
    var s3 := Step(s2, L, doDo);
    var s4 := Step(s3, LPAREN, doDo);
    assert s1 == TrackDos(s, M).(isParsing := true, xLen := 0, yLen := 0, prev := M);
    assert s4 == TrackDos(s, M).(isParsing := true, xLen := 0, yLen := 0, prev := LPAREN);
    assert RunFrom(s3, [LPAREN], doDo) == s4;
    assert [L, LPAREN][1..] == [LPAREN];
    assert RunFrom(s2, [L, LPAREN], doDo) == s4;
    assert [U, L, LPAREN][1..] == [L, LPAREN];
    assert RunFrom(s1, [U, L, LPAREN], doDo) == s4;
    assert [M, U, L, LPAREN][1..] == [U, L, LPAREN];
  }

  /** Outside a parse, `mul(X,` with X below 1000 leaves X's digits in `x`
      and the parse waiting for the digits of Y. */
  lemma ReadMulOpen(s: Scanner, x: nat, doDo: bool)
    requires Inv(s) && !s.isParsing && x < 1000
    ensures var xBytes := DigitBytes(NatToString(x));
      && AllDigitBytes(xBytes) && 1 <= |xBytes| <= 3
      && DecimalOf(Stored(xBytes)) == x
      && RunFrom(s, MulOpen(x), doDo) == AfterX(Opened(s), xBytes).(prev := COMMA)
  {
    var tx := NatToString(x);
    ShortSpelling(x);
    DecimalOfStored(tx);
    DecimalNatToString(x);
    var open, xBytes := [M, U, L, LPAREN], DigitBytes(tx);
    ReadMulPrefix(s, doDo);
    var s4 := Opened(s);
    ReadXDigits(s4, xBytes, doDo);
    var s5 := AfterX(s4, xBytes);
    StepComma(s5, doDo);
    assert RunFrom(s5, [COMMA], doDo) == s5.(prev := COMMA);
    RunFromAppend(s, open, xBytes, doDo);
    RunFromAppend(s, open + xBytes, [COMMA], doDo);
  }

  /** Outside a parse, `mul(X,Y` with operands below 1000 leaves X's digits
      in `x`, Y's in `y` and the parse waiting for ')'. */
  lemma ReadMulOperands(s: Scanner, x: nat, y: nat, doDo: bool)
    requires Inv(s) && !s.isParsing && x < 1000 && y < 1000
    ensures var xBytes, yBytes := DigitBytes(NatToString(x)), DigitBytes(NatToString(y));
      && AllDigitBytes(xBytes) && |xBytes| <= 3
      && AllDigitBytes(yBytes) && 1 <= |yBytes| <= 3
      && DecimalOf(Stored(yBytes)) == y
      && RunFrom(s, MulOpen(x) + yBytes, doDo) == AfterY(AfterX(Opened(s), xBytes).(prev := COMMA), yBytes)
  {
    var yBytes := DigitBytes(NatToString(y));
    ShortSpelling(y);
    DecimalOfStored(NatToString(y));
    DecimalNatToString(y);
    ReadMulOpen(s, x, doDo);
    var s6 := AfterX(Opened(s), DigitBytes(NatToString(x))).(prev := COMMA);
    ReadYDigits(s6, yBytes, doDo);
    RunFromAppend(s, MulOpen(x), yBytes, doDo);
  }

  /** Outside a parse, the text `mul(X,Y)` with operands below 1000 adds
      X*Y (nothing under `do_do` while disabled), with the enable flag as
      the 'm' leaves it, and resets the parse. */
  lemma ReadMul(s: Scanner, x: nat, y: nat, doDo: bool)
    requires Inv(s) && !s.isParsing && x < 1000 && y < 1000
    ensures var r := RunFrom(s, MulBytes(x, y), doDo);
      && r.sum == s.sum + Added(x, y, doDo, TrackDos(s, M).mulEnabled)
      && r.mulEnabled == TrackDos(s, M).mulEnabled
      && !r.isParsing && r.xLen == 0 && r.yLen == 0 && !r.foundComma
  {
    var xBytes, yBytes := DigitBytes(NatToString(x)), DigitBytes(NatToString(y));
    var operands := MulOpen(x) + yBytes;
    ReadMulOpen(s, x, doDo);
    ReadMulOperands(s, x, y, doDo);
    var s5 := AfterX(Opened(s), xBytes).(prev := COMMA);
    var s7 := AfterY(s5, yBytes);
    WrittenPrefix(Opened(s).x, 0, xBytes);
    WrittenPrefix(s5.y, 0, yBytes);
    assert Opened(s).x[..0] + Stored(xBytes) == Stored(xBytes);
    assert s5.y[..0] + Stored(yBytes) == Stored(yBytes);
    OperandIsDecimal(s7.x, s7.xLen);
    OperandIsDecimal(s7.y, s7.yLen);
    StepClose(s7, doDo);
    RunFromCons(s7, [RPAREN], doDo);
    assert [RPAREN][1..] == [];
    RunFromAppend(s, operands, [RPAREN], doDo);
  }
}
