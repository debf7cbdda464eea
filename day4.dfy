/**
 * Day 4: the word search (src/day4.rs). The grid is the input text read as
 * one flat row-major buffer whose stride is the length of the first line
 * plus its '\n'. A `DirectionalChars` cursor walks that buffer from a start
 * index by a signed step taken from an eight-direction table; `part1`
 * counts, over every 'X', the directions whose first four bytes spell
 * "XMAS".
 *
 * `Advance` states what one call of `next` does to the cursor; the class
 * `DirectionalChars` is the cursor itself, proved to follow `Advance`.
 * `Word` is `take(4)` / `join` over those items, and `XmasLine` is an
 * independent reference: the four bytes at `i`, `i + step`, `i + 2 step`,
 * `i + 3 step` are 'X', 'M', 'A', 'S'.
 */
module Day4 {
  import opened Text

  const NL: byte := '\n' as int
  const X: byte := 'X' as int
  const XMAS: seq<byte> := ['X' as int, 'M' as int, 'A' as int, 'S' as int]

  /** The eight directions, in declaration order (the order `EnumIter`
      lists them in). */
  datatype Direction = Up | Down | Left | Right | UpRight | UpLeft | DownRight | DownLeft

  const DIRECTIONS: seq<Direction> := [Up, Down, Left, Right, UpRight, UpLeft, DownRight, DownLeft]

  /** The position of a direction in the declaration. */
  function Ordinal(d: Direction): (k: nat)
    ensures k < |DIRECTIONS| && DIRECTIONS[k] == d
  {
    match d
    case Up => 0
    case Down => 1
    case Left => 2
    case Right => 3
    case UpRight => 4
    case UpLeft => 5
    case DownRight => 6
    case DownLeft => 7
  }

  /** `Direction::iter()` visits each of the eight directions exactly once. */
  lemma DirectionsListed()
    ensures |DIRECTIONS| == 8
    ensures forall d: Direction :: d in DIRECTIONS
    ensures forall i, j :: 0 <= i < j < |DIRECTIONS| ==> DIRECTIONS[i] != DIRECTIONS[j]
  {
    forall d: Direction ensures d in DIRECTIONS {
      assert DIRECTIONS[Ordinal(d)] == d;
    }
  }

  /** The stride: the position of the first '\n', plus one. */
  function LineLen(input: seq<byte>): (len: int)
    requires NL in input
    ensures 1 <= len <= |input|
    ensures input[len - 1] == NL && NL !in input[..len - 1]
  {
    IndexOf(input, NL) + 1
  }

  /** The `(x, y)` movement vector of a direction for stride `lineLen`. */
  function MovementVec(d: Direction, lineLen: int): (v: (int, int))
    // At most one column across, and up or down by at most one row.
    ensures -1 <= v.0 <= 1 && (v.1 == -lineLen || v.1 == 0 || v.1 == lineLen)
    // No column change exactly for Up and Down; no row change exactly for
    // Left and Right, once rows have a length.
    ensures v.0 == 0 <==> d == Up || d == Down
    ensures lineLen != 0 ==> (v.1 == 0 <==> d == Left || d == Right)
  {
    match d
    case Up => (0, lineLen * -1)
    case Down => (0, lineLen)
    case Left => (-1, 0)
    case Right => (1, 0)
    case UpRight => (1, lineLen * -1)
    case UpLeft => (-1, lineLen * -1)
    case DownRight => (1, lineLen)
    case DownLeft => (-1, lineLen)
  }

  /** What the cursor adds to its index on each call. */
  function Delta(v: (int, int)): int {
    v.0 + v.1
  }

  function Step(d: Direction, lineLen: int): int {
    Delta(MovementVec(d, lineLen))
  }

  /** Reference compass offsets: the column and the row a direction moves to. */
  function Dx(d: Direction): int {
    match d
    case Left | UpLeft | DownLeft => -1
    case Right | UpRight | DownRight => 1
    case Up | Down => 0
  }

  function Dy(d: Direction): int {
    match d
    case Up | UpLeft | UpRight => -1
    case Down | DownLeft | DownRight => 1
    case Left | Right => 0
  }

  /** In a grid of stride `lineLen`, one step from row `r`, column `c` lands
      on row `r + Dy(d)`, column `c + Dx(d)`: the table moves one cell in the
      compass direction, and each diagonal is the sum of its two parts. */
  lemma StepInGrid(d: Direction, lineLen: int, r: int, c: int)
    ensures r * lineLen + c + Step(d, lineLen) == (r + Dy(d)) * lineLen + (c + Dx(d))
  {
    assert (r + 1) * lineLen == r * lineLen + lineLen;
    assert (r - 1) * lineLen == r * lineLen - lineLen;
  }

  function Opposite(d: Direction): Direction {
    match d
    case Up => Down
    case Down => Up
    case Left => Right
    case Right => Left
    case UpRight => DownLeft
    case UpLeft => DownRight
    case DownRight => UpLeft
    case DownLeft => UpRight
  }

  /** Opposite directions step by opposite amounts. */
  lemma OppositeStep(d: Direction, lineLen: int)
    ensures Opposite(Opposite(d)) == d
    ensures Step(Opposite(d), lineLen) == -Step(d, lineLen)
    ensures Dx(Opposite(d)) == -Dx(d) && Dy(Opposite(d)) == -Dy(d)
  {
  }

  // ---------------------------------------------------------------------
  // The cursor

  /** `has_overflowed` and `current_index`. */
  datatype Cursor = Cursor(hasOverflowed: bool, currentIndex: nat)

  /** `<[u8]>::get`. */
  function Get(input: seq<byte>, i: nat): (r: Option<byte>)
    ensures r.Some? <==> i < |input|
    ensures r.Some? ==> r.value == input[i]
  {
    if i < |input| then Some(input[i]) else None
  }

  /** One call of `next`: the new cursor and the item it yields. */
  function Advance(c: Cursor, input: seq<byte>, delta: int): (res: (Cursor, Option<byte>))
    ensures c.hasOverflowed ==> res == (c, None)
    ensures !c.hasOverflowed ==> res.1 == Get(input, c.currentIndex)
    ensures !c.hasOverflowed && c.currentIndex + delta >= 0 ==>
      res.0 == Cursor(false, c.currentIndex + delta)
    ensures !c.hasOverflowed && c.currentIndex + delta < 0 ==>
      res.0 == Cursor(true, c.currentIndex)
  {
    if c.hasOverflowed then (c, None)
    else
      var item := Get(input, c.currentIndex);
      var index: Option<nat> :=
        if delta < 0 then
          (if c.currentIndex >= -delta then Some(c.currentIndex - (-delta)) else None)
        else Some(c.currentIndex + delta);
      match index
      case Some(i) => (Cursor(false, i), item)
      case None => (Cursor(true, c.currentIndex), item)
  }

  /** The cursor after `k` calls of `next`. */
  function After(c: Cursor, input: seq<byte>, delta: int, k: nat): Cursor
    decreases k
  {
    if k == 0 then c else After(Advance(c, input, delta).0, input, delta, k - 1)
  }

  /** The item the `k`-th call (counting from 0) yields. */
  function Item(c: Cursor, input: seq<byte>, delta: int, k: nat): Option<byte> {
    Advance(After(c, input, delta, k), input, delta).1
  }

  /** Before any step would go below 0, the cursor after `k` calls sits at
      `i + k * delta` and has not overflowed. */
  lemma {:induction false} AfterClosedForm(input: seq<byte>, delta: int, i: nat, k: nat)
    requires i + k * delta >= 0
    ensures !After(Cursor(false, i), input, delta, k).hasOverflowed
    ensures After(Cursor(false, i), input, delta, k).currentIndex == i + k * delta
  {
    if k > 0 {
      assert (k - 1) * delta == k * delta - delta;
      AfterClosedForm(input, delta, i, k - 1);
      AfterLast(Cursor(false, i), input, delta, k - 1);
    }
  }

  lemma {:induction false} AfterLast(c: Cursor, input: seq<byte>, delta: int, k: nat)
    ensures After(c, input, delta, k + 1) == Advance(After(c, input, delta, k), input, delta).0
    decreases k
  {
    if k > 0 {
      AfterLast(Advance(c, input, delta).0, input, delta, k - 1);
    }
  }

  /** The `k`-th item from start `i`, as long as `i + k * delta` has not gone
      below 0, is the byte there, or `None` past the end. */
  lemma ItemClosedForm(input: seq<byte>, delta: int, i: nat, k: nat)
    requires i + k * delta >= 0
    ensures Item(Cursor(false, i), input, delta, k) == Get(input, i + k * delta)
  {
    AfterClosedForm(input, delta, i, k);
  }

  /** Once `has_overflowed` is set, every later call yields `None`. */
  lemma {:induction false} OverflowSticky(c: Cursor, input: seq<byte>, delta: int, k: nat, m: nat)
    requires After(c, input, delta, k).hasOverflowed && k <= m
    ensures After(c, input, delta, m).hasOverflowed
    ensures Item(c, input, delta, m) == None
    decreases m - k
  {
    if k < m {
      AfterLast(c, input, delta, k);
      OverflowSticky(c, input, delta, k + 1, m);
    }
  }

  /** An underflowing step still yields the current byte; the call after
      it yields `None`. */
  lemma UnderflowYieldsLast(input: seq<byte>, delta: int, i: nat)
    requires i + delta < 0
    ensures Item(Cursor(false, i), input, delta, 0) == Get(input, i)
    ensures Item(Cursor(false, i), input, delta, 1) == None
  {
    assert After(Cursor(false, i), input, delta, 1) == After(Cursor(true, i), input, delta, 0);
  }

  // ---------------------------------------------------------------------
  // DirectionalChars

  class DirectionalChars {
    var hasOverflowed: bool
    const movementVec: (int, int)
    var currentIndex: nat
    const input: seq<byte>

    function State(): Cursor
      reads this
    {
      Cursor(hasOverflowed, currentIndex)
    }

    /** Lines 64-82: the stride is found from the first '\n' (which must
        exist), the movement vector from the table. */
    constructor (input: seq<byte>, direction: Direction, i: nat)
      requires NL in input
      ensures State() == Cursor(false, i)
      ensures movementVec == MovementVec(direction, LineLen(input))
      ensures this.input == input
    {
      var lineLen := IndexOf(input, NL) + 1;
      hasOverflowed := false;
      movementVec := MovementVec(direction, lineLen);
      currentIndex := i;
      this.input := input;
    }

    /** Lines 39-60. */
    method Next() returns (item: Option<byte>)
      modifies this
      ensures (State(), item) == Advance(old(State()), input, Delta(movementVec))
    {
      if hasOverflowed {
        return None;
      }
      var ch := if currentIndex < |input| then Some(input[currentIndex]) else None;
      var vec := movementVec.0 + movementVec.1;
      var index: Option<nat>;
      if vec < 0 {
        index := if currentIndex >= -vec then Some(currentIndex - (-vec)) else None;
      } else {
        index := Some(currentIndex + vec);
      }
      match index {
        case Some(i) =>
          currentIndex := i;
          item := ch;
        case None =>
          hasOverflowed := true;
          item := ch;
      }
    }
  }

  // ---------------------------------------------------------------------
  // take(4) / join

  /** The bytes of up to `n` items, stopping at the first `None`. */
  function Word(c: Cursor, input: seq<byte>, delta: int, n: nat): (w: seq<byte>)
    ensures |w| <= n
    decreases n
  {
    if n == 0 then []
    else
      var (c', item) := Advance(c, input, delta);
      match item
      case None => []
      case Some(b) => [b] + Word(c', input, delta, n - 1)
  }

  /** The cursor once `take(n)` has finished: `next` has been called until
      it yielded `None` or `n` times. */
  function WordEnd(c: Cursor, input: seq<byte>, delta: int, n: nat): (e: Cursor)
    ensures c.hasOverflowed ==> e == c
    decreases n
  {
    if n == 0 then c
    else
      var (c', item) := Advance(c, input, delta);
      match item
      case None => c'
      case Some(_) => WordEnd(c', input, delta, n - 1)
  }

  /** `take(n)` calls `next` once per byte of the word, and once more when
      it stops short of `n` bytes. */
  lemma {:induction false} WordEndAfter(c: Cursor, input: seq<byte>, delta: int, n: nat)
    ensures var k := |Word(c, input, delta, n)|;
      WordEnd(c, input, delta, n) == After(c, input, delta, if k < n then k + 1 else n)
    decreases n
  {
    if n > 0 {
      var (c', item) := Advance(c, input, delta);
      if item.Some? {
        WordEndAfter(c', input, delta, n - 1);
      }
    }
  }

  /** `take(n)` then `join("")`, driving the cursor. */
  method TakeWord(it: DirectionalChars, n: nat) returns (w: seq<byte>)
    modifies it
    ensures w == Word(old(it.State()), it.input, Delta(it.movementVec), n)
    ensures it.State() == WordEnd(old(it.State()), it.input, Delta(it.movementVec), n)
  {
    ghost var delta := Delta(it.movementVec);
    w := [];
    var taken := 0;
    var stopped := false;
    while taken < n && !stopped
      invariant taken <= n
      invariant stopped ==> w == Word(old(it.State()), it.input, delta, n)
      invariant !stopped ==> w + Word(it.State(), it.input, delta, n - taken) == Word(old(it.State()), it.input, delta, n)
      invariant stopped ==> it.State() == WordEnd(old(it.State()), it.input, delta, n)
      invariant !stopped ==> WordEnd(it.State(), it.input, delta, n - taken) == WordEnd(old(it.State()), it.input, delta, n)
      decreases n - taken
    {
      ghost var before := it.State();
      var item := it.Next();
      match item {
        case None =>
          stopped := true;
        case Some(b) =>
          assert Word(before, it.input, delta, n - taken) == [b] + Word(it.State(), it.input, delta, n - taken - 1);
          w := w + [b];
      }
      taken := taken + 1;
    }
  }

  /** The four bytes along the line from `i` by `delta` are "XMAS". */
  predicate XmasLine(input: seq<byte>, i: nat, delta: int) {
    forall k :: 0 <= k < 4 ==> 0 <= i + k * delta < |input| && input[i + k * delta] == XMAS[k]
  }

  /** The word matches exactly when the straight line holds "XMAS": a scan
      cut short by the left or right edge of the buffer never matches. */
  lemma WordIsXmas(input: seq<byte>, i: nat, delta: int)
    ensures Word(Cursor(false, i), input, delta, 4) == XMAS <==> XmasLine(input, i, delta)
  {
    var c0 := Cursor(false, i);
    var w := Word(c0, input, delta, 4);
    var c1 := Advance(c0, input, delta).0;
    var c2 := Advance(c1, input, delta).0;
    var c3 := Advance(c2, input, delta).0;
    if w == XMAS {
      assert Get(input, i) == Some(XMAS[0]);
      assert Word(c1, input, delta, 3) == XMAS[1..];
      assert !c1.hasOverflowed && c1.currentIndex == i + delta;
      assert Word(c2, input, delta, 2) == XMAS[2..];
      assert !c2.hasOverflowed && c2.currentIndex == i + 2 * delta;
      assert Word(c3, input, delta, 1) == XMAS[3..];
      assert !c3.hasOverflowed && c3.currentIndex == i + 3 * delta;
      assert forall k :: 0 <= k < 4 ==> 0 <= i + k * delta < |input| && input[i + k * delta] == XMAS[k] by {
        forall k | 0 <= k < 4
          ensures 0 <= i + k * delta < |input| && input[i + k * delta] == XMAS[k]
        {
          assert k == 0 || k == 1 || k == 2 || k == 3;
        }
      }
    }
    if XmasLine(input, i, delta) {
      assert 0 <= i + 0 * delta < |input| && input[i + 0 * delta] == XMAS[0];
      assert 0 <= i + 1 * delta < |input| && input[i + 1 * delta] == XMAS[1];
      assert 0 <= i + 2 * delta < |input| && input[i + 2 * delta] == XMAS[2];
      assert 0 <= i + 3 * delta < |input| && input[i + 3 * delta] == XMAS[3];
      assert c1 == Cursor(false, i + delta);
      assert c2 == Cursor(false, i + 2 * delta);
      assert c3 == Cursor(false, i + 3 * delta);
      assert Word(c3, input, delta, 1) == [XMAS[3]];
      assert Word(c2, input, delta, 2) == [XMAS[2], XMAS[3]];
      assert Word(c1, input, delta, 3) == [XMAS[1], XMAS[2], XMAS[3]];
    }
  }

  /** `input.direction_iter(index, dir).take(4).join("")`. */
  method WordFrom(input: seq<byte>, i: nat, d: Direction) returns (w: seq<byte>)
    requires NL in input
    ensures w == Word(Cursor(false, i), input, Step(d, LineLen(input)), 4)
  {
    var it := new DirectionalChars(input, d, i);
    w := TakeWord(it, 4);
  }

  // ---------------------------------------------------------------------
  // part1

  predicate Hit(input: seq<byte>, i: nat, d: Direction)
    requires NL in input
  {
    Word(Cursor(false, i), input, Step(d, LineLen(input)), 4) == XMAS
  }

  /** `.filter(word == "XMAS").count()` over the first `n` directions. */
  function CountHits(input: seq<byte>, i: nat, n: nat): (k: nat)
    requires NL in input && n <= |DIRECTIONS|
    ensures k <= n
  {
    if n == 0 then 0
    else CountHits(input, i, n - 1) + (if Hit(input, i, DIRECTIONS[n - 1]) then 1 else 0)
  }

  /** What the cell at `i` contributes: at most 8, and only an 'X'
      contributes. */
  function CellScore(input: seq<byte>, i: nat): (k: nat)
    requires i < |input|
    requires input[i] == X ==> NL in input
    ensures k <= 8
    ensures k > 0 ==> input[i] == X
  {
    if input[i] == X then CountHits(input, i, |DIRECTIONS|) else 0
  }

  /** The input may lack a '\n' only if it holds no 'X': the stride is
      looked up only when an 'X' is found. */
  predicate Scannable(input: seq<byte>) {
    X in input ==> NL in input
  }

  /** The sum of the scores of the first `n` cells: at most eight per 'X'
      among them. */
  function Score(input: seq<byte>, n: nat): (k: nat)
    requires Scannable(input) && n <= |input|
    ensures k <= 8 * CountX(input, n)
  {
    if n == 0 then 0 else Score(input, n - 1) + CellScore(input, n - 1)
  }

  /** `part1`: at most eight per 'X' in the input. */
  function Part1(input: seq<byte>): (k: nat)
    requires Scannable(input)
    ensures k <= 8 * CountX(input, |input|)
  {
    Score(input, |input|)
  }

  /** The first `n` cells that hold 'X'. */
  function CountX(input: seq<byte>, n: nat): (k: nat)
    requires n <= |input|
    ensures k <= n
  {
    if n == 0 then 0 else CountX(input, n - 1) + (if input[n - 1] == X then 1 else 0)
  }

  /** Reference count: the directions in which a straight "XMAS" starts at
      `i`, with no mention of the cursor. */
  function CountLines(input: seq<byte>, i: nat, n: nat): nat
    requires NL in input && n <= |DIRECTIONS|
  {
    if n == 0 then 0
    else CountLines(input, i, n - 1) + (if XmasLine(input, i, Step(DIRECTIONS[n - 1], LineLen(input))) then 1 else 0)
  }

  lemma {:induction false} HitsAreLines(input: seq<byte>, i: nat, n: nat)
    requires NL in input && n <= |DIRECTIONS|
    ensures CountHits(input, i, n) == CountLines(input, i, n)
  {
    if n > 0 {
      HitsAreLines(input, i, n - 1);
      WordIsXmas(input, i, Step(DIRECTIONS[n - 1], LineLen(input)));
    }
  }

  /** The 'X' test before the scan changes nothing: a cell that is not 'X'
      cannot start "XMAS" in any direction. */
  lemma {:induction false} NonXHasNoLines(input: seq<byte>, i: nat, n: nat)
    requires NL in input && i < |input| && input[i] != X && n <= |DIRECTIONS|
    ensures CountLines(input, i, n) == 0
  {
    if n > 0 {
      NonXHasNoLines(input, i, n - 1);
      var delta := Step(DIRECTIONS[n - 1], LineLen(input));
      assert input[i + 0 * delta] == input[i];
    }
  }

  /** Reference answer: over every cell, the directions in which a straight
      "XMAS" starts there. */
  function TotalLines(input: seq<byte>, n: nat): nat
    requires NL in input && n <= |input|
  {
    if n == 0 then 0 else TotalLines(input, n - 1) + CountLines(input, n - 1, |DIRECTIONS|)
  }

  /** Each cell's score is the number of directions in which a straight
      "XMAS" starts there. */
  lemma CellScoreCountsLines(input: seq<byte>, i: nat)
    requires NL in input && i < |input|
    ensures CellScore(input, i) == CountLines(input, i, |DIRECTIONS|)
  {
    if input[i] == X {
      HitsAreLines(input, i, |DIRECTIONS|);
    } else {
      NonXHasNoLines(input, i, |DIRECTIONS|);
    }
  }

  /** The answer counts every straight "XMAS" in the grid, once per start
      cell and direction. */
  lemma {:induction false} ScoreCountsLines(input: seq<byte>, n: nat)
    requires NL in input && n <= |input|
    ensures Score(input, n) == TotalLines(input, n)
  {
    if n > 0 {
      ScoreCountsLines(input, n - 1);
      CellScoreCountsLines(input, n - 1);
    }
  }

  lemma Part1CountsLines(input: seq<byte>)
    requires NL in input
    ensures Part1(input) == TotalLines(input, |input|)
  {
    ScoreCountsLines(input, |input|);
  }
}
