/**
 * Day 6: the guard's patrol (src/day6.rs). The map is the input text read
 * as one flat buffer of stride "first line length + 1". A `Traverser`
 * starts on the first '^' facing up and steps by `move_amt`; on '#' it
 * turns clockwise (again and again while it lands on '#'); it stops when a
 * step would go below index 0, past the end, or onto a '\n'. `part1`
 * counts the distinct indices it yields.
 *
 * `ProgressOf` states what `Traverser::progress` does to the walker's pose,
 * `TurnLoop` the `while` loop inside it; the class `Traverser` is the
 * walker itself, proved to follow them. The turning loop needs no bound:
 * the four clockwise moves cancel, and the walker never stands on a '#'
 * from which it can still step, so it leaves the loop within four turns.
 * The walk as a whole can go round forever, so `Walk` carries fuel.
 */
module Day6 {
  import opened Text

  const NL: byte := '\n' as int
  const CR: byte := '\r' as int
  const HASH: byte := '#' as int
  const CARET: byte := '^' as int

  datatype Direction = Up | Right | Down | Left

  /** `get_vec`: the `(x, y)` movement of a direction for stride `lineLen`. */
  function GetVec(d: Direction, lineLen: int): (int, int) {
    match d
    case Up => (0, -1 * lineLen)
    case Right => (1, 0)
    case Down => (0, lineLen)
    case Left => (-1, 0)
  }

  /** Exactly one of the two moves is nonzero once rows have a length: one
      column sideways for Left and Right, one row up or down for Up and
      Down. */
  lemma GetVecUnit(d: Direction, lineLen: int)
    ensures var v := GetVec(d, lineLen);
      && (v.0 == 0 <==> d == Up || d == Down)
      && -1 <= v.0 <= 1
      && ((d == Up || d == Down) ==> (v.1 == -lineLen || v.1 == lineLen))
      && ((d == Left || d == Right) ==> v.1 == 0)
  {
  }

  /** The clockwise position of a direction, starting from Up. */
  function Clock(d: Direction): (k: nat)
    ensures k < 4
  {
    match d
    case Up => 0
    case Right => 1
    case Down => 2
    case Left => 3
  }

  /** `rotate`: a quarter turn clockwise. */
  function Rotate(d: Direction): (r: Direction)
    ensures Clock(r) == (Clock(d) + 1) % 4
  {
    match d
    case Up => Right
    case Right => Down
    case Down => Left
    case Left => Up
  }

  /** Four quarter turns bring every direction back, and no fewer do. */
  lemma FourTurns(d: Direction)
    ensures Rotate(Rotate(Rotate(Rotate(d)))) == d
    ensures Rotate(d) != d && Rotate(Rotate(d)) != d && Rotate(Rotate(Rotate(d))) != d
  {
  }

  /** `move_vec.0 + move_vec.1`. */
  function MoveAmt(d: Direction, lineLen: int): int {
    GetVec(d, lineLen).0 + GetVec(d, lineLen).1
  }

  /** The sum of the moves of the next `n` directions after `d`. */
  function Ahead(d: Direction, n: nat, lineLen: int): int
    decreases n
  {
    if n == 0 then 0 else MoveAmt(Rotate(d), lineLen) + Ahead(Rotate(d), n - 1, lineLen)
  }

  /** One step in each of the four directions ends where it started. */
  lemma FourMovesCancel(d: Direction, lineLen: int)
    ensures Ahead(d, 4, lineLen) == 0
  {
    var d1 := Rotate(d);
    var d2 := Rotate(d1);
    var d3 := Rotate(d2);
    var d4 := Rotate(d3);
    assert Ahead(d, 4, lineLen) == MoveAmt(d1, lineLen) + MoveAmt(d2, lineLen) + MoveAmt(d3, lineLen) + MoveAmt(d4, lineLen) + Ahead(d4, 0, lineLen);
  }

  /** The length of the first line `str::lines` yields: up to the first
      '\n', without a '\r' right before it. */
  function FirstLineLen(input: seq<byte>): (n: nat)
    requires input != []
    ensures n <= IndexOf(input, NL)
    ensures NL !in input[..n]
    // The line ends at the end of the input, at a '\n', or at a "\r\n".
    ensures n == |input| || input[n] == NL || (n + 1 < |input| && input[n] == CR && input[n + 1] == NL)
    // A '\r' the line ends with is not the one of a "\r\n".
    ensures 0 < n < |input| && input[n - 1] == CR ==> input[n] != NL
  {
    var k := IndexOf(input, NL);
    if k < |input| && k > 0 && input[k - 1] == CR then k - 1 else k
  }

  /** `line_len`. */
  function LineLen(input: seq<byte>): (len: nat)
    requires input != []
    ensures len >= 1
    // One past the first '\n', or one less when a '\r' stands before it.
    ensures var k := IndexOf(input, NL);
      len == k + 1 || (0 < k < |input| && input[k - 1] == CR && len == k)
  {
    FirstLineLen(input) + 1
  }

  // ---------------------------------------------------------------------
  // progress

  /** An item: the byte and its index. */
  type Item = (byte, nat)

  /** `direction`, `move_amt` and `current_idx`. */
  datatype Pose = Pose(direction: Direction, moveAmt: int, currentIdx: nat)

  predicate InBounds(input: seq<byte>, n: int) {
    0 <= n < |input|
  }

  /** What every pose the walker takes satisfies: `move_amt` matches the
      direction, the walker is inside the buffer, and it stands on a '#'
      only when its next step leaves the buffer. */
  predicate PoseOk(p: Pose, input: seq<byte>, lineLen: int) {
    && p.moveAmt == MoveAmt(p.direction, lineLen)
    && p.currentIdx < |input|
    && (input[p.currentIdx] == HASH ==> !InBounds(input, p.currentIdx + p.moveAmt))
  }

  /** The state at the top of the turning loop: `origin` is where the
      walker stood when it met the first '#', and `turns` the number of
      quarter turns made so far. The remaining turns would step the walker
      back to `origin`, which is no '#'; after the first turn the walker
      stands on the byte `newIdx` it has just read. */
  predicate Turning(p: Pose, newIdx: nat, input: seq<byte>, lineLen: int, origin: nat, turns: nat) {
    && p.moveAmt == MoveAmt(p.direction, lineLen)
    && p.currentIdx < |input| && newIdx < |input| && origin < |input|
    && input[origin] != HASH
    && turns <= 4
    && p.currentIdx + Ahead(p.direction, 4 - turns, lineLen) == origin
    && (turns > 0 ==> newIdx == p.currentIdx)
    && (turns == 0 ==> newIdx == p.currentIdx + p.moveAmt)
  }

  /** The `while` loop of lines 72-85, with the byte at `newIdx` just read:
      the loop test. */
  function TurnLoop(p: Pose, newIdx: nat, input: seq<byte>, lineLen: int, origin: nat, turns: nat): (res: (Pose, Option<Item>))
    requires Turning(p, newIdx, input, lineLen, origin, turns)
    decreases 4 - turns, 1
  {
    if input[newIdx] != HASH then
      (p.(currentIdx := newIdx), Some((input[newIdx], newIdx)))
    else TurnStep(p, newIdx, input, lineLen, origin, turns)
  }

  /** The loop body: turn right, leave with `None` when the step after the
      turn is out of bounds, otherwise step and test again. */
  function TurnStep(p: Pose, newIdx: nat, input: seq<byte>, lineLen: int, origin: nat, turns: nat): (res: (Pose, Option<Item>))
    requires Turning(p, newIdx, input, lineLen, origin, turns) && input[newIdx] == HASH
    decreases 4 - turns, 0
  {
    var d := Rotate(p.direction);
    var m := MoveAmt(d, lineLen);
    var n := p.currentIdx + m;
    if n < 0 || n >= |input| then (p.(direction := d, moveAmt := m), None)
    else TurnLoop(Pose(d, m, n), n, input, lineLen, origin, turns + 1)
  }

  /** The loop ends in a pose the walker may take, and what it returns is
      the byte under the walker, never a '#'. */
  lemma {:induction false} TurnLoopOk(p: Pose, newIdx: nat, input: seq<byte>, lineLen: int, origin: nat, turns: nat)
    requires Turning(p, newIdx, input, lineLen, origin, turns)
    ensures var res := TurnLoop(p, newIdx, input, lineLen, origin, turns);
      && PoseOk(res.0, input, lineLen)
      && (res.1.Some? ==> res.1.value == (input[res.0.currentIdx], res.0.currentIdx) && res.1.value.0 != HASH)
    decreases 4 - turns
  {
    if input[newIdx] == HASH {
      var d := Rotate(p.direction);
      var m := MoveAmt(d, lineLen);
      var n := p.currentIdx + m;
      if 0 <= n < |input| {
        TurnOn(p, newIdx, input, lineLen, origin, turns, Pose(d, m, n));
        TurnLoopOk(Pose(d, m, n), n, input, lineLen, origin, turns + 1);
      }
    }
  }

  /** One pass of the loop body, on a '#', when the step after the turn
      leaves the buffer: the loop returns `None`. */
  lemma TurnOut(p: Pose, newIdx: nat, input: seq<byte>, lineLen: int, origin: nat, turns: nat, q: Pose)
    requires Turning(p, newIdx, input, lineLen, origin, turns)
    requires input[newIdx] == HASH
    requires q.direction == Rotate(p.direction) && q.moveAmt == MoveAmt(q.direction, lineLen) && q.currentIdx == p.currentIdx
    requires !InBounds(input, q.currentIdx + q.moveAmt)
    ensures TurnLoop(p, newIdx, input, lineLen, origin, turns) == (q, None)
  {
  }

  /** One pass of the loop body, on a '#', when the step after the turn
      stays inside: the loop goes on from the new pose `q`. */
  lemma TurnOn(p: Pose, newIdx: nat, input: seq<byte>, lineLen: int, origin: nat, turns: nat, q: Pose)
    requires Turning(p, newIdx, input, lineLen, origin, turns)
    requires input[newIdx] == HASH
    requires q.direction == Rotate(p.direction) && q.moveAmt == MoveAmt(q.direction, lineLen)
    requires q.currentIdx == p.currentIdx + q.moveAmt && q.currentIdx < |input|
    ensures turns < 4
    ensures Turning(q, q.currentIdx, input, lineLen, origin, turns + 1)
    ensures TurnLoop(p, newIdx, input, lineLen, origin, turns) == TurnLoop(q, q.currentIdx, input, lineLen, origin, turns + 1)
  {
  }

  /** The loop leaves on the first byte that is not '#'. */
  lemma TurnDone(p: Pose, newIdx: nat, input: seq<byte>, lineLen: int, origin: nat, turns: nat)
    requires Turning(p, newIdx, input, lineLen, origin, turns)
    requires input[newIdx] != HASH && turns > 0
    ensures TurnLoop(p, newIdx, input, lineLen, origin, turns) == (p, Some((input[newIdx], newIdx)))
  {
  }

  /** `Traverser::progress`: the new pose and the item it returns. */
  function ProgressOf(p: Pose, input: seq<byte>, lineLen: int): (res: (Pose, Option<Item>))
    requires PoseOk(p, input, lineLen)
    ensures PoseOk(res.0, input, lineLen)
    ensures res.1.Some? ==> res.1.value == (input[res.0.currentIdx], res.0.currentIdx)
    ensures res.1.Some? ==> res.1.value.0 != HASH
  {
    var n := p.currentIdx + p.moveAmt;
    if n < 0 || n >= |input| then (p, None)
    else
      var i: nat := n;
      if input[i] == NL then (p, None)
      else if input[i] == HASH then
        FourMovesCancel(p.direction, lineLen);
        TurnLoopOk(p, i, input, lineLen, p.currentIdx, 0);
        TurnLoop(p, i, input, lineLen, p.currentIdx, 0)
      else (p.(currentIdx := i), Some((input[i], i)))
  }

  /** Lines 64-65, 70: a step below 0, past the end or onto a '\n' returns
      `None` and moves nothing. */
  lemma ProgressStops(p: Pose, input: seq<byte>, lineLen: int)
    requires PoseOk(p, input, lineLen)
    requires var n := p.currentIdx + p.moveAmt; !InBounds(input, n) || input[n] == NL
    ensures ProgressOf(p, input, lineLen) == (p, None)
  {
  }

  /** Lines 88-92: any other byte but '#' is stepped onto and returned. */
  lemma ProgressStraight(p: Pose, input: seq<byte>, lineLen: int)
    requires PoseOk(p, input, lineLen)
    requires var n := p.currentIdx + p.moveAmt; InBounds(input, n) && input[n] != NL && input[n] != HASH
    ensures var n := p.currentIdx + p.moveAmt;
      ProgressOf(p, input, lineLen) == (p.(currentIdx := n), Some((input[n], n)))
  {
  }

  /** `d` turned `k` quarter turns clockwise. */
  function Turned(d: Direction, k: nat): Direction
    decreases k
  {
    if k == 0 then d else Turned(Rotate(d), k - 1)
  }

  /** Lines 71-86: after a '#' the walker makes one to four quarter turns,
      ending where the loop left it; four turns bring it back, facing the
      first '#' again, onto the cell it started from. */
  lemma ProgressTurns(p: Pose, input: seq<byte>, lineLen: int)
    requires PoseOk(p, input, lineLen)
    requires var n := p.currentIdx + p.moveAmt; InBounds(input, n) && input[n] == HASH
    ensures exists k :: 1 <= k <= 4 && ProgressOf(p, input, lineLen).0.direction == Turned(p.direction, k)
  {
    FourMovesCancel(p.direction, lineLen);
    var k := TurnsMade(p, p.currentIdx + p.moveAmt, input, lineLen, p.currentIdx, 0);
    assert 1 <= k <= 4 && ProgressOf(p, input, lineLen).0.direction == Turned(p.direction, k);
  }

  /** The loop ends after `k` further quarter turns, `k` at least one and
      at most the four less those already made. */
  lemma {:induction false} TurnsMade(p: Pose, newIdx: nat, input: seq<byte>, lineLen: int, origin: nat, turns: nat) returns (k: nat)
    requires Turning(p, newIdx, input, lineLen, origin, turns)
    requires input[newIdx] == HASH
    ensures 1 <= k <= 4 - turns
    ensures TurnLoop(p, newIdx, input, lineLen, origin, turns).0.direction == Turned(p.direction, k)
    decreases 4 - turns
  {
    var d := Rotate(p.direction);
    var m := MoveAmt(d, lineLen);
    var n := p.currentIdx + m;
    if 0 <= n < |input| && input[n] == HASH {
      if turns == 3 {
        assert false;
      }
      var j := TurnsMade(Pose(d, m, n), n, input, lineLen, origin, turns + 1);
      k := j + 1;
    } else {
      k := 1;
      if 0 <= n < |input| {
        TurnOn(p, newIdx, input, lineLen, origin, turns, Pose(d, m, n));
      }
      assert TurnLoop(p, newIdx, input, lineLen, origin, turns).0.direction == d;
    }
  }

  /** Once `progress` has returned `None`, it returns `None` again and
      changes nothing: the walk cannot resume. */
  lemma ProgressNoneIsFinal(p: Pose, input: seq<byte>, lineLen: int)
    requires PoseOk(p, input, lineLen)
    requires ProgressOf(p, input, lineLen).1.None?
    ensures var q := ProgressOf(p, input, lineLen).0; ProgressOf(q, input, lineLen) == (q, None)
  {
    var n := p.currentIdx + p.moveAmt;
    if InBounds(input, n) && input[n] == HASH {
      FourMovesCancel(p.direction, lineLen);
      TurnNoneIsFinal(p, n, input, lineLen, p.currentIdx, 0);
    }
  }

  lemma {:induction false} TurnNoneIsFinal(p: Pose, newIdx: nat, input: seq<byte>, lineLen: int, origin: nat, turns: nat)
    requires Turning(p, newIdx, input, lineLen, origin, turns)
    requires TurnLoop(p, newIdx, input, lineLen, origin, turns).1.None?
    ensures var q := TurnLoop(p, newIdx, input, lineLen, origin, turns).0;
      !InBounds(input, q.currentIdx + q.moveAmt)
    decreases 4 - turns
  {
    var d := Rotate(p.direction);
    var m := MoveAmt(d, lineLen);
    var n := p.currentIdx + m;
    if 0 <= n < |input| {
      TurnNoneIsFinal(Pose(d, m, n), n, input, lineLen, origin, turns + 1);
    }
  }

  // ---------------------------------------------------------------------
  // The iterator

  /** `next_item` together with the pose. */
  datatype Walker = Walker(nextItem: Option<Item>, pose: Pose)

  predicate WalkerOk(w: Walker, input: seq<byte>, lineLen: int) {
    && PoseOk(w.pose, input, lineLen)
    && (w.nextItem.Some? ==> var (b, i) := w.nextItem.value; i < |input| && b == input[i] && b != HASH)
  }

  /** `Traverser::new`: on the first '^', facing up, with `('^', start)`
      waiting to be yielded. */
  function Start(input: seq<byte>): (w: Walker)
    requires input != [] && CARET in input
    ensures WalkerOk(w, input, LineLen(input))
    ensures w.nextItem == Some((CARET, IndexOf(input, CARET)))
    ensures w.pose.direction == Up && w.pose.moveAmt + LineLen(input) == 0
  {
    var p := IndexOf(input, CARET);
    Walker(Some((input[p], p)), Pose(Up, MoveAmt(Up, LineLen(input)), p))
  }

  /** `Iterator::next`: yield the buffered item, buffer what `progress`
      returns. */
  function NextOf(w: Walker, input: seq<byte>, lineLen: int): (res: (Walker, Option<Item>))
    requires WalkerOk(w, input, lineLen)
    ensures WalkerOk(res.0, input, lineLen)
    ensures res.1 == w.nextItem
  {
    var (q, item) := ProgressOf(w.pose, input, lineLen);
    (Walker(item, q), w.nextItem)
  }

  /** The items `next` yields until its first `None`, if that comes within
      `fuel` calls. */
  function Walk(w: Walker, input: seq<byte>, lineLen: int, fuel: nat): (r: Option<seq<Item>>)
    requires WalkerOk(w, input, lineLen)
    // A walk that ends yields at most `fuel` items, the buffered one first.
    ensures r.Some? ==> |r.value| <= fuel
    ensures r.Some? && w.nextItem.Some? ==> r.value != [] && r.value[0] == w.nextItem.value
    decreases fuel, 1
  {
    if w.nextItem.None? then Some([])
    else if fuel == 0 then None
    else Prepend([w.nextItem.value], WalkOn(w, input, lineLen, fuel - 1))
  }

  /** The rest of the walk after one call of `next`. */
  function WalkOn(w: Walker, input: seq<byte>, lineLen: int, fuel: nat): (r: Option<seq<Item>>)
    requires WalkerOk(w, input, lineLen)
    ensures r.Some? ==> |r.value| <= fuel
    decreases fuel, 2
  {
    Walk(NextOf(w, input, lineLen).0, input, lineLen, fuel)
  }

  /** `items` followed by the rest of a walk, if it ended. */
  function Prepend(items: seq<Item>, r: Option<seq<Item>>): Option<seq<Item>> {
    match r
    case None => None
    case Some(rest) => Some(items + rest)
  }

  lemma PrependTwice(a: seq<Item>, b: seq<Item>, r: Option<seq<Item>>)
    ensures Prepend(a, Prepend(b, r)) == Prepend(a + b, r)
  {
    if r.Some? {
      assert a + (b + r.value) == (a + b) + r.value;
    }
  }

  /** A walk seen after one more call of `next`: the yielded item moves
      from the walk to the items collected. */
  lemma WalkAfterNext(items: seq<Item>, w: Walker, w': Walker, input: seq<byte>, lineLen: int, fuel: nat)
    requires WalkerOk(w, input, lineLen) && w.nextItem.Some? && fuel > 0
    requires w' == NextOf(w, input, lineLen).0
    ensures WalkerOk(w', input, lineLen)
    ensures Prepend(items, Walk(w, input, lineLen, fuel)) == Prepend(items + [w.nextItem.value], Walk(w', input, lineLen, fuel - 1))
  {
    PrependTwice(items, [w.nextItem.value], Walk(w', input, lineLen, fuel - 1));
  }

  /** More fuel never changes a walk that has ended. */
  lemma {:induction false} WalkFuel(w: Walker, input: seq<byte>, lineLen: int, fuel: nat, more: nat)
    requires WalkerOk(w, input, lineLen)
    requires Walk(w, input, lineLen, fuel).Some? && fuel <= more
    ensures Walk(w, input, lineLen, more) == Walk(w, input, lineLen, fuel)
    decreases fuel
  {
    if w.nextItem.Some? {
      WalkFuel(NextOf(w, input, lineLen).0, input, lineLen, fuel - 1, more - 1);
    }
  }

  /** Each item of a walk that ends is the byte at its index, inside the
      buffer, and never a '#'. */
  lemma {:induction false} WalkItems(w: Walker, input: seq<byte>, lineLen: int, fuel: nat)
    requires WalkerOk(w, input, lineLen)
    requires Walk(w, input, lineLen, fuel).Some?
    ensures var items := Walk(w, input, lineLen, fuel).value;
      forall k :: 0 <= k < |items| ==> items[k].1 < |input| && items[k].0 == input[items[k].1] && items[k].0 != HASH
    decreases fuel
  {
    if w.nextItem.Some? {
      WalkItems(NextOf(w, input, lineLen).0, input, lineLen, fuel - 1);
    }
  }

  // ---------------------------------------------------------------------
  // part1

  function Indices(items: seq<Item>): (s: set<nat>)
    ensures forall k :: 0 <= k < |items| ==> items[k].1 in s
    ensures forall i :: i in s ==> exists k :: 0 <= k < |items| && items[k].1 == i
  {
    set k | 0 <= k < |items| :: items[k].1
  }

  /** `sorted().dedup().count()`: the number of distinct indices. */
  function Distinct(items: seq<Item>): nat {
    |Indices(items)|
  }

  /** The number of distinct indices the walk yields, if it ends within
      `fuel` steps: at most the number of items yielded, and at most the
      size of the map. */
  function Part1(input: seq<byte>, fuel: nat): (r: Option<nat>)
    requires input != [] && CARET in input
    ensures r.Some? <==> Walk(Start(input), input, LineLen(input), fuel).Some?
    ensures r.Some? ==> r.value <= |Walk(Start(input), input, LineLen(input), fuel).value| && r.value <= |input|
  {
    match Walk(Start(input), input, LineLen(input), fuel)
    case None => None
    case Some(items) =>
      WalkItems(Start(input), input, LineLen(input), fuel);
      DistinctAtMostItems(items);
      BoundedSet(Indices(items), |input|);
      Some(Distinct(items))
  }

  lemma {:induction false} DistinctAtMostItems(items: seq<Item>)
    ensures Distinct(items) <= |items|
  {
    if items != [] {
      var rest := items[1..];
      DistinctAtMostItems(rest);
      assert Indices(items) == {items[0].1} + Indices(rest) by {
        forall i | i in Indices(items) ensures i in {items[0].1} + Indices(rest) {
          var k :| 0 <= k < |items| && items[k].1 == i;
          if k > 0 { assert rest[k - 1].1 == i; }
        }
      }
    }
  }

  lemma {:induction false} BoundedSet(s: set<nat>, n: nat)
    requires forall i :: i in s ==> i < n
    ensures |s| <= n
  {
    if n > 0 {
      BoundedSet(s - {n - 1}, n - 1);
    } else {
      assert s == {};
    }
  }

  /** A walk that ends starts on the '^', and that cell is counted. */
  lemma Part1Counts(input: seq<byte>, fuel: nat)
    requires input != [] && CARET in input
    requires Part1(input, fuel).Some?
    ensures var items := Walk(Start(input), input, LineLen(input), fuel).value;
      && items != [] && items[0] == (CARET, IndexOf(input, CARET))
      && Part1(input, fuel).value >= 1
  {
    var items := Walk(Start(input), input, LineLen(input), fuel).value;
    WalkItems(Start(input), input, LineLen(input), fuel);
    assert items[0].1 in Indices(items);
  }

  /** Every index the walk yields lies inside the buffer and holds the
      byte yielded with it, which is never a '#'. */
  lemma WalkAvoidsObstacles(input: seq<byte>, fuel: nat)
    requires input != [] && CARET in input
    requires Part1(input, fuel).Some?
    ensures var items := Walk(Start(input), input, LineLen(input), fuel).value;
      forall k :: 0 <= k < |items| ==> items[k].1 < |input| && items[k].0 == input[items[k].1] && items[k].0 != HASH
  {
    WalkItems(Start(input), input, LineLen(input), fuel);
  }

  // ---------------------------------------------------------------------
  // Traverser

  class Traverser {
    var nextItem: Option<Item>
    const lineLen: nat
    var direction: Direction
    var moveAmt: int
    var currentIdx: nat
    const input: seq<byte>

    function CurrentPose(): Pose
      reads this
    {
      Pose(direction, moveAmt, currentIdx)
    }

    function State(): Walker
      reads this
    {
      Walker(nextItem, CurrentPose())
    }

    predicate Valid()
      reads this
    {
      WalkerOk(State(), input, lineLen)
    }

    /** Lines 46-61: the input must hold a first line and a '^'. */
    constructor (input: seq<byte>)
      requires input != [] && CARET in input
      ensures Valid()
      ensures this.input == input && lineLen == LineLen(input)
      ensures State() == Start(input)
    {
      var k := IndexOf(input, NL);
      var first := if k < |input| && k > 0 && input[k - 1] == CR then k - 1 else k;
      var len := first + 1;
      var location := IndexOf(input, CARET);
      var moveVec := GetVec(Up, len);
      direction := Up;
      moveAmt := moveVec.0 + moveVec.1;
      currentIdx := location;
      lineLen := len;
      this.input := input;
      nextItem := Some((input[location], location));
    }

    /** Lines 63-94. */
    method Progress() returns (r: Option<Item>)
      requires Valid()
      modifies this
      ensures Valid()
      ensures nextItem == old(nextItem)
      ensures (CurrentPose(), r) == ProgressOf(old(CurrentPose()), input, lineLen)
    {
      ghost var p := CurrentPose();
      var newIdx := currentIdx + moveAmt;
      if newIdx < 0 || newIdx >= |input| {
        return None;
      }
      var next := input[newIdx];
      if next == NL {
        return None;
      } else if next == HASH {
        FourMovesCancel(direction, lineLen);
        assert ProgressOf(p, input, lineLen) == TurnLoop(p, newIdx, input, lineLen, p.currentIdx, 0);
        r := TurnWhileBlocked(newIdx);
      } else {
        currentIdx := newIdx;
        return Some((next, newIdx));
      }
    }

    /** Lines 72-86: turn and step while the byte landed on is '#'. */
    method TurnWhileBlocked(newIdx: nat) returns (r: Option<Item>)
      requires moveAmt == MoveAmt(direction, lineLen)
      requires currentIdx < |input| && input[currentIdx] != HASH
      requires newIdx < |input| && newIdx == currentIdx + moveAmt && input[newIdx] == HASH
      requires currentIdx + Ahead(direction, 4, lineLen) == currentIdx
      modifies this
      ensures nextItem == old(nextItem)
      ensures (CurrentPose(), r) == TurnLoop(old(CurrentPose()), newIdx, input, lineLen, old(currentIdx), 0)
    {
      ghost var p0 := CurrentPose();
      ghost var origin := currentIdx;
      ghost var turns := 0;
      ghost var res := TurnLoop(p0, newIdx, input, lineLen, origin, 0);
      var idx := newIdx;
      var next := input[idx];
      while next == HASH
        invariant Turning(CurrentPose(), idx, input, lineLen, origin, turns)
        invariant TurnLoop(CurrentPose(), idx, input, lineLen, origin, turns) == res
        invariant nextItem == old(nextItem)
        invariant next == input[idx]
        invariant turns == 0 ==> next == HASH
        decreases 4 - turns
      {
        ghost var p := CurrentPose();
        ghost var i0 := idx;
        direction := Rotate(direction);
        var moveVec := GetVec(direction, lineLen);
        moveAmt := moveVec.0 + moveVec.1;
        var n := currentIdx + moveAmt;
        if n < 0 || n >= |input| {
          TurnOut(p, idx, input, lineLen, origin, turns, CurrentPose());
          return None;
        }
        idx := n;
        next := input[idx];
        currentIdx := idx;
        ghost var q := Pose(direction, moveAmt, currentIdx);
        assert CurrentPose() == q;
        TurnOn(p, i0, input, lineLen, origin, turns, q);
        turns := turns + 1;
      }
      TurnDone(CurrentPose(), idx, input, lineLen, origin, turns);
      return Some((next, idx));
    }

    /** Lines 107-111. */
    method Next() returns (item: Option<Item>)
      requires Valid()
      modifies this
      ensures Valid()
      ensures State() == NextOf(old(State()), input, lineLen).0
      ensures item == old(nextItem) && item == NextOf(old(State()), input, lineLen).1
    {
      item := nextItem;
      nextItem := Progress();
    }
  }

  /** The indices `traverse().map(|(_, idx)| idx)` collects, as long as the
      walk ends within `fuel` calls. */
  method Collect(input: seq<byte>, fuel: nat) returns (r: Option<seq<Item>>)
    requires input != [] && CARET in input
    ensures r == Walk(Start(input), input, LineLen(input), fuel)
  {
    var t := new Traverser(input);
    var items: seq<Item> := [];
    var left: nat := fuel;
    ghost var lineLen := t.lineLen;
    ghost var w := t.State();
    ghost var total := Walk(w, input, lineLen, fuel);
    assert Prepend([], total) == total by {
      if total.Some? {
        assert [] + total.value == total.value;
      }
    }
    while true
      invariant t.Valid() && t.input == input && t.lineLen == lineLen
      invariant w == t.State() && WalkerOk(w, input, lineLen)
      invariant total == Prepend(items, Walk(w, input, lineLen, left))
      decreases left
    {
      if t.nextItem.None? {
        assert items + [] == items;
        return Some(items);
      }
      if left == 0 {
        return None;
      }
      ghost var before := w;
      var item := t.Next();
      w := t.State();
      WalkAfterNext(items, before, w, input, lineLen, left);
      items := items + [item.value];
      left := left - 1;
    }
  }
}
