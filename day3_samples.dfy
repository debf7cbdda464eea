/**
 * The two sample inputs of the day 3 tests (src/day3.rs:160-163, 171, 181),
 * as bytes, a few to a row with the text they spell. The scanner is
 * followed through each row, and the rows are put together with
 * `RunFromAppend`.
 */
module Day3Samples {
  import opened Text
  import opened Day3

  const ROW_0: seq<byte> := [120, 109, 117, 108]  // xmul
  const ROW_1: seq<byte> := [40, 50, 44, 52]  // (2,4
  const ROW_2: seq<byte> := [41, 37, 38, 109]  // )%&m
  const ROW_3: seq<byte> := [117, 108, 91, 51]  // ul[3
  const ROW_4: seq<byte> := [44, 55, 93, 33]  // ,7]!
  const ROW_5: seq<byte> := [64, 94, 100, 111]  // @^do
  const ROW_6: seq<byte> := [95, 110, 111, 116]  // _not
  const ROW_7: seq<byte> := [95, 109, 117, 108]  // _mul
  const ROW_8: seq<byte> := [40, 53, 44, 53]  // (5,5
  const ROW_9: seq<byte> := [41, 43, 109, 117]  // )+mu
  const ROW_10: seq<byte> := [108, 40, 51, 50]  // l(32
  const ROW_11: seq<byte> := [44, 54, 52, 93]  // ,64]
  const ROW_12: seq<byte> := [116, 104, 101, 110]  // then
  const ROW_13: seq<byte> := [40, 109, 117, 108]  // (mul
  const ROW_14: seq<byte> := [40, 49, 49, 44]  // (11,
  const ROW_15: seq<byte> := [56, 41, 109, 117]  // 8)mu
  const ROW_16: seq<byte> := [108, 40, 56, 44]  // l(8,
  const ROW_17: seq<byte> := [53, 41, 41]  // 5))

  /** "xmul(2,4)%&mul[3,7]!@^do_not_mul(5,5)+mul(32,64]then(mul(11,8)mul(8,5))" */
  const SAMPLE_INPUT: seq<byte> :=
    ROW_0 + ROW_1 + ROW_2 + ROW_3 + ROW_4 + ROW_5 + ROW_6 + ROW_7 + ROW_8 + ROW_9 + ROW_10 + ROW_11 + ROW_12 + ROW_13 + ROW_14 + ROW_15 + ROW_16 + ROW_17

  lemma SampleRow0a()
    ensures RunFrom(Scanner([0, 0, 0], [0, 0, 0], 0, 0, false, false, 0, 0, true, false), [120, 109], false) == Scanner([0, 0, 0], [0, 0, 0], 0, 0, true, false, 109, 0, true, false)
  {
    var bs := [120, 109];
    assert bs[1..][0] == 109 && bs[1..][1..] == bs[2..];
    assert Step(Scanner([0, 0, 0], [0, 0, 0], 0, 0, false, false, 120, 0, true, false), 109, false) == Scanner([0, 0, 0], [0, 0, 0], 0, 0, true, false, 109, 0, true, false);
    assert bs[0..][0] == 120 && bs[0..][1..] == bs[1..];
    assert Step(Scanner([0, 0, 0], [0, 0, 0], 0, 0, false, false, 0, 0, true, false), 120, false) == Scanner([0, 0, 0], [0, 0, 0], 0, 0, false, false, 120, 0, true, false);
  }

  lemma SampleRow0b()
    ensures RunFrom(Scanner([0, 0, 0], [0, 0, 0], 0, 0, true, false, 109, 0, true, false), [117, 108], false) == Scanner([0, 0, 0], [0, 0, 0], 0, 0, true, false, 108, 0, true, false)
  {
    var bs := [117, 108];
    assert bs[1..][0] == 108 && bs[1..][1..] == bs[2..];
    assert Step(Scanner([0, 0, 0], [0, 0, 0], 0, 0, true, false, 117, 0, true, false), 108, false) == Scanner([0, 0, 0], [0, 0, 0], 0, 0, true, false, 108, 0, true, false);
    assert bs[0..][0] == 117 && bs[0..][1..] == bs[1..];
    assert Step(Scanner([0, 0, 0], [0, 0, 0], 0, 0, true, false, 109, 0, true, false), 117, false) == Scanner([0, 0, 0], [0, 0, 0], 0, 0, true, false, 117, 0, true, false);
  }

  lemma SampleRow0()
    ensures RunFrom(Scanner([0, 0, 0], [0, 0, 0], 0, 0, false, false, 0, 0, true, false), ROW_0, false) == Scanner([0, 0, 0], [0, 0, 0], 0, 0, true, false, 108, 0, true, false)
  {
    SampleRow0a();
    SampleRow0b();
    RunFromAppend(Scanner([0, 0, 0], [0, 0, 0], 0, 0, false, false, 0, 0, true, false), [120, 109], [117, 108], false);
    assert ROW_0 == [120, 109] + [117, 108];
  }

  lemma SampleRow1a()
    ensures RunFrom(Scanner([0, 0, 0], [0, 0, 0], 0, 0, true, false, 108, 0, true, false), [40, 50], false) == Scanner([2, 0, 0], [0, 0, 0], 1, 0, true, false, 50, 0, true, false)
  {
    var bs := [40, 50];
    assert bs[1..][0] == 50 && bs[1..][1..] == bs[2..];
    assert Step(Scanner([0, 0, 0], [0, 0, 0], 0, 0, true, false, 40, 0, true, false), 50, false) == Scanner([2, 0, 0], [0, 0, 0], 1, 0, true, false, 50, 0, true, false);
    assert bs[0..][0] == 40 && bs[0..][1..] == bs[1..];
    assert Step(Scanner([0, 0, 0], [0, 0, 0], 0, 0, true, false, 108, 0, true, false), 40, false) == Scanner([0, 0, 0], [0, 0, 0], 0, 0, true, false, 40, 0, true, false);
  }

  lemma SampleRow1b()
    ensures RunFrom(Scanner([2, 0, 0], [0, 0, 0], 1, 0, true, false, 50, 0, true, false), [44, 52], false) == Scanner([2, 0, 0], [4, 0, 0], 1, 1, true, true, 52, 0, true, false)
  {
    var bs := [44, 52];
    assert bs[1..][0] == 52 && bs[1..][1..] == bs[2..];
    assert Step(Scanner([2, 0, 0], [0, 0, 0], 1, 0, true, false, 44, 0, true, false), 52, false) == Scanner([2, 0, 0], [4, 0, 0], 1, 1, true, true, 52, 0, true, false);
    assert bs[0..][0] == 44 && bs[0..][1..] == bs[1..];
    assert Step(Scanner([2, 0, 0], [0, 0, 0], 1, 0, true, false, 50, 0, true, false), 44, false) == Scanner([2, 0, 0], [0, 0, 0], 1, 0, true, false, 44, 0, true, false);
  }

  lemma SampleRow1()
    ensures RunFrom(Scanner([0, 0, 0], [0, 0, 0], 0, 0, true, false, 108, 0, true, false), ROW_1, false) == Scanner([2, 0, 0], [4, 0, 0], 1, 1, true, true, 52, 0, true, false)
  {
    SampleRow1a();
    SampleRow1b();
    RunFromAppend(Scanner([0, 0, 0], [0, 0, 0], 0, 0, true, false, 108, 0, true, false), [40, 50], [44, 52], false);
    assert ROW_1 == [40, 50] + [44, 52];
  }

  lemma SampleRow2a()
    ensures RunFrom(Scanner([2, 0, 0], [4, 0, 0], 1, 1, true, true, 52, 0, true, false), [41, 37], false) == Scanner([2, 0, 0], [4, 0, 0], 0, 0, false, false, 37, 8, true, false)
  {
    var bs := [41, 37];
    assert bs[1..][0] == 37 && bs[1..][1..] == bs[2..];
    assert Step(Scanner([2, 0, 0], [4, 0, 0], 0, 0, false, false, 41, 8, true, false), 37, false) == Scanner([2, 0, 0], [4, 0, 0], 0, 0, false, false, 37, 8, true, false);
    assert bs[0..][0] == 41 && bs[0..][1..] == bs[1..];
    assert Step(Scanner([2, 0, 0], [4, 0, 0], 1, 1, true, true, 52, 0, true, false), 41, false) == Scanner([2, 0, 0], [4, 0, 0], 0, 0, false, false, 41, 8, true, false);
  }

  lemma SampleRow2b()
    ensures RunFrom(Scanner([2, 0, 0], [4, 0, 0], 0, 0, false, false, 37, 8, true, false), [38, 109], false) == Scanner([2, 0, 0], [4, 0, 0], 0, 0, true, false, 109, 8, true, false)
  {
    var bs := [38, 109];
    assert bs[1..][0] == 109 && bs[1..][1..] == bs[2..];
    assert Step(Scanner([2, 0, 0], [4, 0, 0], 0, 0, false, false, 38, 8, true, false), 109, false) == Scanner([2, 0, 0], [4, 0, 0], 0, 0, true, false, 109, 8, true, false);
    assert bs[0..][0] == 38 && bs[0..][1..] == bs[1..];
    assert Step(Scanner([2, 0, 0], [4, 0, 0], 0, 0, false, false, 37, 8, true, false), 38, false) == Scanner([2, 0, 0], [4, 0, 0], 0, 0, false, false, 38, 8, true, false);
  }

  lemma SampleRow2()
    ensures RunFrom(Scanner([2, 0, 0], [4, 0, 0], 1, 1, true, true, 52, 0, true, false), ROW_2, false) == Scanner([2, 0, 0], [4, 0, 0], 0, 0, true, false, 109, 8, true, false)
  {
    SampleRow2a();
    SampleRow2b();
    RunFromAppend(Scanner([2, 0, 0], [4, 0, 0], 1, 1, true, true, 52, 0, true, false), [41, 37], [38, 109], false);
    assert ROW_2 == [41, 37] + [38, 109];
  }

  lemma SampleRow3a()
    ensures RunFrom(Scanner([2, 0, 0], [4, 0, 0], 0, 0, true, false, 109, 8, true, false), [117, 108], false) == Scanner([2, 0, 0], [4, 0, 0], 0, 0, true, false, 108, 8, true, false)
  {
    var bs := [117, 108];
    assert bs[1..][0] == 108 && bs[1..][1..] == bs[2..];
    assert Step(Scanner([2, 0, 0], [4, 0, 0], 0, 0, true, false, 117, 8, true, false), 108, false) == Scanner([2, 0, 0], [4, 0, 0], 0, 0, true, false, 108, 8, true, false);
    assert bs[0..][0] == 117 && bs[0..][1..] == bs[1..];
    assert Step(Scanner([2, 0, 0], [4, 0, 0], 0, 0, true, false, 109, 8, true, false), 117, false) == Scanner([2, 0, 0], [4, 0, 0], 0, 0, true, false, 117, 8, true, false);
  }

  lemma SampleRow3b()
    ensures RunFrom(Scanner([2, 0, 0], [4, 0, 0], 0, 0, true, false, 108, 8, true, false), [91, 51], false) == Scanner([2, 0, 0], [4, 0, 0], 0, 0, false, false, 51, 8, true, false)
  {
    var bs := [91, 51];
    assert bs[1..][0] == 51 && bs[1..][1..] == bs[2..];
    assert Step(Scanner([2, 0, 0], [4, 0, 0], 0, 0, false, false, 91, 8, true, false), 51, false) == Scanner([2, 0, 0], [4, 0, 0], 0, 0, false, false, 51, 8, true, false);
    assert bs[0..][0] == 91 && bs[0..][1..] == bs[1..];
    assert Step(Scanner([2, 0, 0], [4, 0, 0], 0, 0, true, false, 108, 8, true, false), 91, false) == Scanner([2, 0, 0], [4, 0, 0], 0, 0, false, false, 91, 8, true, false);
  }

  lemma SampleRow3()
    ensures RunFrom(Scanner([2, 0, 0], [4, 0, 0], 0, 0, true, false, 109, 8, true, false), ROW_3, false) == Scanner([2, 0, 0], [4, 0, 0], 0, 0, false, false, 51, 8, true, false)
  {
    SampleRow3a();
    SampleRow3b();
    RunFromAppend(Scanner([2, 0, 0], [4, 0, 0], 0, 0, true, false, 109, 8, true, false), [117, 108], [91, 51], false);
    assert ROW_3 == [117, 108] + [91, 51];
  }

  lemma SampleRow4a()
    ensures RunFrom(Scanner([2, 0, 0], [4, 0, 0], 0, 0, false, false, 51, 8, true, false), [44, 55], false) == Scanner([2, 0, 0], [4, 0, 0], 0, 0, false, false, 55, 8, true, false)
  {
    var bs := [44, 55];
    assert bs[1..][0] == 55 && bs[1..][1..] == bs[2..];
    assert Step(Scanner([2, 0, 0], [4, 0, 0], 0, 0, false, false, 44, 8, true, false), 55, false) == Scanner([2, 0, 0], [4, 0, 0], 0, 0, false, false, 55, 8, true, false);
    assert bs[0..][0] == 44 && bs[0..][1..] == bs[1..];
    assert Step(Scanner([2, 0, 0], [4, 0, 0], 0, 0, false, false, 51, 8, true, false), 44, false) == Scanner([2, 0, 0], [4, 0, 0], 0, 0, false, false, 44, 8, true, false);
  }

  lemma SampleRow4b()
    ensures RunFrom(Scanner([2, 0, 0], [4, 0, 0], 0, 0, false, false, 55, 8, true, false), [93, 33], false) == Scanner([2, 0, 0], [4, 0, 0], 0, 0, false, false, 33, 8, true, false)
  {
    var bs := [93, 33];
    assert bs[1..][0] == 33 && bs[1..][1..] == bs[2..];
    assert Step(Scanner([2, 0, 0], [4, 0, 0], 0, 0, false, false, 93, 8, true, false), 33, false) == Scanner([2, 0, 0], [4, 0, 0], 0, 0, false, false, 33, 8, true, false);
    assert bs[0..][0] == 93 && bs[0..][1..] == bs[1..];
    assert Step(Scanner([2, 0, 0], [4, 0, 0], 0, 0, false, false, 55, 8, true, false), 93, false) == Scanner([2, 0, 0], [4, 0, 0], 0, 0, false, false, 93, 8, true, false);
  }

  lemma SampleRow4()
    ensures RunFrom(Scanner([2, 0, 0], [4, 0, 0], 0, 0, false, false, 51, 8, true, false), ROW_4, false) == Scanner([2, 0, 0], [4, 0, 0], 0, 0, false, false, 33, 8, true, false)
  {
    SampleRow4a();
    SampleRow4b();
    RunFromAppend(Scanner([2, 0, 0], [4, 0, 0], 0, 0, false, false, 51, 8, true, false), [44, 55], [93, 33], false);
    assert ROW_4 == [44, 55] + [93, 33];
  }

  lemma SampleRow5a()
    ensures RunFrom(Scanner([2, 0, 0], [4, 0, 0], 0, 0, false, false, 33, 8, true, false), [64, 94], false) == Scanner([2, 0, 0], [4, 0, 0], 0, 0, false, false, 94, 8, true, false)
  {
    var bs := [64, 94];
    assert bs[1..][0] == 94 && bs[1..][1..] == bs[2..];
    assert Step(Scanner([2, 0, 0], [4, 0, 0], 0, 0, false, false, 64, 8, true, false), 94, false) == Scanner([2, 0, 0], [4, 0, 0], 0, 0, false, false, 94, 8, true, false);
    assert bs[0..][0] == 64 && bs[0..][1..] == bs[1..];
    assert Step(Scanner([2, 0, 0], [4, 0, 0], 0, 0, false, false, 33, 8, true, false), 64, false) == Scanner([2, 0, 0], [4, 0, 0], 0, 0, false, false, 64, 8, true, false);
  }

  lemma SampleRow5b()
    ensures RunFrom(Scanner([2, 0, 0], [4, 0, 0], 0, 0, false, false, 94, 8, true, false), [100, 111], false) == Scanner([2, 0, 0], [4, 0, 0], 0, 0, false, false, 111, 8, true, true)
  {
    var bs := [100, 111];
    assert bs[1..][0] == 111 && bs[1..][1..] == bs[2..];
    assert Step(Scanner([2, 0, 0], [4, 0, 0], 0, 0, false, false, 100, 8, true, false), 111, false) == Scanner([2, 0, 0], [4, 0, 0], 0, 0, false, false, 111, 8, true, true);
    assert bs[0..][0] == 100 && bs[0..][1..] == bs[1..];
    assert Step(Scanner([2, 0, 0], [4, 0, 0], 0, 0, false, false, 94, 8, true, false), 100, false) == Scanner([2, 0, 0], [4, 0, 0], 0, 0, false, false, 100, 8, true, false);
  }

  lemma SampleRow5()
    ensures RunFrom(Scanner([2, 0, 0], [4, 0, 0], 0, 0, false, false, 33, 8, true, false), ROW_5, false) == Scanner([2, 0, 0], [4, 0, 0], 0, 0, false, false, 111, 8, true, true)
  {
    SampleRow5a();
    SampleRow5b();
    RunFromAppend(Scanner([2, 0, 0], [4, 0, 0], 0, 0, false, false, 33, 8, true, false), [64, 94], [100, 111], false);
    assert ROW_5 == [64, 94] + [100, 111];
  }

  lemma SampleRow6a()
    ensures RunFrom(Scanner([2, 0, 0], [4, 0, 0], 0, 0, false, false, 111, 8, true, true), [95, 110], false) == Scanner([2, 0, 0], [4, 0, 0], 0, 0, false, false, 110, 8, true, false)
  {
    var bs := [95, 110];
    assert bs[1..][0] == 110 && bs[1..][1..] == bs[2..];
    assert Step(Scanner([2, 0, 0], [4, 0, 0], 0, 0, false, false, 95, 8, true, false), 110, false) == Scanner([2, 0, 0], [4, 0, 0], 0, 0, false, false, 110, 8, true, false);
    assert bs[0..][0] == 95 && bs[0..][1..] == bs[1..];
    assert Step(Scanner([2, 0, 0], [4, 0, 0], 0, 0, false, false, 111, 8, true, true), 95, false) == Scanner([2, 0, 0], [4, 0, 0], 0, 0, false, false, 95, 8, true, false);
  }

  lemma SampleRow6b()
    ensures RunFrom(Scanner([2, 0, 0], [4, 0, 0], 0, 0, false, false, 110, 8, true, false), [111, 116], false) == Scanner([2, 0, 0], [4, 0, 0], 0, 0, false, false, 116, 8, true, false)
  {
    var bs := [111, 116];
    assert bs[1..][0] == 116 && bs[1..][1..] == bs[2..];
    assert Step(Scanner([2, 0, 0], [4, 0, 0], 0, 0, false, false, 111, 8, true, false), 116, false) == Scanner([2, 0, 0], [4, 0, 0], 0, 0, false, false, 116, 8, true, false);
    assert bs[0..][0] == 111 && bs[0..][1..] == bs[1..];
    assert Step(Scanner([2, 0, 0], [4, 0, 0], 0, 0, false, false, 110, 8, true, false), 111, false) == Scanner([2, 0, 0], [4, 0, 0], 0, 0, false, false, 111, 8, true, false);
  }

  lemma SampleRow6()
    ensures RunFrom(Scanner([2, 0, 0], [4, 0, 0], 0, 0, false, false, 111, 8, true, true), ROW_6, false) == Scanner([2, 0, 0], [4, 0, 0], 0, 0, false, false, 116, 8, true, false)
  {
    SampleRow6a();
    SampleRow6b();
    RunFromAppend(Scanner([2, 0, 0], [4, 0, 0], 0, 0, false, false, 111, 8, true, true), [95, 110], [111, 116], false);
    assert ROW_6 == [95, 110] + [111, 116];
  }

  lemma SampleRow7a()
    ensures RunFrom(Scanner([2, 0, 0], [4, 0, 0], 0, 0, false, false, 116, 8, true, false), [95, 109], false) == Scanner([2, 0, 0], [4, 0, 0], 0, 0, true, false, 109, 8, true, false)
  {
    var bs := [95, 109];
    assert bs[1..][0] == 109 && bs[1..][1..] == bs[2..];
    assert Step(Scanner([2, 0, 0], [4, 0, 0], 0, 0, false, false, 95, 8, true, false), 109, false) == Scanner([2, 0, 0], [4, 0, 0], 0, 0, true, false, 109, 8, true, false);
    assert bs[0..][0] == 95 && bs[0..][1..] == bs[1..];
    assert Step(Scanner([2, 0, 0], [4, 0, 0], 0, 0, false, false, 116, 8, true, false), 95, false) == Scanner([2, 0, 0], [4, 0, 0], 0, 0, false, false, 95, 8, true, false);
  }

  lemma SampleRow7b()
    ensures RunFrom(Scanner([2, 0, 0], [4, 0, 0], 0, 0, true, false, 109, 8, true, false), [117, 108], false) == Scanner([2, 0, 0], [4, 0, 0], 0, 0, true, false, 108, 8, true, false)
  {
    var bs := [117, 108];
    assert bs[1..][0] == 108 && bs[1..][1..] == bs[2..];
    assert Step(Scanner([2, 0, 0], [4, 0, 0], 0, 0, true, false, 117, 8, true, false), 108, false) == Scanner([2, 0, 0], [4, 0, 0], 0, 0, true, false, 108, 8, true, false);
    assert bs[0..][0] == 117 && bs[0..][1..] == bs[1..];
    assert Step(Scanner([2, 0, 0], [4, 0, 0], 0, 0, true, false, 109, 8, true, false), 117, false) == Scanner([2, 0, 0], [4, 0, 0], 0, 0, true, false, 117, 8, true, false);
  }

  lemma SampleRow7()
    ensures RunFrom(Scanner([2, 0, 0], [4, 0, 0], 0, 0, false, false, 116, 8, true, false), ROW_7, false) == Scanner([2, 0, 0], [4, 0, 0], 0, 0, true, false, 108, 8, true, false)
  {
    SampleRow7a();
    SampleRow7b();
    RunFromAppend(Scanner([2, 0, 0], [4, 0, 0], 0, 0, false, false, 116, 8, true, false), [95, 109], [117, 108], false);
    assert ROW_7 == [95, 109] + [117, 108];
  }

  lemma SampleRow8a()
    ensures RunFrom(Scanner([2, 0, 0], [4, 0, 0], 0, 0, true, false, 108, 8, true, false), [40, 53], false) == Scanner([5, 0, 0], [4, 0, 0], 1, 0, true, false, 53, 8, true, false)
  {
    var bs := [40, 53];
    assert bs[1..][0] == 53 && bs[1..][1..] == bs[2..];
    assert Step(Scanner([2, 0, 0], [4, 0, 0], 0, 0, true, false, 40, 8, true, false), 53, false) == Scanner([5, 0, 0], [4, 0, 0], 1, 0, true, false, 53, 8, true, false);
    assert bs[0..][0] == 40 && bs[0..][1..] == bs[1..];
    assert Step(Scanner([2, 0, 0], [4, 0, 0], 0, 0, true, false, 108, 8, true, false), 40, false) == Scanner([2, 0, 0], [4, 0, 0], 0, 0, true, false, 40, 8, true, false);
  }

  lemma SampleRow8b()
    ensures RunFrom(Scanner([5, 0, 0], [4, 0, 0], 1, 0, true, false, 53, 8, true, false), [44, 53], false) == Scanner([5, 0, 0], [5, 0, 0], 1, 1, true, true, 53, 8, true, false)
  {
    var bs := [44, 53];
    assert bs[1..][0] == 53 && bs[1..][1..] == bs[2..];
    assert Step(Scanner([5, 0, 0], [4, 0, 0], 1, 0, true, false, 44, 8, true, false), 53, false) == Scanner([5, 0, 0], [5, 0, 0], 1, 1, true, true, 53, 8, true, false);
    assert bs[0..][0] == 44 && bs[0..][1..] == bs[1..];
    assert Step(Scanner([5, 0, 0], [4, 0, 0], 1, 0, true, false, 53, 8, true, false), 44, false) == Scanner([5, 0, 0], [4, 0, 0], 1, 0, true, false, 44, 8, true, false);
  }

  lemma SampleRow8()
    ensures RunFrom(Scanner([2, 0, 0], [4, 0, 0], 0, 0, true, false, 108, 8, true, false), ROW_8, false) == Scanner([5, 0, 0], [5, 0, 0], 1, 1, true, true, 53, 8, true, false)
  {
    SampleRow8a();
    SampleRow8b();
    RunFromAppend(Scanner([2, 0, 0], [4, 0, 0], 0, 0, true, false, 108, 8, true, false), [40, 53], [44, 53], false);
    assert ROW_8 == [40, 53] + [44, 53];
  }

  lemma SampleRow9a()
    ensures RunFrom(Scanner([5, 0, 0], [5, 0, 0], 1, 1, true, true, 53, 8, true, false), [41, 43], false) == Scanner([5, 0, 0], [5, 0, 0], 0, 0, false, false, 43, 33, true, false)
  {
    var bs := [41, 43];
    assert bs[1..][0] == 43 && bs[1..][1..] == bs[2..];
    assert Step(Scanner([5, 0, 0], [5, 0, 0], 0, 0, false, false, 41, 33, true, false), 43, false) == Scanner([5, 0, 0], [5, 0, 0], 0, 0, false, false, 43, 33, true, false);
    assert bs[0..][0] == 41 && bs[0..][1..] == bs[1..];
    assert Step(Scanner([5, 0, 0], [5, 0, 0], 1, 1, true, true, 53, 8, true, false), 41, false) == Scanner([5, 0, 0], [5, 0, 0], 0, 0, false, false, 41, 33, true, false);
  }

  lemma SampleRow9b()
    ensures RunFrom(Scanner([5, 0, 0], [5, 0, 0], 0, 0, false, false, 43, 33, true, false), [109, 117], false) == Scanner([5, 0, 0], [5, 0, 0], 0, 0, true, false, 117, 33, true, false)
  {
    var bs := [109, 117];
    assert bs[1..][0] == 117 && bs[1..][1..] == bs[2..];
    assert Step(Scanner([5, 0, 0], [5, 0, 0], 0, 0, true, false, 109, 33, true, false), 117, false) == Scanner([5, 0, 0], [5, 0, 0], 0, 0, true, false, 117, 33, true, false);
    assert bs[0..][0] == 109 && bs[0..][1..] == bs[1..];
    assert Step(Scanner([5, 0, 0], [5, 0, 0], 0, 0, false, false, 43, 33, true, false), 109, false) == Scanner([5, 0, 0], [5, 0, 0], 0, 0, true, false, 109, 33, true, false);
  }

  lemma SampleRow9()
    ensures RunFrom(Scanner([5, 0, 0], [5, 0, 0], 1, 1, true, true, 53, 8, true, false), ROW_9, false) == Scanner([5, 0, 0], [5, 0, 0], 0, 0, true, false, 117, 33, true, false)
  {
    SampleRow9a();
    SampleRow9b();
    RunFromAppend(Scanner([5, 0, 0], [5, 0, 0], 1, 1, true, true, 53, 8, true, false), [41, 43], [109, 117], false);
    assert ROW_9 == [41, 43] + [109, 117];
  }

  lemma SampleRow10a()
    ensures RunFrom(Scanner([5, 0, 0], [5, 0, 0], 0, 0, true, false, 117, 33, true, false), [108, 40], false) == Scanner([5, 0, 0], [5, 0, 0], 0, 0, true, false, 40, 33, true, false)
  {
    var bs := [108, 40];
    assert bs[1..][0] == 40 && bs[1..][1..] == bs[2..];
    assert Step(Scanner([5, 0, 0], [5, 0, 0], 0, 0, true, false, 108, 33, true, false), 40, false) == Scanner([5, 0, 0], [5, 0, 0], 0, 0, true, false, 40, 33, true, false);
    assert bs[0..][0] == 108 && bs[0..][1..] == bs[1..];
    assert Step(Scanner([5, 0, 0], [5, 0, 0], 0, 0, true, false, 117, 33, true, false), 108, false) == Scanner([5, 0, 0], [5, 0, 0], 0, 0, true, false, 108, 33, true, false);
  }

  lemma SampleRow10b()
    ensures RunFrom(Scanner([5, 0, 0], [5, 0, 0], 0, 0, true, false, 40, 33, true, false), [51, 50], false) == Scanner([3, 2, 0], [5, 0, 0], 2, 0, true, false, 50, 33, true, false)
  {
    var bs := [51, 50];
    assert bs[1..][0] == 50 && bs[1..][1..] == bs[2..];
    assert Step(Scanner([3, 0, 0], [5, 0, 0], 1, 0, true, false, 51, 33, true, false), 50, false) == Scanner([3, 2, 0], [5, 0, 0], 2, 0, true, false, 50, 33, true, false);
    assert bs[0..][0] == 51 && bs[0..][1..] == bs[1..];
    assert Step(Scanner([5, 0, 0], [5, 0, 0], 0, 0, true, false, 40, 33, true, false), 51, false) == Scanner([3, 0, 0], [5, 0, 0], 1, 0, true, false, 51, 33, true, false);
  }

  lemma SampleRow10()
    ensures RunFrom(Scanner([5, 0, 0], [5, 0, 0], 0, 0, true, false, 117, 33, true, false), ROW_10, false) == Scanner([3, 2, 0], [5, 0, 0], 2, 0, true, false, 50, 33, true, false)
  {
    SampleRow10a();
    SampleRow10b();
    RunFromAppend(Scanner([5, 0, 0], [5, 0, 0], 0, 0, true, false, 117, 33, true, false), [108, 40], [51, 50], false);
    assert ROW_10 == [108, 40] + [51, 50];
  }

  lemma SampleRow11a()
    ensures RunFrom(Scanner([3, 2, 0], [5, 0, 0], 2, 0, true, false, 50, 33, true, false), [44, 54], false) == Scanner([3, 2, 0], [6, 0, 0], 2, 1, true, true, 54, 33, true, false)
  {
    var bs := [44, 54];
    assert bs[1..][0] == 54 && bs[1..][1..] == bs[2..];
    assert Step(Scanner([3, 2, 0], [5, 0, 0], 2, 0, true, false, 44, 33, true, false), 54, false) == Scanner([3, 2, 0], [6, 0, 0], 2, 1, true, true, 54, 33, true, false);
    assert bs[0..][0] == 44 && bs[0..][1..] == bs[1..];
    assert Step(Scanner([3, 2, 0], [5, 0, 0], 2, 0, true, false, 50, 33, true, false), 44, false) == Scanner([3, 2, 0], [5, 0, 0], 2, 0, true, false, 44, 33, true, false);
  }

  lemma SampleRow11b()
    ensures RunFrom(Scanner([3, 2, 0], [6, 0, 0], 2, 1, true, true, 54, 33, true, false), [52, 93], false) == Scanner([3, 2, 0], [6, 4, 0], 2, 2, false, true, 93, 33, true, false)
  {
    var bs := [52, 93];
    assert bs[1..][0] == 93 && bs[1..][1..] == bs[2..];
    assert Step(Scanner([3, 2, 0], [6, 4, 0], 2, 2, true, true, 52, 33, true, false), 93, false) == Scanner([3, 2, 0], [6, 4, 0], 2, 2, false, true, 93, 33, true, false);
    assert bs[0..][0] == 52 && bs[0..][1..] == bs[1..];
    assert Step(Scanner([3, 2, 0], [6, 0, 0], 2, 1, true, true, 54, 33, true, false), 52, false) == Scanner([3, 2, 0], [6, 4, 0], 2, 2, true, true, 52, 33, true, false);
  }

  lemma SampleRow11()
    ensures RunFrom(Scanner([3, 2, 0], [5, 0, 0], 2, 0, true, false, 50, 33, true, false), ROW_11, false) == Scanner([3, 2, 0], [6, 4, 0], 2, 2, false, true, 93, 33, true, false)
  {
    SampleRow11a();
    SampleRow11b();
    RunFromAppend(Scanner([3, 2, 0], [5, 0, 0], 2, 0, true, false, 50, 33, true, false), [44, 54], [52, 93], false);
    assert ROW_11 == [44, 54] + [52, 93];
  }

  lemma SampleRow12a()
    ensures RunFrom(Scanner([3, 2, 0], [6, 4, 0], 2, 2, false, true, 93, 33, true, false), [116, 104], false) == Scanner([3, 2, 0], [6, 4, 0], 0, 0, false, true, 104, 33, true, false)
  {
    var bs := [116, 104];
    assert bs[1..][0] == 104 && bs[1..][1..] == bs[2..];
    assert Step(Scanner([3, 2, 0], [6, 4, 0], 0, 0, false, true, 116, 33, true, false), 104, false) == Scanner([3, 2, 0], [6, 4, 0], 0, 0, false, true, 104, 33, true, false);
    assert bs[0..][0] == 116 && bs[0..][1..] == bs[1..];
    assert Step(Scanner([3, 2, 0], [6, 4, 0], 2, 2, false, true, 93, 33, true, false), 116, false) == Scanner([3, 2, 0], [6, 4, 0], 0, 0, false, true, 116, 33, true, false);
  }

  lemma SampleRow12b()
    ensures RunFrom(Scanner([3, 2, 0], [6, 4, 0], 0, 0, false, true, 104, 33, true, false), [101, 110], false) == Scanner([3, 2, 0], [6, 4, 0], 0, 0, false, true, 110, 33, true, false)
  {
    var bs := [101, 110];
    assert bs[1..][0] == 110 && bs[1..][1..] == bs[2..];
    assert Step(Scanner([3, 2, 0], [6, 4, 0], 0, 0, false, true, 101, 33, true, false), 110, false) == Scanner([3, 2, 0], [6, 4, 0], 0, 0, false, true, 110, 33, true, false);
    assert bs[0..][0] == 101 && bs[0..][1..] == bs[1..];
    assert Step(Scanner([3, 2, 0], [6, 4, 0], 0, 0, false, true, 104, 33, true, false), 101, false) == Scanner([3, 2, 0], [6, 4, 0], 0, 0, false, true, 101, 33, true, false);
  }

  lemma SampleRow12()
    ensures RunFrom(Scanner([3, 2, 0], [6, 4, 0], 2, 2, false, true, 93, 33, true, false), ROW_12, false) == Scanner([3, 2, 0], [6, 4, 0], 0, 0, false, true, 110, 33, true, false)
  {
    SampleRow12a();
    SampleRow12b();
    RunFromAppend(Scanner([3, 2, 0], [6, 4, 0], 2, 2, false, true, 93, 33, true, false), [116, 104], [101, 110], false);
    assert ROW_12 == [116, 104] + [101, 110];
  }

  lemma SampleRow13a()
    ensures RunFrom(Scanner([3, 2, 0], [6, 4, 0], 0, 0, false, true, 110, 33, true, false), [40, 109], false) == Scanner([3, 2, 0], [6, 4, 0], 0, 0, true, true, 109, 33, true, false)
  {
    var bs := [40, 109];
    assert bs[1..][0] == 109 && bs[1..][1..] == bs[2..];
    assert Step(Scanner([3, 2, 0], [6, 4, 0], 0, 0, false, true, 40, 33, true, false), 109, false) == Scanner([3, 2, 0], [6, 4, 0], 0, 0, true, true, 109, 33, true, false);
    assert bs[0..][0] == 40 && bs[0..][1..] == bs[1..];
    assert Step(Scanner([3, 2, 0], [6, 4, 0], 0, 0, false, true, 110, 33, true, false), 40, false) == Scanner([3, 2, 0], [6, 4, 0], 0, 0, false, true, 40, 33, true, false);
  }

  lemma SampleRow13b()
    ensures RunFrom(Scanner([3, 2, 0], [6, 4, 0], 0, 0, true, true, 109, 33, true, false), [117, 108], false) == Scanner([3, 2, 0], [6, 4, 0], 0, 0, true, true, 108, 33, true, false)
  {
    var bs := [117, 108];
    assert bs[1..][0] == 108 && bs[1..][1..] == bs[2..];
    assert Step(Scanner([3, 2, 0], [6, 4, 0], 0, 0, true, true, 117, 33, true, false), 108, false) == Scanner([3, 2, 0], [6, 4, 0], 0, 0, true, true, 108, 33, true, false);
    assert bs[0..][0] == 117 && bs[0..][1..] == bs[1..];
    assert Step(Scanner([3, 2, 0], [6, 4, 0], 0, 0, true, true, 109, 33, true, false), 117, false) == Scanner([3, 2, 0], [6, 4, 0], 0, 0, true, true, 117, 33, true, false);
  }

  lemma SampleRow13()
    ensures RunFrom(Scanner([3, 2, 0], [6, 4, 0], 0, 0, false, true, 110, 33, true, false), ROW_13, false) == Scanner([3, 2, 0], [6, 4, 0], 0, 0, true, true, 108, 33, true, false)
  {
    SampleRow13a();
    SampleRow13b();
    RunFromAppend(Scanner([3, 2, 0], [6, 4, 0], 0, 0, false, true, 110, 33, true, false), [40, 109], [117, 108], false);
    assert ROW_13 == [40, 109] + [117, 108];
  }

  lemma SampleRow14a()
    ensures RunFrom(Scanner([3, 2, 0], [6, 4, 0], 0, 0, true, true, 108, 33, true, false), [40, 49], false) == Scanner([1, 2, 0], [6, 4, 0], 1, 0, true, false, 49, 33, true, false)
  {
    var bs := [40, 49];
    assert bs[1..][0] == 49 && bs[1..][1..] == bs[2..];
    assert Step(Scanner([3, 2, 0], [6, 4, 0], 0, 0, true, true, 40, 33, true, false), 49, false) == Scanner([1, 2, 0], [6, 4, 0], 1, 0, true, false, 49, 33, true, false);
    assert bs[0..][0] == 40 && bs[0..][1..] == bs[1..];
    assert Step(Scanner([3, 2, 0], [6, 4, 0], 0, 0, true, true, 108, 33, true, false), 40, false) == Scanner([3, 2, 0], [6, 4, 0], 0, 0, true, true, 40, 33, true, false);
  }

  lemma SampleRow14b()
    ensures RunFrom(Scanner([1, 2, 0], [6, 4, 0], 1, 0, true, false, 49, 33, true, false), [49, 44], false) == Scanner([1, 1, 0], [6, 4, 0], 2, 0, true, false, 44, 33, true, false)
  {
    var bs := [49, 44];
    assert bs[1..][0] == 44 && bs[1..][1..] == bs[2..];
    assert Step(Scanner([1, 1, 0], [6, 4, 0], 2, 0, true, false, 49, 33, true, false), 44, false) == Scanner([1, 1, 0], [6, 4, 0], 2, 0, true, false, 44, 33, true, false);
    assert bs[0..][0] == 49 && bs[0..][1..] == bs[1..];
    assert Step(Scanner([1, 2, 0], [6, 4, 0], 1, 0, true, false, 49, 33, true, false), 49, false) == Scanner([1, 1, 0], [6, 4, 0], 2, 0, true, false, 49, 33, true, false);
  }

  lemma SampleRow14()
    ensures RunFrom(Scanner([3, 2, 0], [6, 4, 0], 0, 0, true, true, 108, 33, true, false), ROW_14, false) == Scanner([1, 1, 0], [6, 4, 0], 2, 0, true, false, 44, 33, true, false)
  {
    SampleRow14a();
    SampleRow14b();
    RunFromAppend(Scanner([3, 2, 0], [6, 4, 0], 0, 0, true, true, 108, 33, true, false), [40, 49], [49, 44], false);
    assert ROW_14 == [40, 49] + [49, 44];
  }

  lemma SampleRow15a()
    ensures RunFrom(Scanner([1, 1, 0], [6, 4, 0], 2, 0, true, false, 44, 33, true, false), [56, 41], false) == Scanner([1, 1, 0], [8, 4, 0], 0, 0, false, false, 41, 121, true, false)
  {
    var bs := [56, 41];
    assert bs[1..][0] == 41 && bs[1..][1..] == bs[2..];
    assert Step(Scanner([1, 1, 0], [8, 4, 0], 2, 1, true, true, 56, 33, true, false), 41, false) == Scanner([1, 1, 0], [8, 4, 0], 0, 0, false, false, 41, 121, true, false);
    assert bs[0..][0] == 56 && bs[0..][1..] == bs[1..];
    assert Step(Scanner([1, 1, 0], [6, 4, 0], 2, 0, true, false, 44, 33, true, false), 56, false) == Scanner([1, 1, 0], [8, 4, 0], 2, 1, true, true, 56, 33, true, false);
  }

  lemma SampleRow15b()
    ensures RunFrom(Scanner([1, 1, 0], [8, 4, 0], 0, 0, false, false, 41, 121, true, false), [109, 117], false) == Scanner([1, 1, 0], [8, 4, 0], 0, 0, true, false, 117, 121, true, false)
  {
    var bs := [109, 117];
    assert bs[1..][0] == 117 && bs[1..][1..] == bs[2..];
    assert Step(Scanner([1, 1, 0], [8, 4, 0], 0, 0, true, false, 109, 121, true, false), 117, false) == Scanner([1, 1, 0], [8, 4, 0], 0, 0, true, false, 117, 121, true, false);
    assert bs[0..][0] == 109 && bs[0..][1..] == bs[1..];
    assert Step(Scanner([1, 1, 0], [8, 4, 0], 0, 0, false, false, 41, 121, true, false), 109, false) == Scanner([1, 1, 0], [8, 4, 0], 0, 0, true, false, 109, 121, true, false);
  }

  lemma SampleRow15()
    ensures RunFrom(Scanner([1, 1, 0], [6, 4, 0], 2, 0, true, false, 44, 33, true, false), ROW_15, false) == Scanner([1, 1, 0], [8, 4, 0], 0, 0, true, false, 117, 121, true, false)
  {
    SampleRow15a();
    SampleRow15b();
    RunFromAppend(Scanner([1, 1, 0], [6, 4, 0], 2, 0, true, false, 44, 33, true, false), [56, 41], [109, 117], false);
    assert ROW_15 == [56, 41] + [109, 117];
  }

  lemma SampleRow16a()
    ensures RunFrom(Scanner([1, 1, 0], [8, 4, 0], 0, 0, true, false, 117, 121, true, false), [108, 40], false) == Scanner([1, 1, 0], [8, 4, 0], 0, 0, true, false, 40, 121, true, false)
  {
    var bs := [108, 40];
    assert bs[1..][0] == 40 && bs[1..][1..] == bs[2..];
    assert Step(Scanner([1, 1, 0], [8, 4, 0], 0, 0, true, false, 108, 121, true, false), 40, false) == Scanner([1, 1, 0], [8, 4, 0], 0, 0, true, false, 40, 121, true, false);
    assert bs[0..][0] == 108 && bs[0..][1..] == bs[1..];
    assert Step(Scanner([1, 1, 0], [8, 4, 0], 0, 0, true, false, 117, 121, true, false), 108, false) == Scanner([1, 1, 0], [8, 4, 0], 0, 0, true, false, 108, 121, true, false);
  }

  lemma SampleRow16b()
    ensures RunFrom(Scanner([1, 1, 0], [8, 4, 0], 0, 0, true, false, 40, 121, true, false), [56, 44], false) == Scanner([8, 1, 0], [8, 4, 0], 1, 0, true, false, 44, 121, true, false)
  {
    var bs := [56, 44];
    assert bs[1..][0] == 44 && bs[1..][1..] == bs[2..];
    assert Step(Scanner([8, 1, 0], [8, 4, 0], 1, 0, true, false, 56, 121, true, false), 44, false) == Scanner([8, 1, 0], [8, 4, 0], 1, 0, true, false, 44, 121, true, false);
    assert bs[0..][0] == 56 && bs[0..][1..] == bs[1..];
    assert Step(Scanner([1, 1, 0], [8, 4, 0], 0, 0, true, false, 40, 121, true, false), 56, false) == Scanner([8, 1, 0], [8, 4, 0], 1, 0, true, false, 56, 121, true, false);
  }

  lemma SampleRow16()
    ensures RunFrom(Scanner([1, 1, 0], [8, 4, 0], 0, 0, true, false, 117, 121, true, false), ROW_16, false) == Scanner([8, 1, 0], [8, 4, 0], 1, 0, true, false, 44, 121, true, false)
  {
    SampleRow16a();
    SampleRow16b();
    RunFromAppend(Scanner([1, 1, 0], [8, 4, 0], 0, 0, true, false, 117, 121, true, false), [108, 40], [56, 44], false);
    assert ROW_16 == [108, 40] + [56, 44];
  }

  lemma SampleRow17a()
    ensures RunFrom(Scanner([8, 1, 0], [8, 4, 0], 1, 0, true, false, 44, 121, true, false), [53, 41], false) == Scanner([8, 1, 0], [5, 4, 0], 0, 0, false, false, 41, 161, true, false)
  {
    var bs := [53, 41];
    assert bs[1..][0] == 41 && bs[1..][1..] == bs[2..];
    assert Step(Scanner([8, 1, 0], [5, 4, 0], 1, 1, true, true, 53, 121, true, false), 41, false) == Scanner([8, 1, 0], [5, 4, 0], 0, 0, false, false, 41, 161, true, false);
    assert bs[0..][0] == 53 && bs[0..][1..] == bs[1..];
    assert Step(Scanner([8, 1, 0], [8, 4, 0], 1, 0, true, false, 44, 121, true, false), 53, false) == Scanner([8, 1, 0], [5, 4, 0], 1, 1, true, true, 53, 121, true, false);
  }

  lemma SampleRow17b()
    ensures RunFrom(Scanner([8, 1, 0], [5, 4, 0], 0, 0, false, false, 41, 161, true, false), [41], false) == Scanner([8, 1, 0], [5, 4, 0], 0, 0, false, false, 41, 161, true, false)
  {
    var bs := [41];
    assert bs[0..][0] == 41 && bs[0..][1..] == bs[1..];
    assert Step(Scanner([8, 1, 0], [5, 4, 0], 0, 0, false, false, 41, 161, true, false), 41, false) == Scanner([8, 1, 0], [5, 4, 0], 0, 0, false, false, 41, 161, true, false);
  }

  lemma SampleRow17()
    ensures RunFrom(Scanner([8, 1, 0], [8, 4, 0], 1, 0, true, false, 44, 121, true, false), ROW_17, false) == Scanner([8, 1, 0], [5, 4, 0], 0, 0, false, false, 41, 161, true, false)
  {
    SampleRow17a();
    SampleRow17b();
    RunFromAppend(Scanner([8, 1, 0], [8, 4, 0], 1, 0, true, false, 44, 121, true, false), [53, 41], [41], false);
    assert ROW_17 == [53, 41] + [41];
  }

  lemma SampleUpTo0()
    ensures RunFrom(Init, ROW_0, false) == Scanner([0, 0, 0], [0, 0, 0], 0, 0, true, false, 108, 0, true, false)
  {
    SampleRow0();
  }

  lemma SampleUpTo1()
    ensures RunFrom(Init, ROW_0 + ROW_1, false) == Scanner([2, 0, 0], [4, 0, 0], 1, 1, true, true, 52, 0, true, false)
  {
    SampleUpTo0();
    RunFromAppend(Init, ROW_0, ROW_1, false);
    SampleRow1();
  }

  lemma SampleUpTo2()
    ensures RunFrom(Init, ROW_0 + ROW_1 + ROW_2, false) == Scanner([2, 0, 0], [4, 0, 0], 0, 0, true, false, 109, 8, true, false)
  {
    SampleUpTo1();
    RunFromAppend(Init, ROW_0 + ROW_1, ROW_2, false);
    SampleRow2();
  }

  lemma SampleUpTo3()
    ensures RunFrom(Init, ROW_0 + ROW_1 + ROW_2 + ROW_3, false) == Scanner([2, 0, 0], [4, 0, 0], 0, 0, false, false, 51, 8, true, false)
  {
    SampleUpTo2();
    RunFromAppend(Init, ROW_0 + ROW_1 + ROW_2, ROW_3, false);
    SampleRow3();
  }

  lemma SampleUpTo4()
    ensures RunFrom(Init, ROW_0 + ROW_1 + ROW_2 + ROW_3 + ROW_4, false) == Scanner([2, 0, 0], [4, 0, 0], 0, 0, false, false, 33, 8, true, false)
  {
    SampleUpTo3();
    RunFromAppend(Init, ROW_0 + ROW_1 + ROW_2 + ROW_3, ROW_4, false);
    SampleRow4();
  }

  lemma SampleUpTo5()
    ensures RunFrom(Init, ROW_0 + ROW_1 + ROW_2 + ROW_3 + ROW_4 + ROW_5, false) == Scanner([2, 0, 0], [4, 0, 0], 0, 0, false, false, 111, 8, true, true)
  {
    SampleUpTo4();
    RunFromAppend(Init, ROW_0 + ROW_1 + ROW_2 + ROW_3 + ROW_4, ROW_5, false);
    SampleRow5();
  }

  lemma SampleUpTo6()
    ensures RunFrom(Init, ROW_0 + ROW_1 + ROW_2 + ROW_3 + ROW_4 + ROW_5 + ROW_6, false) == Scanner([2, 0, 0], [4, 0, 0], 0, 0, false, false, 116, 8, true, false)
  {
    SampleUpTo5();
    RunFromAppend(Init, ROW_0 + ROW_1 + ROW_2 + ROW_3 + ROW_4 + ROW_5, ROW_6, false);
    SampleRow6();
  }

  lemma SampleUpTo7()
    ensures RunFrom(Init, ROW_0 + ROW_1 + ROW_2 + ROW_3 + ROW_4 + ROW_5 + ROW_6 + ROW_7, false) == Scanner([2, 0, 0], [4, 0, 0], 0, 0, true, false, 108, 8, true, false)
  {
    SampleUpTo6();
    RunFromAppend(Init, ROW_0 + ROW_1 + ROW_2 + ROW_3 + ROW_4 + ROW_5 + ROW_6, ROW_7, false);
    SampleRow7();
  }

  lemma SampleUpTo8()
    ensures RunFrom(Init, ROW_0 + ROW_1 + ROW_2 + ROW_3 + ROW_4 + ROW_5 + ROW_6 + ROW_7 + ROW_8, false) == Scanner([5, 0, 0], [5, 0, 0], 1, 1, true, true, 53, 8, true, false)
  {
    SampleUpTo7();
    RunFromAppend(Init, ROW_0 + ROW_1 + ROW_2 + ROW_3 + ROW_4 + ROW_5 + ROW_6 + ROW_7, ROW_8, false);
    SampleRow8();
  }

  lemma SampleUpTo9()
    ensures RunFrom(Init, ROW_0 + ROW_1 + ROW_2 + ROW_3 + ROW_4 + ROW_5 + ROW_6 + ROW_7 + ROW_8 + ROW_9, false) == Scanner([5, 0, 0], [5, 0, 0], 0, 0, true, false, 117, 33, true, false)
  {
    SampleUpTo8();
    RunFromAppend(Init, ROW_0 + ROW_1 + ROW_2 + ROW_3 + ROW_4 + ROW_5 + ROW_6 + ROW_7 + ROW_8, ROW_9, false);
    SampleRow9();
  }

  lemma SampleUpTo10()
    ensures RunFrom(Init, ROW_0 + ROW_1 + ROW_2 + ROW_3 + ROW_4 + ROW_5 + ROW_6 + ROW_7 + ROW_8 + ROW_9 + ROW_10, false) == Scanner([3, 2, 0], [5, 0, 0], 2, 0, true, false, 50, 33, true, false)
  {
    SampleUpTo9();
    RunFromAppend(Init, ROW_0 + ROW_1 + ROW_2 + ROW_3 + ROW_4 + ROW_5 + ROW_6 + ROW_7 + ROW_8 + ROW_9, ROW_10, false);
    SampleRow10();
  }

  lemma SampleUpTo11()
    ensures RunFrom(Init, ROW_0 + ROW_1 + ROW_2 + ROW_3 + ROW_4 + ROW_5 + ROW_6 + ROW_7 + ROW_8 + ROW_9 + ROW_10 + ROW_11, false) == Scanner([3, 2, 0], [6, 4, 0], 2, 2, false, true, 93, 33, true, false)
  {
    SampleUpTo10();
    RunFromAppend(Init, ROW_0 + ROW_1 + ROW_2 + ROW_3 + ROW_4 + ROW_5 + ROW_6 + ROW_7 + ROW_8 + ROW_9 + ROW_10, ROW_11, false);
    SampleRow11();
  }

  lemma SampleUpTo12()
    ensures RunFrom(Init, ROW_0 + ROW_1 + ROW_2 + ROW_3 + ROW_4 + ROW_5 + ROW_6 + ROW_7 + ROW_8 + ROW_9 + ROW_10 + ROW_11 + ROW_12, false) == Scanner([3, 2, 0], [6, 4, 0], 0, 0, false, true, 110, 33, true, false)
  {
    SampleUpTo11();
    RunFromAppend(Init, ROW_0 + ROW_1 + ROW_2 + ROW_3 + ROW_4 + ROW_5 + ROW_6 + ROW_7 + ROW_8 + ROW_9 + ROW_10 + ROW_11, ROW_12, false);
    SampleRow12();
  }

  lemma SampleUpTo13()
    ensures RunFrom(Init, ROW_0 + ROW_1 + ROW_2 + ROW_3 + ROW_4 + ROW_5 + ROW_6 + ROW_7 + ROW_8 + ROW_9 + ROW_10 + ROW_11 + ROW_12 + ROW_13, false) == Scanner([3, 2, 0], [6, 4, 0], 0, 0, true, true, 108, 33, true, false)
  {
    SampleUpTo12();
    RunFromAppend(Init, ROW_0 + ROW_1 + ROW_2 + ROW_3 + ROW_4 + ROW_5 + ROW_6 + ROW_7 + ROW_8 + ROW_9 + ROW_10 + ROW_11 + ROW_12, ROW_13, false);
    SampleRow13();
  }

  lemma SampleUpTo14()
    ensures RunFrom(Init, ROW_0 + ROW_1 + ROW_2 + ROW_3 + ROW_4 + ROW_5 + ROW_6 + ROW_7 + ROW_8 + ROW_9 + ROW_10 + ROW_11 + ROW_12 + ROW_13 + ROW_14, false) == Scanner([1, 1, 0], [6, 4, 0], 2, 0, true, false, 44, 33, true, false)
  {
    SampleUpTo13();
    RunFromAppend(Init, ROW_0 + ROW_1 + ROW_2 + ROW_3 + ROW_4 + ROW_5 + ROW_6 + ROW_7 + ROW_8 + ROW_9 + ROW_10 + ROW_11 + ROW_12 + ROW_13, ROW_14, false);
    SampleRow14();
  }

  lemma SampleUpTo15()
    ensures RunFrom(Init, ROW_0 + ROW_1 + ROW_2 + ROW_3 + ROW_4 + ROW_5 + ROW_6 + ROW_7 + ROW_8 + ROW_9 + ROW_10 + ROW_11 + ROW_12 + ROW_13 + ROW_14 + ROW_15, false) == Scanner([1, 1, 0], [8, 4, 0], 0, 0, true, false, 117, 121, true, false)
  {
    SampleUpTo14();
    RunFromAppend(Init, ROW_0 + ROW_1 + ROW_2 + ROW_3 + ROW_4 + ROW_5 + ROW_6 + ROW_7 + ROW_8 + ROW_9 + ROW_10 + ROW_11 + ROW_12 + ROW_13 + ROW_14, ROW_15, false);
    SampleRow15();
  }

  lemma SampleUpTo16()
    ensures RunFrom(Init, ROW_0 + ROW_1 + ROW_2 + ROW_3 + ROW_4 + ROW_5 + ROW_6 + ROW_7 + ROW_8 + ROW_9 + ROW_10 + ROW_11 + ROW_12 + ROW_13 + ROW_14 + ROW_15 + ROW_16, false) == Scanner([8, 1, 0], [8, 4, 0], 1, 0, true, false, 44, 121, true, false)
  {
    SampleUpTo15();
    RunFromAppend(Init, ROW_0 + ROW_1 + ROW_2 + ROW_3 + ROW_4 + ROW_5 + ROW_6 + ROW_7 + ROW_8 + ROW_9 + ROW_10 + ROW_11 + ROW_12 + ROW_13 + ROW_14 + ROW_15, ROW_16, false);
    SampleRow16();
  }

  lemma SampleUpTo17()
    ensures RunFrom(Init, ROW_0 + ROW_1 + ROW_2 + ROW_3 + ROW_4 + ROW_5 + ROW_6 + ROW_7 + ROW_8 + ROW_9 + ROW_10 + ROW_11 + ROW_12 + ROW_13 + ROW_14 + ROW_15 + ROW_16 + ROW_17, false) == Scanner([8, 1, 0], [5, 4, 0], 0, 0, false, false, 41, 161, true, false)
  {
    SampleUpTo16();
    RunFromAppend(Init, ROW_0 + ROW_1 + ROW_2 + ROW_3 + ROW_4 + ROW_5 + ROW_6 + ROW_7 + ROW_8 + ROW_9 + ROW_10 + ROW_11 + ROW_12 + ROW_13 + ROW_14 + ROW_15 + ROW_16, ROW_17, false);
    SampleRow17();
  }

  /** `part1` of the sample is 161. */
  lemma SamplePart1()
    ensures Run(SAMPLE_INPUT, false).sum == 161
  {
    SampleUpTo17();
  }

  const ROW_TWO_0: seq<byte> := [120, 109, 117, 108]  // xmul
  const ROW_TWO_1: seq<byte> := [40, 50, 44, 52]  // (2,4
  const ROW_TWO_2: seq<byte> := [41, 38, 109, 117]  // )&mu
  const ROW_TWO_3: seq<byte> := [108, 91, 51, 44]  // l[3,
  const ROW_TWO_4: seq<byte> := [55, 93, 33, 94]  // 7]!^
  const ROW_TWO_5: seq<byte> := [100, 111, 110, 39]  // don'
  const ROW_TWO_6: seq<byte> := [116, 40, 41, 95]  // t()_
  const ROW_TWO_7: seq<byte> := [109, 117, 108, 40]  // mul(
  const ROW_TWO_8: seq<byte> := [53, 44, 53, 41]  // 5,5)
  const ROW_TWO_9: seq<byte> := [43, 109, 117, 108]  // +mul
  const ROW_TWO_10: seq<byte> := [40, 51, 50, 44]  // (32,
  const ROW_TWO_11: seq<byte> := [54, 52, 93, 40]  // 64](
  const ROW_TWO_12: seq<byte> := [109, 117, 108, 40]  // mul(
  const ROW_TWO_13: seq<byte> := [49, 49, 44, 56]  // 11,8
  const ROW_TWO_14: seq<byte> := [41, 117, 110, 100]  // )und
  const ROW_TWO_15: seq<byte> := [111, 40, 41, 63]  // o()?
  const ROW_TWO_16: seq<byte> := [109, 117, 108, 40]  // mul(
  const ROW_TWO_17: seq<byte> := [56, 44, 53, 41]  // 8,5)
  const ROW_TWO_18: seq<byte> := [41]  // )

  /** "xmul(2,4)&mul[3,7]!^don't()_mul(5,5)+mul(32,64](mul(11,8)undo()?mul(8,5))" */
  const SAMPLE_INPUT_2: seq<byte> :=
    ROW_TWO_0 + ROW_TWO_1 + ROW_TWO_2 + ROW_TWO_3 + ROW_TWO_4 + ROW_TWO_5 + ROW_TWO_6 + ROW_TWO_7 + ROW_TWO_8 + ROW_TWO_9 + ROW_TWO_10 + ROW_TWO_11 + ROW_TWO_12 + ROW_TWO_13 + ROW_TWO_14 + ROW_TWO_15 + ROW_TWO_16 + ROW_TWO_17 + ROW_TWO_18

  lemma SampleTwoRow0a()
    ensures RunFrom(Scanner([0, 0, 0], [0, 0, 0], 0, 0, false, false, 0, 0, true, false), [120, 109], true) == Scanner([0, 0, 0], [0, 0, 0], 0, 0, true, false, 109, 0, true, false)
  {
    var bs := [120, 109];
    assert bs[1..][0] == 109 && bs[1..][1..] == bs[2..];
    assert Step(Scanner([0, 0, 0], [0, 0, 0], 0, 0, false, false, 120, 0, true, false), 109, true) == Scanner([0, 0, 0], [0, 0, 0], 0, 0, true, false, 109, 0, true, false);
    assert bs[0..][0] == 120 && bs[0..][1..] == bs[1..];
    assert Step(Scanner([0, 0, 0], [0, 0, 0], 0, 0, false, false, 0, 0, true, false), 120, true) == Scanner([0, 0, 0], [0, 0, 0], 0, 0, false, false, 120, 0, true, false);
  }

  lemma SampleTwoRow0b()
    ensures RunFrom(Scanner([0, 0, 0], [0, 0, 0], 0, 0, true, false, 109, 0, true, false), [117, 108], true) == Scanner([0, 0, 0], [0, 0, 0], 0, 0, true, false, 108, 0, true, false)
  {
    var bs := [117, 108];
    assert bs[1..][0] == 108 && bs[1..][1..] == bs[2..];
    assert Step(Scanner([0, 0, 0], [0, 0, 0], 0, 0, true, false, 117, 0, true, false), 108, true) == Scanner([0, 0, 0], [0, 0, 0], 0, 0, true, false, 108, 0, true, false);
    assert bs[0..][0] == 117 && bs[0..][1..] == bs[1..];
    assert Step(Scanner([0, 0, 0], [0, 0, 0], 0, 0, true, false, 109, 0, true, false), 117, true) == Scanner([0, 0, 0], [0, 0, 0], 0, 0, true, false, 117, 0, true, false);
  }

  lemma SampleTwoRow0()
    ensures RunFrom(Scanner([0, 0, 0], [0, 0, 0], 0, 0, false, false, 0, 0, true, false), ROW_TWO_0, true) == Scanner([0, 0, 0], [0, 0, 0], 0, 0, true, false, 108, 0, true, false)
  {
    SampleTwoRow0a();
    SampleTwoRow0b();
    RunFromAppend(Scanner([0, 0, 0], [0, 0, 0], 0, 0, false, false, 0, 0, true, false), [120, 109], [117, 108], true);
    assert ROW_TWO_0 == [120, 109] + [117, 108];
  }

  lemma SampleTwoRow1a()
    ensures RunFrom(Scanner([0, 0, 0], [0, 0, 0], 0, 0, true, false, 108, 0, true, false), [40, 50], true) == Scanner([2, 0, 0], [0, 0, 0], 1, 0, true, false, 50, 0, true, false)
  {
    var bs := [40, 50];
    assert bs[1..][0] == 50 && bs[1..][1..] == bs[2..];
    assert Step(Scanner([0, 0, 0], [0, 0, 0], 0, 0, true, false, 40, 0, true, false), 50, true) == Scanner([2, 0, 0], [0, 0, 0], 1, 0, true, false, 50, 0, true, false);
    assert bs[0..][0] == 40 && bs[0..][1..] == bs[1..];
    assert Step(Scanner([0, 0, 0], [0, 0, 0], 0, 0, true, false, 108, 0, true, false), 40, true) == Scanner([0, 0, 0], [0, 0, 0], 0, 0, true, false, 40, 0, true, false);
  }

  lemma SampleTwoRow1b()
    ensures RunFrom(Scanner([2, 0, 0], [0, 0, 0], 1, 0, true, false, 50, 0, true, false), [44, 52], true) == Scanner([2, 0, 0], [4, 0, 0], 1, 1, true, true, 52, 0, true, false)
  {
    var bs := [44, 52];
    assert bs[1..][0] == 52 && bs[1..][1..] == bs[2..];
    assert Step(Scanner([2, 0, 0], [0, 0, 0], 1, 0, true, false, 44, 0, true, false), 52, true) == Scanner([2, 0, 0], [4, 0, 0], 1, 1, true, true, 52, 0, true, false);
    assert bs[0..][0] == 44 && bs[0..][1..] == bs[1..];
    assert Step(Scanner([2, 0, 0], [0, 0, 0], 1, 0, true, false, 50, 0, true, false), 44, true) == Scanner([2, 0, 0], [0, 0, 0], 1, 0, true, false, 44, 0, true, false);
  }

  lemma SampleTwoRow1()
    ensures RunFrom(Scanner([0, 0, 0], [0, 0, 0], 0, 0, true, false, 108, 0, true, false), ROW_TWO_1, true) == Scanner([2, 0, 0], [4, 0, 0], 1, 1, true, true, 52, 0, true, false)
  {
    SampleTwoRow1a();
    SampleTwoRow1b();
    RunFromAppend(Scanner([0, 0, 0], [0, 0, 0], 0, 0, true, false, 108, 0, true, false), [40, 50], [44, 52], true);
    assert ROW_TWO_1 == [40, 50] + [44, 52];
  }

  lemma SampleTwoRow2a()
    ensures RunFrom(Scanner([2, 0, 0], [4, 0, 0], 1, 1, true, true, 52, 0, true, false), [41, 38], true) == Scanner([2, 0, 0], [4, 0, 0], 0, 0, false, false, 38, 8, true, false)
  {
    var bs := [41, 38];
    assert bs[1..][0] == 38 && bs[1..][1..] == bs[2..];
    assert Step(Scanner([2, 0, 0], [4, 0, 0], 0, 0, false, false, 41, 8, true, false), 38, true) == Scanner([2, 0, 0], [4, 0, 0], 0, 0, false, false, 38, 8, true, false);
    assert bs[0..][0] == 41 && bs[0..][1..] == bs[1..];
    assert Step(Scanner([2, 0, 0], [4, 0, 0], 1, 1, true, true, 52, 0, true, false), 41, true) == Scanner([2, 0, 0], [4, 0, 0], 0, 0, false, false, 41, 8, true, false);
  }

  lemma SampleTwoRow2b()
    ensures RunFrom(Scanner([2, 0, 0], [4, 0, 0], 0, 0, false, false, 38, 8, true, false), [109, 117], true) == Scanner([2, 0, 0], [4, 0, 0], 0, 0, true, false, 117, 8, true, false)
  {
    var bs := [109, 117];
    assert bs[1..][0] == 117 && bs[1..][1..] == bs[2..];
    assert Step(Scanner([2, 0, 0], [4, 0, 0], 0, 0, true, false, 109, 8, true, false), 117, true) == Scanner([2, 0, 0], [4, 0, 0], 0, 0, true, false, 117, 8, true, false);
    assert bs[0..][0] == 109 && bs[0..][1..] == bs[1..];
    assert Step(Scanner([2, 0, 0], [4, 0, 0], 0, 0, false, false, 38, 8, true, false), 109, true) == Scanner([2, 0, 0], [4, 0, 0], 0, 0, true, false, 109, 8, true, false);
  }

  lemma SampleTwoRow2()
    ensures RunFrom(Scanner([2, 0, 0], [4, 0, 0], 1, 1, true, true, 52, 0, true, false), ROW_TWO_2, true) == Scanner([2, 0, 0], [4, 0, 0], 0, 0, true, false, 117, 8, true, false)
  {
    SampleTwoRow2a();
    SampleTwoRow2b();
    RunFromAppend(Scanner([2, 0, 0], [4, 0, 0], 1, 1, true, true, 52, 0, true, false), [41, 38], [109, 117], true);
    assert ROW_TWO_2 == [41, 38] + [109, 117];
  }

  lemma SampleTwoRow3a()
    ensures RunFrom(Scanner([2, 0, 0], [4, 0, 0], 0, 0, true, false, 117, 8, true, false), [108, 91], true) == Scanner([2, 0, 0], [4, 0, 0], 0, 0, false, false, 91, 8, true, false)
  {
    var bs := [108, 91];
    assert bs[1..][0] == 91 && bs[1..][1..] == bs[2..];
    assert Step(Scanner([2, 0, 0], [4, 0, 0], 0, 0, true, false, 108, 8, true, false), 91, true) == Scanner([2, 0, 0], [4, 0, 0], 0, 0, false, false, 91, 8, true, false);
    assert bs[0..][0] == 108 && bs[0..][1..] == bs[1..];
    assert Step(Scanner([2, 0, 0], [4, 0, 0], 0, 0, true, false, 117, 8, true, false), 108, true) == Scanner([2, 0, 0], [4, 0, 0], 0, 0, true, false, 108, 8, true, false);
  }

  lemma SampleTwoRow3b()
    ensures RunFrom(Scanner([2, 0, 0], [4, 0, 0], 0, 0, false, false, 91, 8, true, false), [51, 44], true) == Scanner([2, 0, 0], [4, 0, 0], 0, 0, false, false, 44, 8, true, false)
  {
    var bs := [51, 44];
    assert bs[1..][0] == 44 && bs[1..][1..] == bs[2..];
    assert Step(Scanner([2, 0, 0], [4, 0, 0], 0, 0, false, false, 51, 8, true, false), 44, true) == Scanner([2, 0, 0], [4, 0, 0], 0, 0, false, false, 44, 8, true, false);
    assert bs[0..][0] == 51 && bs[0..][1..] == bs[1..];
    assert Step(Scanner([2, 0, 0], [4, 0, 0], 0, 0, false, false, 91, 8, true, false), 51, true) == Scanner([2, 0, 0], [4, 0, 0], 0, 0, false, false, 51, 8, true, false);
  }

  lemma SampleTwoRow3()
    ensures RunFrom(Scanner([2, 0, 0], [4, 0, 0], 0, 0, true, false, 117, 8, true, false), ROW_TWO_3, true) == Scanner([2, 0, 0], [4, 0, 0], 0, 0, false, false, 44, 8, true, false)
  {
    SampleTwoRow3a();
    SampleTwoRow3b();
    RunFromAppend(Scanner([2, 0, 0], [4, 0, 0], 0, 0, true, false, 117, 8, true, false), [108, 91], [51, 44], true);
    assert ROW_TWO_3 == [108, 91] + [51, 44];
  }

  lemma SampleTwoRow4a()
    ensures RunFrom(Scanner([2, 0, 0], [4, 0, 0], 0, 0, false, false, 44, 8, true, false), [55, 93], true) == Scanner([2, 0, 0], [4, 0, 0], 0, 0, false, false, 93, 8, true, false)
  {
    var bs := [55, 93];
    assert bs[1..][0] == 93 && bs[1..][1..] == bs[2..];
    assert Step(Scanner([2, 0, 0], [4, 0, 0], 0, 0, false, false, 55, 8, true, false), 93, true) == Scanner([2, 0, 0], [4, 0, 0], 0, 0, false, false, 93, 8, true, false);
    assert bs[0..][0] == 55 && bs[0..][1..] == bs[1..];
    assert Step(Scanner([2, 0, 0], [4, 0, 0], 0, 0, false, false, 44, 8, true, false), 55, true) == Scanner([2, 0, 0], [4, 0, 0], 0, 0, false, false, 55, 8, true, false);
  }

  lemma SampleTwoRow4b()
    ensures RunFrom(Scanner([2, 0, 0], [4, 0, 0], 0, 0, false, false, 93, 8, true, false), [33, 94], true) == Scanner([2, 0, 0], [4, 0, 0], 0, 0, false, false, 94, 8, true, false)
  {
    var bs := [33, 94];
    assert bs[1..][0] == 94 && bs[1..][1..] == bs[2..];
    assert Step(Scanner([2, 0, 0], [4, 0, 0], 0, 0, false, false, 33, 8, true, false), 94, true) == Scanner([2, 0, 0], [4, 0, 0], 0, 0, false, false, 94, 8, true, false);
    assert bs[0..][0] == 33 && bs[0..][1..] == bs[1..];
    assert Step(Scanner([2, 0, 0], [4, 0, 0], 0, 0, false, false, 93, 8, true, false), 33, true) == Scanner([2, 0, 0], [4, 0, 0], 0, 0, false, false, 33, 8, true, false);
  }

  lemma SampleTwoRow4()
    ensures RunFrom(Scanner([2, 0, 0], [4, 0, 0], 0, 0, false, false, 44, 8, true, false), ROW_TWO_4, true) == Scanner([2, 0, 0], [4, 0, 0], 0, 0, false, false, 94, 8, true, false)
  {
    SampleTwoRow4a();
    SampleTwoRow4b();
    RunFromAppend(Scanner([2, 0, 0], [4, 0, 0], 0, 0, false, false, 44, 8, true, false), [55, 93], [33, 94], true);
    assert ROW_TWO_4 == [55, 93] + [33, 94];
  }

  lemma SampleTwoRow5a()
    ensures RunFrom(Scanner([2, 0, 0], [4, 0, 0], 0, 0, false, false, 94, 8, true, false), [100, 111], true) == Scanner([2, 0, 0], [4, 0, 0], 0, 0, false, false, 111, 8, true, true)
  {
    var bs := [100, 111];
    assert bs[1..][0] == 111 && bs[1..][1..] == bs[2..];
    assert Step(Scanner([2, 0, 0], [4, 0, 0], 0, 0, false, false, 100, 8, true, false), 111, true) == Scanner([2, 0, 0], [4, 0, 0], 0, 0, false, false, 111, 8, true, true);
    assert bs[0..][0] == 100 && bs[0..][1..] == bs[1..];
    assert Step(Scanner([2, 0, 0], [4, 0, 0], 0, 0, false, false, 94, 8, true, false), 100, true) == Scanner([2, 0, 0], [4, 0, 0], 0, 0, false, false, 100, 8, true, false);
  }

  lemma SampleTwoRow5b()
    ensures RunFrom(Scanner([2, 0, 0], [4, 0, 0], 0, 0, false, false, 111, 8, true, true), [110, 39], true) == Scanner([2, 0, 0], [4, 0, 0], 0, 0, false, false, 39, 8, true, true)
  {
    var bs := [110, 39];
    assert bs[1..][0] == 39 && bs[1..][1..] == bs[2..];
    assert Step(Scanner([2, 0, 0], [4, 0, 0], 0, 0, false, false, 110, 8, true, true), 39, true) == Scanner([2, 0, 0], [4, 0, 0], 0, 0, false, false, 39, 8, true, true);
    assert bs[0..][0] == 110 && bs[0..][1..] == bs[1..];
    assert Step(Scanner([2, 0, 0], [4, 0, 0], 0, 0, false, false, 111, 8, true, true), 110, true) == Scanner([2, 0, 0], [4, 0, 0], 0, 0, false, false, 110, 8, true, true);
  }

  lemma SampleTwoRow5()
    ensures RunFrom(Scanner([2, 0, 0], [4, 0, 0], 0, 0, false, false, 94, 8, true, false), ROW_TWO_5, true) == Scanner([2, 0, 0], [4, 0, 0], 0, 0, false, false, 39, 8, true, true)
  {
    SampleTwoRow5a();
    SampleTwoRow5b();
    RunFromAppend(Scanner([2, 0, 0], [4, 0, 0], 0, 0, false, false, 94, 8, true, false), [100, 111], [110, 39], true);
    assert ROW_TWO_5 == [100, 111] + [110, 39];
  }

  lemma SampleTwoRow6a()
    ensures RunFrom(Scanner([2, 0, 0], [4, 0, 0], 0, 0, false, false, 39, 8, true, true), [116, 40], true) == Scanner([2, 0, 0], [4, 0, 0], 0, 0, false, false, 40, 8, false, false)
  {
    var bs := [116, 40];
    assert bs[1..][0] == 40 && bs[1..][1..] == bs[2..];
    assert Step(Scanner([2, 0, 0], [4, 0, 0], 0, 0, false, false, 116, 8, false, false), 40, true) == Scanner([2, 0, 0], [4, 0, 0], 0, 0, false, false, 40, 8, false, false);
    assert bs[0..][0] == 116 && bs[0..][1..] == bs[1..];
    assert Step(Scanner([2, 0, 0], [4, 0, 0], 0, 0, false, false, 39, 8, true, true), 116, true) == Scanner([2, 0, 0], [4, 0, 0], 0, 0, false, false, 116, 8, false, false);
  }

  lemma SampleTwoRow6b()
    ensures RunFrom(Scanner([2, 0, 0], [4, 0, 0], 0, 0, false, false, 40, 8, false, false), [41, 95], true) == Scanner([2, 0, 0], [4, 0, 0], 0, 0, false, false, 95, 8, false, false)
  {
    var bs := [41, 95];
    assert bs[1..][0] == 95 && bs[1..][1..] == bs[2..];
    assert Step(Scanner([2, 0, 0], [4, 0, 0], 0, 0, false, false, 41, 8, false, false), 95, true) == Scanner([2, 0, 0], [4, 0, 0], 0, 0, false, false, 95, 8, false, false);
    assert bs[0..][0] == 41 && bs[0..][1..] == bs[1..];
    assert Step(Scanner([2, 0, 0], [4, 0, 0], 0, 0, false, false, 40, 8, false, false), 41, true) == Scanner([2, 0, 0], [4, 0, 0], 0, 0, false, false, 41, 8, false, false);
  }

  lemma SampleTwoRow6()
    ensures RunFrom(Scanner([2, 0, 0], [4, 0, 0], 0, 0, false, false, 39, 8, true, true), ROW_TWO_6, true) == Scanner([2, 0, 0], [4, 0, 0], 0, 0, false, false, 95, 8, false, false)
  {
    SampleTwoRow6a();
    SampleTwoRow6b();
    RunFromAppend(Scanner([2, 0, 0], [4, 0, 0], 0, 0, false, false, 39, 8, true, true), [116, 40], [41, 95], true);
    assert ROW_TWO_6 == [116, 40] + [41, 95];
  }

  lemma SampleTwoRow7a()
    ensures RunFrom(Scanner([2, 0, 0], [4, 0, 0], 0, 0, false, false, 95, 8, false, false), [109, 117], true) == Scanner([2, 0, 0], [4, 0, 0], 0, 0, true, false, 117, 8, false, false)
  {
    var bs := [109, 117];
    assert bs[1..][0] == 117 && bs[1..][1..] == bs[2..];
    assert Step(Scanner([2, 0, 0], [4, 0, 0], 0, 0, true, false, 109, 8, false, false), 117, true) == Scanner([2, 0, 0], [4, 0, 0], 0, 0, true, false, 117, 8, false, false);
    assert bs[0..][0] == 109 && bs[0..][1..] == bs[1..];
    assert Step(Scanner([2, 0, 0], [4, 0, 0], 0, 0, false, false, 95, 8, false, false), 109, true) == Scanner([2, 0, 0], [4, 0, 0], 0, 0, true, false, 109, 8, false, false);
  }

  lemma SampleTwoRow7b()
    ensures RunFrom(Scanner([2, 0, 0], [4, 0, 0], 0, 0, true, false, 117, 8, false, false), [108, 40], true) == Scanner([2, 0, 0], [4, 0, 0], 0, 0, true, false, 40, 8, false, false)
  {
    var bs := [108, 40];
    assert bs[1..][0] == 40 && bs[1..][1..] == bs[2..];
    assert Step(Scanner([2, 0, 0], [4, 0, 0], 0, 0, true, false, 108, 8, false, false), 40, true) == Scanner([2, 0, 0], [4, 0, 0], 0, 0, true, false, 40, 8, false, false);
    assert bs[0..][0] == 108 && bs[0..][1..] == bs[1..];
    assert Step(Scanner([2, 0, 0], [4, 0, 0], 0, 0, true, false, 117, 8, false, false), 108, true) == Scanner([2, 0, 0], [4, 0, 0], 0, 0, true, false, 108, 8, false, false);
  }

  lemma SampleTwoRow7()
    ensures RunFrom(Scanner([2, 0, 0], [4, 0, 0], 0, 0, false, false, 95, 8, false, false), ROW_TWO_7, true) == Scanner([2, 0, 0], [4, 0, 0], 0, 0, true, false, 40, 8, false, false)
  {
    SampleTwoRow7a();
    SampleTwoRow7b();
    RunFromAppend(Scanner([2, 0, 0], [4, 0, 0], 0, 0, false, false, 95, 8, false, false), [109, 117], [108, 40], true);
    assert ROW_TWO_7 == [109, 117] + [108, 40];
  }

  lemma SampleTwoRow8a()
    ensures RunFrom(Scanner([2, 0, 0], [4, 0, 0], 0, 0, true, false, 40, 8, false, false), [53, 44], true) == Scanner([5, 0, 0], [4, 0, 0], 1, 0, true, false, 44, 8, false, false)
  {
    var bs := [53, 44];
    assert bs[1..][0] == 44 && bs[1..][1..] == bs[2..];
    assert Step(Scanner([5, 0, 0], [4, 0, 0], 1, 0, true, false, 53, 8, false, false), 44, true) == Scanner([5, 0, 0], [4, 0, 0], 1, 0, true, false, 44, 8, false, false);
    assert bs[0..][0] == 53 && bs[0..][1..] == bs[1..];
    assert Step(Scanner([2, 0, 0], [4, 0, 0], 0, 0, true, false, 40, 8, false, false), 53, true) == Scanner([5, 0, 0], [4, 0, 0], 1, 0, true, false, 53, 8, false, false);
  }

  lemma SampleTwoRow8b()
    ensures RunFrom(Scanner([5, 0, 0], [4, 0, 0], 1, 0, true, false, 44, 8, false, false), [53, 41], true) == Scanner([5, 0, 0], [5, 0, 0], 0, 0, false, false, 41, 8, false, false)
  {
    var bs := [53, 41];
    assert bs[1..][0] == 41 && bs[1..][1..] == bs[2..];
    assert Step(Scanner([5, 0, 0], [5, 0, 0], 1, 1, true, true, 53, 8, false, false), 41, true) == Scanner([5, 0, 0], [5, 0, 0], 0, 0, false, false, 41, 8, false, false);
    assert bs[0..][0] == 53 && bs[0..][1..] == bs[1..];
    assert Step(Scanner([5, 0, 0], [4, 0, 0], 1, 0, true, false, 44, 8, false, false), 53, true) == Scanner([5, 0, 0], [5, 0, 0], 1, 1, true, true, 53, 8, false, false);
  }

  lemma SampleTwoRow8()
    ensures RunFrom(Scanner([2, 0, 0], [4, 0, 0], 0, 0, true, false, 40, 8, false, false), ROW_TWO_8, true) == Scanner([5, 0, 0], [5, 0, 0], 0, 0, false, false, 41, 8, false, false)
  {
    SampleTwoRow8a();
    SampleTwoRow8b();
    RunFromAppend(Scanner([2, 0, 0], [4, 0, 0], 0, 0, true, false, 40, 8, false, false), [53, 44], [53, 41], true);
    assert ROW_TWO_8 == [53, 44] + [53, 41];
  }

  lemma SampleTwoRow9a()
    ensures RunFrom(Scanner([5, 0, 0], [5, 0, 0], 0, 0, false, false, 41, 8, false, false), [43, 109], true) == Scanner([5, 0, 0], [5, 0, 0], 0, 0, true, false, 109, 8, false, false)
  {
    var bs := [43, 109];
    assert bs[1..][0] == 109 && bs[1..][1..] == bs[2..];
    assert Step(Scanner([5, 0, 0], [5, 0, 0], 0, 0, false, false, 43, 8, false, false), 109, true) == Scanner([5, 0, 0], [5, 0, 0], 0, 0, true, false, 109, 8, false, false);
    assert bs[0..][0] == 43 && bs[0..][1..] == bs[1..];
    assert Step(Scanner([5, 0, 0], [5, 0, 0], 0, 0, false, false, 41, 8, false, false), 43, true) == Scanner([5, 0, 0], [5, 0, 0], 0, 0, false, false, 43, 8, false, false);
  }

  lemma SampleTwoRow9b()
    ensures RunFrom(Scanner([5, 0, 0], [5, 0, 0], 0, 0, true, false, 109, 8, false, false), [117, 108], true) == Scanner([5, 0, 0], [5, 0, 0], 0, 0, true, false, 108, 8, false, false)
  {
    var bs := [117, 108];
    assert bs[1..][0] == 108 && bs[1..][1..] == bs[2..];
    assert Step(Scanner([5, 0, 0], [5, 0, 0], 0, 0, true, false, 117, 8, false, false), 108, true) == Scanner([5, 0, 0], [5, 0, 0], 0, 0, true, false, 108, 8, false, false);
    assert bs[0..][0] == 117 && bs[0..][1..] == bs[1..];
    assert Step(Scanner([5, 0, 0], [5, 0, 0], 0, 0, true, false, 109, 8, false, false), 117, true) == Scanner([5, 0, 0], [5, 0, 0], 0, 0, true, false, 117, 8, false, false);
  }

  lemma SampleTwoRow9()
    ensures RunFrom(Scanner([5, 0, 0], [5, 0, 0], 0, 0, false, false, 41, 8, false, false), ROW_TWO_9, true) == Scanner([5, 0, 0], [5, 0, 0], 0, 0, true, false, 108, 8, false, false)
  {
    SampleTwoRow9a();
    SampleTwoRow9b();
    RunFromAppend(Scanner([5, 0, 0], [5, 0, 0], 0, 0, false, false, 41, 8, false, false), [43, 109], [117, 108], true);
    assert ROW_TWO_9 == [43, 109] + [117, 108];
  }

  lemma SampleTwoRow10a()
    ensures RunFrom(Scanner([5, 0, 0], [5, 0, 0], 0, 0, true, false, 108, 8, false, false), [40, 51], true) == Scanner([3, 0, 0], [5, 0, 0], 1, 0, true, false, 51, 8, false, false)
  {
    var bs := [40, 51];
    assert bs[1..][0] == 51 && bs[1..][1..] == bs[2..];
    assert Step(Scanner([5, 0, 0], [5, 0, 0], 0, 0, true, false, 40, 8, false, false), 51, true) == Scanner([3, 0, 0], [5, 0, 0], 1, 0, true, false, 51, 8, false, false);
    assert bs[0..][0] == 40 && bs[0..][1..] == bs[1..];
    assert Step(Scanner([5, 0, 0], [5, 0, 0], 0, 0, true, false, 108, 8, false, false), 40, true) == Scanner([5, 0, 0], [5, 0, 0], 0, 0, true, false, 40, 8, false, false);
  }

  lemma SampleTwoRow10b()
    ensures RunFrom(Scanner([3, 0, 0], [5, 0, 0], 1, 0, true, false, 51, 8, false, false), [50, 44], true) == Scanner([3, 2, 0], [5, 0, 0], 2, 0, true, false, 44, 8, false, false)
  {
    var bs := [50, 44];
    assert bs[1..][0] == 44 && bs[1..][1..] == bs[2..];
    assert Step(Scanner([3, 2, 0], [5, 0, 0], 2, 0, true, false, 50, 8, false, false), 44, true) == Scanner([3, 2, 0], [5, 0, 0], 2, 0, true, false, 44, 8, false, false);
    assert bs[0..][0] == 50 && bs[0..][1..] == bs[1..];
    assert Step(Scanner([3, 0, 0], [5, 0, 0], 1, 0, true, false, 51, 8, false, false), 50, true) == Scanner([3, 2, 0], [5, 0, 0], 2, 0, true, false, 50, 8, false, false);
  }

  lemma SampleTwoRow10()
    ensures RunFrom(Scanner([5, 0, 0], [5, 0, 0], 0, 0, true, false, 108, 8, false, false), ROW_TWO_10, true) == Scanner([3, 2, 0], [5, 0, 0], 2, 0, true, false, 44, 8, false, false)
  {
    SampleTwoRow10a();
    SampleTwoRow10b();
    RunFromAppend(Scanner([5, 0, 0], [5, 0, 0], 0, 0, true, false, 108, 8, false, false), [40, 51], [50, 44], true);
    assert ROW_TWO_10 == [40, 51] + [50, 44];
  }

  lemma SampleTwoRow11a()
    ensures RunFrom(Scanner([3, 2, 0], [5, 0, 0], 2, 0, true, false, 44, 8, false, false), [54, 52], true) == Scanner([3, 2, 0], [6, 4, 0], 2, 2, true, true, 52, 8, false, false)
  {
    var bs := [54, 52];
    assert bs[1..][0] == 52 && bs[1..][1..] == bs[2..];
    assert Step(Scanner([3, 2, 0], [6, 0, 0], 2, 1, true, true, 54, 8, false, false), 52, true) == Scanner([3, 2, 0], [6, 4, 0], 2, 2, true, true, 52, 8, false, false);
    assert bs[0..][0] == 54 && bs[0..][1..] == bs[1..];
    assert Step(Scanner([3, 2, 0], [5, 0, 0], 2, 0, true, false, 44, 8, false, false), 54, true) == Scanner([3, 2, 0], [6, 0, 0], 2, 1, true, true, 54, 8, false, false);
  }

  lemma SampleTwoRow11b()
    ensures RunFrom(Scanner([3, 2, 0], [6, 4, 0], 2, 2, true, true, 52, 8, false, false), [93, 40], true) == Scanner([3, 2, 0], [6, 4, 0], 0, 0, false, true, 40, 8, false, false)
  {
    var bs := [93, 40];
    assert bs[1..][0] == 40 && bs[1..][1..] == bs[2..];
    assert Step(Scanner([3, 2, 0], [6, 4, 0], 2, 2, false, true, 93, 8, false, false), 40, true) == Scanner([3, 2, 0], [6, 4, 0], 0, 0, false, true, 40, 8, false, false);
    assert bs[0..][0] == 93 && bs[0..][1..] == bs[1..];
    assert Step(Scanner([3, 2, 0], [6, 4, 0], 2, 2, true, true, 52, 8, false, false), 93, true) == Scanner([3, 2, 0], [6, 4, 0], 2, 2, false, true, 93, 8, false, false);
  }

  lemma SampleTwoRow11()
    ensures RunFrom(Scanner([3, 2, 0], [5, 0, 0], 2, 0, true, false, 44, 8, false, false), ROW_TWO_11, true) == Scanner([3, 2, 0], [6, 4, 0], 0, 0, false, true, 40, 8, false, false)
  {
    SampleTwoRow11a();
    SampleTwoRow11b();
    RunFromAppend(Scanner([3, 2, 0], [5, 0, 0], 2, 0, true, false, 44, 8, false, false), [54, 52], [93, 40], true);
    assert ROW_TWO_11 == [54, 52] + [93, 40];
  }

  lemma SampleTwoRow12a()
    ensures RunFrom(Scanner([3, 2, 0], [6, 4, 0], 0, 0, false, true, 40, 8, false, false), [109, 117], true) == Scanner([3, 2, 0], [6, 4, 0], 0, 0, true, true, 117, 8, false, false)
  {
    var bs := [109, 117];
    assert bs[1..][0] == 117 && bs[1..][1..] == bs[2..];
    assert Step(Scanner([3, 2, 0], [6, 4, 0], 0, 0, true, true, 109, 8, false, false), 117, true) == Scanner([3, 2, 0], [6, 4, 0], 0, 0, true, true, 117, 8, false, false);
    assert bs[0..][0] == 109 && bs[0..][1..] == bs[1..];
    assert Step(Scanner([3, 2, 0], [6, 4, 0], 0, 0, false, true, 40, 8, false, false), 109, true) == Scanner([3, 2, 0], [6, 4, 0], 0, 0, true, true, 109, 8, false, false);
  }

  lemma SampleTwoRow12b()
    ensures RunFrom(Scanner([3, 2, 0], [6, 4, 0], 0, 0, true, true, 117, 8, false, false), [108, 40], true) == Scanner([3, 2, 0], [6, 4, 0], 0, 0, true, true, 40, 8, false, false)
  {
    var bs := [108, 40];
    assert bs[1..][0] == 40 && bs[1..][1..] == bs[2..];
    assert Step(Scanner([3, 2, 0], [6, 4, 0], 0, 0, true, true, 108, 8, false, false), 40, true) == Scanner([3, 2, 0], [6, 4, 0], 0, 0, true, true, 40, 8, false, false);
    assert bs[0..][0] == 108 && bs[0..][1..] == bs[1..];
    assert Step(Scanner([3, 2, 0], [6, 4, 0], 0, 0, true, true, 117, 8, false, false), 108, true) == Scanner([3, 2, 0], [6, 4, 0], 0, 0, true, true, 108, 8, false, false);
  }

  lemma SampleTwoRow12()
    ensures RunFrom(Scanner([3, 2, 0], [6, 4, 0], 0, 0, false, true, 40, 8, false, false), ROW_TWO_12, true) == Scanner([3, 2, 0], [6, 4, 0], 0, 0, true, true, 40, 8, false, false)
  {
    SampleTwoRow12a();
    SampleTwoRow12b();
    RunFromAppend(Scanner([3, 2, 0], [6, 4, 0], 0, 0, false, true, 40, 8, false, false), [109, 117], [108, 40], true);
    assert ROW_TWO_12 == [109, 117] + [108, 40];
  }

  lemma SampleTwoRow13a()
    ensures RunFrom(Scanner([3, 2, 0], [6, 4, 0], 0, 0, true, true, 40, 8, false, false), [49, 49], true) == Scanner([1, 1, 0], [6, 4, 0], 2, 0, true, false, 49, 8, false, false)
  {
    var bs := [49, 49];
    assert bs[1..][0] == 49 && bs[1..][1..] == bs[2..];
    assert Step(Scanner([1, 2, 0], [6, 4, 0], 1, 0, true, false, 49, 8, false, false), 49, true) == Scanner([1, 1, 0], [6, 4, 0], 2, 0, true, false, 49, 8, false, false);
    assert bs[0..][0] == 49 && bs[0..][1..] == bs[1..];
    assert Step(Scanner([3, 2, 0], [6, 4, 0], 0, 0, true, true, 40, 8, false, false), 49, true) == Scanner([1, 2, 0], [6, 4, 0], 1, 0, true, false, 49, 8, false, false);
  }

  lemma SampleTwoRow13b()
    ensures RunFrom(Scanner([1, 1, 0], [6, 4, 0], 2, 0, true, false, 49, 8, false, false), [44, 56], true) == Scanner([1, 1, 0], [8, 4, 0], 2, 1, true, true, 56, 8, false, false)
  {
    var bs := [44, 56];
    assert bs[1..][0] == 56 && bs[1..][1..] == bs[2..];
    assert Step(Scanner([1, 1, 0], [6, 4, 0], 2, 0, true, false, 44, 8, false, false), 56, true) == Scanner([1, 1, 0], [8, 4, 0], 2, 1, true, true, 56, 8, false, false);
    assert bs[0..][0] == 44 && bs[0..][1..] == bs[1..];
    assert Step(Scanner([1, 1, 0], [6, 4, 0], 2, 0, true, false, 49, 8, false, false), 44, true) == Scanner([1, 1, 0], [6, 4, 0], 2, 0, true, false, 44, 8, false, false);
  }

  lemma SampleTwoRow13()
    ensures RunFrom(Scanner([3, 2, 0], [6, 4, 0], 0, 0, true, true, 40, 8, false, false), ROW_TWO_13, true) == Scanner([1, 1, 0], [8, 4, 0], 2, 1, true, true, 56, 8, false, false)
  {
    SampleTwoRow13a();
    SampleTwoRow13b();
    RunFromAppend(Scanner([3, 2, 0], [6, 4, 0], 0, 0, true, true, 40, 8, false, false), [49, 49], [44, 56], true);
    assert ROW_TWO_13 == [49, 49] + [44, 56];
  }

  lemma SampleTwoRow14a()
    ensures RunFrom(Scanner([1, 1, 0], [8, 4, 0], 2, 1, true, true, 56, 8, false, false), [41, 117], true) == Scanner([1, 1, 0], [8, 4, 0], 0, 0, false, false, 117, 8, false, false)
  {
    var bs := [41, 117];
    assert bs[1..][0] == 117 && bs[1..][1..] == bs[2..];
    assert Step(Scanner([1, 1, 0], [8, 4, 0], 0, 0, false, false, 41, 8, false, false), 117, true) == Scanner([1, 1, 0], [8, 4, 0], 0, 0, false, false, 117, 8, false, false);
    assert bs[0..][0] == 41 && bs[0..][1..] == bs[1..];
    assert Step(Scanner([1, 1, 0], [8, 4, 0], 2, 1, true, true, 56, 8, false, false), 41, true) == Scanner([1, 1, 0], [8, 4, 0], 0, 0, false, false, 41, 8, false, false);
  }

  lemma SampleTwoRow14b()
    ensures RunFrom(Scanner([1, 1, 0], [8, 4, 0], 0, 0, false, false, 117, 8, false, false), [110, 100], true) == Scanner([1, 1, 0], [8, 4, 0], 0, 0, false, false, 100, 8, false, false)
  {
    var bs := [110, 100];
    assert bs[1..][0] == 100 && bs[1..][1..] == bs[2..];
    assert Step(Scanner([1, 1, 0], [8, 4, 0], 0, 0, false, false, 110, 8, false, false), 100, true) == Scanner([1, 1, 0], [8, 4, 0], 0, 0, false, false, 100, 8, false, false);
    assert bs[0..][0] == 110 && bs[0..][1..] == bs[1..];
    assert Step(Scanner([1, 1, 0], [8, 4, 0], 0, 0, false, false, 117, 8, false, false), 110, true) == Scanner([1, 1, 0], [8, 4, 0], 0, 0, false, false, 110, 8, false, false);
  }

  lemma SampleTwoRow14()
    ensures RunFrom(Scanner([1, 1, 0], [8, 4, 0], 2, 1, true, true, 56, 8, false, false), ROW_TWO_14, true) == Scanner([1, 1, 0], [8, 4, 0], 0, 0, false, false, 100, 8, false, false)
  {
    SampleTwoRow14a();
    SampleTwoRow14b();
    RunFromAppend(Scanner([1, 1, 0], [8, 4, 0], 2, 1, true, true, 56, 8, false, false), [41, 117], [110, 100], true);
    assert ROW_TWO_14 == [41, 117] + [110, 100];
  }

  lemma SampleTwoRow15a()
    ensures RunFrom(Scanner([1, 1, 0], [8, 4, 0], 0, 0, false, false, 100, 8, false, false), [111, 40], true) == Scanner([1, 1, 0], [8, 4, 0], 0, 0, false, false, 40, 8, true, false)
  {
    var bs := [111, 40];
    assert bs[1..][0] == 40 && bs[1..][1..] == bs[2..];
    assert Step(Scanner([1, 1, 0], [8, 4, 0], 0, 0, false, false, 111, 8, false, true), 40, true) == Scanner([1, 1, 0], [8, 4, 0], 0, 0, false, false, 40, 8, true, false);
    assert bs[0..][0] == 111 && bs[0..][1..] == bs[1..];
    assert Step(Scanner([1, 1, 0], [8, 4, 0], 0, 0, false, false, 100, 8, false, false), 111, true) == Scanner([1, 1, 0], [8, 4, 0], 0, 0, false, false, 111, 8, false, true);
  }

  lemma SampleTwoRow15b()
    ensures RunFrom(Scanner([1, 1, 0], [8, 4, 0], 0, 0, false, false, 40, 8, true, false), [41, 63], true) == Scanner([1, 1, 0], [8, 4, 0], 0, 0, false, false, 63, 8, true, false)
  {
    var bs := [41, 63];
    assert bs[1..][0] == 63 && bs[1..][1..] == bs[2..];
    assert Step(Scanner([1, 1, 0], [8, 4, 0], 0, 0, false, false, 41, 8, true, false), 63, true) == Scanner([1, 1, 0], [8, 4, 0], 0, 0, false, false, 63, 8, true, false);
    assert bs[0..][0] == 41 && bs[0..][1..] == bs[1..];
    assert Step(Scanner([1, 1, 0], [8, 4, 0], 0, 0, false, false, 40, 8, true, false), 41, true) == Scanner([1, 1, 0], [8, 4, 0], 0, 0, false, false, 41, 8, true, false);
  }

  lemma SampleTwoRow15()
    ensures RunFrom(Scanner([1, 1, 0], [8, 4, 0], 0, 0, false, false, 100, 8, false, false), ROW_TWO_15, true) == Scanner([1, 1, 0], [8, 4, 0], 0, 0, false, false, 63, 8, true, false)
  {
    SampleTwoRow15a();
    SampleTwoRow15b();
    RunFromAppend(Scanner([1, 1, 0], [8, 4, 0], 0, 0, false, false, 100, 8, false, false), [111, 40], [41, 63], true);
    assert ROW_TWO_15 == [111, 40] + [41, 63];
  }

  lemma SampleTwoRow16a()
    ensures RunFrom(Scanner([1, 1, 0], [8, 4, 0], 0, 0, false, false, 63, 8, true, false), [109, 117], true) == Scanner([1, 1, 0], [8, 4, 0], 0, 0, true, false, 117, 8, true, false)
  {
    var bs := [109, 117];
    assert bs[1..][0] == 117 && bs[1..][1..] == bs[2..];
    assert Step(Scanner([1, 1, 0], [8, 4, 0], 0, 0, true, false, 109, 8, true, false), 117, true) == Scanner([1, 1, 0], [8, 4, 0], 0, 0, true, false, 117, 8, true, false);
    assert bs[0..][0] == 109 && bs[0..][1..] == bs[1..];
    assert Step(Scanner([1, 1, 0], [8, 4, 0], 0, 0, false, false, 63, 8, true, false), 109, true) == Scanner([1, 1, 0], [8, 4, 0], 0, 0, true, false, 109, 8, true, false);
  }

  lemma SampleTwoRow16b()
    ensures RunFrom(Scanner([1, 1, 0], [8, 4, 0], 0, 0, true, false, 117, 8, true, false), [108, 40], true) == Scanner([1, 1, 0], [8, 4, 0], 0, 0, true, false, 40, 8, true, false)
  {
    var bs := [108, 40];
    assert bs[1..][0] == 40 && bs[1..][1..] == bs[2..];
    assert Step(Scanner([1, 1, 0], [8, 4, 0], 0, 0, true, false, 108, 8, true, false), 40, true) == Scanner([1, 1, 0], [8, 4, 0], 0, 0, true, false, 40, 8, true, false);
    assert bs[0..][0] == 108 && bs[0..][1..] == bs[1..];
    assert Step(Scanner([1, 1, 0], [8, 4, 0], 0, 0, true, false, 117, 8, true, false), 108, true) == Scanner([1, 1, 0], [8, 4, 0], 0, 0, true, false, 108, 8, true, false);
  }

  lemma SampleTwoRow16()
    ensures RunFrom(Scanner([1, 1, 0], [8, 4, 0], 0, 0, false, false, 63, 8, true, false), ROW_TWO_16, true) == Scanner([1, 1, 0], [8, 4, 0], 0, 0, true, false, 40, 8, true, false)
  {
    SampleTwoRow16a();
    SampleTwoRow16b();
    RunFromAppend(Scanner([1, 1, 0], [8, 4, 0], 0, 0, false, false, 63, 8, true, false), [109, 117], [108, 40], true);
    assert ROW_TWO_16 == [109, 117] + [108, 40];
  }

  lemma SampleTwoRow17a()
    ensures RunFrom(Scanner([1, 1, 0], [8, 4, 0], 0, 0, true, false, 40, 8, true, false), [56, 44], true) == Scanner([8, 1, 0], [8, 4, 0], 1, 0, true, false, 44, 8, true, false)
  {
    var bs := [56, 44];
    assert bs[1..][0] == 44 && bs[1..][1..] == bs[2..];
    assert Step(Scanner([8, 1, 0], [8, 4, 0], 1, 0, true, false, 56, 8, true, false), 44, true) == Scanner([8, 1, 0], [8, 4, 0], 1, 0, true, false, 44, 8, true, false);
    assert bs[0..][0] == 56 && bs[0..][1..] == bs[1..];
    assert Step(Scanner([1, 1, 0], [8, 4, 0], 0, 0, true, false, 40, 8, true, false), 56, true) == Scanner([8, 1, 0], [8, 4, 0], 1, 0, true, false, 56, 8, true, false);
  }

  lemma SampleTwoRow17b()
    ensures RunFrom(Scanner([8, 1, 0], [8, 4, 0], 1, 0, true, false, 44, 8, true, false), [53, 41], true) == Scanner([8, 1, 0], [5, 4, 0], 0, 0, false, false, 41, 48, true, false)
  {
    var bs := [53, 41];
    assert bs[1..][0] == 41 && bs[1..][1..] == bs[2..];
    assert Step(Scanner([8, 1, 0], [5, 4, 0], 1, 1, true, true, 53, 8, true, false), 41, true) == Scanner([8, 1, 0], [5, 4, 0], 0, 0, false, false, 41, 48, true, false);
    assert bs[0..][0] == 53 && bs[0..][1..] == bs[1..];
    assert Step(Scanner([8, 1, 0], [8, 4, 0], 1, 0, true, false, 44, 8, true, false), 53, true) == Scanner([8, 1, 0], [5, 4, 0], 1, 1, true, true, 53, 8, true, false);
  }

  lemma SampleTwoRow17()
    ensures RunFrom(Scanner([1, 1, 0], [8, 4, 0], 0, 0, true, false, 40, 8, true, false), ROW_TWO_17, true) == Scanner([8, 1, 0], [5, 4, 0], 0, 0, false, false, 41, 48, true, false)
  {
    SampleTwoRow17a();
    SampleTwoRow17b();
    RunFromAppend(Scanner([1, 1, 0], [8, 4, 0], 0, 0, true, false, 40, 8, true, false), [56, 44], [53, 41], true);
    assert ROW_TWO_17 == [56, 44] + [53, 41];
  }

  lemma SampleTwoRow18a()
    ensures RunFrom(Scanner([8, 1, 0], [5, 4, 0], 0, 0, false, false, 41, 48, true, false), [41], true) == Scanner([8, 1, 0], [5, 4, 0], 0, 0, false, false, 41, 48, true, false)
  {
    var bs := [41];
    assert bs[0..][0] == 41 && bs[0..][1..] == bs[1..];
    assert Step(Scanner([8, 1, 0], [5, 4, 0], 0, 0, false, false, 41, 48, true, false), 41, true) == Scanner([8, 1, 0], [5, 4, 0], 0, 0, false, false, 41, 48, true, false);
  }

  lemma SampleTwoRow18()
    ensures RunFrom(Scanner([8, 1, 0], [5, 4, 0], 0, 0, false, false, 41, 48, true, false), ROW_TWO_18, true) == Scanner([8, 1, 0], [5, 4, 0], 0, 0, false, false, 41, 48, true, false)
  {
    SampleTwoRow18a();
  }

  lemma SampleTwoUpTo0()
    ensures RunFrom(Init, ROW_TWO_0, true) == Scanner([0, 0, 0], [0, 0, 0], 0, 0, true, false, 108, 0, true, false)
  {
    SampleTwoRow0();
  }

  lemma SampleTwoUpTo1()
    ensures RunFrom(Init, ROW_TWO_0 + ROW_TWO_1, true) == Scanner([2, 0, 0], [4, 0, 0], 1, 1, true, true, 52, 0, true, false)
  {
    SampleTwoUpTo0();
    RunFromAppend(Init, ROW_TWO_0, ROW_TWO_1, true);
    SampleTwoRow1();
  }

  lemma SampleTwoUpTo2()
    ensures RunFrom(Init, ROW_TWO_0 + ROW_TWO_1 + ROW_TWO_2, true) == Scanner([2, 0, 0], [4, 0, 0], 0, 0, true, false, 117, 8, true, false)
  {
    SampleTwoUpTo1();
    RunFromAppend(Init, ROW_TWO_0 + ROW_TWO_1, ROW_TWO_2, true);
    SampleTwoRow2();
  }

  lemma SampleTwoUpTo3()
    ensures RunFrom(Init, ROW_TWO_0 + ROW_TWO_1 + ROW_TWO_2 + ROW_TWO_3, true) == Scanner([2, 0, 0], [4, 0, 0], 0, 0, false, false, 44, 8, true, false)
  {
    SampleTwoUpTo2();
    RunFromAppend(Init, ROW_TWO_0 + ROW_TWO_1 + ROW_TWO_2, ROW_TWO_3, true);
    SampleTwoRow3();
  }

  lemma SampleTwoUpTo4()
    ensures RunFrom(Init, ROW_TWO_0 + ROW_TWO_1 + ROW_TWO_2 + ROW_TWO_3 + ROW_TWO_4, true) == Scanner([2, 0, 0], [4, 0, 0], 0, 0, false, false, 94, 8, true, false)
  {
    SampleTwoUpTo3();
    RunFromAppend(Init, ROW_TWO_0 + ROW_TWO_1 + ROW_TWO_2 + ROW_TWO_3, ROW_TWO_4, true);
    SampleTwoRow4();
  }

  lemma SampleTwoUpTo5()
    ensures RunFrom(Init, ROW_TWO_0 + ROW_TWO_1 + ROW_TWO_2 + ROW_TWO_3 + ROW_TWO_4 + ROW_TWO_5, true) == Scanner([2, 0, 0], [4, 0, 0], 0, 0, false, false, 39, 8, true, true)
  {
    SampleTwoUpTo4();
    RunFromAppend(Init, ROW_TWO_0 + ROW_TWO_1 + ROW_TWO_2 + ROW_TWO_3 + ROW_TWO_4, ROW_TWO_5, true);
    SampleTwoRow5();
  }

  lemma SampleTwoUpTo6()
    ensures RunFrom(Init, ROW_TWO_0 + ROW_TWO_1 + ROW_TWO_2 + ROW_TWO_3 + ROW_TWO_4 + ROW_TWO_5 + ROW_TWO_6, true) == Scanner([2, 0, 0], [4, 0, 0], 0, 0, false, false, 95, 8, false, false)
  {
    SampleTwoUpTo5();
    RunFromAppend(Init, ROW_TWO_0 + ROW_TWO_1 + ROW_TWO_2 + ROW_TWO_3 + ROW_TWO_4 + ROW_TWO_5, ROW_TWO_6, true);
    SampleTwoRow6();
  }

  lemma SampleTwoUpTo7()
    ensures RunFrom(Init, ROW_TWO_0 + ROW_TWO_1 + ROW_TWO_2 + ROW_TWO_3 + ROW_TWO_4 + ROW_TWO_5 + ROW_TWO_6 + ROW_TWO_7, true) == Scanner([2, 0, 0], [4, 0, 0], 0, 0, true, false, 40, 8, false, false)
  {
    SampleTwoUpTo6();
    RunFromAppend(Init, ROW_TWO_0 + ROW_TWO_1 + ROW_TWO_2 + ROW_TWO_3 + ROW_TWO_4 + ROW_TWO_5 + ROW_TWO_6, ROW_TWO_7, true);
    SampleTwoRow7();
  }

  lemma SampleTwoUpTo8()
    ensures RunFrom(Init, ROW_TWO_0 + ROW_TWO_1 + ROW_TWO_2 + ROW_TWO_3 + ROW_TWO_4 + ROW_TWO_5 + ROW_TWO_6 + ROW_TWO_7 + ROW_TWO_8, true) == Scanner([5, 0, 0], [5, 0, 0], 0, 0, false, false, 41, 8, false, false)
  {
    SampleTwoUpTo7();
    RunFromAppend(Init, ROW_TWO_0 + ROW_TWO_1 + ROW_TWO_2 + ROW_TWO_3 + ROW_TWO_4 + ROW_TWO_5 + ROW_TWO_6 + ROW_TWO_7, ROW_TWO_8, true);
    SampleTwoRow8();
  }

  lemma SampleTwoUpTo9()
    ensures RunFrom(Init, ROW_TWO_0 + ROW_TWO_1 + ROW_TWO_2 + ROW_TWO_3 + ROW_TWO_4 + ROW_TWO_5 + ROW_TWO_6 + ROW_TWO_7 + ROW_TWO_8 + ROW_TWO_9, true) == Scanner([5, 0, 0], [5, 0, 0], 0, 0, true, false, 108, 8, false, false)
  {
    SampleTwoUpTo8();
    RunFromAppend(Init, ROW_TWO_0 + ROW_TWO_1 + ROW_TWO_2 + ROW_TWO_3 + ROW_TWO_4 + ROW_TWO_5 + ROW_TWO_6 + ROW_TWO_7 + ROW_TWO_8, ROW_TWO_9, true);
    SampleTwoRow9();
  }

  lemma SampleTwoUpTo10()
    ensures RunFrom(Init, ROW_TWO_0 + ROW_TWO_1 + ROW_TWO_2 + ROW_TWO_3 + ROW_TWO_4 + ROW_TWO_5 + ROW_TWO_6 + ROW_TWO_7 + ROW_TWO_8 + ROW_TWO_9 + ROW_TWO_10, true) == Scanner([3, 2, 0], [5, 0, 0], 2, 0, true, false, 44, 8, false, false)
  {
    SampleTwoUpTo9();
    RunFromAppend(Init, ROW_TWO_0 + ROW_TWO_1 + ROW_TWO_2 + ROW_TWO_3 + ROW_TWO_4 + ROW_TWO_5 + ROW_TWO_6 + ROW_TWO_7 + ROW_TWO_8 + ROW_TWO_9, ROW_TWO_10, true);
    SampleTwoRow10();
  }

  lemma SampleTwoUpTo11()
    ensures RunFrom(Init, ROW_TWO_0 + ROW_TWO_1 + ROW_TWO_2 + ROW_TWO_3 + ROW_TWO_4 + ROW_TWO_5 + ROW_TWO_6 + ROW_TWO_7 + ROW_TWO_8 + ROW_TWO_9 + ROW_TWO_10 + ROW_TWO_11, true) == Scanner([3, 2, 0], [6, 4, 0], 0, 0, false, true, 40, 8, false, false)
  {
    SampleTwoUpTo10();
    RunFromAppend(Init, ROW_TWO_0 + ROW_TWO_1 + ROW_TWO_2 + ROW_TWO_3 + ROW_TWO_4 + ROW_TWO_5 + ROW_TWO_6 + ROW_TWO_7 + ROW_TWO_8 + ROW_TWO_9 + ROW_TWO_10, ROW_TWO_11, true);
    SampleTwoRow11();
  }

  lemma SampleTwoUpTo12()
    ensures RunFrom(Init, ROW_TWO_0 + ROW_TWO_1 + ROW_TWO_2 + ROW_TWO_3 + ROW_TWO_4 + ROW_TWO_5 + ROW_TWO_6 + ROW_TWO_7 + ROW_TWO_8 + ROW_TWO_9 + ROW_TWO_10 + ROW_TWO_11 + ROW_TWO_12, true) == Scanner([3, 2, 0], [6, 4, 0], 0, 0, true, true, 40, 8, false, false)
  {
    SampleTwoUpTo11();
    RunFromAppend(Init, ROW_TWO_0 + ROW_TWO_1 + ROW_TWO_2 + ROW_TWO_3 + ROW_TWO_4 + ROW_TWO_5 + ROW_TWO_6 + ROW_TWO_7 + ROW_TWO_8 + ROW_TWO_9 + ROW_TWO_10 + ROW_TWO_11, ROW_TWO_12, true);
    SampleTwoRow12();
  }

  lemma SampleTwoUpTo13()
    ensures RunFrom(Init, ROW_TWO_0 + ROW_TWO_1 + ROW_TWO_2 + ROW_TWO_3 + ROW_TWO_4 + ROW_TWO_5 + ROW_TWO_6 + ROW_TWO_7 + ROW_TWO_8 + ROW_TWO_9 + ROW_TWO_10 + ROW_TWO_11 + ROW_TWO_12 + ROW_TWO_13, true) == Scanner([1, 1, 0], [8, 4, 0], 2, 1, true, true, 56, 8, false, false)
  {
    SampleTwoUpTo12();
    RunFromAppend(Init, ROW_TWO_0 + ROW_TWO_1 + ROW_TWO_2 + ROW_TWO_3 + ROW_TWO_4 + ROW_TWO_5 + ROW_TWO_6 + ROW_TWO_7 + ROW_TWO_8 + ROW_TWO_9 + ROW_TWO_10 + ROW_TWO_11 + ROW_TWO_12, ROW_TWO_13, true);
    SampleTwoRow13();
  }

  lemma SampleTwoUpTo14()
    ensures RunFrom(Init, ROW_TWO_0 + ROW_TWO_1 + ROW_TWO_2 + ROW_TWO_3 + ROW_TWO_4 + ROW_TWO_5 + ROW_TWO_6 + ROW_TWO_7 + ROW_TWO_8 + ROW_TWO_9 + ROW_TWO_10 + ROW_TWO_11 + ROW_TWO_12 + ROW_TWO_13 + ROW_TWO_14, true) == Scanner([1, 1, 0], [8, 4, 0], 0, 0, false, false, 100, 8, false, false)
  {
    SampleTwoUpTo13();
    RunFromAppend(Init, ROW_TWO_0 + ROW_TWO_1 + ROW_TWO_2 + ROW_TWO_3 + ROW_TWO_4 + ROW_TWO_5 + ROW_TWO_6 + ROW_TWO_7 + ROW_TWO_8 + ROW_TWO_9 + ROW_TWO_10 + ROW_TWO_11 + ROW_TWO_12 + ROW_TWO_13, ROW_TWO_14, true);
    SampleTwoRow14();
  }

  lemma SampleTwoUpTo15()
    ensures RunFrom(Init, ROW_TWO_0 + ROW_TWO_1 + ROW_TWO_2 + ROW_TWO_3 + ROW_TWO_4 + ROW_TWO_5 + ROW_TWO_6 + ROW_TWO_7 + ROW_TWO_8 + ROW_TWO_9 + ROW_TWO_10 + ROW_TWO_11 + ROW_TWO_12 + ROW_TWO_13 + ROW_TWO_14 + ROW_TWO_15, true) == Scanner([1, 1, 0], [8, 4, 0], 0, 0, false, false, 63, 8, true, false)
  {
    SampleTwoUpTo14();
    RunFromAppend(Init, ROW_TWO_0 + ROW_TWO_1 + ROW_TWO_2 + ROW_TWO_3 + ROW_TWO_4 + ROW_TWO_5 + ROW_TWO_6 + ROW_TWO_7 + ROW_TWO_8 + ROW_TWO_9 + ROW_TWO_10 + ROW_TWO_11 + ROW_TWO_12 + ROW_TWO_13 + ROW_TWO_14, ROW_TWO_15, true);
    SampleTwoRow15();
  }

  lemma SampleTwoUpTo16()
    ensures RunFrom(Init, ROW_TWO_0 + ROW_TWO_1 + ROW_TWO_2 + ROW_TWO_3 + ROW_TWO_4 + ROW_TWO_5 + ROW_TWO_6 + ROW_TWO_7 + ROW_TWO_8 + ROW_TWO_9 + ROW_TWO_10 + ROW_TWO_11 + ROW_TWO_12 + ROW_TWO_13 + ROW_TWO_14 + ROW_TWO_15 + ROW_TWO_16, true) == Scanner([1, 1, 0], [8, 4, 0], 0, 0, true, false, 40, 8, true, false)
  {
    SampleTwoUpTo15();
    RunFromAppend(Init, ROW_TWO_0 + ROW_TWO_1 + ROW_TWO_2 + ROW_TWO_3 + ROW_TWO_4 + ROW_TWO_5 + ROW_TWO_6 + ROW_TWO_7 + ROW_TWO_8 + ROW_TWO_9 + ROW_TWO_10 + ROW_TWO_11 + ROW_TWO_12 + ROW_TWO_13 + ROW_TWO_14 + ROW_TWO_15, ROW_TWO_16, true);
    SampleTwoRow16();
  }

  lemma SampleTwoUpTo17()
    ensures RunFrom(Init, ROW_TWO_0 + ROW_TWO_1 + ROW_TWO_2 + ROW_TWO_3 + ROW_TWO_4 + ROW_TWO_5 + ROW_TWO_6 + ROW_TWO_7 + ROW_TWO_8 + ROW_TWO_9 + ROW_TWO_10 + ROW_TWO_11 + ROW_TWO_12 + ROW_TWO_13 + ROW_TWO_14 + ROW_TWO_15 + ROW_TWO_16 + ROW_TWO_17, true) == Scanner([8, 1, 0], [5, 4, 0], 0, 0, false, false, 41, 48, true, false)
  {
    SampleTwoUpTo16();
    RunFromAppend(Init, ROW_TWO_0 + ROW_TWO_1 + ROW_TWO_2 + ROW_TWO_3 + ROW_TWO_4 + ROW_TWO_5 + ROW_TWO_6 + ROW_TWO_7 + ROW_TWO_8 + ROW_TWO_9 + ROW_TWO_10 + ROW_TWO_11 + ROW_TWO_12 + ROW_TWO_13 + ROW_TWO_14 + ROW_TWO_15 + ROW_TWO_16, ROW_TWO_17, true);
    SampleTwoRow17();
  }

  lemma SampleTwoUpTo18()
    ensures RunFrom(Init, ROW_TWO_0 + ROW_TWO_1 + ROW_TWO_2 + ROW_TWO_3 + ROW_TWO_4 + ROW_TWO_5 + ROW_TWO_6 + ROW_TWO_7 + ROW_TWO_8 + ROW_TWO_9 + ROW_TWO_10 + ROW_TWO_11 + ROW_TWO_12 + ROW_TWO_13 + ROW_TWO_14 + ROW_TWO_15 + ROW_TWO_16 + ROW_TWO_17 + ROW_TWO_18, true) == Scanner([8, 1, 0], [5, 4, 0], 0, 0, false, false, 41, 48, true, false)
  {
    SampleTwoUpTo17();
    RunFromAppend(Init, ROW_TWO_0 + ROW_TWO_1 + ROW_TWO_2 + ROW_TWO_3 + ROW_TWO_4 + ROW_TWO_5 + ROW_TWO_6 + ROW_TWO_7 + ROW_TWO_8 + ROW_TWO_9 + ROW_TWO_10 + ROW_TWO_11 + ROW_TWO_12 + ROW_TWO_13 + ROW_TWO_14 + ROW_TWO_15 + ROW_TWO_16 + ROW_TWO_17, ROW_TWO_18, true);
    SampleTwoRow18();
  }

  /** `part2` of the sample is 48. */
  lemma SampleTwoPart2()
    ensures Run(SAMPLE_INPUT_2, true).sum == 48
  {
    SampleTwoUpTo18();
  }

  /** "mul(1,2,3)" */
  const EXTRA_COMMA: seq<byte> := [109, 117, 108, 40, 49, 44, 50, 44, 51, 41]

  /** The scanner after "mul(1,2", and after "mul(1,2,3". */
  const READ_1_2: Scanner := Scanner([1, 0, 0], [2, 0, 0], 1, 1, true, true, 50, 0, true, false)
  const READ_1_23: Scanner := Scanner([1, 0, 0], [2, 3, 0], 1, 2, true, true, 51, 0, true, false)

  /** The spelling of "mul(1," and of the 2 after it. */
  lemma ExtraCommaOpen()
    ensures DigitBytes(NatToString(1)) == [49] && DigitBytes(NatToString(2)) == [50]
    ensures MulOpen(1) + [50] + [44, 51, 41] == EXTRA_COMMA
  {
    assert NatToString(1) == "1" && NatToString(2) == "2";
    assert DigitBytes("1") == [49] && DigitBytes("2") == [50];
    assert MulOpen(1) == [109, 117, 108, 40, 49, 44];
  }

  /** The ')' of "mul(1,2,3)", with 1 in `x` and 2, 3 in `y`, adds 1*23. */
  lemma ExtraCommaClose(doDo: bool)
    ensures RunFrom(READ_1_23, [41], doDo).sum == 23
  {
    var s9 := READ_1_23;
    StepClose(s9, doDo);
    assert Operand(s9.x, 1) == 1 && Operand(s9.y, 2) == 23;
    RunFromCons(s9, [41], doDo);
    assert [41][1..] == [];
  }

  /** ",3" after "mul(1,2": the ',' keeps the parse and the 3 joins the 2. */
  lemma ExtraCommaDigit(doDo: bool)
    ensures RunFrom(READ_1_2, [44, 51, 41], doDo)
      == RunFrom(READ_1_23, [41], doDo)
  {
    var s7 := READ_1_2;
    StepSecondComma(s7, doDo);
    var s8 := s7.(prev := COMMA);
    StepYDigit(s8, 51, doDo);
    assert s8.(y := s8.y[1 := 3], yLen := 2, prev := 51, foundComma := true)
      == READ_1_23;
    var bs := [44, 51, 41];
    RunFromCons(s7, bs, doDo);
    RunFromCons(s8, bs[1..], doDo);
    assert bs[1..] == [51, 41] && bs[1..][1..] == [41];
  }

  /** The second ',' of "mul(1,2,3)" does not end the parse, and the 3 joins
      the 2 in `y`: 1*23 is added. */
  lemma ExtraComma(doDo: bool)
    ensures Run(EXTRA_COMMA, doDo).sum == 23
  {
    ExtraCommaOpen();
    ReadMulOperands(Init, 1, 2, doDo);
    var s5 := AfterX(Opened(Init), [49]).(prev := COMMA);
    AfterXOne(Opened(Init), [49]);
    AfterYOne(s5, [50]);
    assert AfterY(s5, [50]) == READ_1_2;
    ExtraCommaDigit(doDo);
    ExtraCommaClose(doDo);
    RunFromAppend(Init, MulOpen(1) + [50], [44, 51, 41], doDo);
  }
}
