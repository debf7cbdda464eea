/**
 * The sample map of the day 6 tests (src/day6.rs:137-146) and the answer 41
 * that `part1_given_input` expects (src/day6.rs:153-156). The walk is
 * followed one call of `next` at a time: it yields 45 items, over 41
 * distinct indices, and then stops at the top edge.
 */
module Day6Samples {
  import opened Text
  import opened Day6

  const ROW_0: seq<byte> := [46, 46, 46, 46, 35, 46, 46, 46, 46, 46, 10]
  const ROW_1: seq<byte> := [46, 46, 46, 46, 46, 46, 46, 46, 46, 35, 10]
  const ROW_2: seq<byte> := [46, 46, 46, 46, 46, 46, 46, 46, 46, 46, 10]
  const ROW_3: seq<byte> := [46, 46, 35, 46, 46, 46, 46, 46, 46, 46, 10]
  const ROW_4: seq<byte> := [46, 46, 46, 46, 46, 46, 46, 35, 46, 46, 10]
  const ROW_5: seq<byte> := [46, 46, 46, 46, 46, 46, 46, 46, 46, 46, 10]
  const ROW_6: seq<byte> := [46, 35, 46, 46, 94, 46, 46, 46, 46, 46, 10]
  const ROW_7: seq<byte> := [46, 46, 46, 46, 46, 46, 46, 46, 35, 46, 10]
  const ROW_8: seq<byte> := [35, 46, 46, 46, 46, 46, 46, 46, 46, 46, 10]
  const ROW_9: seq<byte> := [46, 46, 46, 46, 46, 46, 35, 46, 46, 46]

  /** The rows from row `r` on (a long display is costly to index). */
  const TAIL_9: seq<byte> := ROW_9
  const TAIL_8: seq<byte> := ROW_8 + TAIL_9
  const TAIL_7: seq<byte> := ROW_7 + TAIL_8
  const TAIL_6: seq<byte> := ROW_6 + TAIL_7
  const TAIL_5: seq<byte> := ROW_5 + TAIL_6
  const TAIL_4: seq<byte> := ROW_4 + TAIL_5
  const TAIL_3: seq<byte> := ROW_3 + TAIL_4
  const TAIL_2: seq<byte> := ROW_2 + TAIL_3
  const TAIL_1: seq<byte> := ROW_1 + TAIL_2
  const TAIL_0: seq<byte> := ROW_0 + TAIL_1
  const SAMPLE: seq<byte> := TAIL_0

  lemma Bytes0()
    ensures |SAMPLE| == 109
    ensures SAMPLE[0] == 46
    ensures SAMPLE[1] == 46
    ensures SAMPLE[2] == 46
    ensures SAMPLE[3] == 46
    ensures SAMPLE[4] == 35
    ensures SAMPLE[5] == 46
    ensures SAMPLE[6] == 46
    ensures SAMPLE[7] == 46
    ensures SAMPLE[8] == 46
    ensures SAMPLE[9] == 46
    ensures SAMPLE[10] == 10
  {
  }

  lemma Bytes1()
    ensures |SAMPLE| == 109
    ensures SAMPLE[11] == 46
    ensures SAMPLE[12] == 46
    ensures SAMPLE[13] == 46
    ensures SAMPLE[14] == 46
    ensures SAMPLE[15] == 46
    ensures SAMPLE[16] == 46
    ensures SAMPLE[17] == 46
    ensures SAMPLE[18] == 46
    ensures SAMPLE[19] == 46
    ensures SAMPLE[20] == 35
    ensures SAMPLE[21] == 10
  {
  }

  lemma Bytes2()
    ensures |SAMPLE| == 109
    ensures SAMPLE[22] == 46
    ensures SAMPLE[23] == 46
    ensures SAMPLE[24] == 46
    ensures SAMPLE[25] == 46
    ensures SAMPLE[26] == 46
    ensures SAMPLE[27] == 46
    ensures SAMPLE[28] == 46
    ensures SAMPLE[29] == 46
    ensures SAMPLE[30] == 46
    ensures SAMPLE[31] == 46
    ensures SAMPLE[32] == 10
  {
  }

  lemma Bytes3()
    ensures |SAMPLE| == 109
    ensures SAMPLE[33] == 46
    ensures SAMPLE[34] == 46
    ensures SAMPLE[35] == 35
    ensures SAMPLE[36] == 46
    ensures SAMPLE[37] == 46
    ensures SAMPLE[38] == 46
    ensures SAMPLE[39] == 46
    ensures SAMPLE[40] == 46
    ensures SAMPLE[41] == 46
    ensures SAMPLE[42] == 46
    ensures SAMPLE[43] == 10
  {
  }

  lemma Bytes4()
    ensures |SAMPLE| == 109
    ensures SAMPLE[44] == 46
    ensures SAMPLE[45] == 46
    ensures SAMPLE[46] == 46
    ensures SAMPLE[47] == 46
    ensures SAMPLE[48] == 46
    ensures SAMPLE[49] == 46
    ensures SAMPLE[50] == 46
    ensures SAMPLE[51] == 35
    ensures SAMPLE[52] == 46
    ensures SAMPLE[53] == 46
    ensures SAMPLE[54] == 10
  {
  }

  lemma Bytes5()
    ensures |SAMPLE| == 109
    ensures SAMPLE[55] == 46
    ensures SAMPLE[56] == 46
    ensures SAMPLE[57] == 46
    ensures SAMPLE[58] == 46
    ensures SAMPLE[59] == 46
    ensures SAMPLE[60] == 46
    ensures SAMPLE[61] == 46
    ensures SAMPLE[62] == 46
    ensures SAMPLE[63] == 46
    ensures SAMPLE[64] == 46
    ensures SAMPLE[65] == 10
  {
  }

  lemma Bytes6()
    ensures |SAMPLE| == 109
    ensures SAMPLE[66] == 46
    ensures SAMPLE[67] == 35
    ensures SAMPLE[68] == 46
    ensures SAMPLE[69] == 46
    ensures SAMPLE[70] == 94
    ensures SAMPLE[71] == 46
    ensures SAMPLE[72] == 46
    ensures SAMPLE[73] == 46
    ensures SAMPLE[74] == 46
    ensures SAMPLE[75] == 46
    ensures SAMPLE[76] == 10
  {
  }

  lemma Bytes7()
    ensures |SAMPLE| == 109
    ensures SAMPLE[77] == 46
    ensures SAMPLE[78] == 46
    ensures SAMPLE[79] == 46
    ensures SAMPLE[80] == 46
    ensures SAMPLE[81] == 46
    ensures SAMPLE[82] == 46
    ensures SAMPLE[83] == 46
    ensures SAMPLE[84] == 46
    ensures SAMPLE[85] == 35
    ensures SAMPLE[86] == 46
    ensures SAMPLE[87] == 10
  {
  }

  lemma Bytes8()
    ensures |SAMPLE| == 109
    ensures SAMPLE[88] == 35
    ensures SAMPLE[89] == 46
    ensures SAMPLE[90] == 46
    ensures SAMPLE[91] == 46
    ensures SAMPLE[92] == 46
    ensures SAMPLE[93] == 46
    ensures SAMPLE[94] == 46
    ensures SAMPLE[95] == 46
    ensures SAMPLE[96] == 46
    ensures SAMPLE[97] == 46
    ensures SAMPLE[98] == 10
  {
  }

  lemma Bytes9()
    ensures |SAMPLE| == 109
    ensures SAMPLE[99] == 46
    ensures SAMPLE[100] == 46
    ensures SAMPLE[101] == 46
    ensures SAMPLE[102] == 46
    ensures SAMPLE[103] == 46
    ensures SAMPLE[104] == 46
    ensures SAMPLE[105] == 35
    ensures SAMPLE[106] == 46
    ensures SAMPLE[107] == 46
    ensures SAMPLE[108] == 46
  {
  }

  /** Indices as a set, one item at a time. */
  lemma IndicesCons(x: Item, s: seq<Item>)
    ensures Indices([x] + s) == {x.1} + Indices(s)
  {
    var t := [x] + s;
    forall i | i in Indices(t) ensures i in {x.1} + Indices(s) {
      var k :| 0 <= k < |t| && t[k].1 == i;
      if k > 0 { assert s[k - 1] == t[k]; }
    }
    assert t[0] == x;
    forall i | i in Indices(s) ensures i in Indices(t) {
      var k :| 0 <= k < |s| && s[k].1 == i;
      assert t[k + 1] == s[k];
    }
  }


  /** The stride is 11: ten cells and a '\n'. */
  lemma SampleStride()
    ensures SAMPLE != [] && LineLen(SAMPLE) == 11
  {
    Bytes0();
    FirstRowEnd();
    IndexOfPrefix(ROW_0, TAIL_1, NL);
  }

  lemma FirstRowEnd()
    ensures NL in ROW_0 && IndexOf(ROW_0, NL) == 10
  {
  }

  lemma CaretInRow()
    ensures IndexOf(ROW_6, CARET) == 4
  {
  }

  lemma CaretFrom6()
    ensures IndexOf(TAIL_6, CARET) == 4
  {
    CaretInRow();
    IndexOfPrefix(ROW_6, TAIL_7, CARET);
  }

  lemma CaretFrom5()
    ensures IndexOf(TAIL_5, CARET) == 15
  {
    CaretFrom6();
    IndexOfAbsent(ROW_5, TAIL_6, CARET);
  }

  lemma CaretFrom4()
    ensures IndexOf(TAIL_4, CARET) == 26
  {
    CaretFrom5();
    IndexOfAbsent(ROW_4, TAIL_5, CARET);
  }

  lemma CaretFrom3()
    ensures IndexOf(TAIL_3, CARET) == 37
  {
    CaretFrom4();
    IndexOfAbsent(ROW_3, TAIL_4, CARET);
  }

  lemma CaretFrom2()
    ensures IndexOf(TAIL_2, CARET) == 48
  {
    CaretFrom3();
    IndexOfAbsent(ROW_2, TAIL_3, CARET);
  }

  lemma CaretFrom1()
    ensures IndexOf(TAIL_1, CARET) == 59
  {
    CaretFrom2();
    IndexOfAbsent(ROW_1, TAIL_2, CARET);
  }

  lemma CaretFrom0()
    ensures IndexOf(TAIL_0, CARET) == 70
  {
    CaretFrom1();
    IndexOfAbsent(ROW_0, TAIL_1, CARET);
  }

  /** The walk starts on the '^' at index 70. */
  lemma SampleStart()
    ensures SAMPLE != [] && CARET in SAMPLE && LineLen(SAMPLE) == 11
    ensures Start(SAMPLE) == Walker(Some((94, 70)), Pose(Up, -11, 70))
  {
    SampleStride();
    CaretFrom0();
    Bytes6();
  }

  /** Call `k` of `next`: the new walker and the item it yields. */
  lemma Next0()
    ensures WalkerOk(Walker(Some((94, 70)), Pose(Up, -11, 70)), SAMPLE, 11) ==> NextOf(Walker(Some((94, 70)), Pose(Up, -11, 70)), SAMPLE, 11) == (Walker(Some((46, 59)), Pose(Up, -11, 59)), Some((94, 70)))
  {
    assert |SAMPLE| == 109 by { Bytes0(); }
    assert SAMPLE[59] == 46 by { Bytes5(); }
  }

  lemma Next1()
    ensures WalkerOk(Walker(Some((46, 59)), Pose(Up, -11, 59)), SAMPLE, 11) ==> NextOf(Walker(Some((46, 59)), Pose(Up, -11, 59)), SAMPLE, 11) == (Walker(Some((46, 48)), Pose(Up, -11, 48)), Some((46, 59)))
  {
    assert |SAMPLE| == 109 by { Bytes0(); }
    assert SAMPLE[48] == 46 by { Bytes4(); }
  }

  lemma Next2()
    ensures WalkerOk(Walker(Some((46, 48)), Pose(Up, -11, 48)), SAMPLE, 11) ==> NextOf(Walker(Some((46, 48)), Pose(Up, -11, 48)), SAMPLE, 11) == (Walker(Some((46, 37)), Pose(Up, -11, 37)), Some((46, 48)))
  {
    assert |SAMPLE| == 109 by { Bytes0(); }
    assert SAMPLE[37] == 46 by { Bytes3(); }
  }

  lemma Next3()
    ensures WalkerOk(Walker(Some((46, 37)), Pose(Up, -11, 37)), SAMPLE, 11) ==> NextOf(Walker(Some((46, 37)), Pose(Up, -11, 37)), SAMPLE, 11) == (Walker(Some((46, 26)), Pose(Up, -11, 26)), Some((46, 37)))
  {
    assert |SAMPLE| == 109 by { Bytes0(); }
    assert SAMPLE[26] == 46 by { Bytes2(); }
  }

  lemma Next4()
    ensures WalkerOk(Walker(Some((46, 26)), Pose(Up, -11, 26)), SAMPLE, 11) ==> NextOf(Walker(Some((46, 26)), Pose(Up, -11, 26)), SAMPLE, 11) == (Walker(Some((46, 15)), Pose(Up, -11, 15)), Some((46, 26)))
  {
    assert |SAMPLE| == 109 by { Bytes0(); }
    assert SAMPLE[15] == 46 by { Bytes1(); }
  }

  lemma Next5()
    ensures WalkerOk(Walker(Some((46, 15)), Pose(Up, -11, 15)), SAMPLE, 11) ==> NextOf(Walker(Some((46, 15)), Pose(Up, -11, 15)), SAMPLE, 11) == (Walker(Some((46, 16)), Pose(Right, 1, 16)), Some((46, 15)))
  {
    assert |SAMPLE| == 109 by { Bytes0(); }
    assert SAMPLE[4] == 35 by { Bytes0(); }
    assert SAMPLE[16] == 46 by { Bytes1(); }
  }

  lemma Next6()
    ensures WalkerOk(Walker(Some((46, 16)), Pose(Right, 1, 16)), SAMPLE, 11) ==> NextOf(Walker(Some((46, 16)), Pose(Right, 1, 16)), SAMPLE, 11) == (Walker(Some((46, 17)), Pose(Right, 1, 17)), Some((46, 16)))
  {
    assert |SAMPLE| == 109 by { Bytes0(); }
    assert SAMPLE[17] == 46 by { Bytes1(); }
  }

  lemma Next7()
    ensures WalkerOk(Walker(Some((46, 17)), Pose(Right, 1, 17)), SAMPLE, 11) ==> NextOf(Walker(Some((46, 17)), Pose(Right, 1, 17)), SAMPLE, 11) == (Walker(Some((46, 18)), Pose(Right, 1, 18)), Some((46, 17)))
  {
    assert |SAMPLE| == 109 by { Bytes0(); }
    assert SAMPLE[18] == 46 by { Bytes1(); }
  }

  lemma Next8()
    ensures WalkerOk(Walker(Some((46, 18)), Pose(Right, 1, 18)), SAMPLE, 11) ==> NextOf(Walker(Some((46, 18)), Pose(Right, 1, 18)), SAMPLE, 11) == (Walker(Some((46, 19)), Pose(Right, 1, 19)), Some((46, 18)))
  {
    assert |SAMPLE| == 109 by { Bytes0(); }
    assert SAMPLE[19] == 46 by { Bytes1(); }
  }

  lemma Next9()
    ensures WalkerOk(Walker(Some((46, 19)), Pose(Right, 1, 19)), SAMPLE, 11) ==> NextOf(Walker(Some((46, 19)), Pose(Right, 1, 19)), SAMPLE, 11) == (Walker(Some((46, 30)), Pose(Down, 11, 30)), Some((46, 19)))
  {
    assert |SAMPLE| == 109 by { Bytes0(); }
    assert SAMPLE[20] == 35 by { Bytes1(); }
    assert SAMPLE[30] == 46 by { Bytes2(); }
  }

  lemma Next10()
    ensures WalkerOk(Walker(Some((46, 30)), Pose(Down, 11, 30)), SAMPLE, 11) ==> NextOf(Walker(Some((46, 30)), Pose(Down, 11, 30)), SAMPLE, 11) == (Walker(Some((46, 41)), Pose(Down, 11, 41)), Some((46, 30)))
  {
    assert |SAMPLE| == 109 by { Bytes0(); }
    assert SAMPLE[41] == 46 by { Bytes3(); }
  }

  lemma Next11()
    ensures WalkerOk(Walker(Some((46, 41)), Pose(Down, 11, 41)), SAMPLE, 11) ==> NextOf(Walker(Some((46, 41)), Pose(Down, 11, 41)), SAMPLE, 11) == (Walker(Some((46, 52)), Pose(Down, 11, 52)), Some((46, 41)))
  {
    assert |SAMPLE| == 109 by { Bytes0(); }
    assert SAMPLE[52] == 46 by { Bytes4(); }
  }

  lemma Next12()
    ensures WalkerOk(Walker(Some((46, 52)), Pose(Down, 11, 52)), SAMPLE, 11) ==> NextOf(Walker(Some((46, 52)), Pose(Down, 11, 52)), SAMPLE, 11) == (Walker(Some((46, 63)), Pose(Down, 11, 63)), Some((46, 52)))
  {
    assert |SAMPLE| == 109 by { Bytes0(); }
    assert SAMPLE[63] == 46 by { Bytes5(); }
  }

  lemma Next13()
    ensures WalkerOk(Walker(Some((46, 63)), Pose(Down, 11, 63)), SAMPLE, 11) ==> NextOf(Walker(Some((46, 63)), Pose(Down, 11, 63)), SAMPLE, 11) == (Walker(Some((46, 74)), Pose(Down, 11, 74)), Some((46, 63)))
  {
    assert |SAMPLE| == 109 by { Bytes0(); }
    assert SAMPLE[74] == 46 by { Bytes6(); }
  }

  lemma Next14()
    ensures WalkerOk(Walker(Some((46, 74)), Pose(Down, 11, 74)), SAMPLE, 11) ==> NextOf(Walker(Some((46, 74)), Pose(Down, 11, 74)), SAMPLE, 11) == (Walker(Some((46, 73)), Pose(Left, -1, 73)), Some((46, 74)))
  {
    assert |SAMPLE| == 109 by { Bytes0(); }
    assert SAMPLE[73] == 46 by { Bytes6(); }
    assert SAMPLE[85] == 35 by { Bytes7(); }
  }

  lemma Next15()
    ensures WalkerOk(Walker(Some((46, 73)), Pose(Left, -1, 73)), SAMPLE, 11) ==> NextOf(Walker(Some((46, 73)), Pose(Left, -1, 73)), SAMPLE, 11) == (Walker(Some((46, 72)), Pose(Left, -1, 72)), Some((46, 73)))
  {
    assert |SAMPLE| == 109 by { Bytes0(); }
    assert SAMPLE[72] == 46 by { Bytes6(); }
  }

  lemma Next16()
    ensures WalkerOk(Walker(Some((46, 72)), Pose(Left, -1, 72)), SAMPLE, 11) ==> NextOf(Walker(Some((46, 72)), Pose(Left, -1, 72)), SAMPLE, 11) == (Walker(Some((46, 71)), Pose(Left, -1, 71)), Some((46, 72)))
  {
    assert |SAMPLE| == 109 by { Bytes0(); }
    assert SAMPLE[71] == 46 by { Bytes6(); }
  }

  lemma Next17()
    ensures WalkerOk(Walker(Some((46, 71)), Pose(Left, -1, 71)), SAMPLE, 11) ==> NextOf(Walker(Some((46, 71)), Pose(Left, -1, 71)), SAMPLE, 11) == (Walker(Some((94, 70)), Pose(Left, -1, 70)), Some((46, 71)))
  {
    assert |SAMPLE| == 109 by { Bytes0(); }
    assert SAMPLE[70] == 94 by { Bytes6(); }
  }

  lemma Next18()
    ensures WalkerOk(Walker(Some((94, 70)), Pose(Left, -1, 70)), SAMPLE, 11) ==> NextOf(Walker(Some((94, 70)), Pose(Left, -1, 70)), SAMPLE, 11) == (Walker(Some((46, 69)), Pose(Left, -1, 69)), Some((94, 70)))
  {
    assert |SAMPLE| == 109 by { Bytes0(); }
    assert SAMPLE[69] == 46 by { Bytes6(); }
  }

  lemma Next19()
    ensures WalkerOk(Walker(Some((46, 69)), Pose(Left, -1, 69)), SAMPLE, 11) ==> NextOf(Walker(Some((46, 69)), Pose(Left, -1, 69)), SAMPLE, 11) == (Walker(Some((46, 68)), Pose(Left, -1, 68)), Some((46, 69)))
  {
    assert |SAMPLE| == 109 by { Bytes0(); }
    assert SAMPLE[68] == 46 by { Bytes6(); }
  }

  lemma Next20()
    ensures WalkerOk(Walker(Some((46, 68)), Pose(Left, -1, 68)), SAMPLE, 11) ==> NextOf(Walker(Some((46, 68)), Pose(Left, -1, 68)), SAMPLE, 11) == (Walker(Some((46, 57)), Pose(Up, -11, 57)), Some((46, 68)))
  {
    assert |SAMPLE| == 109 by { Bytes0(); }
    assert SAMPLE[57] == 46 by { Bytes5(); }
    assert SAMPLE[67] == 35 by { Bytes6(); }
  }

  lemma Next21()
    ensures WalkerOk(Walker(Some((46, 57)), Pose(Up, -11, 57)), SAMPLE, 11) ==> NextOf(Walker(Some((46, 57)), Pose(Up, -11, 57)), SAMPLE, 11) == (Walker(Some((46, 46)), Pose(Up, -11, 46)), Some((46, 57)))
  {
    assert |SAMPLE| == 109 by { Bytes0(); }
    assert SAMPLE[46] == 46 by { Bytes4(); }
  }

  lemma Next22()
    ensures WalkerOk(Walker(Some((46, 46)), Pose(Up, -11, 46)), SAMPLE, 11) ==> NextOf(Walker(Some((46, 46)), Pose(Up, -11, 46)), SAMPLE, 11) == (Walker(Some((46, 47)), Pose(Right, 1, 47)), Some((46, 46)))
  {
    assert |SAMPLE| == 109 by { Bytes0(); }
    assert SAMPLE[35] == 35 by { Bytes3(); }
    assert SAMPLE[47] == 46 by { Bytes4(); }
  }

  lemma Next23()
    ensures WalkerOk(Walker(Some((46, 47)), Pose(Right, 1, 47)), SAMPLE, 11) ==> NextOf(Walker(Some((46, 47)), Pose(Right, 1, 47)), SAMPLE, 11) == (Walker(Some((46, 48)), Pose(Right, 1, 48)), Some((46, 47)))
  {
    assert |SAMPLE| == 109 by { Bytes0(); }
    assert SAMPLE[48] == 46 by { Bytes4(); }
  }

  lemma Next24()
    ensures WalkerOk(Walker(Some((46, 48)), Pose(Right, 1, 48)), SAMPLE, 11) ==> NextOf(Walker(Some((46, 48)), Pose(Right, 1, 48)), SAMPLE, 11) == (Walker(Some((46, 49)), Pose(Right, 1, 49)), Some((46, 48)))
  {
    assert |SAMPLE| == 109 by { Bytes0(); }
    assert SAMPLE[49] == 46 by { Bytes4(); }
  }

  lemma Next25()
    ensures WalkerOk(Walker(Some((46, 49)), Pose(Right, 1, 49)), SAMPLE, 11) ==> NextOf(Walker(Some((46, 49)), Pose(Right, 1, 49)), SAMPLE, 11) == (Walker(Some((46, 50)), Pose(Right, 1, 50)), Some((46, 49)))
  {
    assert |SAMPLE| == 109 by { Bytes0(); }
    assert SAMPLE[50] == 46 by { Bytes4(); }
  }

  lemma Next26()
    ensures WalkerOk(Walker(Some((46, 50)), Pose(Right, 1, 50)), SAMPLE, 11) ==> NextOf(Walker(Some((46, 50)), Pose(Right, 1, 50)), SAMPLE, 11) == (Walker(Some((46, 61)), Pose(Down, 11, 61)), Some((46, 50)))
  {
    assert |SAMPLE| == 109 by { Bytes0(); }
    assert SAMPLE[51] == 35 by { Bytes4(); }
    assert SAMPLE[61] == 46 by { Bytes5(); }
  }

  lemma Next27()
    ensures WalkerOk(Walker(Some((46, 61)), Pose(Down, 11, 61)), SAMPLE, 11) ==> NextOf(Walker(Some((46, 61)), Pose(Down, 11, 61)), SAMPLE, 11) == (Walker(Some((46, 72)), Pose(Down, 11, 72)), Some((46, 61)))
  {
    assert |SAMPLE| == 109 by { Bytes0(); }
    assert SAMPLE[72] == 46 by { Bytes6(); }
  }

  lemma Next28()
    ensures WalkerOk(Walker(Some((46, 72)), Pose(Down, 11, 72)), SAMPLE, 11) ==> NextOf(Walker(Some((46, 72)), Pose(Down, 11, 72)), SAMPLE, 11) == (Walker(Some((46, 83)), Pose(Down, 11, 83)), Some((46, 72)))
  {
    assert |SAMPLE| == 109 by { Bytes0(); }
    assert SAMPLE[83] == 46 by { Bytes7(); }
  }

  lemma Next29()
    ensures WalkerOk(Walker(Some((46, 83)), Pose(Down, 11, 83)), SAMPLE, 11) ==> NextOf(Walker(Some((46, 83)), Pose(Down, 11, 83)), SAMPLE, 11) == (Walker(Some((46, 94)), Pose(Down, 11, 94)), Some((46, 83)))
  {
    assert |SAMPLE| == 109 by { Bytes0(); }
    assert SAMPLE[94] == 46 by { Bytes8(); }
  }

  lemma Next30()
    ensures WalkerOk(Walker(Some((46, 94)), Pose(Down, 11, 94)), SAMPLE, 11) ==> NextOf(Walker(Some((46, 94)), Pose(Down, 11, 94)), SAMPLE, 11) == (Walker(Some((46, 93)), Pose(Left, -1, 93)), Some((46, 94)))
  {
    assert |SAMPLE| == 109 by { Bytes0(); }
    assert SAMPLE[93] == 46 by { Bytes8(); }
    assert SAMPLE[105] == 35 by { Bytes9(); }
  }

  lemma Next31()
    ensures WalkerOk(Walker(Some((46, 93)), Pose(Left, -1, 93)), SAMPLE, 11) ==> NextOf(Walker(Some((46, 93)), Pose(Left, -1, 93)), SAMPLE, 11) == (Walker(Some((46, 92)), Pose(Left, -1, 92)), Some((46, 93)))
  {
    assert |SAMPLE| == 109 by { Bytes0(); }
    assert SAMPLE[92] == 46 by { Bytes8(); }
  }

  lemma Next32()
    ensures WalkerOk(Walker(Some((46, 92)), Pose(Left, -1, 92)), SAMPLE, 11) ==> NextOf(Walker(Some((46, 92)), Pose(Left, -1, 92)), SAMPLE, 11) == (Walker(Some((46, 91)), Pose(Left, -1, 91)), Some((46, 92)))
  {
    assert |SAMPLE| == 109 by { Bytes0(); }
    assert SAMPLE[91] == 46 by { Bytes8(); }
  }

  lemma Next33()
    ensures WalkerOk(Walker(Some((46, 91)), Pose(Left, -1, 91)), SAMPLE, 11) ==> NextOf(Walker(Some((46, 91)), Pose(Left, -1, 91)), SAMPLE, 11) == (Walker(Some((46, 90)), Pose(Left, -1, 90)), Some((46, 91)))
  {
    assert |SAMPLE| == 109 by { Bytes0(); }
    assert SAMPLE[90] == 46 by { Bytes8(); }
  }

  lemma Next34()
    ensures WalkerOk(Walker(Some((46, 90)), Pose(Left, -1, 90)), SAMPLE, 11) ==> NextOf(Walker(Some((46, 90)), Pose(Left, -1, 90)), SAMPLE, 11) == (Walker(Some((46, 89)), Pose(Left, -1, 89)), Some((46, 90)))
  {
    assert |SAMPLE| == 109 by { Bytes0(); }
    assert SAMPLE[89] == 46 by { Bytes8(); }
  }

  lemma Next35()
    ensures WalkerOk(Walker(Some((46, 89)), Pose(Left, -1, 89)), SAMPLE, 11) ==> NextOf(Walker(Some((46, 89)), Pose(Left, -1, 89)), SAMPLE, 11) == (Walker(Some((46, 78)), Pose(Up, -11, 78)), Some((46, 89)))
  {
    assert |SAMPLE| == 109 by { Bytes0(); }
    assert SAMPLE[78] == 46 by { Bytes7(); }
    assert SAMPLE[88] == 35 by { Bytes8(); }
  }

  lemma Next36()
    ensures WalkerOk(Walker(Some((46, 78)), Pose(Up, -11, 78)), SAMPLE, 11) ==> NextOf(Walker(Some((46, 78)), Pose(Up, -11, 78)), SAMPLE, 11) == (Walker(Some((46, 79)), Pose(Right, 1, 79)), Some((46, 78)))
  {
    assert |SAMPLE| == 109 by { Bytes0(); }
    assert SAMPLE[67] == 35 by { Bytes6(); }
    assert SAMPLE[79] == 46 by { Bytes7(); }
  }

  lemma Next37()
    ensures WalkerOk(Walker(Some((46, 79)), Pose(Right, 1, 79)), SAMPLE, 11) ==> NextOf(Walker(Some((46, 79)), Pose(Right, 1, 79)), SAMPLE, 11) == (Walker(Some((46, 80)), Pose(Right, 1, 80)), Some((46, 79)))
  {
    assert |SAMPLE| == 109 by { Bytes0(); }
    assert SAMPLE[80] == 46 by { Bytes7(); }
  }

  lemma Next38()
    ensures WalkerOk(Walker(Some((46, 80)), Pose(Right, 1, 80)), SAMPLE, 11) ==> NextOf(Walker(Some((46, 80)), Pose(Right, 1, 80)), SAMPLE, 11) == (Walker(Some((46, 81)), Pose(Right, 1, 81)), Some((46, 80)))
  {
    assert |SAMPLE| == 109 by { Bytes0(); }
    assert SAMPLE[81] == 46 by { Bytes7(); }
  }

  lemma Next39()
    ensures WalkerOk(Walker(Some((46, 81)), Pose(Right, 1, 81)), SAMPLE, 11) ==> NextOf(Walker(Some((46, 81)), Pose(Right, 1, 81)), SAMPLE, 11) == (Walker(Some((46, 82)), Pose(Right, 1, 82)), Some((46, 81)))
  {
    assert |SAMPLE| == 109 by { Bytes0(); }
    assert SAMPLE[82] == 46 by { Bytes7(); }
  }

  lemma Next40()
    ensures WalkerOk(Walker(Some((46, 82)), Pose(Right, 1, 82)), SAMPLE, 11) ==> NextOf(Walker(Some((46, 82)), Pose(Right, 1, 82)), SAMPLE, 11) == (Walker(Some((46, 83)), Pose(Right, 1, 83)), Some((46, 82)))
  {
    assert |SAMPLE| == 109 by { Bytes0(); }
    assert SAMPLE[83] == 46 by { Bytes7(); }
  }

  lemma Next41()
    ensures WalkerOk(Walker(Some((46, 83)), Pose(Right, 1, 83)), SAMPLE, 11) ==> NextOf(Walker(Some((46, 83)), Pose(Right, 1, 83)), SAMPLE, 11) == (Walker(Some((46, 84)), Pose(Right, 1, 84)), Some((46, 83)))
  {
    assert |SAMPLE| == 109 by { Bytes0(); }
    assert SAMPLE[84] == 46 by { Bytes7(); }
  }

  lemma Next42()
    ensures WalkerOk(Walker(Some((46, 84)), Pose(Right, 1, 84)), SAMPLE, 11) ==> NextOf(Walker(Some((46, 84)), Pose(Right, 1, 84)), SAMPLE, 11) == (Walker(Some((46, 95)), Pose(Down, 11, 95)), Some((46, 84)))
  {
    assert |SAMPLE| == 109 by { Bytes0(); }
    assert SAMPLE[85] == 35 by { Bytes7(); }
    assert SAMPLE[95] == 46 by { Bytes8(); }
  }

  lemma Next43()
    ensures WalkerOk(Walker(Some((46, 95)), Pose(Down, 11, 95)), SAMPLE, 11) ==> NextOf(Walker(Some((46, 95)), Pose(Down, 11, 95)), SAMPLE, 11) == (Walker(Some((46, 106)), Pose(Down, 11, 106)), Some((46, 95)))
  {
    assert |SAMPLE| == 109 by { Bytes0(); }
    assert SAMPLE[106] == 46 by { Bytes9(); }
  }

  lemma Next44()
    ensures WalkerOk(Walker(Some((46, 106)), Pose(Down, 11, 106)), SAMPLE, 11) ==> NextOf(Walker(Some((46, 106)), Pose(Down, 11, 106)), SAMPLE, 11) == (Walker(None, Pose(Down, 11, 106)), Some((46, 106)))
  {
    assert |SAMPLE| == 109 by { Bytes0(); }
  }

  /** A set of indices held row by row: `r<j>` is meant to lie in row `j`. */
  function Rows(r0: set<nat>, r1: set<nat>, r2: set<nat>, r3: set<nat>, r4: set<nat>, r5: set<nat>, r6: set<nat>, r7: set<nat>, r8: set<nat>, r9: set<nat>): set<nat>
  {
    r0 + r1 + r2 + r3 + r4 + r5 + r6 + r7 + r8 + r9
  }

  /** Set `s` holds indices of row `j` of the sample map only. */
  predicate InRow(s: set<nat>, j: nat)
  {
    forall x :: x in s ==> 11 * j <= x < 11 * j + 11
  }

  /** Adding an index to the whole is adding it to row 1. */
  lemma RowsAdd1(r0: set<nat>, r1: set<nat>, r2: set<nat>, r3: set<nat>, r4: set<nat>, r5: set<nat>, r6: set<nat>, r7: set<nat>, r8: set<nat>, r9: set<nat>, i: nat, a: set<nat>)
    requires a == {i} + r1
    ensures {i} + Rows(r0, r1, r2, r3, r4, r5, r6, r7, r8, r9) == Rows(r0, a, r2, r3, r4, r5, r6, r7, r8, r9)
  {
  }

  /** Adding an index to the whole is adding it to row 2. */
  lemma RowsAdd2(r0: set<nat>, r1: set<nat>, r2: set<nat>, r3: set<nat>, r4: set<nat>, r5: set<nat>, r6: set<nat>, r7: set<nat>, r8: set<nat>, r9: set<nat>, i: nat, a: set<nat>)
    requires a == {i} + r2
    ensures {i} + Rows(r0, r1, r2, r3, r4, r5, r6, r7, r8, r9) == Rows(r0, r1, a, r3, r4, r5, r6, r7, r8, r9)
  {
  }

  /** Adding an index to the whole is adding it to row 3. */
  lemma RowsAdd3(r0: set<nat>, r1: set<nat>, r2: set<nat>, r3: set<nat>, r4: set<nat>, r5: set<nat>, r6: set<nat>, r7: set<nat>, r8: set<nat>, r9: set<nat>, i: nat, a: set<nat>)
    requires a == {i} + r3
    ensures {i} + Rows(r0, r1, r2, r3, r4, r5, r6, r7, r8, r9) == Rows(r0, r1, r2, a, r4, r5, r6, r7, r8, r9)
  {
  }

  /** Adding an index to the whole is adding it to row 4. */
  lemma RowsAdd4(r0: set<nat>, r1: set<nat>, r2: set<nat>, r3: set<nat>, r4: set<nat>, r5: set<nat>, r6: set<nat>, r7: set<nat>, r8: set<nat>, r9: set<nat>, i: nat, a: set<nat>)
    requires a == {i} + r4
    ensures {i} + Rows(r0, r1, r2, r3, r4, r5, r6, r7, r8, r9) == Rows(r0, r1, r2, r3, a, r5, r6, r7, r8, r9)
  {
  }

  /** Adding an index to the whole is adding it to row 5. */
  lemma RowsAdd5(r0: set<nat>, r1: set<nat>, r2: set<nat>, r3: set<nat>, r4: set<nat>, r5: set<nat>, r6: set<nat>, r7: set<nat>, r8: set<nat>, r9: set<nat>, i: nat, a: set<nat>)
    requires a == {i} + r5
    ensures {i} + Rows(r0, r1, r2, r3, r4, r5, r6, r7, r8, r9) == Rows(r0, r1, r2, r3, r4, a, r6, r7, r8, r9)
  {
  }

  /** Adding an index to the whole is adding it to row 6. */
  lemma RowsAdd6(r0: set<nat>, r1: set<nat>, r2: set<nat>, r3: set<nat>, r4: set<nat>, r5: set<nat>, r6: set<nat>, r7: set<nat>, r8: set<nat>, r9: set<nat>, i: nat, a: set<nat>)
    requires a == {i} + r6
    ensures {i} + Rows(r0, r1, r2, r3, r4, r5, r6, r7, r8, r9) == Rows(r0, r1, r2, r3, r4, r5, a, r7, r8, r9)
  {
  }

  /** Adding an index to the whole is adding it to row 7. */
  lemma RowsAdd7(r0: set<nat>, r1: set<nat>, r2: set<nat>, r3: set<nat>, r4: set<nat>, r5: set<nat>, r6: set<nat>, r7: set<nat>, r8: set<nat>, r9: set<nat>, i: nat, a: set<nat>)
    requires a == {i} + r7
    ensures {i} + Rows(r0, r1, r2, r3, r4, r5, r6, r7, r8, r9) == Rows(r0, r1, r2, r3, r4, r5, r6, a, r8, r9)
  {
  }

  /** Adding an index to the whole is adding it to row 8. */
  lemma RowsAdd8(r0: set<nat>, r1: set<nat>, r2: set<nat>, r3: set<nat>, r4: set<nat>, r5: set<nat>, r6: set<nat>, r7: set<nat>, r8: set<nat>, r9: set<nat>, i: nat, a: set<nat>)
    requires a == {i} + r8
    ensures {i} + Rows(r0, r1, r2, r3, r4, r5, r6, r7, r8, r9) == Rows(r0, r1, r2, r3, r4, r5, r6, r7, a, r9)
  {
  }

  /** Adding an index to the whole is adding it to row 9. */
  lemma RowsAdd9(r0: set<nat>, r1: set<nat>, r2: set<nat>, r3: set<nat>, r4: set<nat>, r5: set<nat>, r6: set<nat>, r7: set<nat>, r8: set<nat>, r9: set<nat>, i: nat, a: set<nat>)
    requires a == {i} + r9
    ensures {i} + Rows(r0, r1, r2, r3, r4, r5, r6, r7, r8, r9) == Rows(r0, r1, r2, r3, r4, r5, r6, r7, r8, a)
  {
  }

  /** Sets below and above a bound do not overlap. */
  lemma DisjointCard(a: set<nat>, b: set<nat>, m: nat)
    requires forall x :: x in a ==> x < m
    requires forall x :: x in b ==> m <= x
    ensures |a + b| == |a| + |b|
  {
    assert a * b == {};
  }

  /** Rows do not overlap, so the sizes of the rows add up. */
  lemma RowsCard(r0: set<nat>, r1: set<nat>, r2: set<nat>, r3: set<nat>, r4: set<nat>, r5: set<nat>, r6: set<nat>, r7: set<nat>, r8: set<nat>, r9: set<nat>)
    requires InRow(r0, 0) && InRow(r1, 1) && InRow(r2, 2) && InRow(r3, 3) && InRow(r4, 4) && InRow(r5, 5) && InRow(r6, 6) && InRow(r7, 7) && InRow(r8, 8) && InRow(r9, 9)
    ensures |Rows(r0, r1, r2, r3, r4, r5, r6, r7, r8, r9)| == |r0| + |r1| + |r2| + |r3| + |r4| + |r5| + |r6| + |r7| + |r8| + |r9|
  {
    DisjointCard(r0, r1, 11);
    DisjointCard(r0 + r1, r2, 22);
    DisjointCard(r0 + r1 + r2, r3, 33);
    DisjointCard(r0 + r1 + r2 + r3, r4, 44);
    DisjointCard(r0 + r1 + r2 + r3 + r4, r5, 55);
    DisjointCard(r0 + r1 + r2 + r3 + r4 + r5, r6, 66);
    DisjointCard(r0 + r1 + r2 + r3 + r4 + r5 + r6, r7, 77);
    DisjointCard(r0 + r1 + r2 + r3 + r4 + r5 + r6 + r7, r8, 88);
    DisjointCard(r0 + r1 + r2 + r3 + r4 + r5 + r6 + r7 + r8, r9, 99);
  }

  /** The walk from call `k` on ends, and the indices it yields, row by row. */
  lemma Suffix45()
    requires WalkerOk(Walker(None, Pose(Down, 11, 106)), SAMPLE, 11)
    ensures var r := Walk(Walker(None, Pose(Down, 11, 106)), SAMPLE, 11, 0); r.Some? && Indices(r.value) == Rows({}, {}, {}, {}, {}, {}, {}, {}, {}, {})
  {
  }

  lemma Suffix44()
    requires WalkerOk(Walker(Some((46, 106)), Pose(Down, 11, 106)), SAMPLE, 11)
    ensures var r := Walk(Walker(Some((46, 106)), Pose(Down, 11, 106)), SAMPLE, 11, 1); r.Some? && Indices(r.value) == Rows({}, {}, {}, {}, {}, {}, {}, {}, {}, {106})
  {
    Next44();
    Suffix45();
    IndicesCons((46, 106), Walk(Walker(None, Pose(Down, 11, 106)), SAMPLE, 11, 0).value);
    RowsAdd9({}, {}, {}, {}, {}, {}, {}, {}, {}, {}, 106, {106});
  }

  lemma Suffix43()
    requires WalkerOk(Walker(Some((46, 95)), Pose(Down, 11, 95)), SAMPLE, 11)
    ensures var r := Walk(Walker(Some((46, 95)), Pose(Down, 11, 95)), SAMPLE, 11, 2); r.Some? && Indices(r.value) == Rows({}, {}, {}, {}, {}, {}, {}, {}, {95}, {106})
  {
    Next43();
    Suffix44();
    IndicesCons((46, 95), Walk(Walker(Some((46, 106)), Pose(Down, 11, 106)), SAMPLE, 11, 1).value);
    RowsAdd8({}, {}, {}, {}, {}, {}, {}, {}, {}, {106}, 95, {95});
  }

  lemma Suffix42()
    requires WalkerOk(Walker(Some((46, 84)), Pose(Right, 1, 84)), SAMPLE, 11)
    ensures var r := Walk(Walker(Some((46, 84)), Pose(Right, 1, 84)), SAMPLE, 11, 3); r.Some? && Indices(r.value) == Rows({}, {}, {}, {}, {}, {}, {}, {84}, {95}, {106})
  {
    Next42();
    Suffix43();
    IndicesCons((46, 84), Walk(Walker(Some((46, 95)), Pose(Down, 11, 95)), SAMPLE, 11, 2).value);
    RowsAdd7({}, {}, {}, {}, {}, {}, {}, {}, {95}, {106}, 84, {84});
  }

  lemma Suffix41()
    requires WalkerOk(Walker(Some((46, 83)), Pose(Right, 1, 83)), SAMPLE, 11)
    ensures var r := Walk(Walker(Some((46, 83)), Pose(Right, 1, 83)), SAMPLE, 11, 4); r.Some? && Indices(r.value) == Rows({}, {}, {}, {}, {}, {}, {}, {83, 84}, {95}, {106})
  {
    Next41();
    Suffix42();
    IndicesCons((46, 83), Walk(Walker(Some((46, 84)), Pose(Right, 1, 84)), SAMPLE, 11, 3).value);
    RowsAdd7({}, {}, {}, {}, {}, {}, {}, {84}, {95}, {106}, 83, {83, 84});
  }

  lemma Suffix40()
    requires WalkerOk(Walker(Some((46, 82)), Pose(Right, 1, 82)), SAMPLE, 11)
    ensures var r := Walk(Walker(Some((46, 82)), Pose(Right, 1, 82)), SAMPLE, 11, 5); r.Some? && Indices(r.value) == Rows({}, {}, {}, {}, {}, {}, {}, {82, 83, 84}, {95}, {106})
  {
    Next40();
    Suffix41();
    IndicesCons((46, 82), Walk(Walker(Some((46, 83)), Pose(Right, 1, 83)), SAMPLE, 11, 4).value);
    RowsAdd7({}, {}, {}, {}, {}, {}, {}, {83, 84}, {95}, {106}, 82, {82, 83, 84});
  }

  lemma Suffix39()
    requires WalkerOk(Walker(Some((46, 81)), Pose(Right, 1, 81)), SAMPLE, 11)
    ensures var r := Walk(Walker(Some((46, 81)), Pose(Right, 1, 81)), SAMPLE, 11, 6); r.Some? && Indices(r.value) == Rows({}, {}, {}, {}, {}, {}, {}, {81, 82, 83, 84}, {95}, {106})
  {
    Next39();
    Suffix40();
    IndicesCons((46, 81), Walk(Walker(Some((46, 82)), Pose(Right, 1, 82)), SAMPLE, 11, 5).value);
    RowsAdd7({}, {}, {}, {}, {}, {}, {}, {82, 83, 84}, {95}, {106}, 81, {81, 82, 83, 84});
  }

  lemma Suffix38()
    requires WalkerOk(Walker(Some((46, 80)), Pose(Right, 1, 80)), SAMPLE, 11)
    ensures var r := Walk(Walker(Some((46, 80)), Pose(Right, 1, 80)), SAMPLE, 11, 7); r.Some? && Indices(r.value) == Rows({}, {}, {}, {}, {}, {}, {}, {80, 81, 82, 83, 84}, {95}, {106})
  {
    Next38();
    Suffix39();
    IndicesCons((46, 80), Walk(Walker(Some((46, 81)), Pose(Right, 1, 81)), SAMPLE, 11, 6).value);
    RowsAdd7({}, {}, {}, {}, {}, {}, {}, {81, 82, 83, 84}, {95}, {106}, 80, {80, 81, 82, 83, 84});
  }

  lemma Suffix37()
    requires WalkerOk(Walker(Some((46, 79)), Pose(Right, 1, 79)), SAMPLE, 11)
    ensures var r := Walk(Walker(Some((46, 79)), Pose(Right, 1, 79)), SAMPLE, 11, 8); r.Some? && Indices(r.value) == Rows({}, {}, {}, {}, {}, {}, {}, {79, 80, 81, 82, 83, 84}, {95}, {106})
  {
    Next37();
    Suffix38();
    IndicesCons((46, 79), Walk(Walker(Some((46, 80)), Pose(Right, 1, 80)), SAMPLE, 11, 7).value);
    RowsAdd7({}, {}, {}, {}, {}, {}, {}, {80, 81, 82, 83, 84}, {95}, {106}, 79, {79, 80, 81, 82, 83, 84});
  }

  lemma Suffix36()
    requires WalkerOk(Walker(Some((46, 78)), Pose(Up, -11, 78)), SAMPLE, 11)
    ensures var r := Walk(Walker(Some((46, 78)), Pose(Up, -11, 78)), SAMPLE, 11, 9); r.Some? && Indices(r.value) == Rows({}, {}, {}, {}, {}, {}, {}, {78, 79, 80, 81, 82, 83, 84}, {95}, {106})
  {
    Next36();
    Suffix37();
    IndicesCons((46, 78), Walk(Walker(Some((46, 79)), Pose(Right, 1, 79)), SAMPLE, 11, 8).value);
    RowsAdd7({}, {}, {}, {}, {}, {}, {}, {79, 80, 81, 82, 83, 84}, {95}, {106}, 78, {78, 79, 80, 81, 82, 83, 84});
  }

  lemma Suffix35()
    requires WalkerOk(Walker(Some((46, 89)), Pose(Left, -1, 89)), SAMPLE, 11)
    ensures var r := Walk(Walker(Some((46, 89)), Pose(Left, -1, 89)), SAMPLE, 11, 10); r.Some? && Indices(r.value) == Rows({}, {}, {}, {}, {}, {}, {}, {78, 79, 80, 81, 82, 83, 84}, {89, 95}, {106})
  {
    Next35();
    Suffix36();
    IndicesCons((46, 89), Walk(Walker(Some((46, 78)), Pose(Up, -11, 78)), SAMPLE, 11, 9).value);
    RowsAdd8({}, {}, {}, {}, {}, {}, {}, {78, 79, 80, 81, 82, 83, 84}, {95}, {106}, 89, {89, 95});
  }

  lemma Suffix34()
    requires WalkerOk(Walker(Some((46, 90)), Pose(Left, -1, 90)), SAMPLE, 11)
    ensures var r := Walk(Walker(Some((46, 90)), Pose(Left, -1, 90)), SAMPLE, 11, 11); r.Some? && Indices(r.value) == Rows({}, {}, {}, {}, {}, {}, {}, {78, 79, 80, 81, 82, 83, 84}, {89, 90, 95}, {106})
  {
    Next34();
    Suffix35();
    IndicesCons((46, 90), Walk(Walker(Some((46, 89)), Pose(Left, -1, 89)), SAMPLE, 11, 10).value);
    RowsAdd8({}, {}, {}, {}, {}, {}, {}, {78, 79, 80, 81, 82, 83, 84}, {89, 95}, {106}, 90, {89, 90, 95});
  }

  lemma Suffix33()
    requires WalkerOk(Walker(Some((46, 91)), Pose(Left, -1, 91)), SAMPLE, 11)
    ensures var r := Walk(Walker(Some((46, 91)), Pose(Left, -1, 91)), SAMPLE, 11, 12); r.Some? && Indices(r.value) == Rows({}, {}, {}, {}, {}, {}, {}, {78, 79, 80, 81, 82, 83, 84}, {89, 90, 91, 95}, {106})
  {
    Next33();
    Suffix34();
    IndicesCons((46, 91), Walk(Walker(Some((46, 90)), Pose(Left, -1, 90)), SAMPLE, 11, 11).value);
    RowsAdd8({}, {}, {}, {}, {}, {}, {}, {78, 79, 80, 81, 82, 83, 84}, {89, 90, 95}, {106}, 91, {89, 90, 91, 95});
  }

  lemma Suffix32()
    requires WalkerOk(Walker(Some((46, 92)), Pose(Left, -1, 92)), SAMPLE, 11)
    ensures var r := Walk(Walker(Some((46, 92)), Pose(Left, -1, 92)), SAMPLE, 11, 13); r.Some? && Indices(r.value) == Rows({}, {}, {}, {}, {}, {}, {}, {78, 79, 80, 81, 82, 83, 84}, {89, 90, 91, 92, 95}, {106})
  {
    Next32();
    Suffix33();
    IndicesCons((46, 92), Walk(Walker(Some((46, 91)), Pose(Left, -1, 91)), SAMPLE, 11, 12).value);
    RowsAdd8({}, {}, {}, {}, {}, {}, {}, {78, 79, 80, 81, 82, 83, 84}, {89, 90, 91, 95}, {106}, 92, {89, 90, 91, 92, 95});
  }

  lemma Suffix31()
    requires WalkerOk(Walker(Some((46, 93)), Pose(Left, -1, 93)), SAMPLE, 11)
    ensures var r := Walk(Walker(Some((46, 93)), Pose(Left, -1, 93)), SAMPLE, 11, 14); r.Some? && Indices(r.value) == Rows({}, {}, {}, {}, {}, {}, {}, {78, 79, 80, 81, 82, 83, 84}, {89, 90, 91, 92, 93, 95}, {106})
  {
    Next31();
    Suffix32();
    IndicesCons((46, 93), Walk(Walker(Some((46, 92)), Pose(Left, -1, 92)), SAMPLE, 11, 13).value);
    RowsAdd8({}, {}, {}, {}, {}, {}, {}, {78, 79, 80, 81, 82, 83, 84}, {89, 90, 91, 92, 95}, {106}, 93, {89, 90, 91, 92, 93, 95});
  }

  lemma Suffix30()
    requires WalkerOk(Walker(Some((46, 94)), Pose(Down, 11, 94)), SAMPLE, 11)
    ensures var r := Walk(Walker(Some((46, 94)), Pose(Down, 11, 94)), SAMPLE, 11, 15); r.Some? && Indices(r.value) == Rows({}, {}, {}, {}, {}, {}, {}, {78, 79, 80, 81, 82, 83, 84}, {89, 90, 91, 92, 93, 94, 95}, {106})
  {
    Next30();
    Suffix31();
    IndicesCons((46, 94), Walk(Walker(Some((46, 93)), Pose(Left, -1, 93)), SAMPLE, 11, 14).value);
    RowsAdd8({}, {}, {}, {}, {}, {}, {}, {78, 79, 80, 81, 82, 83, 84}, {89, 90, 91, 92, 93, 95}, {106}, 94, {89, 90, 91, 92, 93, 94, 95});
  }

  lemma Suffix29()
    requires WalkerOk(Walker(Some((46, 83)), Pose(Down, 11, 83)), SAMPLE, 11)
    ensures var r := Walk(Walker(Some((46, 83)), Pose(Down, 11, 83)), SAMPLE, 11, 16); r.Some? && Indices(r.value) == Rows({}, {}, {}, {}, {}, {}, {}, {78, 79, 80, 81, 82, 83, 84}, {89, 90, 91, 92, 93, 94, 95}, {106})
  {
    Next29();
    Suffix30();
    IndicesCons((46, 83), Walk(Walker(Some((46, 94)), Pose(Down, 11, 94)), SAMPLE, 11, 15).value);
    RowsAdd7({}, {}, {}, {}, {}, {}, {}, {78, 79, 80, 81, 82, 83, 84}, {89, 90, 91, 92, 93, 94, 95}, {106}, 83, {78, 79, 80, 81, 82, 83, 84});
  }

  lemma Suffix28()
    requires WalkerOk(Walker(Some((46, 72)), Pose(Down, 11, 72)), SAMPLE, 11)
    ensures var r := Walk(Walker(Some((46, 72)), Pose(Down, 11, 72)), SAMPLE, 11, 17); r.Some? && Indices(r.value) == Rows({}, {}, {}, {}, {}, {}, {72}, {78, 79, 80, 81, 82, 83, 84}, {89, 90, 91, 92, 93, 94, 95}, {106})
  {
    Next28();
    Suffix29();
    IndicesCons((46, 72), Walk(Walker(Some((46, 83)), Pose(Down, 11, 83)), SAMPLE, 11, 16).value);
    RowsAdd6({}, {}, {}, {}, {}, {}, {}, {78, 79, 80, 81, 82, 83, 84}, {89, 90, 91, 92, 93, 94, 95}, {106}, 72, {72});
  }

  lemma Suffix27()
    requires WalkerOk(Walker(Some((46, 61)), Pose(Down, 11, 61)), SAMPLE, 11)
    ensures var r := Walk(Walker(Some((46, 61)), Pose(Down, 11, 61)), SAMPLE, 11, 18); r.Some? && Indices(r.value) == Rows({}, {}, {}, {}, {}, {61}, {72}, {78, 79, 80, 81, 82, 83, 84}, {89, 90, 91, 92, 93, 94, 95}, {106})
  {
    Next27();
    Suffix28();
    IndicesCons((46, 61), Walk(Walker(Some((46, 72)), Pose(Down, 11, 72)), SAMPLE, 11, 17).value);
    RowsAdd5({}, {}, {}, {}, {}, {}, {72}, {78, 79, 80, 81, 82, 83, 84}, {89, 90, 91, 92, 93, 94, 95}, {106}, 61, {61});
  }

  lemma Suffix26()
    requires WalkerOk(Walker(Some((46, 50)), Pose(Right, 1, 50)), SAMPLE, 11)
    ensures var r := Walk(Walker(Some((46, 50)), Pose(Right, 1, 50)), SAMPLE, 11, 19); r.Some? && Indices(r.value) == Rows({}, {}, {}, {}, {50}, {61}, {72}, {78, 79, 80, 81, 82, 83, 84}, {89, 90, 91, 92, 93, 94, 95}, {106})
  {
    Next26();
    Suffix27();
    IndicesCons((46, 50), Walk(Walker(Some((46, 61)), Pose(Down, 11, 61)), SAMPLE, 11, 18).value);
    RowsAdd4({}, {}, {}, {}, {}, {61}, {72}, {78, 79, 80, 81, 82, 83, 84}, {89, 90, 91, 92, 93, 94, 95}, {106}, 50, {50});
  }

  lemma Suffix25()
    requires WalkerOk(Walker(Some((46, 49)), Pose(Right, 1, 49)), SAMPLE, 11)
    ensures var r := Walk(Walker(Some((46, 49)), Pose(Right, 1, 49)), SAMPLE, 11, 20); r.Some? && Indices(r.value) == Rows({}, {}, {}, {}, {49, 50}, {61}, {72}, {78, 79, 80, 81, 82, 83, 84}, {89, 90, 91, 92, 93, 94, 95}, {106})
  {
    Next25();
    Suffix26();
    IndicesCons((46, 49), Walk(Walker(Some((46, 50)), Pose(Right, 1, 50)), SAMPLE, 11, 19).value);
    RowsAdd4({}, {}, {}, {}, {50}, {61}, {72}, {78, 79, 80, 81, 82, 83, 84}, {89, 90, 91, 92, 93, 94, 95}, {106}, 49, {49, 50});
  }

  lemma Suffix24()
    requires WalkerOk(Walker(Some((46, 48)), Pose(Right, 1, 48)), SAMPLE, 11)
    ensures var r := Walk(Walker(Some((46, 48)), Pose(Right, 1, 48)), SAMPLE, 11, 21); r.Some? && Indices(r.value) == Rows({}, {}, {}, {}, {48, 49, 50}, {61}, {72}, {78, 79, 80, 81, 82, 83, 84}, {89, 90, 91, 92, 93, 94, 95}, {106})
  {
    Next24();
    Suffix25();
    IndicesCons((46, 48), Walk(Walker(Some((46, 49)), Pose(Right, 1, 49)), SAMPLE, 11, 20).value);
    RowsAdd4({}, {}, {}, {}, {49, 50}, {61}, {72}, {78, 79, 80, 81, 82, 83, 84}, {89, 90, 91, 92, 93, 94, 95}, {106}, 48, {48, 49, 50});
  }

  lemma Suffix23()
    requires WalkerOk(Walker(Some((46, 47)), Pose(Right, 1, 47)), SAMPLE, 11)
    ensures var r := Walk(Walker(Some((46, 47)), Pose(Right, 1, 47)), SAMPLE, 11, 22); r.Some? && Indices(r.value) == Rows({}, {}, {}, {}, {47, 48, 49, 50}, {61}, {72}, {78, 79, 80, 81, 82, 83, 84}, {89, 90, 91, 92, 93, 94, 95}, {106})
  {
    Next23();
    Suffix24();
    IndicesCons((46, 47), Walk(Walker(Some((46, 48)), Pose(Right, 1, 48)), SAMPLE, 11, 21).value);
    RowsAdd4({}, {}, {}, {}, {48, 49, 50}, {61}, {72}, {78, 79, 80, 81, 82, 83, 84}, {89, 90, 91, 92, 93, 94, 95}, {106}, 47, {47, 48, 49, 50});
  }

  lemma Suffix22()
    requires WalkerOk(Walker(Some((46, 46)), Pose(Up, -11, 46)), SAMPLE, 11)
    ensures var r := Walk(Walker(Some((46, 46)), Pose(Up, -11, 46)), SAMPLE, 11, 23); r.Some? && Indices(r.value) == Rows({}, {}, {}, {}, {46, 47, 48, 49, 50}, {61}, {72}, {78, 79, 80, 81, 82, 83, 84}, {89, 90, 91, 92, 93, 94, 95}, {106})
  {
    Next22();
    Suffix23();
    IndicesCons((46, 46), Walk(Walker(Some((46, 47)), Pose(Right, 1, 47)), SAMPLE, 11, 22).value);
    RowsAdd4({}, {}, {}, {}, {47, 48, 49, 50}, {61}, {72}, {78, 79, 80, 81, 82, 83, 84}, {89, 90, 91, 92, 93, 94, 95}, {106}, 46, {46, 47, 48, 49, 50});
  }

  lemma Suffix21()
    requires WalkerOk(Walker(Some((46, 57)), Pose(Up, -11, 57)), SAMPLE, 11)
    ensures var r := Walk(Walker(Some((46, 57)), Pose(Up, -11, 57)), SAMPLE, 11, 24); r.Some? && Indices(r.value) == Rows({}, {}, {}, {}, {46, 47, 48, 49, 50}, {57, 61}, {72}, {78, 79, 80, 81, 82, 83, 84}, {89, 90, 91, 92, 93, 94, 95}, {106})
  {
    Next21();
    Suffix22();
    IndicesCons((46, 57), Walk(Walker(Some((46, 46)), Pose(Up, -11, 46)), SAMPLE, 11, 23).value);
    RowsAdd5({}, {}, {}, {}, {46, 47, 48, 49, 50}, {61}, {72}, {78, 79, 80, 81, 82, 83, 84}, {89, 90, 91, 92, 93, 94, 95}, {106}, 57, {57, 61});
  }

  lemma Suffix20()
    requires WalkerOk(Walker(Some((46, 68)), Pose(Left, -1, 68)), SAMPLE, 11)
    ensures var r := Walk(Walker(Some((46, 68)), Pose(Left, -1, 68)), SAMPLE, 11, 25); r.Some? && Indices(r.value) == Rows({}, {}, {}, {}, {46, 47, 48, 49, 50}, {57, 61}, {68, 72}, {78, 79, 80, 81, 82, 83, 84}, {89, 90, 91, 92, 93, 94, 95}, {106})
  {
    Next20();
    Suffix21();
    IndicesCons((46, 68), Walk(Walker(Some((46, 57)), Pose(Up, -11, 57)), SAMPLE, 11, 24).value);
    RowsAdd6({}, {}, {}, {}, {46, 47, 48, 49, 50}, {57, 61}, {72}, {78, 79, 80, 81, 82, 83, 84}, {89, 90, 91, 92, 93, 94, 95}, {106}, 68, {68, 72});
  }

  lemma Suffix19()
    requires WalkerOk(Walker(Some((46, 69)), Pose(Left, -1, 69)), SAMPLE, 11)
    ensures var r := Walk(Walker(Some((46, 69)), Pose(Left, -1, 69)), SAMPLE, 11, 26); r.Some? && Indices(r.value) == Rows({}, {}, {}, {}, {46, 47, 48, 49, 50}, {57, 61}, {68, 69, 72}, {78, 79, 80, 81, 82, 83, 84}, {89, 90, 91, 92, 93, 94, 95}, {106})
  {
    Next19();
    Suffix20();
    IndicesCons((46, 69), Walk(Walker(Some((46, 68)), Pose(Left, -1, 68)), SAMPLE, 11, 25).value);
    RowsAdd6({}, {}, {}, {}, {46, 47, 48, 49, 50}, {57, 61}, {68, 72}, {78, 79, 80, 81, 82, 83, 84}, {89, 90, 91, 92, 93, 94, 95}, {106}, 69, {68, 69, 72});
  }

  lemma Suffix18()
    requires WalkerOk(Walker(Some((94, 70)), Pose(Left, -1, 70)), SAMPLE, 11)
    ensures var r := Walk(Walker(Some((94, 70)), Pose(Left, -1, 70)), SAMPLE, 11, 27); r.Some? && Indices(r.value) == Rows({}, {}, {}, {}, {46, 47, 48, 49, 50}, {57, 61}, {68, 69, 70, 72}, {78, 79, 80, 81, 82, 83, 84}, {89, 90, 91, 92, 93, 94, 95}, {106})
  {
    Next18();
    Suffix19();
    IndicesCons((94, 70), Walk(Walker(Some((46, 69)), Pose(Left, -1, 69)), SAMPLE, 11, 26).value);
    RowsAdd6({}, {}, {}, {}, {46, 47, 48, 49, 50}, {57, 61}, {68, 69, 72}, {78, 79, 80, 81, 82, 83, 84}, {89, 90, 91, 92, 93, 94, 95}, {106}, 70, {68, 69, 70, 72});
  }

  lemma Suffix17()
    requires WalkerOk(Walker(Some((46, 71)), Pose(Left, -1, 71)), SAMPLE, 11)
    ensures var r := Walk(Walker(Some((46, 71)), Pose(Left, -1, 71)), SAMPLE, 11, 28); r.Some? && Indices(r.value) == Rows({}, {}, {}, {}, {46, 47, 48, 49, 50}, {57, 61}, {68, 69, 70, 71, 72}, {78, 79, 80, 81, 82, 83, 84}, {89, 90, 91, 92, 93, 94, 95}, {106})
  {
    Next17();
    Suffix18();
    IndicesCons((46, 71), Walk(Walker(Some((94, 70)), Pose(Left, -1, 70)), SAMPLE, 11, 27).value);
    RowsAdd6({}, {}, {}, {}, {46, 47, 48, 49, 50}, {57, 61}, {68, 69, 70, 72}, {78, 79, 80, 81, 82, 83, 84}, {89, 90, 91, 92, 93, 94, 95}, {106}, 71, {68, 69, 70, 71, 72});
  }

  lemma Suffix16()
    requires WalkerOk(Walker(Some((46, 72)), Pose(Left, -1, 72)), SAMPLE, 11)
    ensures var r := Walk(Walker(Some((46, 72)), Pose(Left, -1, 72)), SAMPLE, 11, 29); r.Some? && Indices(r.value) == Rows({}, {}, {}, {}, {46, 47, 48, 49, 50}, {57, 61}, {68, 69, 70, 71, 72}, {78, 79, 80, 81, 82, 83, 84}, {89, 90, 91, 92, 93, 94, 95}, {106})
  {
    Next16();
    Suffix17();
    IndicesCons((46, 72), Walk(Walker(Some((46, 71)), Pose(Left, -1, 71)), SAMPLE, 11, 28).value);
    RowsAdd6({}, {}, {}, {}, {46, 47, 48, 49, 50}, {57, 61}, {68, 69, 70, 71, 72}, {78, 79, 80, 81, 82, 83, 84}, {89, 90, 91, 92, 93, 94, 95}, {106}, 72, {68, 69, 70, 71, 72});
  }

  lemma Suffix15()
    requires WalkerOk(Walker(Some((46, 73)), Pose(Left, -1, 73)), SAMPLE, 11)
    ensures var r := Walk(Walker(Some((46, 73)), Pose(Left, -1, 73)), SAMPLE, 11, 30); r.Some? && Indices(r.value) == Rows({}, {}, {}, {}, {46, 47, 48, 49, 50}, {57, 61}, {68, 69, 70, 71, 72, 73}, {78, 79, 80, 81, 82, 83, 84}, {89, 90, 91, 92, 93, 94, 95}, {106})
  {
    Next15();
    Suffix16();
    IndicesCons((46, 73), Walk(Walker(Some((46, 72)), Pose(Left, -1, 72)), SAMPLE, 11, 29).value);
    RowsAdd6({}, {}, {}, {}, {46, 47, 48, 49, 50}, {57, 61}, {68, 69, 70, 71, 72}, {78, 79, 80, 81, 82, 83, 84}, {89, 90, 91, 92, 93, 94, 95}, {106}, 73, {68, 69, 70, 71, 72, 73});
  }

  lemma Suffix14()
    requires WalkerOk(Walker(Some((46, 74)), Pose(Down, 11, 74)), SAMPLE, 11)
    ensures var r := Walk(Walker(Some((46, 74)), Pose(Down, 11, 74)), SAMPLE, 11, 31); r.Some? && Indices(r.value) == Rows({}, {}, {}, {}, {46, 47, 48, 49, 50}, {57, 61}, {68, 69, 70, 71, 72, 73, 74}, {78, 79, 80, 81, 82, 83, 84}, {89, 90, 91, 92, 93, 94, 95}, {106})
  {
    Next14();
    Suffix15();
    IndicesCons((46, 74), Walk(Walker(Some((46, 73)), Pose(Left, -1, 73)), SAMPLE, 11, 30).value);
    RowsAdd6({}, {}, {}, {}, {46, 47, 48, 49, 50}, {57, 61}, {68, 69, 70, 71, 72, 73}, {78, 79, 80, 81, 82, 83, 84}, {89, 90, 91, 92, 93, 94, 95}, {106}, 74, {68, 69, 70, 71, 72, 73, 74});
  }

  lemma Suffix13()
    requires WalkerOk(Walker(Some((46, 63)), Pose(Down, 11, 63)), SAMPLE, 11)
    ensures var r := Walk(Walker(Some((46, 63)), Pose(Down, 11, 63)), SAMPLE, 11, 32); r.Some? && Indices(r.value) == Rows({}, {}, {}, {}, {46, 47, 48, 49, 50}, {57, 61, 63}, {68, 69, 70, 71, 72, 73, 74}, {78, 79, 80, 81, 82, 83, 84}, {89, 90, 91, 92, 93, 94, 95}, {106})
  {
    Next13();
    Suffix14();
    IndicesCons((46, 63), Walk(Walker(Some((46, 74)), Pose(Down, 11, 74)), SAMPLE, 11, 31).value);
    RowsAdd5({}, {}, {}, {}, {46, 47, 48, 49, 50}, {57, 61}, {68, 69, 70, 71, 72, 73, 74}, {78, 79, 80, 81, 82, 83, 84}, {89, 90, 91, 92, 93, 94, 95}, {106}, 63, {57, 61, 63});
  }

  lemma Suffix12()
    requires WalkerOk(Walker(Some((46, 52)), Pose(Down, 11, 52)), SAMPLE, 11)
    ensures var r := Walk(Walker(Some((46, 52)), Pose(Down, 11, 52)), SAMPLE, 11, 33); r.Some? && Indices(r.value) == Rows({}, {}, {}, {}, {46, 47, 48, 49, 50, 52}, {57, 61, 63}, {68, 69, 70, 71, 72, 73, 74}, {78, 79, 80, 81, 82, 83, 84}, {89, 90, 91, 92, 93, 94, 95}, {106})
  {
    Next12();
    Suffix13();
    IndicesCons((46, 52), Walk(Walker(Some((46, 63)), Pose(Down, 11, 63)), SAMPLE, 11, 32).value);
    RowsAdd4({}, {}, {}, {}, {46, 47, 48, 49, 50}, {57, 61, 63}, {68, 69, 70, 71, 72, 73, 74}, {78, 79, 80, 81, 82, 83, 84}, {89, 90, 91, 92, 93, 94, 95}, {106}, 52, {46, 47, 48, 49, 50, 52});
  }

  lemma Suffix11()
    requires WalkerOk(Walker(Some((46, 41)), Pose(Down, 11, 41)), SAMPLE, 11)
    ensures var r := Walk(Walker(Some((46, 41)), Pose(Down, 11, 41)), SAMPLE, 11, 34); r.Some? && Indices(r.value) == Rows({}, {}, {}, {41}, {46, 47, 48, 49, 50, 52}, {57, 61, 63}, {68, 69, 70, 71, 72, 73, 74}, {78, 79, 80, 81, 82, 83, 84}, {89, 90, 91, 92, 93, 94, 95}, {106})
  {
    Next11();
    Suffix12();
    IndicesCons((46, 41), Walk(Walker(Some((46, 52)), Pose(Down, 11, 52)), SAMPLE, 11, 33).value);
    RowsAdd3({}, {}, {}, {}, {46, 47, 48, 49, 50, 52}, {57, 61, 63}, {68, 69, 70, 71, 72, 73, 74}, {78, 79, 80, 81, 82, 83, 84}, {89, 90, 91, 92, 93, 94, 95}, {106}, 41, {41});
  }

  lemma Suffix10()
    requires WalkerOk(Walker(Some((46, 30)), Pose(Down, 11, 30)), SAMPLE, 11)
    ensures var r := Walk(Walker(Some((46, 30)), Pose(Down, 11, 30)), SAMPLE, 11, 35); r.Some? && Indices(r.value) == Rows({}, {}, {30}, {41}, {46, 47, 48, 49, 50, 52}, {57, 61, 63}, {68, 69, 70, 71, 72, 73, 74}, {78, 79, 80, 81, 82, 83, 84}, {89, 90, 91, 92, 93, 94, 95}, {106})
  {
    Next10();
    Suffix11();
    IndicesCons((46, 30), Walk(Walker(Some((46, 41)), Pose(Down, 11, 41)), SAMPLE, 11, 34).value);
    RowsAdd2({}, {}, {}, {41}, {46, 47, 48, 49, 50, 52}, {57, 61, 63}, {68, 69, 70, 71, 72, 73, 74}, {78, 79, 80, 81, 82, 83, 84}, {89, 90, 91, 92, 93, 94, 95}, {106}, 30, {30});
  }

  lemma Suffix9()
    requires WalkerOk(Walker(Some((46, 19)), Pose(Right, 1, 19)), SAMPLE, 11)
    ensures var r := Walk(Walker(Some((46, 19)), Pose(Right, 1, 19)), SAMPLE, 11, 36); r.Some? && Indices(r.value) == Rows({}, {19}, {30}, {41}, {46, 47, 48, 49, 50, 52}, {57, 61, 63}, {68, 69, 70, 71, 72, 73, 74}, {78, 79, 80, 81, 82, 83, 84}, {89, 90, 91, 92, 93, 94, 95}, {106})
  {
    Next9();
    Suffix10();
    IndicesCons((46, 19), Walk(Walker(Some((46, 30)), Pose(Down, 11, 30)), SAMPLE, 11, 35).value);
    RowsAdd1({}, {}, {30}, {41}, {46, 47, 48, 49, 50, 52}, {57, 61, 63}, {68, 69, 70, 71, 72, 73, 74}, {78, 79, 80, 81, 82, 83, 84}, {89, 90, 91, 92, 93, 94, 95}, {106}, 19, {19});
  }

  lemma Suffix8()
    requires WalkerOk(Walker(Some((46, 18)), Pose(Right, 1, 18)), SAMPLE, 11)
    ensures var r := Walk(Walker(Some((46, 18)), Pose(Right, 1, 18)), SAMPLE, 11, 37); r.Some? && Indices(r.value) == Rows({}, {18, 19}, {30}, {41}, {46, 47, 48, 49, 50, 52}, {57, 61, 63}, {68, 69, 70, 71, 72, 73, 74}, {78, 79, 80, 81, 82, 83, 84}, {89, 90, 91, 92, 93, 94, 95}, {106})
  {
    Next8();
    Suffix9();
    IndicesCons((46, 18), Walk(Walker(Some((46, 19)), Pose(Right, 1, 19)), SAMPLE, 11, 36).value);
    RowsAdd1({}, {19}, {30}, {41}, {46, 47, 48, 49, 50, 52}, {57, 61, 63}, {68, 69, 70, 71, 72, 73, 74}, {78, 79, 80, 81, 82, 83, 84}, {89, 90, 91, 92, 93, 94, 95}, {106}, 18, {18, 19});
  }

  lemma Suffix7()
    requires WalkerOk(Walker(Some((46, 17)), Pose(Right, 1, 17)), SAMPLE, 11)
    ensures var r := Walk(Walker(Some((46, 17)), Pose(Right, 1, 17)), SAMPLE, 11, 38); r.Some? && Indices(r.value) == Rows({}, {17, 18, 19}, {30}, {41}, {46, 47, 48, 49, 50, 52}, {57, 61, 63}, {68, 69, 70, 71, 72, 73, 74}, {78, 79, 80, 81, 82, 83, 84}, {89, 90, 91, 92, 93, 94, 95}, {106})
  {
    Next7();
    Suffix8();
    IndicesCons((46, 17), Walk(Walker(Some((46, 18)), Pose(Right, 1, 18)), SAMPLE, 11, 37).value);
    RowsAdd1({}, {18, 19}, {30}, {41}, {46, 47, 48, 49, 50, 52}, {57, 61, 63}, {68, 69, 70, 71, 72, 73, 74}, {78, 79, 80, 81, 82, 83, 84}, {89, 90, 91, 92, 93, 94, 95}, {106}, 17, {17, 18, 19});
  }

  lemma Suffix6()
    requires WalkerOk(Walker(Some((46, 16)), Pose(Right, 1, 16)), SAMPLE, 11)
    ensures var r := Walk(Walker(Some((46, 16)), Pose(Right, 1, 16)), SAMPLE, 11, 39); r.Some? && Indices(r.value) == Rows({}, {16, 17, 18, 19}, {30}, {41}, {46, 47, 48, 49, 50, 52}, {57, 61, 63}, {68, 69, 70, 71, 72, 73, 74}, {78, 79, 80, 81, 82, 83, 84}, {89, 90, 91, 92, 93, 94, 95}, {106})
  {
    Next6();
    Suffix7();
    IndicesCons((46, 16), Walk(Walker(Some((46, 17)), Pose(Right, 1, 17)), SAMPLE, 11, 38).value);
    RowsAdd1({}, {17, 18, 19}, {30}, {41}, {46, 47, 48, 49, 50, 52}, {57, 61, 63}, {68, 69, 70, 71, 72, 73, 74}, {78, 79, 80, 81, 82, 83, 84}, {89, 90, 91, 92, 93, 94, 95}, {106}, 16, {16, 17, 18, 19});
  }

  lemma Suffix5()
    requires WalkerOk(Walker(Some((46, 15)), Pose(Up, -11, 15)), SAMPLE, 11)
    ensures var r := Walk(Walker(Some((46, 15)), Pose(Up, -11, 15)), SAMPLE, 11, 40); r.Some? && Indices(r.value) == Rows({}, {15, 16, 17, 18, 19}, {30}, {41}, {46, 47, 48, 49, 50, 52}, {57, 61, 63}, {68, 69, 70, 71, 72, 73, 74}, {78, 79, 80, 81, 82, 83, 84}, {89, 90, 91, 92, 93, 94, 95}, {106})
  {
    Next5();
    Suffix6();
    IndicesCons((46, 15), Walk(Walker(Some((46, 16)), Pose(Right, 1, 16)), SAMPLE, 11, 39).value);
    RowsAdd1({}, {16, 17, 18, 19}, {30}, {41}, {46, 47, 48, 49, 50, 52}, {57, 61, 63}, {68, 69, 70, 71, 72, 73, 74}, {78, 79, 80, 81, 82, 83, 84}, {89, 90, 91, 92, 93, 94, 95}, {106}, 15, {15, 16, 17, 18, 19});
  }

  lemma Suffix4()
    requires WalkerOk(Walker(Some((46, 26)), Pose(Up, -11, 26)), SAMPLE, 11)
    ensures var r := Walk(Walker(Some((46, 26)), Pose(Up, -11, 26)), SAMPLE, 11, 41); r.Some? && Indices(r.value) == Rows({}, {15, 16, 17, 18, 19}, {26, 30}, {41}, {46, 47, 48, 49, 50, 52}, {57, 61, 63}, {68, 69, 70, 71, 72, 73, 74}, {78, 79, 80, 81, 82, 83, 84}, {89, 90, 91, 92, 93, 94, 95}, {106})
  {
    Next4();
    Suffix5();
    IndicesCons((46, 26), Walk(Walker(Some((46, 15)), Pose(Up, -11, 15)), SAMPLE, 11, 40).value);
    RowsAdd2({}, {15, 16, 17, 18, 19}, {30}, {41}, {46, 47, 48, 49, 50, 52}, {57, 61, 63}, {68, 69, 70, 71, 72, 73, 74}, {78, 79, 80, 81, 82, 83, 84}, {89, 90, 91, 92, 93, 94, 95}, {106}, 26, {26, 30});
  }

  lemma Suffix3()
    requires WalkerOk(Walker(Some((46, 37)), Pose(Up, -11, 37)), SAMPLE, 11)
    ensures var r := Walk(Walker(Some((46, 37)), Pose(Up, -11, 37)), SAMPLE, 11, 42); r.Some? && Indices(r.value) == Rows({}, {15, 16, 17, 18, 19}, {26, 30}, {37, 41}, {46, 47, 48, 49, 50, 52}, {57, 61, 63}, {68, 69, 70, 71, 72, 73, 74}, {78, 79, 80, 81, 82, 83, 84}, {89, 90, 91, 92, 93, 94, 95}, {106})
  {
    Next3();
    Suffix4();
    IndicesCons((46, 37), Walk(Walker(Some((46, 26)), Pose(Up, -11, 26)), SAMPLE, 11, 41).value);
    RowsAdd3({}, {15, 16, 17, 18, 19}, {26, 30}, {41}, {46, 47, 48, 49, 50, 52}, {57, 61, 63}, {68, 69, 70, 71, 72, 73, 74}, {78, 79, 80, 81, 82, 83, 84}, {89, 90, 91, 92, 93, 94, 95}, {106}, 37, {37, 41});
  }

  lemma Suffix2()
    requires WalkerOk(Walker(Some((46, 48)), Pose(Up, -11, 48)), SAMPLE, 11)
    ensures var r := Walk(Walker(Some((46, 48)), Pose(Up, -11, 48)), SAMPLE, 11, 43); r.Some? && Indices(r.value) == Rows({}, {15, 16, 17, 18, 19}, {26, 30}, {37, 41}, {46, 47, 48, 49, 50, 52}, {57, 61, 63}, {68, 69, 70, 71, 72, 73, 74}, {78, 79, 80, 81, 82, 83, 84}, {89, 90, 91, 92, 93, 94, 95}, {106})
  {
    Next2();
    Suffix3();
    IndicesCons((46, 48), Walk(Walker(Some((46, 37)), Pose(Up, -11, 37)), SAMPLE, 11, 42).value);
    RowsAdd4({}, {15, 16, 17, 18, 19}, {26, 30}, {37, 41}, {46, 47, 48, 49, 50, 52}, {57, 61, 63}, {68, 69, 70, 71, 72, 73, 74}, {78, 79, 80, 81, 82, 83, 84}, {89, 90, 91, 92, 93, 94, 95}, {106}, 48, {46, 47, 48, 49, 50, 52});
  }

  lemma Suffix1()
    requires WalkerOk(Walker(Some((46, 59)), Pose(Up, -11, 59)), SAMPLE, 11)
    ensures var r := Walk(Walker(Some((46, 59)), Pose(Up, -11, 59)), SAMPLE, 11, 44); r.Some? && Indices(r.value) == Rows({}, {15, 16, 17, 18, 19}, {26, 30}, {37, 41}, {46, 47, 48, 49, 50, 52}, {57, 59, 61, 63}, {68, 69, 70, 71, 72, 73, 74}, {78, 79, 80, 81, 82, 83, 84}, {89, 90, 91, 92, 93, 94, 95}, {106})
  {
    Next1();
    Suffix2();
    IndicesCons((46, 59), Walk(Walker(Some((46, 48)), Pose(Up, -11, 48)), SAMPLE, 11, 43).value);
    RowsAdd5({}, {15, 16, 17, 18, 19}, {26, 30}, {37, 41}, {46, 47, 48, 49, 50, 52}, {57, 61, 63}, {68, 69, 70, 71, 72, 73, 74}, {78, 79, 80, 81, 82, 83, 84}, {89, 90, 91, 92, 93, 94, 95}, {106}, 59, {57, 59, 61, 63});
  }

  lemma Suffix0()
    requires WalkerOk(Walker(Some((94, 70)), Pose(Up, -11, 70)), SAMPLE, 11)
    ensures var r := Walk(Walker(Some((94, 70)), Pose(Up, -11, 70)), SAMPLE, 11, 45); r.Some? && Indices(r.value) == Rows({}, {15, 16, 17, 18, 19}, {26, 30}, {37, 41}, {46, 47, 48, 49, 50, 52}, {57, 59, 61, 63}, {68, 69, 70, 71, 72, 73, 74}, {78, 79, 80, 81, 82, 83, 84}, {89, 90, 91, 92, 93, 94, 95}, {106})
  {
    Next0();
    Suffix1();
    IndicesCons((94, 70), Walk(Walker(Some((46, 59)), Pose(Up, -11, 59)), SAMPLE, 11, 44).value);
    RowsAdd6({}, {15, 16, 17, 18, 19}, {26, 30}, {37, 41}, {46, 47, 48, 49, 50, 52}, {57, 59, 61, 63}, {68, 69, 70, 71, 72, 73, 74}, {78, 79, 80, 81, 82, 83, 84}, {89, 90, 91, 92, 93, 94, 95}, {106}, 70, {68, 69, 70, 71, 72, 73, 74});
  }

  lemma Row1Visited()
    ensures InRow({15, 16, 17, 18, 19}, 1) && |{15, 16, 17, 18, 19}| == 5
  {
  }

  lemma Row2Visited()
    ensures InRow({26, 30}, 2) && |{26, 30}| == 2
  {
  }

  lemma Row3Visited()
    ensures InRow({37, 41}, 3) && |{37, 41}| == 2
  {
  }

  lemma Row4Visited()
    ensures InRow({46, 47, 48, 49, 50, 52}, 4) && |{46, 47, 48, 49, 50, 52}| == 6
  {
  }

  lemma Row5Visited()
    ensures InRow({57, 59, 61, 63}, 5) && |{57, 59, 61, 63}| == 4
  {
  }

  lemma Row6Visited()
    ensures InRow({68, 69, 70, 71, 72, 73, 74}, 6) && |{68, 69, 70, 71, 72, 73, 74}| == 7
  {
  }

  lemma Row7Visited()
    ensures InRow({78, 79, 80, 81, 82, 83, 84}, 7) && |{78, 79, 80, 81, 82, 83, 84}| == 7
  {
  }

  lemma Row8Visited()
    ensures InRow({89, 90, 91, 92, 93, 94, 95}, 8) && |{89, 90, 91, 92, 93, 94, 95}| == 7
  {
  }

  lemma Row9Visited()
    ensures InRow({106}, 9) && |{106}| == 1
  {
  }

  /** The rows of the sample map hold 41 visited indices. */
  lemma SampleRows()
    ensures |Rows({}, {15, 16, 17, 18, 19}, {26, 30}, {37, 41}, {46, 47, 48, 49, 50, 52}, {57, 59, 61, 63}, {68, 69, 70, 71, 72, 73, 74}, {78, 79, 80, 81, 82, 83, 84}, {89, 90, 91, 92, 93, 94, 95}, {106})| == 41
  {
    Row1Visited();
    Row2Visited();
    Row3Visited();
    Row4Visited();
    Row5Visited();
    Row6Visited();
    Row7Visited();
    Row8Visited();
    Row9Visited();
    RowsCard({}, {15, 16, 17, 18, 19}, {26, 30}, {37, 41}, {46, 47, 48, 49, 50, 52}, {57, 59, 61, 63}, {68, 69, 70, 71, 72, 73, 74}, {78, 79, 80, 81, 82, 83, 84}, {89, 90, 91, 92, 93, 94, 95}, {106});
  }

  /** `part1_given_input`: the guard visits 41 positions of the sample map. */
  lemma SamplePart1()
    ensures SAMPLE != [] && CARET in SAMPLE && Part1(SAMPLE, 45) == Some(41)
  {
    SampleStart();
    Suffix0();
    SampleRows();
  }
}
