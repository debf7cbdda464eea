/**
 * The sample grid of the day 4 tests (src/day4.rs:111-120) and the answer 18
 * that `part1_sample_input` expects (src/day4.rs:129-132). The count goes
 * through the reference `TotalLines`: a cell that is not 'X' starts no
 * line, and for each 'X' the eight straight lines are checked byte by byte.
 */
module Day4Samples {
  import opened Text
  import opened Day4

  const ROW_0: seq<byte> := [77, 77, 77, 83, 88, 88, 77, 65, 83, 77, 10]
  const ROW_1: seq<byte> := [77, 83, 65, 77, 88, 77, 83, 77, 83, 65, 10]
  const ROW_2: seq<byte> := [65, 77, 88, 83, 88, 77, 65, 65, 77, 77, 10]
  const ROW_3: seq<byte> := [77, 83, 65, 77, 65, 83, 77, 83, 77, 88, 10]
  const ROW_4: seq<byte> := [88, 77, 65, 83, 65, 77, 88, 65, 77, 77, 10]
  const ROW_5: seq<byte> := [88, 88, 65, 77, 77, 88, 88, 65, 77, 65, 10]
  const ROW_6: seq<byte> := [83, 77, 83, 77, 83, 65, 83, 88, 83, 83, 10]
  const ROW_7: seq<byte> := [83, 65, 88, 65, 77, 65, 83, 65, 65, 65, 10]
  const ROW_8: seq<byte> := [77, 65, 77, 77, 77, 88, 77, 77, 77, 77, 10]
  const ROW_9: seq<byte> := [77, 88, 77, 88, 65, 88, 77, 65, 83, 88]
  /** The ten rows, the last without a '\n' (a long display is costly to index). */
  const SAMPLE: seq<byte> := ROW_0 + ROW_1 + ROW_2 + ROW_3 + ROW_4 + ROW_5 + ROW_6 + ROW_7 + ROW_8 + ROW_9

  /** Each byte of row `r` stands at `11 * r` onwards. */
  lemma SampleBytes()
    ensures |SAMPLE| == 109
    ensures forall c :: 0 <= c < 11 ==> SAMPLE[c] == ROW_0[c]
    ensures forall c :: 0 <= c < 11 ==> SAMPLE[11 + c] == ROW_1[c]
    ensures forall c :: 0 <= c < 11 ==> SAMPLE[22 + c] == ROW_2[c]
    ensures forall c :: 0 <= c < 11 ==> SAMPLE[33 + c] == ROW_3[c]
    ensures forall c :: 0 <= c < 11 ==> SAMPLE[44 + c] == ROW_4[c]
    ensures forall c :: 0 <= c < 11 ==> SAMPLE[55 + c] == ROW_5[c]
    ensures forall c :: 0 <= c < 11 ==> SAMPLE[66 + c] == ROW_6[c]
    ensures forall c :: 0 <= c < 11 ==> SAMPLE[77 + c] == ROW_7[c]
    ensures forall c :: 0 <= c < 11 ==> SAMPLE[88 + c] == ROW_8[c]
    ensures forall c :: 0 <= c < 10 ==> SAMPLE[99 + c] == ROW_9[c]
  {
  }

  /** The stride of the sample is 11: ten letters and a '\n'. */
  lemma SampleStride()
    ensures NL in SAMPLE && LineLen(SAMPLE) == 11
  {
    SampleBytes();
    assert SAMPLE[10] == NL;
    assert forall j :: 0 <= j < 10 ==> SAMPLE[j] == ROW_0[j] != NL;
  }

  /** The eight steps over a stride of 11, in the declaration order. */
  lemma SampleSteps()
    ensures NL in SAMPLE
    ensures Step(DIRECTIONS[0], LineLen(SAMPLE)) == -11
    ensures Step(DIRECTIONS[1], LineLen(SAMPLE)) == 11
    ensures Step(DIRECTIONS[2], LineLen(SAMPLE)) == -1
    ensures Step(DIRECTIONS[3], LineLen(SAMPLE)) == 1
    ensures Step(DIRECTIONS[4], LineLen(SAMPLE)) == -10
    ensures Step(DIRECTIONS[5], LineLen(SAMPLE)) == -12
    ensures Step(DIRECTIONS[6], LineLen(SAMPLE)) == 12
    ensures Step(DIRECTIONS[7], LineLen(SAMPLE)) == 10
  {
    SampleStride();
  }

  /** The bytes of row 0 where they stand in the sample. */
  lemma Bytes0()
    ensures |SAMPLE| == 109
    ensures SAMPLE[0] == 77
    ensures SAMPLE[1] == 77
    ensures SAMPLE[2] == 77
    ensures SAMPLE[3] == 83
    ensures SAMPLE[4] == 88
    ensures SAMPLE[5] == 88
    ensures SAMPLE[6] == 77
    ensures SAMPLE[7] == 65
    ensures SAMPLE[8] == 83
    ensures SAMPLE[9] == 77
    ensures SAMPLE[10] == 10
  {
    SampleBytes();
    assert ROW_0[0] == 77;
    assert ROW_0[1] == 77;
    assert ROW_0[2] == 77;
    assert ROW_0[3] == 83;
    assert ROW_0[4] == 88;
    assert ROW_0[5] == 88;
    assert ROW_0[6] == 77;
    assert ROW_0[7] == 65;
    assert ROW_0[8] == 83;
    assert ROW_0[9] == 77;
    assert ROW_0[10] == 10;
  }

  /** The bytes of row 1 where they stand in the sample. */
  lemma Bytes1()
    ensures |SAMPLE| == 109
    ensures SAMPLE[11] == 77
    ensures SAMPLE[12] == 83
    ensures SAMPLE[13] == 65
    ensures SAMPLE[14] == 77
    ensures SAMPLE[15] == 88
    ensures SAMPLE[16] == 77
    ensures SAMPLE[17] == 83
    ensures SAMPLE[18] == 77
    ensures SAMPLE[19] == 83
    ensures SAMPLE[20] == 65
    ensures SAMPLE[21] == 10
  {
    SampleBytes();
    assert ROW_1[0] == 77;
    assert ROW_1[1] == 83;
    assert ROW_1[2] == 65;
    assert ROW_1[3] == 77;
    assert ROW_1[4] == 88;
    assert ROW_1[5] == 77;
    assert ROW_1[6] == 83;
    assert ROW_1[7] == 77;
    assert ROW_1[8] == 83;
    assert ROW_1[9] == 65;
    assert ROW_1[10] == 10;
  }

  /** The bytes of row 2 where they stand in the sample. */
  lemma Bytes2()
    ensures |SAMPLE| == 109
    ensures SAMPLE[22] == 65
    ensures SAMPLE[23] == 77
    ensures SAMPLE[24] == 88
    ensures SAMPLE[25] == 83
    ensures SAMPLE[26] == 88
    ensures SAMPLE[27] == 77
    ensures SAMPLE[28] == 65
    ensures SAMPLE[29] == 65
    ensures SAMPLE[30] == 77
    ensures SAMPLE[31] == 77
    ensures SAMPLE[32] == 10
  {
    SampleBytes();
    assert ROW_2[0] == 65;
    assert ROW_2[1] == 77;
    assert ROW_2[2] == 88;
    assert ROW_2[3] == 83;
    assert ROW_2[4] == 88;
    assert ROW_2[5] == 77;
    assert ROW_2[6] == 65;
    assert ROW_2[7] == 65;
    assert ROW_2[8] == 77;
    assert ROW_2[9] == 77;
    assert ROW_2[10] == 10;
  }

  /** The bytes of row 3 where they stand in the sample. */
  lemma Bytes3()
    ensures |SAMPLE| == 109
    ensures SAMPLE[33] == 77
    ensures SAMPLE[34] == 83
    ensures SAMPLE[35] == 65
    ensures SAMPLE[36] == 77
    ensures SAMPLE[37] == 65
    ensures SAMPLE[38] == 83
    ensures SAMPLE[39] == 77
    ensures SAMPLE[40] == 83
    ensures SAMPLE[41] == 77
    ensures SAMPLE[42] == 88
    ensures SAMPLE[43] == 10
  {
    SampleBytes();
    assert ROW_3[0] == 77;
    assert ROW_3[1] == 83;
    assert ROW_3[2] == 65;
    assert ROW_3[3] == 77;
    assert ROW_3[4] == 65;
    assert ROW_3[5] == 83;
    assert ROW_3[6] == 77;
    assert ROW_3[7] == 83;
    assert ROW_3[8] == 77;
    assert ROW_3[9] == 88;
    assert ROW_3[10] == 10;
  }

  /** The bytes of row 4 where they stand in the sample. */
  lemma Bytes4()
    ensures |SAMPLE| == 109
    ensures SAMPLE[44] == 88
    ensures SAMPLE[45] == 77
    ensures SAMPLE[46] == 65
    ensures SAMPLE[47] == 83
    ensures SAMPLE[48] == 65
    ensures SAMPLE[49] == 77
    ensures SAMPLE[50] == 88
    ensures SAMPLE[51] == 65
    ensures SAMPLE[52] == 77
    ensures SAMPLE[53] == 77
    ensures SAMPLE[54] == 10
  {
    SampleBytes();
    assert ROW_4[0] == 88;
    assert ROW_4[1] == 77;
    assert ROW_4[2] == 65;
    assert ROW_4[3] == 83;
    assert ROW_4[4] == 65;
    assert ROW_4[5] == 77;
    assert ROW_4[6] == 88;
    assert ROW_4[7] == 65;
    assert ROW_4[8] == 77;
    assert ROW_4[9] == 77;
    assert ROW_4[10] == 10;
  }

  /** The bytes of row 5 where they stand in the sample. */
  lemma Bytes5()
    ensures |SAMPLE| == 109
    ensures SAMPLE[55] == 88
    ensures SAMPLE[56] == 88
    ensures SAMPLE[57] == 65
    ensures SAMPLE[58] == 77
    ensures SAMPLE[59] == 77
    ensures SAMPLE[60] == 88
    ensures SAMPLE[61] == 88
    ensures SAMPLE[62] == 65
    ensures SAMPLE[63] == 77
    ensures SAMPLE[64] == 65
    ensures SAMPLE[65] == 10
  {
    SampleBytes();
    assert ROW_5[0] == 88;
    assert ROW_5[1] == 88;
    assert ROW_5[2] == 65;
    assert ROW_5[3] == 77;
    assert ROW_5[4] == 77;
    assert ROW_5[5] == 88;
    assert ROW_5[6] == 88;
    assert ROW_5[7] == 65;
    assert ROW_5[8] == 77;
    assert ROW_5[9] == 65;
    assert ROW_5[10] == 10;
  }

  /** The bytes of row 6 where they stand in the sample. */
  lemma Bytes6()
    ensures |SAMPLE| == 109
    ensures SAMPLE[66] == 83
    ensures SAMPLE[67] == 77
    ensures SAMPLE[68] == 83
    ensures SAMPLE[69] == 77
    ensures SAMPLE[70] == 83
    ensures SAMPLE[71] == 65
    ensures SAMPLE[72] == 83
    ensures SAMPLE[73] == 88
    ensures SAMPLE[74] == 83
    ensures SAMPLE[75] == 83
    ensures SAMPLE[76] == 10
  {
    SampleBytes();
    assert ROW_6[0] == 83;
    assert ROW_6[1] == 77;
    assert ROW_6[2] == 83;
    assert ROW_6[3] == 77;
    assert ROW_6[4] == 83;
    assert ROW_6[5] == 65;
    assert ROW_6[6] == 83;
    assert ROW_6[7] == 88;
    assert ROW_6[8] == 83;
    assert ROW_6[9] == 83;
    assert ROW_6[10] == 10;
  }

  /** The bytes of row 7 where they stand in the sample. */
  lemma Bytes7()
    ensures |SAMPLE| == 109
    ensures SAMPLE[77] == 83
    ensures SAMPLE[78] == 65
    ensures SAMPLE[79] == 88
    ensures SAMPLE[80] == 65
    ensures SAMPLE[81] == 77
    ensures SAMPLE[82] == 65
    ensures SAMPLE[83] == 83
    ensures SAMPLE[84] == 65
    ensures SAMPLE[85] == 65
    ensures SAMPLE[86] == 65
    ensures SAMPLE[87] == 10
  {
    SampleBytes();
    assert ROW_7[0] == 83;
    assert ROW_7[1] == 65;
    assert ROW_7[2] == 88;
    assert ROW_7[3] == 65;
    assert ROW_7[4] == 77;
    assert ROW_7[5] == 65;
    assert ROW_7[6] == 83;
    assert ROW_7[7] == 65;
    assert ROW_7[8] == 65;
    assert ROW_7[9] == 65;
    assert ROW_7[10] == 10;
  }

  /** The bytes of row 8 where they stand in the sample. */
  lemma Bytes8()
    ensures |SAMPLE| == 109
    ensures SAMPLE[88] == 77
    ensures SAMPLE[89] == 65
    ensures SAMPLE[90] == 77
    ensures SAMPLE[91] == 77
    ensures SAMPLE[92] == 77
    ensures SAMPLE[93] == 88
    ensures SAMPLE[94] == 77
    ensures SAMPLE[95] == 77
    ensures SAMPLE[96] == 77
    ensures SAMPLE[97] == 77
    ensures SAMPLE[98] == 10
  {
    SampleBytes();
    assert ROW_8[0] == 77;
    assert ROW_8[1] == 65;
    assert ROW_8[2] == 77;
    assert ROW_8[3] == 77;
    assert ROW_8[4] == 77;
    assert ROW_8[5] == 88;
    assert ROW_8[6] == 77;
    assert ROW_8[7] == 77;
    assert ROW_8[8] == 77;
    assert ROW_8[9] == 77;
    assert ROW_8[10] == 10;
  }

  /** The bytes of row 9 where they stand in the sample. */
  lemma Bytes9()
    ensures |SAMPLE| == 109
    ensures SAMPLE[99] == 77
    ensures SAMPLE[100] == 88
    ensures SAMPLE[101] == 77
    ensures SAMPLE[102] == 88
    ensures SAMPLE[103] == 65
    ensures SAMPLE[104] == 88
    ensures SAMPLE[105] == 77
    ensures SAMPLE[106] == 65
    ensures SAMPLE[107] == 83
    ensures SAMPLE[108] == 88
  {
    SampleBytes();
    assert ROW_9[0] == 77;
    assert ROW_9[1] == 88;
    assert ROW_9[2] == 77;
    assert ROW_9[3] == 88;
    assert ROW_9[4] == 65;
    assert ROW_9[5] == 88;
    assert ROW_9[6] == 77;
    assert ROW_9[7] == 65;
    assert ROW_9[8] == 83;
    assert ROW_9[9] == 88;
  }

  lemma Line4Up()
    ensures !XmasLine(SAMPLE, 4, -11)
  {
    Bytes0();
    assert !(0 <= 4 + 1 * -11 < |SAMPLE|);
  }

  lemma Line4Down()
    ensures !XmasLine(SAMPLE, 4, 11)
  {
    Bytes1();
    assert !(0 <= 4 + 1 * 11 < |SAMPLE| && SAMPLE[4 + 1 * 11] == XMAS[1]);
  }

  lemma Line4Left()
    ensures !XmasLine(SAMPLE, 4, -1)
  {
    Bytes0();
    assert !(0 <= 4 + 1 * -1 < |SAMPLE| && SAMPLE[4 + 1 * -1] == XMAS[1]);
  }

  lemma Line4Right()
    ensures !XmasLine(SAMPLE, 4, 1)
  {
    Bytes0();
    assert !(0 <= 4 + 1 * 1 < |SAMPLE| && SAMPLE[4 + 1 * 1] == XMAS[1]);
  }

  lemma Line4UpRight()
    ensures !XmasLine(SAMPLE, 4, -10)
  {
    Bytes0();
    assert !(0 <= 4 + 1 * -10 < |SAMPLE|);
  }

  lemma Line4UpLeft()
    ensures !XmasLine(SAMPLE, 4, -12)
  {
    Bytes0();
    assert !(0 <= 4 + 1 * -12 < |SAMPLE|);
  }

  lemma Line4DownRight()
    ensures XmasLine(SAMPLE, 4, 12)
  {
    Bytes0();
    Bytes1();
    Bytes2();
    Bytes3();
    forall k | 0 <= k < 4
      ensures 0 <= 4 + k * 12 < |SAMPLE| && SAMPLE[4 + k * 12] == XMAS[k]
    {
      assert k == 0 || k == 1 || k == 2 || k == 3;
    }
  }

  lemma Line4DownLeft()
    ensures !XmasLine(SAMPLE, 4, 10)
  {
    Bytes2();
    assert !(0 <= 4 + 2 * 10 < |SAMPLE| && SAMPLE[4 + 2 * 10] == XMAS[2]);
  }

  lemma Cell4()
    ensures NL in SAMPLE && CountLines(SAMPLE, 4, 8) == 1
  {
    SampleSteps();
    Line4Up();
    assert CountLines(SAMPLE, 4, 1) == 0;
    Line4Down();
    assert CountLines(SAMPLE, 4, 2) == 0;
    Line4Left();
    assert CountLines(SAMPLE, 4, 3) == 0;
    Line4Right();
    assert CountLines(SAMPLE, 4, 4) == 0;
    Line4UpRight();
    assert CountLines(SAMPLE, 4, 5) == 0;
    Line4UpLeft();
    assert CountLines(SAMPLE, 4, 6) == 0;
    Line4DownRight();
    assert CountLines(SAMPLE, 4, 7) == 1;
    Line4DownLeft();
    assert CountLines(SAMPLE, 4, 8) == 1;
  }

  lemma Line5Up()
    ensures !XmasLine(SAMPLE, 5, -11)
  {
    Bytes0();
    assert !(0 <= 5 + 1 * -11 < |SAMPLE|);
  }

  lemma Line5Down()
    ensures !XmasLine(SAMPLE, 5, 11)
  {
    Bytes2();
    assert !(0 <= 5 + 2 * 11 < |SAMPLE| && SAMPLE[5 + 2 * 11] == XMAS[2]);
  }

  lemma Line5Left()
    ensures !XmasLine(SAMPLE, 5, -1)
  {
    Bytes0();
    assert !(0 <= 5 + 1 * -1 < |SAMPLE| && SAMPLE[5 + 1 * -1] == XMAS[1]);
  }

  lemma Line5Right()
    ensures XmasLine(SAMPLE, 5, 1)
  {
    Bytes0();
    forall k | 0 <= k < 4
      ensures 0 <= 5 + k * 1 < |SAMPLE| && SAMPLE[5 + k * 1] == XMAS[k]
    {
      assert k == 0 || k == 1 || k == 2 || k == 3;
    }
  }

  lemma Line5UpRight()
    ensures !XmasLine(SAMPLE, 5, -10)
  {
    Bytes0();
    assert !(0 <= 5 + 1 * -10 < |SAMPLE|);
  }

  lemma Line5UpLeft()
    ensures !XmasLine(SAMPLE, 5, -12)
  {
    Bytes0();
    assert !(0 <= 5 + 1 * -12 < |SAMPLE|);
  }

  lemma Line5DownRight()
    ensures !XmasLine(SAMPLE, 5, 12)
  {
    Bytes1();
    assert !(0 <= 5 + 1 * 12 < |SAMPLE| && SAMPLE[5 + 1 * 12] == XMAS[1]);
  }

  lemma Line5DownLeft()
    ensures !XmasLine(SAMPLE, 5, 10)
  {
    Bytes1();
    assert !(0 <= 5 + 1 * 10 < |SAMPLE| && SAMPLE[5 + 1 * 10] == XMAS[1]);
  }

  lemma Cell5()
    ensures NL in SAMPLE && CountLines(SAMPLE, 5, 8) == 1
  {
    SampleSteps();
    Line5Up();
    assert CountLines(SAMPLE, 5, 1) == 0;
    Line5Down();
    assert CountLines(SAMPLE, 5, 2) == 0;
    Line5Left();
    assert CountLines(SAMPLE, 5, 3) == 0;
    Line5Right();
    assert CountLines(SAMPLE, 5, 4) == 1;
    Line5UpRight();
    assert CountLines(SAMPLE, 5, 5) == 1;
    Line5UpLeft();
    assert CountLines(SAMPLE, 5, 6) == 1;
    Line5DownRight();
    assert CountLines(SAMPLE, 5, 7) == 1;
    Line5DownLeft();
    assert CountLines(SAMPLE, 5, 8) == 1;
  }

  lemma Line15Up()
    ensures !XmasLine(SAMPLE, 15, -11)
  {
    Bytes0();
    assert !(0 <= 15 + 1 * -11 < |SAMPLE| && SAMPLE[15 + 1 * -11] == XMAS[1]);
  }

  lemma Line15Down()
    ensures !XmasLine(SAMPLE, 15, 11)
  {
    Bytes2();
    assert !(0 <= 15 + 1 * 11 < |SAMPLE| && SAMPLE[15 + 1 * 11] == XMAS[1]);
  }

  lemma Line15Left()
    ensures XmasLine(SAMPLE, 15, -1)
  {
    Bytes1();
    forall k | 0 <= k < 4
      ensures 0 <= 15 + k * -1 < |SAMPLE| && SAMPLE[15 + k * -1] == XMAS[k]
    {
      assert k == 0 || k == 1 || k == 2 || k == 3;
    }
  }

  lemma Line15Right()
    ensures !XmasLine(SAMPLE, 15, 1)
  {
    Bytes1();
    assert !(0 <= 15 + 2 * 1 < |SAMPLE| && SAMPLE[15 + 2 * 1] == XMAS[2]);
  }

  lemma Line15UpRight()
    ensures !XmasLine(SAMPLE, 15, -10)
  {
    Bytes0();
    assert !(0 <= 15 + 1 * -10 < |SAMPLE| && SAMPLE[15 + 1 * -10] == XMAS[1]);
  }

  lemma Line15UpLeft()
    ensures !XmasLine(SAMPLE, 15, -12)
  {
    Bytes0();
    assert !(0 <= 15 + 1 * -12 < |SAMPLE| && SAMPLE[15 + 1 * -12] == XMAS[1]);
  }

  lemma Line15DownRight()
    ensures !XmasLine(SAMPLE, 15, 12)
  {
    Bytes3();
    assert !(0 <= 15 + 2 * 12 < |SAMPLE| && SAMPLE[15 + 2 * 12] == XMAS[2]);
  }

  lemma Line15DownLeft()
    ensures !XmasLine(SAMPLE, 15, 10)
  {
    Bytes2();
    assert !(0 <= 15 + 1 * 10 < |SAMPLE| && SAMPLE[15 + 1 * 10] == XMAS[1]);
  }

  lemma Cell15()
    ensures NL in SAMPLE && CountLines(SAMPLE, 15, 8) == 1
  {
    SampleSteps();
    Line15Up();
    assert CountLines(SAMPLE, 15, 1) == 0;
    Line15Down();
    assert CountLines(SAMPLE, 15, 2) == 0;
    Line15Left();
    assert CountLines(SAMPLE, 15, 3) == 1;
    Line15Right();
    assert CountLines(SAMPLE, 15, 4) == 1;
    Line15UpRight();
    assert CountLines(SAMPLE, 15, 5) == 1;
    Line15UpLeft();
    assert CountLines(SAMPLE, 15, 6) == 1;
    Line15DownRight();
    assert CountLines(SAMPLE, 15, 7) == 1;
    Line15DownLeft();
    assert CountLines(SAMPLE, 15, 8) == 1;
  }

  lemma Line24Up()
    ensures !XmasLine(SAMPLE, 24, -11)
  {
    Bytes1();
    assert !(0 <= 24 + 1 * -11 < |SAMPLE| && SAMPLE[24 + 1 * -11] == XMAS[1]);
  }

  lemma Line24Down()
    ensures !XmasLine(SAMPLE, 24, 11)
  {
    Bytes3();
    assert !(0 <= 24 + 1 * 11 < |SAMPLE| && SAMPLE[24 + 1 * 11] == XMAS[1]);
  }

  lemma Line24Left()
    ensures !XmasLine(SAMPLE, 24, -1)
  {
    Bytes1();
    assert !(0 <= 24 + 3 * -1 < |SAMPLE| && SAMPLE[24 + 3 * -1] == XMAS[3]);
  }

  lemma Line24Right()
    ensures !XmasLine(SAMPLE, 24, 1)
  {
    Bytes2();
    assert !(0 <= 24 + 1 * 1 < |SAMPLE| && SAMPLE[24 + 1 * 1] == XMAS[1]);
  }

  lemma Line24UpRight()
    ensures !XmasLine(SAMPLE, 24, -10)
  {
    Bytes0();
    assert !(0 <= 24 + 2 * -10 < |SAMPLE| && SAMPLE[24 + 2 * -10] == XMAS[2]);
  }

  lemma Line24UpLeft()
    ensures !XmasLine(SAMPLE, 24, -12)
  {
    Bytes1();
    assert !(0 <= 24 + 1 * -12 < |SAMPLE| && SAMPLE[24 + 1 * -12] == XMAS[1]);
  }

  lemma Line24DownRight()
    ensures !XmasLine(SAMPLE, 24, 12)
  {
    Bytes5();
    assert !(0 <= 24 + 3 * 12 < |SAMPLE| && SAMPLE[24 + 3 * 12] == XMAS[3]);
  }

  lemma Line24DownLeft()
    ensures !XmasLine(SAMPLE, 24, 10)
  {
    Bytes3();
    assert !(0 <= 24 + 1 * 10 < |SAMPLE| && SAMPLE[24 + 1 * 10] == XMAS[1]);
  }

  lemma Cell24()
    ensures NL in SAMPLE && CountLines(SAMPLE, 24, 8) == 0
  {
    SampleSteps();
    Line24Up();
    assert CountLines(SAMPLE, 24, 1) == 0;
    Line24Down();
    assert CountLines(SAMPLE, 24, 2) == 0;
    Line24Left();
    assert CountLines(SAMPLE, 24, 3) == 0;
    Line24Right();
    assert CountLines(SAMPLE, 24, 4) == 0;
    Line24UpRight();
    assert CountLines(SAMPLE, 24, 5) == 0;
    Line24UpLeft();
    assert CountLines(SAMPLE, 24, 6) == 0;
    Line24DownRight();
    assert CountLines(SAMPLE, 24, 7) == 0;
    Line24DownLeft();
    assert CountLines(SAMPLE, 24, 8) == 0;
  }

  lemma Line26Up()
    ensures !XmasLine(SAMPLE, 26, -11)
  {
    Bytes1();
    assert !(0 <= 26 + 1 * -11 < |SAMPLE| && SAMPLE[26 + 1 * -11] == XMAS[1]);
  }

  lemma Line26Down()
    ensures !XmasLine(SAMPLE, 26, 11)
  {
    Bytes3();
    assert !(0 <= 26 + 1 * 11 < |SAMPLE| && SAMPLE[26 + 1 * 11] == XMAS[1]);
  }

  lemma Line26Left()
    ensures !XmasLine(SAMPLE, 26, -1)
  {
    Bytes2();
    assert !(0 <= 26 + 1 * -1 < |SAMPLE| && SAMPLE[26 + 1 * -1] == XMAS[1]);
  }

  lemma Line26Right()
    ensures !XmasLine(SAMPLE, 26, 1)
  {
    Bytes2();
    assert !(0 <= 26 + 3 * 1 < |SAMPLE| && SAMPLE[26 + 3 * 1] == XMAS[3]);
  }

  lemma Line26UpRight()
    ensures !XmasLine(SAMPLE, 26, -10)
  {
    Bytes0();
    assert !(0 <= 26 + 2 * -10 < |SAMPLE| && SAMPLE[26 + 2 * -10] == XMAS[2]);
  }

  lemma Line26UpLeft()
    ensures !XmasLine(SAMPLE, 26, -12)
  {
    Bytes0();
    assert !(0 <= 26 + 2 * -12 < |SAMPLE| && SAMPLE[26 + 2 * -12] == XMAS[2]);
  }

  lemma Line26DownRight()
    ensures !XmasLine(SAMPLE, 26, 12)
  {
    Bytes3();
    assert !(0 <= 26 + 1 * 12 < |SAMPLE| && SAMPLE[26 + 1 * 12] == XMAS[1]);
  }

  lemma Line26DownLeft()
    ensures !XmasLine(SAMPLE, 26, 10)
  {
    Bytes5();
    assert !(0 <= 26 + 3 * 10 < |SAMPLE| && SAMPLE[26 + 3 * 10] == XMAS[3]);
  }

  lemma Cell26()
    ensures NL in SAMPLE && CountLines(SAMPLE, 26, 8) == 0
  {
    SampleSteps();
    Line26Up();
    assert CountLines(SAMPLE, 26, 1) == 0;
    Line26Down();
    assert CountLines(SAMPLE, 26, 2) == 0;
    Line26Left();
    assert CountLines(SAMPLE, 26, 3) == 0;
    Line26Right();
    assert CountLines(SAMPLE, 26, 4) == 0;
    Line26UpRight();
    assert CountLines(SAMPLE, 26, 5) == 0;
    Line26UpLeft();
    assert CountLines(SAMPLE, 26, 6) == 0;
    Line26DownRight();
    assert CountLines(SAMPLE, 26, 7) == 0;
    Line26DownLeft();
    assert CountLines(SAMPLE, 26, 8) == 0;
  }

  lemma Line42Up()
    ensures !XmasLine(SAMPLE, 42, -11)
  {
    Bytes0();
    assert !(0 <= 42 + 3 * -11 < |SAMPLE| && SAMPLE[42 + 3 * -11] == XMAS[3]);
  }

  lemma Line42Down()
    ensures XmasLine(SAMPLE, 42, 11)
  {
    Bytes3();
    Bytes4();
    Bytes5();
    Bytes6();
    forall k | 0 <= k < 4
      ensures 0 <= 42 + k * 11 < |SAMPLE| && SAMPLE[42 + k * 11] == XMAS[k]
    {
      assert k == 0 || k == 1 || k == 2 || k == 3;
    }
  }

  lemma Line42Left()
    ensures !XmasLine(SAMPLE, 42, -1)
  {
    Bytes3();
    assert !(0 <= 42 + 2 * -1 < |SAMPLE| && SAMPLE[42 + 2 * -1] == XMAS[2]);
  }

  lemma Line42Right()
    ensures !XmasLine(SAMPLE, 42, 1)
  {
    Bytes3();
    assert !(0 <= 42 + 1 * 1 < |SAMPLE| && SAMPLE[42 + 1 * 1] == XMAS[1]);
  }

  lemma Line42UpRight()
    ensures !XmasLine(SAMPLE, 42, -10)
  {
    Bytes2();
    assert !(0 <= 42 + 1 * -10 < |SAMPLE| && SAMPLE[42 + 1 * -10] == XMAS[1]);
  }

  lemma Line42UpLeft()
    ensures !XmasLine(SAMPLE, 42, -12)
  {
    Bytes1();
    assert !(0 <= 42 + 2 * -12 < |SAMPLE| && SAMPLE[42 + 2 * -12] == XMAS[2]);
  }

  lemma Line42DownRight()
    ensures !XmasLine(SAMPLE, 42, 12)
  {
    Bytes4();
    assert !(0 <= 42 + 1 * 12 < |SAMPLE| && SAMPLE[42 + 1 * 12] == XMAS[1]);
  }

  lemma Line42DownLeft()
    ensures XmasLine(SAMPLE, 42, 10)
  {
    Bytes3();
    Bytes4();
    Bytes5();
    Bytes6();
    forall k | 0 <= k < 4
      ensures 0 <= 42 + k * 10 < |SAMPLE| && SAMPLE[42 + k * 10] == XMAS[k]
    {
      assert k == 0 || k == 1 || k == 2 || k == 3;
    }
  }

  lemma Cell42()
    ensures NL in SAMPLE && CountLines(SAMPLE, 42, 8) == 2
  {
    SampleSteps();
    Line42Up();
    assert CountLines(SAMPLE, 42, 1) == 0;
    Line42Down();
    assert CountLines(SAMPLE, 42, 2) == 1;
    Line42Left();
    assert CountLines(SAMPLE, 42, 3) == 1;
    Line42Right();
    assert CountLines(SAMPLE, 42, 4) == 1;
    Line42UpRight();
    assert CountLines(SAMPLE, 42, 5) == 1;
    Line42UpLeft();
    assert CountLines(SAMPLE, 42, 6) == 1;
    Line42DownRight();
    assert CountLines(SAMPLE, 42, 7) == 1;
    Line42DownLeft();
    assert CountLines(SAMPLE, 42, 8) == 2;
  }

  lemma Line44Up()
    ensures !XmasLine(SAMPLE, 44, -11)
  {
    Bytes1();
    assert !(0 <= 44 + 3 * -11 < |SAMPLE| && SAMPLE[44 + 3 * -11] == XMAS[3]);
  }

  lemma Line44Down()
    ensures !XmasLine(SAMPLE, 44, 11)
  {
    Bytes5();
    assert !(0 <= 44 + 1 * 11 < |SAMPLE| && SAMPLE[44 + 1 * 11] == XMAS[1]);
  }

  lemma Line44Left()
    ensures !XmasLine(SAMPLE, 44, -1)
  {
    Bytes3();
    assert !(0 <= 44 + 1 * -1 < |SAMPLE| && SAMPLE[44 + 1 * -1] == XMAS[1]);
  }

  lemma Line44Right()
    ensures XmasLine(SAMPLE, 44, 1)
  {
    Bytes4();
    forall k | 0 <= k < 4
      ensures 0 <= 44 + k * 1 < |SAMPLE| && SAMPLE[44 + k * 1] == XMAS[k]
    {
      assert k == 0 || k == 1 || k == 2 || k == 3;
    }
  }

  lemma Line44UpRight()
    ensures !XmasLine(SAMPLE, 44, -10)
  {
    Bytes3();
    assert !(0 <= 44 + 1 * -10 < |SAMPLE| && SAMPLE[44 + 1 * -10] == XMAS[1]);
  }

  lemma Line44UpLeft()
    ensures !XmasLine(SAMPLE, 44, -12)
  {
    Bytes2();
    assert !(0 <= 44 + 1 * -12 < |SAMPLE| && SAMPLE[44 + 1 * -12] == XMAS[1]);
  }

  lemma Line44DownRight()
    ensures !XmasLine(SAMPLE, 44, 12)
  {
    Bytes5();
    assert !(0 <= 44 + 1 * 12 < |SAMPLE| && SAMPLE[44 + 1 * 12] == XMAS[1]);
  }

  lemma Line44DownLeft()
    ensures !XmasLine(SAMPLE, 44, 10)
  {
    Bytes4();
    assert !(0 <= 44 + 1 * 10 < |SAMPLE| && SAMPLE[44 + 1 * 10] == XMAS[1]);
  }

  lemma Cell44()
    ensures NL in SAMPLE && CountLines(SAMPLE, 44, 8) == 1
  {
    SampleSteps();
    Line44Up();
    assert CountLines(SAMPLE, 44, 1) == 0;
    Line44Down();
    assert CountLines(SAMPLE, 44, 2) == 0;
    Line44Left();
    assert CountLines(SAMPLE, 44, 3) == 0;
    Line44Right();
    assert CountLines(SAMPLE, 44, 4) == 1;
    Line44UpRight();
    assert CountLines(SAMPLE, 44, 5) == 1;
    Line44UpLeft();
    assert CountLines(SAMPLE, 44, 6) == 1;
    Line44DownRight();
    assert CountLines(SAMPLE, 44, 7) == 1;
    Line44DownLeft();
    assert CountLines(SAMPLE, 44, 8) == 1;
  }

  lemma Line50Up()
    ensures XmasLine(SAMPLE, 50, -11)
  {
    Bytes1();
    Bytes2();
    Bytes3();
    Bytes4();
    forall k | 0 <= k < 4
      ensures 0 <= 50 + k * -11 < |SAMPLE| && SAMPLE[50 + k * -11] == XMAS[k]
    {
      assert k == 0 || k == 1 || k == 2 || k == 3;
    }
  }

  lemma Line50Down()
    ensures !XmasLine(SAMPLE, 50, 11)
  {
    Bytes5();
    assert !(0 <= 50 + 1 * 11 < |SAMPLE| && SAMPLE[50 + 1 * 11] == XMAS[1]);
  }

  lemma Line50Left()
    ensures XmasLine(SAMPLE, 50, -1)
  {
    Bytes4();
    forall k | 0 <= k < 4
      ensures 0 <= 50 + k * -1 < |SAMPLE| && SAMPLE[50 + k * -1] == XMAS[k]
    {
      assert k == 0 || k == 1 || k == 2 || k == 3;
    }
  }

  lemma Line50Right()
    ensures !XmasLine(SAMPLE, 50, 1)
  {
    Bytes4();
    assert !(0 <= 50 + 1 * 1 < |SAMPLE| && SAMPLE[50 + 1 * 1] == XMAS[1]);
  }

  lemma Line50UpRight()
    ensures !XmasLine(SAMPLE, 50, -10)
  {
    Bytes3();
    assert !(0 <= 50 + 1 * -10 < |SAMPLE| && SAMPLE[50 + 1 * -10] == XMAS[1]);
  }

  lemma Line50UpLeft()
    ensures !XmasLine(SAMPLE, 50, -12)
  {
    Bytes3();
    assert !(0 <= 50 + 1 * -12 < |SAMPLE| && SAMPLE[50 + 1 * -12] == XMAS[1]);
  }

  lemma Line50DownRight()
    ensures !XmasLine(SAMPLE, 50, 12)
  {
    Bytes5();
    assert !(0 <= 50 + 1 * 12 < |SAMPLE| && SAMPLE[50 + 1 * 12] == XMAS[1]);
  }

  lemma Line50DownLeft()
    ensures !XmasLine(SAMPLE, 50, 10)
  {
    Bytes5();
    assert !(0 <= 50 + 1 * 10 < |SAMPLE| && SAMPLE[50 + 1 * 10] == XMAS[1]);
  }

  lemma Cell50()
    ensures NL in SAMPLE && CountLines(SAMPLE, 50, 8) == 2
  {
    SampleSteps();
    Line50Up();
    assert CountLines(SAMPLE, 50, 1) == 1;
    Line50Down();
    assert CountLines(SAMPLE, 50, 2) == 1;
    Line50Left();
    assert CountLines(SAMPLE, 50, 3) == 2;
    Line50Right();
    assert CountLines(SAMPLE, 50, 4) == 2;
    Line50UpRight();
    assert CountLines(SAMPLE, 50, 5) == 2;
    Line50UpLeft();
    assert CountLines(SAMPLE, 50, 6) == 2;
    Line50DownRight();
    assert CountLines(SAMPLE, 50, 7) == 2;
    Line50DownLeft();
    assert CountLines(SAMPLE, 50, 8) == 2;
  }

  lemma Line55Up()
    ensures !XmasLine(SAMPLE, 55, -11)
  {
    Bytes4();
    assert !(0 <= 55 + 1 * -11 < |SAMPLE| && SAMPLE[55 + 1 * -11] == XMAS[1]);
  }

  lemma Line55Down()
    ensures !XmasLine(SAMPLE, 55, 11)
  {
    Bytes6();
    assert !(0 <= 55 + 1 * 11 < |SAMPLE| && SAMPLE[55 + 1 * 11] == XMAS[1]);
  }

  lemma Line55Left()
    ensures !XmasLine(SAMPLE, 55, -1)
  {
    Bytes4();
    assert !(0 <= 55 + 1 * -1 < |SAMPLE| && SAMPLE[55 + 1 * -1] == XMAS[1]);
  }

  lemma Line55Right()
    ensures !XmasLine(SAMPLE, 55, 1)
  {
    Bytes5();
    assert !(0 <= 55 + 1 * 1 < |SAMPLE| && SAMPLE[55 + 1 * 1] == XMAS[1]);
  }

  lemma Line55UpRight()
    ensures XmasLine(SAMPLE, 55, -10)
  {
    Bytes2();
    Bytes3();
    Bytes4();
    Bytes5();
    forall k | 0 <= k < 4
      ensures 0 <= 55 + k * -10 < |SAMPLE| && SAMPLE[55 + k * -10] == XMAS[k]
    {
      assert k == 0 || k == 1 || k == 2 || k == 3;
    }
  }

  lemma Line55UpLeft()
    ensures !XmasLine(SAMPLE, 55, -12)
  {
    Bytes3();
    assert !(0 <= 55 + 1 * -12 < |SAMPLE| && SAMPLE[55 + 1 * -12] == XMAS[1]);
  }

  lemma Line55DownRight()
    ensures !XmasLine(SAMPLE, 55, 12)
  {
    Bytes7();
    assert !(0 <= 55 + 2 * 12 < |SAMPLE| && SAMPLE[55 + 2 * 12] == XMAS[2]);
  }

  lemma Line55DownLeft()
    ensures !XmasLine(SAMPLE, 55, 10)
  {
    Bytes5();
    assert !(0 <= 55 + 1 * 10 < |SAMPLE| && SAMPLE[55 + 1 * 10] == XMAS[1]);
  }

  lemma Cell55()
    ensures NL in SAMPLE && CountLines(SAMPLE, 55, 8) == 1
  {
    SampleSteps();
    Line55Up();
    assert CountLines(SAMPLE, 55, 1) == 0;
    Line55Down();
    assert CountLines(SAMPLE, 55, 2) == 0;
    Line55Left();
    assert CountLines(SAMPLE, 55, 3) == 0;
    Line55Right();
    assert CountLines(SAMPLE, 55, 4) == 0;
    Line55UpRight();
    assert CountLines(SAMPLE, 55, 5) == 1;
    Line55UpLeft();
    assert CountLines(SAMPLE, 55, 6) == 1;
    Line55DownRight();
    assert CountLines(SAMPLE, 55, 7) == 1;
    Line55DownLeft();
    assert CountLines(SAMPLE, 55, 8) == 1;
  }

  lemma Line56Up()
    ensures !XmasLine(SAMPLE, 56, -11)
  {
    Bytes3();
    assert !(0 <= 56 + 2 * -11 < |SAMPLE| && SAMPLE[56 + 2 * -11] == XMAS[2]);
  }

  lemma Line56Down()
    ensures !XmasLine(SAMPLE, 56, 11)
  {
    Bytes8();
    assert !(0 <= 56 + 3 * 11 < |SAMPLE| && SAMPLE[56 + 3 * 11] == XMAS[3]);
  }

  lemma Line56Left()
    ensures !XmasLine(SAMPLE, 56, -1)
  {
    Bytes5();
    assert !(0 <= 56 + 1 * -1 < |SAMPLE| && SAMPLE[56 + 1 * -1] == XMAS[1]);
  }

  lemma Line56Right()
    ensures !XmasLine(SAMPLE, 56, 1)
  {
    Bytes5();
    assert !(0 <= 56 + 1 * 1 < |SAMPLE| && SAMPLE[56 + 1 * 1] == XMAS[1]);
  }

  lemma Line56UpRight()
    ensures !XmasLine(SAMPLE, 56, -10)
  {
    Bytes4();
    assert !(0 <= 56 + 1 * -10 < |SAMPLE| && SAMPLE[56 + 1 * -10] == XMAS[1]);
  }

  lemma Line56UpLeft()
    ensures !XmasLine(SAMPLE, 56, -12)
  {
    Bytes4();
    assert !(0 <= 56 + 1 * -12 < |SAMPLE| && SAMPLE[56 + 1 * -12] == XMAS[1]);
  }

  lemma Line56DownRight()
    ensures !XmasLine(SAMPLE, 56, 12)
  {
    Bytes6();
    assert !(0 <= 56 + 1 * 12 < |SAMPLE| && SAMPLE[56 + 1 * 12] == XMAS[1]);
  }

  lemma Line56DownLeft()
    ensures !XmasLine(SAMPLE, 56, 10)
  {
    Bytes6();
    assert !(0 <= 56 + 1 * 10 < |SAMPLE| && SAMPLE[56 + 1 * 10] == XMAS[1]);
  }

  lemma Cell56()
    ensures NL in SAMPLE && CountLines(SAMPLE, 56, 8) == 0
  {
    SampleSteps();
    Line56Up();
    assert CountLines(SAMPLE, 56, 1) == 0;
    Line56Down();
    assert CountLines(SAMPLE, 56, 2) == 0;
    Line56Left();
    assert CountLines(SAMPLE, 56, 3) == 0;
    Line56Right();
    assert CountLines(SAMPLE, 56, 4) == 0;
    Line56UpRight();
    assert CountLines(SAMPLE, 56, 5) == 0;
    Line56UpLeft();
    assert CountLines(SAMPLE, 56, 6) == 0;
    Line56DownRight();
    assert CountLines(SAMPLE, 56, 7) == 0;
    Line56DownLeft();
    assert CountLines(SAMPLE, 56, 8) == 0;
  }

  lemma Line60Up()
    ensures !XmasLine(SAMPLE, 60, -11)
  {
    Bytes3();
    assert !(0 <= 60 + 2 * -11 < |SAMPLE| && SAMPLE[60 + 2 * -11] == XMAS[2]);
  }

  lemma Line60Down()
    ensures !XmasLine(SAMPLE, 60, 11)
  {
    Bytes6();
    assert !(0 <= 60 + 1 * 11 < |SAMPLE| && SAMPLE[60 + 1 * 11] == XMAS[1]);
  }

  lemma Line60Left()
    ensures !XmasLine(SAMPLE, 60, -1)
  {
    Bytes5();
    assert !(0 <= 60 + 2 * -1 < |SAMPLE| && SAMPLE[60 + 2 * -1] == XMAS[2]);
  }

  lemma Line60Right()
    ensures !XmasLine(SAMPLE, 60, 1)
  {
    Bytes5();
    assert !(0 <= 60 + 1 * 1 < |SAMPLE| && SAMPLE[60 + 1 * 1] == XMAS[1]);
  }

  lemma Line60UpRight()
    ensures !XmasLine(SAMPLE, 60, -10)
  {
    Bytes4();
    assert !(0 <= 60 + 1 * -10 < |SAMPLE| && SAMPLE[60 + 1 * -10] == XMAS[1]);
  }

  lemma Line60UpLeft()
    ensures !XmasLine(SAMPLE, 60, -12)
  {
    Bytes4();
    assert !(0 <= 60 + 1 * -12 < |SAMPLE| && SAMPLE[60 + 1 * -12] == XMAS[1]);
  }

  lemma Line60DownRight()
    ensures !XmasLine(SAMPLE, 60, 12)
  {
    Bytes6();
    assert !(0 <= 60 + 1 * 12 < |SAMPLE| && SAMPLE[60 + 1 * 12] == XMAS[1]);
  }

  lemma Line60DownLeft()
    ensures !XmasLine(SAMPLE, 60, 10)
  {
    Bytes6();
    assert !(0 <= 60 + 1 * 10 < |SAMPLE| && SAMPLE[60 + 1 * 10] == XMAS[1]);
  }

  lemma Cell60()
    ensures NL in SAMPLE && CountLines(SAMPLE, 60, 8) == 0
  {
    SampleSteps();
    Line60Up();
    assert CountLines(SAMPLE, 60, 1) == 0;
    Line60Down();
    assert CountLines(SAMPLE, 60, 2) == 0;
    Line60Left();
    assert CountLines(SAMPLE, 60, 3) == 0;
    Line60Right();
    assert CountLines(SAMPLE, 60, 4) == 0;
    Line60UpRight();
    assert CountLines(SAMPLE, 60, 5) == 0;
    Line60UpLeft();
    assert CountLines(SAMPLE, 60, 6) == 0;
    Line60DownRight();
    assert CountLines(SAMPLE, 60, 7) == 0;
    Line60DownLeft();
    assert CountLines(SAMPLE, 60, 8) == 0;
  }

  lemma Line61Up()
    ensures !XmasLine(SAMPLE, 61, -11)
  {
    Bytes4();
    assert !(0 <= 61 + 1 * -11 < |SAMPLE| && SAMPLE[61 + 1 * -11] == XMAS[1]);
  }

  lemma Line61Down()
    ensures !XmasLine(SAMPLE, 61, 11)
  {
    Bytes6();
    assert !(0 <= 61 + 1 * 11 < |SAMPLE| && SAMPLE[61 + 1 * 11] == XMAS[1]);
  }

  lemma Line61Left()
    ensures !XmasLine(SAMPLE, 61, -1)
  {
    Bytes5();
    assert !(0 <= 61 + 1 * -1 < |SAMPLE| && SAMPLE[61 + 1 * -1] == XMAS[1]);
  }

  lemma Line61Right()
    ensures !XmasLine(SAMPLE, 61, 1)
  {
    Bytes5();
    assert !(0 <= 61 + 1 * 1 < |SAMPLE| && SAMPLE[61 + 1 * 1] == XMAS[1]);
  }

  lemma Line61UpRight()
    ensures !XmasLine(SAMPLE, 61, -10)
  {
    Bytes4();
    assert !(0 <= 61 + 1 * -10 < |SAMPLE| && SAMPLE[61 + 1 * -10] == XMAS[1]);
  }

  lemma Line61UpLeft()
    ensures XmasLine(SAMPLE, 61, -12)
  {
    Bytes2();
    Bytes3();
    Bytes4();
    Bytes5();
    forall k | 0 <= k < 4
      ensures 0 <= 61 + k * -12 < |SAMPLE| && SAMPLE[61 + k * -12] == XMAS[k]
    {
      assert k == 0 || k == 1 || k == 2 || k == 3;
    }
  }

  lemma Line61DownRight()
    ensures !XmasLine(SAMPLE, 61, 12)
  {
    Bytes6();
    assert !(0 <= 61 + 1 * 12 < |SAMPLE| && SAMPLE[61 + 1 * 12] == XMAS[1]);
  }

  lemma Line61DownLeft()
    ensures !XmasLine(SAMPLE, 61, 10)
  {
    Bytes6();
    assert !(0 <= 61 + 1 * 10 < |SAMPLE| && SAMPLE[61 + 1 * 10] == XMAS[1]);
  }

  lemma Cell61()
    ensures NL in SAMPLE && CountLines(SAMPLE, 61, 8) == 1
  {
    SampleSteps();
    Line61Up();
    assert CountLines(SAMPLE, 61, 1) == 0;
    Line61Down();
    assert CountLines(SAMPLE, 61, 2) == 0;
    Line61Left();
    assert CountLines(SAMPLE, 61, 3) == 0;
    Line61Right();
    assert CountLines(SAMPLE, 61, 4) == 0;
    Line61UpRight();
    assert CountLines(SAMPLE, 61, 5) == 0;
    Line61UpLeft();
    assert CountLines(SAMPLE, 61, 6) == 1;
    Line61DownRight();
    assert CountLines(SAMPLE, 61, 7) == 1;
    Line61DownLeft();
    assert CountLines(SAMPLE, 61, 8) == 1;
  }

  lemma Line73Up()
    ensures !XmasLine(SAMPLE, 73, -11)
  {
    Bytes5();
    assert !(0 <= 73 + 1 * -11 < |SAMPLE| && SAMPLE[73 + 1 * -11] == XMAS[1]);
  }

  lemma Line73Down()
    ensures !XmasLine(SAMPLE, 73, 11)
  {
    Bytes7();
    assert !(0 <= 73 + 1 * 11 < |SAMPLE| && SAMPLE[73 + 1 * 11] == XMAS[1]);
  }

  lemma Line73Left()
    ensures !XmasLine(SAMPLE, 73, -1)
  {
    Bytes6();
    assert !(0 <= 73 + 1 * -1 < |SAMPLE| && SAMPLE[73 + 1 * -1] == XMAS[1]);
  }

  lemma Line73Right()
    ensures !XmasLine(SAMPLE, 73, 1)
  {
    Bytes6();
    assert !(0 <= 73 + 1 * 1 < |SAMPLE| && SAMPLE[73 + 1 * 1] == XMAS[1]);
  }

  lemma Line73UpRight()
    ensures !XmasLine(SAMPLE, 73, -10)
  {
    Bytes4();
    assert !(0 <= 73 + 2 * -10 < |SAMPLE| && SAMPLE[73 + 2 * -10] == XMAS[2]);
  }

  lemma Line73UpLeft()
    ensures !XmasLine(SAMPLE, 73, -12)
  {
    Bytes5();
    assert !(0 <= 73 + 1 * -12 < |SAMPLE| && SAMPLE[73 + 1 * -12] == XMAS[1]);
  }

  lemma Line73DownRight()
    ensures !XmasLine(SAMPLE, 73, 12)
  {
    Bytes7();
    assert !(0 <= 73 + 1 * 12 < |SAMPLE| && SAMPLE[73 + 1 * 12] == XMAS[1]);
  }

  lemma Line73DownLeft()
    ensures !XmasLine(SAMPLE, 73, 10)
  {
    Bytes7();
    assert !(0 <= 73 + 1 * 10 < |SAMPLE| && SAMPLE[73 + 1 * 10] == XMAS[1]);
  }

  lemma Cell73()
    ensures NL in SAMPLE && CountLines(SAMPLE, 73, 8) == 0
  {
    SampleSteps();
    Line73Up();
    assert CountLines(SAMPLE, 73, 1) == 0;
    Line73Down();
    assert CountLines(SAMPLE, 73, 2) == 0;
    Line73Left();
    assert CountLines(SAMPLE, 73, 3) == 0;
    Line73Right();
    assert CountLines(SAMPLE, 73, 4) == 0;
    Line73UpRight();
    assert CountLines(SAMPLE, 73, 5) == 0;
    Line73UpLeft();
    assert CountLines(SAMPLE, 73, 6) == 0;
    Line73DownRight();
    assert CountLines(SAMPLE, 73, 7) == 0;
    Line73DownLeft();
    assert CountLines(SAMPLE, 73, 8) == 0;
  }

  lemma Line79Up()
    ensures !XmasLine(SAMPLE, 79, -11)
  {
    Bytes6();
    assert !(0 <= 79 + 1 * -11 < |SAMPLE| && SAMPLE[79 + 1 * -11] == XMAS[1]);
  }

  lemma Line79Down()
    ensures !XmasLine(SAMPLE, 79, 11)
  {
    Bytes9();
    assert !(0 <= 79 + 2 * 11 < |SAMPLE| && SAMPLE[79 + 2 * 11] == XMAS[2]);
  }

  lemma Line79Left()
    ensures !XmasLine(SAMPLE, 79, -1)
  {
    Bytes7();
    assert !(0 <= 79 + 1 * -1 < |SAMPLE| && SAMPLE[79 + 1 * -1] == XMAS[1]);
  }

  lemma Line79Right()
    ensures !XmasLine(SAMPLE, 79, 1)
  {
    Bytes7();
    assert !(0 <= 79 + 1 * 1 < |SAMPLE| && SAMPLE[79 + 1 * 1] == XMAS[1]);
  }

  lemma Line79UpRight()
    ensures !XmasLine(SAMPLE, 79, -10)
  {
    Bytes5();
    assert !(0 <= 79 + 2 * -10 < |SAMPLE| && SAMPLE[79 + 2 * -10] == XMAS[2]);
  }

  lemma Line79UpLeft()
    ensures !XmasLine(SAMPLE, 79, -12)
  {
    Bytes5();
    assert !(0 <= 79 + 2 * -12 < |SAMPLE| && SAMPLE[79 + 2 * -12] == XMAS[2]);
  }

  lemma Line79DownRight()
    ensures !XmasLine(SAMPLE, 79, 12)
  {
    Bytes0();
    assert !(0 <= 79 + 3 * 12 < |SAMPLE|);
  }

  lemma Line79DownLeft()
    ensures !XmasLine(SAMPLE, 79, 10)
  {
    Bytes8();
    assert !(0 <= 79 + 1 * 10 < |SAMPLE| && SAMPLE[79 + 1 * 10] == XMAS[1]);
  }

  lemma Cell79()
    ensures NL in SAMPLE && CountLines(SAMPLE, 79, 8) == 0
  {
    SampleSteps();
    Line79Up();
    assert CountLines(SAMPLE, 79, 1) == 0;
    Line79Down();
    assert CountLines(SAMPLE, 79, 2) == 0;
    Line79Left();
    assert CountLines(SAMPLE, 79, 3) == 0;
    Line79Right();
    assert CountLines(SAMPLE, 79, 4) == 0;
    Line79UpRight();
    assert CountLines(SAMPLE, 79, 5) == 0;
    Line79UpLeft();
    assert CountLines(SAMPLE, 79, 6) == 0;
    Line79DownRight();
    assert CountLines(SAMPLE, 79, 7) == 0;
    Line79DownLeft();
    assert CountLines(SAMPLE, 79, 8) == 0;
  }

  lemma Line93Up()
    ensures !XmasLine(SAMPLE, 93, -11)
  {
    Bytes7();
    assert !(0 <= 93 + 1 * -11 < |SAMPLE| && SAMPLE[93 + 1 * -11] == XMAS[1]);
  }

  lemma Line93Down()
    ensures !XmasLine(SAMPLE, 93, 11)
  {
    Bytes9();
    assert !(0 <= 93 + 1 * 11 < |SAMPLE| && SAMPLE[93 + 1 * 11] == XMAS[1]);
  }

  lemma Line93Left()
    ensures !XmasLine(SAMPLE, 93, -1)
  {
    Bytes8();
    assert !(0 <= 93 + 2 * -1 < |SAMPLE| && SAMPLE[93 + 2 * -1] == XMAS[2]);
  }

  lemma Line93Right()
    ensures !XmasLine(SAMPLE, 93, 1)
  {
    Bytes8();
    assert !(0 <= 93 + 2 * 1 < |SAMPLE| && SAMPLE[93 + 2 * 1] == XMAS[2]);
  }

  lemma Line93UpRight()
    ensures !XmasLine(SAMPLE, 93, -10)
  {
    Bytes7();
    assert !(0 <= 93 + 1 * -10 < |SAMPLE| && SAMPLE[93 + 1 * -10] == XMAS[1]);
  }

  lemma Line93UpLeft()
    ensures !XmasLine(SAMPLE, 93, -12)
  {
    Bytes6();
    assert !(0 <= 93 + 2 * -12 < |SAMPLE| && SAMPLE[93 + 2 * -12] == XMAS[2]);
  }

  lemma Line93DownRight()
    ensures !XmasLine(SAMPLE, 93, 12)
  {
    Bytes0();
    assert !(0 <= 93 + 2 * 12 < |SAMPLE|);
  }

  lemma Line93DownLeft()
    ensures !XmasLine(SAMPLE, 93, 10)
  {
    Bytes9();
    assert !(0 <= 93 + 1 * 10 < |SAMPLE| && SAMPLE[93 + 1 * 10] == XMAS[1]);
  }

  lemma Cell93()
    ensures NL in SAMPLE && CountLines(SAMPLE, 93, 8) == 0
  {
    SampleSteps();
    Line93Up();
    assert CountLines(SAMPLE, 93, 1) == 0;
    Line93Down();
    assert CountLines(SAMPLE, 93, 2) == 0;
    Line93Left();
    assert CountLines(SAMPLE, 93, 3) == 0;
    Line93Right();
    assert CountLines(SAMPLE, 93, 4) == 0;
    Line93UpRight();
    assert CountLines(SAMPLE, 93, 5) == 0;
    Line93UpLeft();
    assert CountLines(SAMPLE, 93, 6) == 0;
    Line93DownRight();
    assert CountLines(SAMPLE, 93, 7) == 0;
    Line93DownLeft();
    assert CountLines(SAMPLE, 93, 8) == 0;
  }

  lemma Line100Up()
    ensures !XmasLine(SAMPLE, 100, -11)
  {
    Bytes8();
    assert !(0 <= 100 + 1 * -11 < |SAMPLE| && SAMPLE[100 + 1 * -11] == XMAS[1]);
  }

  lemma Line100Down()
    ensures !XmasLine(SAMPLE, 100, 11)
  {
    Bytes0();
    assert !(0 <= 100 + 1 * 11 < |SAMPLE|);
  }

  lemma Line100Left()
    ensures !XmasLine(SAMPLE, 100, -1)
  {
    Bytes8();
    assert !(0 <= 100 + 2 * -1 < |SAMPLE| && SAMPLE[100 + 2 * -1] == XMAS[2]);
  }

  lemma Line100Right()
    ensures !XmasLine(SAMPLE, 100, 1)
  {
    Bytes9();
    assert !(0 <= 100 + 2 * 1 < |SAMPLE| && SAMPLE[100 + 2 * 1] == XMAS[2]);
  }

  lemma Line100UpRight()
    ensures XmasLine(SAMPLE, 100, -10)
  {
    Bytes6();
    Bytes7();
    Bytes8();
    Bytes9();
    forall k | 0 <= k < 4
      ensures 0 <= 100 + k * -10 < |SAMPLE| && SAMPLE[100 + k * -10] == XMAS[k]
    {
      assert k == 0 || k == 1 || k == 2 || k == 3;
    }
  }

  lemma Line100UpLeft()
    ensures !XmasLine(SAMPLE, 100, -12)
  {
    Bytes6();
    assert !(0 <= 100 + 2 * -12 < |SAMPLE| && SAMPLE[100 + 2 * -12] == XMAS[2]);
  }

  lemma Line100DownRight()
    ensures !XmasLine(SAMPLE, 100, 12)
  {
    Bytes0();
    assert !(0 <= 100 + 1 * 12 < |SAMPLE|);
  }

  lemma Line100DownLeft()
    ensures !XmasLine(SAMPLE, 100, 10)
  {
    Bytes0();
    assert !(0 <= 100 + 1 * 10 < |SAMPLE|);
  }

  lemma Cell100()
    ensures NL in SAMPLE && CountLines(SAMPLE, 100, 8) == 1
  {
    SampleSteps();
    Line100Up();
    assert CountLines(SAMPLE, 100, 1) == 0;
    Line100Down();
    assert CountLines(SAMPLE, 100, 2) == 0;
    Line100Left();
    assert CountLines(SAMPLE, 100, 3) == 0;
    Line100Right();
    assert CountLines(SAMPLE, 100, 4) == 0;
    Line100UpRight();
    assert CountLines(SAMPLE, 100, 5) == 1;
    Line100UpLeft();
    assert CountLines(SAMPLE, 100, 6) == 1;
    Line100DownRight();
    assert CountLines(SAMPLE, 100, 7) == 1;
    Line100DownLeft();
    assert CountLines(SAMPLE, 100, 8) == 1;
  }

  lemma Line102Up()
    ensures !XmasLine(SAMPLE, 102, -11)
  {
    Bytes6();
    assert !(0 <= 102 + 3 * -11 < |SAMPLE| && SAMPLE[102 + 3 * -11] == XMAS[3]);
  }

  lemma Line102Down()
    ensures !XmasLine(SAMPLE, 102, 11)
  {
    Bytes0();
    assert !(0 <= 102 + 1 * 11 < |SAMPLE|);
  }

  lemma Line102Left()
    ensures !XmasLine(SAMPLE, 102, -1)
  {
    Bytes9();
    assert !(0 <= 102 + 2 * -1 < |SAMPLE| && SAMPLE[102 + 2 * -1] == XMAS[2]);
  }

  lemma Line102Right()
    ensures !XmasLine(SAMPLE, 102, 1)
  {
    Bytes9();
    assert !(0 <= 102 + 1 * 1 < |SAMPLE| && SAMPLE[102 + 1 * 1] == XMAS[1]);
  }

  lemma Line102UpRight()
    ensures XmasLine(SAMPLE, 102, -10)
  {
    Bytes6();
    Bytes7();
    Bytes8();
    Bytes9();
    forall k | 0 <= k < 4
      ensures 0 <= 102 + k * -10 < |SAMPLE| && SAMPLE[102 + k * -10] == XMAS[k]
    {
      assert k == 0 || k == 1 || k == 2 || k == 3;
    }
  }

  lemma Line102UpLeft()
    ensures XmasLine(SAMPLE, 102, -12)
  {
    Bytes6();
    Bytes7();
    Bytes8();
    Bytes9();
    forall k | 0 <= k < 4
      ensures 0 <= 102 + k * -12 < |SAMPLE| && SAMPLE[102 + k * -12] == XMAS[k]
    {
      assert k == 0 || k == 1 || k == 2 || k == 3;
    }
  }

  lemma Line102DownRight()
    ensures !XmasLine(SAMPLE, 102, 12)
  {
    Bytes0();
    assert !(0 <= 102 + 1 * 12 < |SAMPLE|);
  }

  lemma Line102DownLeft()
    ensures !XmasLine(SAMPLE, 102, 10)
  {
    Bytes0();
    assert !(0 <= 102 + 1 * 10 < |SAMPLE|);
  }

  lemma Cell102()
    ensures NL in SAMPLE && CountLines(SAMPLE, 102, 8) == 2
  {
    SampleSteps();
    Line102Up();
    assert CountLines(SAMPLE, 102, 1) == 0;
    Line102Down();
    assert CountLines(SAMPLE, 102, 2) == 0;
    Line102Left();
    assert CountLines(SAMPLE, 102, 3) == 0;
    Line102Right();
    assert CountLines(SAMPLE, 102, 4) == 0;
    Line102UpRight();
    assert CountLines(SAMPLE, 102, 5) == 1;
    Line102UpLeft();
    assert CountLines(SAMPLE, 102, 6) == 2;
    Line102DownRight();
    assert CountLines(SAMPLE, 102, 7) == 2;
    Line102DownLeft();
    assert CountLines(SAMPLE, 102, 8) == 2;
  }

  lemma Line104Up()
    ensures !XmasLine(SAMPLE, 104, -11)
  {
    Bytes8();
    assert !(0 <= 104 + 1 * -11 < |SAMPLE| && SAMPLE[104 + 1 * -11] == XMAS[1]);
  }

  lemma Line104Down()
    ensures !XmasLine(SAMPLE, 104, 11)
  {
    Bytes0();
    assert !(0 <= 104 + 1 * 11 < |SAMPLE|);
  }

  lemma Line104Left()
    ensures !XmasLine(SAMPLE, 104, -1)
  {
    Bytes9();
    assert !(0 <= 104 + 1 * -1 < |SAMPLE| && SAMPLE[104 + 1 * -1] == XMAS[1]);
  }

  lemma Line104Right()
    ensures XmasLine(SAMPLE, 104, 1)
  {
    Bytes9();
    forall k | 0 <= k < 4
      ensures 0 <= 104 + k * 1 < |SAMPLE| && SAMPLE[104 + k * 1] == XMAS[k]
    {
      assert k == 0 || k == 1 || k == 2 || k == 3;
    }
  }

  lemma Line104UpRight()
    ensures XmasLine(SAMPLE, 104, -10)
  {
    Bytes6();
    Bytes7();
    Bytes8();
    Bytes9();
    forall k | 0 <= k < 4
      ensures 0 <= 104 + k * -10 < |SAMPLE| && SAMPLE[104 + k * -10] == XMAS[k]
    {
      assert k == 0 || k == 1 || k == 2 || k == 3;
    }
  }

  lemma Line104UpLeft()
    ensures XmasLine(SAMPLE, 104, -12)
  {
    Bytes6();
    Bytes7();
    Bytes8();
    Bytes9();
    forall k | 0 <= k < 4
      ensures 0 <= 104 + k * -12 < |SAMPLE| && SAMPLE[104 + k * -12] == XMAS[k]
    {
      assert k == 0 || k == 1 || k == 2 || k == 3;
    }
  }

  lemma Line104DownRight()
    ensures !XmasLine(SAMPLE, 104, 12)
  {
    Bytes0();
    assert !(0 <= 104 + 1 * 12 < |SAMPLE|);
  }

  lemma Line104DownLeft()
    ensures !XmasLine(SAMPLE, 104, 10)
  {
    Bytes0();
    assert !(0 <= 104 + 1 * 10 < |SAMPLE|);
  }

  lemma Cell104()
    ensures NL in SAMPLE && CountLines(SAMPLE, 104, 8) == 3
  {
    SampleSteps();
    Line104Up();
    assert CountLines(SAMPLE, 104, 1) == 0;
    Line104Down();
    assert CountLines(SAMPLE, 104, 2) == 0;
    Line104Left();
    assert CountLines(SAMPLE, 104, 3) == 0;
    Line104Right();
    assert CountLines(SAMPLE, 104, 4) == 1;
    Line104UpRight();
    assert CountLines(SAMPLE, 104, 5) == 2;
    Line104UpLeft();
    assert CountLines(SAMPLE, 104, 6) == 3;
    Line104DownRight();
    assert CountLines(SAMPLE, 104, 7) == 3;
    Line104DownLeft();
    assert CountLines(SAMPLE, 104, 8) == 3;
  }

  lemma Line108Up()
    ensures XmasLine(SAMPLE, 108, -11)
  {
    Bytes6();
    Bytes7();
    Bytes8();
    Bytes9();
    forall k | 0 <= k < 4
      ensures 0 <= 108 + k * -11 < |SAMPLE| && SAMPLE[108 + k * -11] == XMAS[k]
    {
      assert k == 0 || k == 1 || k == 2 || k == 3;
    }
  }

  lemma Line108Down()
    ensures !XmasLine(SAMPLE, 108, 11)
  {
    Bytes0();
    assert !(0 <= 108 + 1 * 11 < |SAMPLE|);
  }

  lemma Line108Left()
    ensures !XmasLine(SAMPLE, 108, -1)
  {
    Bytes9();
    assert !(0 <= 108 + 1 * -1 < |SAMPLE| && SAMPLE[108 + 1 * -1] == XMAS[1]);
  }

  lemma Line108Right()
    ensures !XmasLine(SAMPLE, 108, 1)
  {
    Bytes0();
    assert !(0 <= 108 + 1 * 1 < |SAMPLE|);
  }

  lemma Line108UpRight()
    ensures !XmasLine(SAMPLE, 108, -10)
  {
    Bytes8();
    assert !(0 <= 108 + 1 * -10 < |SAMPLE| && SAMPLE[108 + 1 * -10] == XMAS[1]);
  }

  lemma Line108UpLeft()
    ensures XmasLine(SAMPLE, 108, -12)
  {
    Bytes6();
    Bytes7();
    Bytes8();
    Bytes9();
    forall k | 0 <= k < 4
      ensures 0 <= 108 + k * -12 < |SAMPLE| && SAMPLE[108 + k * -12] == XMAS[k]
    {
      assert k == 0 || k == 1 || k == 2 || k == 3;
    }
  }

  lemma Line108DownRight()
    ensures !XmasLine(SAMPLE, 108, 12)
  {
    Bytes0();
    assert !(0 <= 108 + 1 * 12 < |SAMPLE|);
  }

  lemma Line108DownLeft()
    ensures !XmasLine(SAMPLE, 108, 10)
  {
    Bytes0();
    assert !(0 <= 108 + 1 * 10 < |SAMPLE|);
  }

  lemma Cell108()
    ensures NL in SAMPLE && CountLines(SAMPLE, 108, 8) == 2
  {
    SampleSteps();
    Line108Up();
    assert CountLines(SAMPLE, 108, 1) == 1;
    Line108Down();
    assert CountLines(SAMPLE, 108, 2) == 1;
    Line108Left();
    assert CountLines(SAMPLE, 108, 3) == 1;
    Line108Right();
    assert CountLines(SAMPLE, 108, 4) == 1;
    Line108UpRight();
    assert CountLines(SAMPLE, 108, 5) == 1;
    Line108UpLeft();
    assert CountLines(SAMPLE, 108, 6) == 2;
    Line108DownRight();
    assert CountLines(SAMPLE, 108, 7) == 2;
    Line108DownLeft();
    assert CountLines(SAMPLE, 108, 8) == 2;
  }

  lemma Total0()
    ensures NL in SAMPLE && TotalLines(SAMPLE, 1) == TotalLines(SAMPLE, 0) + 0
  {
    Bytes0();
    SampleStride();
    NonXHasNoLines(SAMPLE, 0, 8);
  }

  lemma Total1()
    ensures NL in SAMPLE && TotalLines(SAMPLE, 2) == TotalLines(SAMPLE, 1) + 0
  {
    Bytes0();
    SampleStride();
    NonXHasNoLines(SAMPLE, 1, 8);
  }

  lemma Total2()
    ensures NL in SAMPLE && TotalLines(SAMPLE, 3) == TotalLines(SAMPLE, 2) + 0
  {
    Bytes0();
    SampleStride();
    NonXHasNoLines(SAMPLE, 2, 8);
  }

  lemma Total3()
    ensures NL in SAMPLE && TotalLines(SAMPLE, 4) == TotalLines(SAMPLE, 3) + 0
  {
    Bytes0();
    SampleStride();
    NonXHasNoLines(SAMPLE, 3, 8);
  }

  lemma Total4()
    ensures NL in SAMPLE && TotalLines(SAMPLE, 5) == TotalLines(SAMPLE, 4) + 1
  {
    Cell4();
  }

  lemma Total5()
    ensures NL in SAMPLE && TotalLines(SAMPLE, 6) == TotalLines(SAMPLE, 5) + 1
  {
    Cell5();
  }

  lemma Total6()
    ensures NL in SAMPLE && TotalLines(SAMPLE, 7) == TotalLines(SAMPLE, 6) + 0
  {
    Bytes0();
    SampleStride();
    NonXHasNoLines(SAMPLE, 6, 8);
  }

  lemma Total7()
    ensures NL in SAMPLE && TotalLines(SAMPLE, 8) == TotalLines(SAMPLE, 7) + 0
  {
    Bytes0();
    SampleStride();
    NonXHasNoLines(SAMPLE, 7, 8);
  }

  lemma Total8()
    ensures NL in SAMPLE && TotalLines(SAMPLE, 9) == TotalLines(SAMPLE, 8) + 0
  {
    Bytes0();
    SampleStride();
    NonXHasNoLines(SAMPLE, 8, 8);
  }

  lemma Total9()
    ensures NL in SAMPLE && TotalLines(SAMPLE, 10) == TotalLines(SAMPLE, 9) + 0
  {
    Bytes0();
    SampleStride();
    NonXHasNoLines(SAMPLE, 9, 8);
  }

  lemma Total10()
    ensures NL in SAMPLE && TotalLines(SAMPLE, 11) == TotalLines(SAMPLE, 10) + 0
  {
    Bytes0();
    SampleStride();
    NonXHasNoLines(SAMPLE, 10, 8);
  }

  lemma Total11()
    ensures NL in SAMPLE && TotalLines(SAMPLE, 12) == TotalLines(SAMPLE, 11) + 0
  {
    Bytes1();
    SampleStride();
    NonXHasNoLines(SAMPLE, 11, 8);
  }

  lemma Total12()
    ensures NL in SAMPLE && TotalLines(SAMPLE, 13) == TotalLines(SAMPLE, 12) + 0
  {
    Bytes1();
    SampleStride();
    NonXHasNoLines(SAMPLE, 12, 8);
  }

  lemma Total13()
    ensures NL in SAMPLE && TotalLines(SAMPLE, 14) == TotalLines(SAMPLE, 13) + 0
  {
    Bytes1();
    SampleStride();
    NonXHasNoLines(SAMPLE, 13, 8);
  }

  lemma Total14()
    ensures NL in SAMPLE && TotalLines(SAMPLE, 15) == TotalLines(SAMPLE, 14) + 0
  {
    Bytes1();
    SampleStride();
    NonXHasNoLines(SAMPLE, 14, 8);
  }

  lemma Total15()
    ensures NL in SAMPLE && TotalLines(SAMPLE, 16) == TotalLines(SAMPLE, 15) + 1
  {
    Cell15();
  }

  lemma Total16()
    ensures NL in SAMPLE && TotalLines(SAMPLE, 17) == TotalLines(SAMPLE, 16) + 0
  {
    Bytes1();
    SampleStride();
    NonXHasNoLines(SAMPLE, 16, 8);
  }

  lemma Total17()
    ensures NL in SAMPLE && TotalLines(SAMPLE, 18) == TotalLines(SAMPLE, 17) + 0
  {
    Bytes1();
    SampleStride();
    NonXHasNoLines(SAMPLE, 17, 8);
  }

  lemma Total18()
    ensures NL in SAMPLE && TotalLines(SAMPLE, 19) == TotalLines(SAMPLE, 18) + 0
  {
    Bytes1();
    SampleStride();
    NonXHasNoLines(SAMPLE, 18, 8);
  }

  lemma Total19()
    ensures NL in SAMPLE && TotalLines(SAMPLE, 20) == TotalLines(SAMPLE, 19) + 0
  {
    Bytes1();
    SampleStride();
    NonXHasNoLines(SAMPLE, 19, 8);
  }

  lemma Total20()
    ensures NL in SAMPLE && TotalLines(SAMPLE, 21) == TotalLines(SAMPLE, 20) + 0
  {
    Bytes1();
    SampleStride();
    NonXHasNoLines(SAMPLE, 20, 8);
  }

  lemma Total21()
    ensures NL in SAMPLE && TotalLines(SAMPLE, 22) == TotalLines(SAMPLE, 21) + 0
  {
    Bytes1();
    SampleStride();
    NonXHasNoLines(SAMPLE, 21, 8);
  }

  lemma Total22()
    ensures NL in SAMPLE && TotalLines(SAMPLE, 23) == TotalLines(SAMPLE, 22) + 0
  {
    Bytes2();
    SampleStride();
    NonXHasNoLines(SAMPLE, 22, 8);
  }

  lemma Total23()
    ensures NL in SAMPLE && TotalLines(SAMPLE, 24) == TotalLines(SAMPLE, 23) + 0
  {
    Bytes2();
    SampleStride();
    NonXHasNoLines(SAMPLE, 23, 8);
  }

  lemma Total24()
    ensures NL in SAMPLE && TotalLines(SAMPLE, 25) == TotalLines(SAMPLE, 24) + 0
  {
    Cell24();
  }

  lemma Total25()
    ensures NL in SAMPLE && TotalLines(SAMPLE, 26) == TotalLines(SAMPLE, 25) + 0
  {
    Bytes2();
    SampleStride();
    NonXHasNoLines(SAMPLE, 25, 8);
  }

  lemma Total26()
    ensures NL in SAMPLE && TotalLines(SAMPLE, 27) == TotalLines(SAMPLE, 26) + 0
  {
    Cell26();
  }

  lemma Total27()
    ensures NL in SAMPLE && TotalLines(SAMPLE, 28) == TotalLines(SAMPLE, 27) + 0
  {
    Bytes2();
    SampleStride();
    NonXHasNoLines(SAMPLE, 27, 8);
  }

  lemma Total28()
    ensures NL in SAMPLE && TotalLines(SAMPLE, 29) == TotalLines(SAMPLE, 28) + 0
  {
    Bytes2();
    SampleStride();
    NonXHasNoLines(SAMPLE, 28, 8);
  }

  lemma Total29()
    ensures NL in SAMPLE && TotalLines(SAMPLE, 30) == TotalLines(SAMPLE, 29) + 0
  {
    Bytes2();
    SampleStride();
    NonXHasNoLines(SAMPLE, 29, 8);
  }

  lemma Total30()
    ensures NL in SAMPLE && TotalLines(SAMPLE, 31) == TotalLines(SAMPLE, 30) + 0
  {
    Bytes2();
    SampleStride();
    NonXHasNoLines(SAMPLE, 30, 8);
  }

  lemma Total31()
    ensures NL in SAMPLE && TotalLines(SAMPLE, 32) == TotalLines(SAMPLE, 31) + 0
  {
    Bytes2();
    SampleStride();
    NonXHasNoLines(SAMPLE, 31, 8);
  }

  lemma Total32()
    ensures NL in SAMPLE && TotalLines(SAMPLE, 33) == TotalLines(SAMPLE, 32) + 0
  {
    Bytes2();
    SampleStride();
    NonXHasNoLines(SAMPLE, 32, 8);
  }

  lemma Total33()
    ensures NL in SAMPLE && TotalLines(SAMPLE, 34) == TotalLines(SAMPLE, 33) + 0
  {
    Bytes3();
    SampleStride();
    NonXHasNoLines(SAMPLE, 33, 8);
  }

  lemma Total34()
    ensures NL in SAMPLE && TotalLines(SAMPLE, 35) == TotalLines(SAMPLE, 34) + 0
  {
    Bytes3();
    SampleStride();
    NonXHasNoLines(SAMPLE, 34, 8);
  }

  lemma Total35()
    ensures NL in SAMPLE && TotalLines(SAMPLE, 36) == TotalLines(SAMPLE, 35) + 0
  {
    Bytes3();
    SampleStride();
    NonXHasNoLines(SAMPLE, 35, 8);
  }

  lemma Total36()
    ensures NL in SAMPLE && TotalLines(SAMPLE, 37) == TotalLines(SAMPLE, 36) + 0
  {
    Bytes3();
    SampleStride();
    NonXHasNoLines(SAMPLE, 36, 8);
  }

  lemma Total37()
    ensures NL in SAMPLE && TotalLines(SAMPLE, 38) == TotalLines(SAMPLE, 37) + 0
  {
    Bytes3();
    SampleStride();
    NonXHasNoLines(SAMPLE, 37, 8);
  }

  lemma Total38()
    ensures NL in SAMPLE && TotalLines(SAMPLE, 39) == TotalLines(SAMPLE, 38) + 0
  {
    Bytes3();
    SampleStride();
    NonXHasNoLines(SAMPLE, 38, 8);
  }

  lemma Total39()
    ensures NL in SAMPLE && TotalLines(SAMPLE, 40) == TotalLines(SAMPLE, 39) + 0
  {
    Bytes3();
    SampleStride();
    NonXHasNoLines(SAMPLE, 39, 8);
  }

  lemma Total40()
    ensures NL in SAMPLE && TotalLines(SAMPLE, 41) == TotalLines(SAMPLE, 40) + 0
  {
    Bytes3();
    SampleStride();
    NonXHasNoLines(SAMPLE, 40, 8);
  }

  lemma Total41()
    ensures NL in SAMPLE && TotalLines(SAMPLE, 42) == TotalLines(SAMPLE, 41) + 0
  {
    Bytes3();
    SampleStride();
    NonXHasNoLines(SAMPLE, 41, 8);
  }

  lemma Total42()
    ensures NL in SAMPLE && TotalLines(SAMPLE, 43) == TotalLines(SAMPLE, 42) + 2
  {
    Cell42();
  }

  lemma Total43()
    ensures NL in SAMPLE && TotalLines(SAMPLE, 44) == TotalLines(SAMPLE, 43) + 0
  {
    Bytes3();
    SampleStride();
    NonXHasNoLines(SAMPLE, 43, 8);
  }

  lemma Total44()
    ensures NL in SAMPLE && TotalLines(SAMPLE, 45) == TotalLines(SAMPLE, 44) + 1
  {
    Cell44();
  }

  lemma Total45()
    ensures NL in SAMPLE && TotalLines(SAMPLE, 46) == TotalLines(SAMPLE, 45) + 0
  {
    Bytes4();
    SampleStride();
    NonXHasNoLines(SAMPLE, 45, 8);
  }

  lemma Total46()
    ensures NL in SAMPLE && TotalLines(SAMPLE, 47) == TotalLines(SAMPLE, 46) + 0
  {
    Bytes4();
    SampleStride();
    NonXHasNoLines(SAMPLE, 46, 8);
  }

  lemma Total47()
    ensures NL in SAMPLE && TotalLines(SAMPLE, 48) == TotalLines(SAMPLE, 47) + 0
  {
    Bytes4();
    SampleStride();
    NonXHasNoLines(SAMPLE, 47, 8);
  }

  lemma Total48()
    ensures NL in SAMPLE && TotalLines(SAMPLE, 49) == TotalLines(SAMPLE, 48) + 0
  {
    Bytes4();
    SampleStride();
    NonXHasNoLines(SAMPLE, 48, 8);
  }

  lemma Total49()
    ensures NL in SAMPLE && TotalLines(SAMPLE, 50) == TotalLines(SAMPLE, 49) + 0
  {
    Bytes4();
    SampleStride();
    NonXHasNoLines(SAMPLE, 49, 8);
  }

  lemma Total50()
    ensures NL in SAMPLE && TotalLines(SAMPLE, 51) == TotalLines(SAMPLE, 50) + 2
  {
    Cell50();
  }

  lemma Total51()
    ensures NL in SAMPLE && TotalLines(SAMPLE, 52) == TotalLines(SAMPLE, 51) + 0
  {
    Bytes4();
    SampleStride();
    NonXHasNoLines(SAMPLE, 51, 8);
  }

  lemma Total52()
    ensures NL in SAMPLE && TotalLines(SAMPLE, 53) == TotalLines(SAMPLE, 52) + 0
  {
    Bytes4();
    SampleStride();
    NonXHasNoLines(SAMPLE, 52, 8);
  }

  lemma Total53()
    ensures NL in SAMPLE && TotalLines(SAMPLE, 54) == TotalLines(SAMPLE, 53) + 0
  {
    Bytes4();
    SampleStride();
    NonXHasNoLines(SAMPLE, 53, 8);
  }

  lemma Total54()
    ensures NL in SAMPLE && TotalLines(SAMPLE, 55) == TotalLines(SAMPLE, 54) + 0
  {
    Bytes4();
    SampleStride();
    NonXHasNoLines(SAMPLE, 54, 8);
  }

  lemma Total55()
    ensures NL in SAMPLE && TotalLines(SAMPLE, 56) == TotalLines(SAMPLE, 55) + 1
  {
    Cell55();
  }

  lemma Total56()
    ensures NL in SAMPLE && TotalLines(SAMPLE, 57) == TotalLines(SAMPLE, 56) + 0
  {
    Cell56();
  }

  lemma Total57()
    ensures NL in SAMPLE && TotalLines(SAMPLE, 58) == TotalLines(SAMPLE, 57) + 0
  {
    Bytes5();
    SampleStride();
    NonXHasNoLines(SAMPLE, 57, 8);
  }

  lemma Total58()
    ensures NL in SAMPLE && TotalLines(SAMPLE, 59) == TotalLines(SAMPLE, 58) + 0
  {
    Bytes5();
    SampleStride();
    NonXHasNoLines(SAMPLE, 58, 8);
  }

  lemma Total59()
    ensures NL in SAMPLE && TotalLines(SAMPLE, 60) == TotalLines(SAMPLE, 59) + 0
  {
    Bytes5();
    SampleStride();
    NonXHasNoLines(SAMPLE, 59, 8);
  }

  lemma Total60()
    ensures NL in SAMPLE && TotalLines(SAMPLE, 61) == TotalLines(SAMPLE, 60) + 0
  {
    Cell60();
  }

  lemma Total61()
    ensures NL in SAMPLE && TotalLines(SAMPLE, 62) == TotalLines(SAMPLE, 61) + 1
  {
    Cell61();
  }

  lemma Total62()
    ensures NL in SAMPLE && TotalLines(SAMPLE, 63) == TotalLines(SAMPLE, 62) + 0
  {
    Bytes5();
    SampleStride();
    NonXHasNoLines(SAMPLE, 62, 8);
  }

  lemma Total63()
    ensures NL in SAMPLE && TotalLines(SAMPLE, 64) == TotalLines(SAMPLE, 63) + 0
  {
    Bytes5();
    SampleStride();
    NonXHasNoLines(SAMPLE, 63, 8);
  }

  lemma Total64()
    ensures NL in SAMPLE && TotalLines(SAMPLE, 65) == TotalLines(SAMPLE, 64) + 0
  {
    Bytes5();
    SampleStride();
    NonXHasNoLines(SAMPLE, 64, 8);
  }

  lemma Total65()
    ensures NL in SAMPLE && TotalLines(SAMPLE, 66) == TotalLines(SAMPLE, 65) + 0
  {
    Bytes5();
    SampleStride();
    NonXHasNoLines(SAMPLE, 65, 8);
  }

  lemma Total66()
    ensures NL in SAMPLE && TotalLines(SAMPLE, 67) == TotalLines(SAMPLE, 66) + 0
  {
    Bytes6();
    SampleStride();
    NonXHasNoLines(SAMPLE, 66, 8);
  }

  lemma Total67()
    ensures NL in SAMPLE && TotalLines(SAMPLE, 68) == TotalLines(SAMPLE, 67) + 0
  {
    Bytes6();
    SampleStride();
    NonXHasNoLines(SAMPLE, 67, 8);
  }

  lemma Total68()
    ensures NL in SAMPLE && TotalLines(SAMPLE, 69) == TotalLines(SAMPLE, 68) + 0
  {
    Bytes6();
    SampleStride();
    NonXHasNoLines(SAMPLE, 68, 8);
  }

  lemma Total69()
    ensures NL in SAMPLE && TotalLines(SAMPLE, 70) == TotalLines(SAMPLE, 69) + 0
  {
    Bytes6();
    SampleStride();
    NonXHasNoLines(SAMPLE, 69, 8);
  }

  lemma Total70()
    ensures NL in SAMPLE && TotalLines(SAMPLE, 71) == TotalLines(SAMPLE, 70) + 0
  {
    Bytes6();
    SampleStride();
    NonXHasNoLines(SAMPLE, 70, 8);
  }

  lemma Total71()
    ensures NL in SAMPLE && TotalLines(SAMPLE, 72) == TotalLines(SAMPLE, 71) + 0
  {
    Bytes6();
    SampleStride();
    NonXHasNoLines(SAMPLE, 71, 8);
  }

  lemma Total72()
    ensures NL in SAMPLE && TotalLines(SAMPLE, 73) == TotalLines(SAMPLE, 72) + 0
  {
    Bytes6();
    SampleStride();
    NonXHasNoLines(SAMPLE, 72, 8);
  }

  lemma Total73()
    ensures NL in SAMPLE && TotalLines(SAMPLE, 74) == TotalLines(SAMPLE, 73) + 0
  {
    Cell73();
  }

  lemma Total74()
    ensures NL in SAMPLE && TotalLines(SAMPLE, 75) == TotalLines(SAMPLE, 74) + 0
  {
    Bytes6();
    SampleStride();
    NonXHasNoLines(SAMPLE, 74, 8);
  }

  lemma Total75()
    ensures NL in SAMPLE && TotalLines(SAMPLE, 76) == TotalLines(SAMPLE, 75) + 0
  {
    Bytes6();
    SampleStride();
    NonXHasNoLines(SAMPLE, 75, 8);
  }

  lemma Total76()
    ensures NL in SAMPLE && TotalLines(SAMPLE, 77) == TotalLines(SAMPLE, 76) + 0
  {
    Bytes6();
    SampleStride();
    NonXHasNoLines(SAMPLE, 76, 8);
  }

  lemma Total77()
    ensures NL in SAMPLE && TotalLines(SAMPLE, 78) == TotalLines(SAMPLE, 77) + 0
  {
    Bytes7();
    SampleStride();
    NonXHasNoLines(SAMPLE, 77, 8);
  }

  lemma Total78()
    ensures NL in SAMPLE && TotalLines(SAMPLE, 79) == TotalLines(SAMPLE, 78) + 0
  {
    Bytes7();
    SampleStride();
    NonXHasNoLines(SAMPLE, 78, 8);
  }

  lemma Total79()
    ensures NL in SAMPLE && TotalLines(SAMPLE, 80) == TotalLines(SAMPLE, 79) + 0
  {
    Cell79();
  }

  lemma Total80()
    ensures NL in SAMPLE && TotalLines(SAMPLE, 81) == TotalLines(SAMPLE, 80) + 0
  {
    Bytes7();
    SampleStride();
    NonXHasNoLines(SAMPLE, 80, 8);
  }

  lemma Total81()
    ensures NL in SAMPLE && TotalLines(SAMPLE, 82) == TotalLines(SAMPLE, 81) + 0
  {
    Bytes7();
    SampleStride();
    NonXHasNoLines(SAMPLE, 81, 8);
  }

  lemma Total82()
    ensures NL in SAMPLE && TotalLines(SAMPLE, 83) == TotalLines(SAMPLE, 82) + 0
  {
    Bytes7();
    SampleStride();
    NonXHasNoLines(SAMPLE, 82, 8);
  }

  lemma Total83()
    ensures NL in SAMPLE && TotalLines(SAMPLE, 84) == TotalLines(SAMPLE, 83) + 0
  {
    Bytes7();
    SampleStride();
    NonXHasNoLines(SAMPLE, 83, 8);
  }

  lemma Total84()
    ensures NL in SAMPLE && TotalLines(SAMPLE, 85) == TotalLines(SAMPLE, 84) + 0
  {
    Bytes7();
    SampleStride();
    NonXHasNoLines(SAMPLE, 84, 8);
  }

  lemma Total85()
    ensures NL in SAMPLE && TotalLines(SAMPLE, 86) == TotalLines(SAMPLE, 85) + 0
  {
    Bytes7();
    SampleStride();
    NonXHasNoLines(SAMPLE, 85, 8);
  }

  lemma Total86()
    ensures NL in SAMPLE && TotalLines(SAMPLE, 87) == TotalLines(SAMPLE, 86) + 0
  {
    Bytes7();
    SampleStride();
    NonXHasNoLines(SAMPLE, 86, 8);
  }

  lemma Total87()
    ensures NL in SAMPLE && TotalLines(SAMPLE, 88) == TotalLines(SAMPLE, 87) + 0
  {
    Bytes7();
    SampleStride();
    NonXHasNoLines(SAMPLE, 87, 8);
  }

  lemma Total88()
    ensures NL in SAMPLE && TotalLines(SAMPLE, 89) == TotalLines(SAMPLE, 88) + 0
  {
    Bytes8();
    SampleStride();
    NonXHasNoLines(SAMPLE, 88, 8);
  }

  lemma Total89()
    ensures NL in SAMPLE && TotalLines(SAMPLE, 90) == TotalLines(SAMPLE, 89) + 0
  {
    Bytes8();
    SampleStride();
    NonXHasNoLines(SAMPLE, 89, 8);
  }

  lemma Total90()
    ensures NL in SAMPLE && TotalLines(SAMPLE, 91) == TotalLines(SAMPLE, 90) + 0
  {
    Bytes8();
    SampleStride();
    NonXHasNoLines(SAMPLE, 90, 8);
  }

  lemma Total91()
    ensures NL in SAMPLE && TotalLines(SAMPLE, 92) == TotalLines(SAMPLE, 91) + 0
  {
    Bytes8();
    SampleStride();
    NonXHasNoLines(SAMPLE, 91, 8);
  }

  lemma Total92()
    ensures NL in SAMPLE && TotalLines(SAMPLE, 93) == TotalLines(SAMPLE, 92) + 0
  {
    Bytes8();
    SampleStride();
    NonXHasNoLines(SAMPLE, 92, 8);
  }

  lemma Total93()
    ensures NL in SAMPLE && TotalLines(SAMPLE, 94) == TotalLines(SAMPLE, 93) + 0
  {
    Cell93();
  }

  lemma Total94()
    ensures NL in SAMPLE && TotalLines(SAMPLE, 95) == TotalLines(SAMPLE, 94) + 0
  {
    Bytes8();
    SampleStride();
    NonXHasNoLines(SAMPLE, 94, 8);
  }

  lemma Total95()
    ensures NL in SAMPLE && TotalLines(SAMPLE, 96) == TotalLines(SAMPLE, 95) + 0
  {
    Bytes8();
    SampleStride();
    NonXHasNoLines(SAMPLE, 95, 8);
  }

  lemma Total96()
    ensures NL in SAMPLE && TotalLines(SAMPLE, 97) == TotalLines(SAMPLE, 96) + 0
  {
    Bytes8();
    SampleStride();
    NonXHasNoLines(SAMPLE, 96, 8);
  }

  lemma Total97()
    ensures NL in SAMPLE && TotalLines(SAMPLE, 98) == TotalLines(SAMPLE, 97) + 0
  {
    Bytes8();
    SampleStride();
    NonXHasNoLines(SAMPLE, 97, 8);
  }

  lemma Total98()
    ensures NL in SAMPLE && TotalLines(SAMPLE, 99) == TotalLines(SAMPLE, 98) + 0
  {
    Bytes8();
    SampleStride();
    NonXHasNoLines(SAMPLE, 98, 8);
  }

  lemma Total99()
    ensures NL in SAMPLE && TotalLines(SAMPLE, 100) == TotalLines(SAMPLE, 99) + 0
  {
    Bytes9();
    SampleStride();
    NonXHasNoLines(SAMPLE, 99, 8);
  }

  lemma Total100()
    ensures NL in SAMPLE && TotalLines(SAMPLE, 101) == TotalLines(SAMPLE, 100) + 1
  {
    Cell100();
  }

  lemma Total101()
    ensures NL in SAMPLE && TotalLines(SAMPLE, 102) == TotalLines(SAMPLE, 101) + 0
  {
    Bytes9();
    SampleStride();
    NonXHasNoLines(SAMPLE, 101, 8);
  }

  lemma Total102()
    ensures NL in SAMPLE && TotalLines(SAMPLE, 103) == TotalLines(SAMPLE, 102) + 2
  {
    Cell102();
  }

  lemma Total103()
    ensures NL in SAMPLE && TotalLines(SAMPLE, 104) == TotalLines(SAMPLE, 103) + 0
  {
    Bytes9();
    SampleStride();
    NonXHasNoLines(SAMPLE, 103, 8);
  }

  lemma Total104()
    ensures NL in SAMPLE && TotalLines(SAMPLE, 105) == TotalLines(SAMPLE, 104) + 3
  {
    Cell104();
  }

  lemma Total105()
    ensures NL in SAMPLE && TotalLines(SAMPLE, 106) == TotalLines(SAMPLE, 105) + 0
  {
    Bytes9();
    SampleStride();
    NonXHasNoLines(SAMPLE, 105, 8);
  }

  lemma Total106()
    ensures NL in SAMPLE && TotalLines(SAMPLE, 107) == TotalLines(SAMPLE, 106) + 0
  {
    Bytes9();
    SampleStride();
    NonXHasNoLines(SAMPLE, 106, 8);
  }

  lemma Total107()
    ensures NL in SAMPLE && TotalLines(SAMPLE, 108) == TotalLines(SAMPLE, 107) + 0
  {
    Bytes9();
    SampleStride();
    NonXHasNoLines(SAMPLE, 107, 8);
  }

  lemma Total108()
    ensures NL in SAMPLE && TotalLines(SAMPLE, 109) == TotalLines(SAMPLE, 108) + 2
  {
    Cell108();
  }

  lemma Row0()
    ensures NL in SAMPLE && TotalLines(SAMPLE, 11) == TotalLines(SAMPLE, 0) + 2
  {
    Total0();
    Total1();
    Total2();
    Total3();
    Total4();
    Total5();
    Total6();
    Total7();
    Total8();
    Total9();
    Total10();
  }

  lemma Row1()
    ensures NL in SAMPLE && TotalLines(SAMPLE, 22) == TotalLines(SAMPLE, 11) + 1
  {
    Total11();
    Total12();
    Total13();
    Total14();
    Total15();
    Total16();
    Total17();
    Total18();
    Total19();
    Total20();
    Total21();
  }

  lemma Row2()
    ensures NL in SAMPLE && TotalLines(SAMPLE, 33) == TotalLines(SAMPLE, 22) + 0
  {
    Total22();
    Total23();
    Total24();
    Total25();
    Total26();
    Total27();
    Total28();
    Total29();
    Total30();
    Total31();
    Total32();
  }

  lemma Row3()
    ensures NL in SAMPLE && TotalLines(SAMPLE, 44) == TotalLines(SAMPLE, 33) + 2
  {
    Total33();
    Total34();
    Total35();
    Total36();
    Total37();
    Total38();
    Total39();
    Total40();
    Total41();
    Total42();
    Total43();
  }

  lemma Row4()
    ensures NL in SAMPLE && TotalLines(SAMPLE, 55) == TotalLines(SAMPLE, 44) + 3
  {
    Total44();
    Total45();
    Total46();
    Total47();
    Total48();
    Total49();
    Total50();
    Total51();
    Total52();
    Total53();
    Total54();
  }

  lemma Row5()
    ensures NL in SAMPLE && TotalLines(SAMPLE, 66) == TotalLines(SAMPLE, 55) + 2
  {
    Total55();
    Total56();
    Total57();
    Total58();
    Total59();
    Total60();
    Total61();
    Total62();
    Total63();
    Total64();
    Total65();
  }

  lemma Row6()
    ensures NL in SAMPLE && TotalLines(SAMPLE, 77) == TotalLines(SAMPLE, 66) + 0
  {
    Total66();
    Total67();
    Total68();
    Total69();
    Total70();
    Total71();
    Total72();
    Total73();
    Total74();
    Total75();
    Total76();
  }

  lemma Row7()
    ensures NL in SAMPLE && TotalLines(SAMPLE, 88) == TotalLines(SAMPLE, 77) + 0
  {
    Total77();
    Total78();
    Total79();
    Total80();
    Total81();
    Total82();
    Total83();
    Total84();
    Total85();
    Total86();
    Total87();
  }

  lemma Row8()
    ensures NL in SAMPLE && TotalLines(SAMPLE, 99) == TotalLines(SAMPLE, 88) + 0
  {
    Total88();
    Total89();
    Total90();
    Total91();
    Total92();
    Total93();
    Total94();
    Total95();
    Total96();
    Total97();
    Total98();
  }

  lemma Row9()
    ensures NL in SAMPLE && TotalLines(SAMPLE, 109) == TotalLines(SAMPLE, 99) + 8
  {
    Total99();
    Total100();
    Total101();
    Total102();
    Total103();
    Total104();
    Total105();
    Total106();
    Total107();
    Total108();
  }

  lemma Upto0()
    ensures NL in SAMPLE && TotalLines(SAMPLE, 11) == 2
  {
    SampleStride();
    assert TotalLines(SAMPLE, 0) == 0;
    Row0();
  }

  lemma Upto1()
    ensures NL in SAMPLE && TotalLines(SAMPLE, 22) == 3
  {
    Upto0();
    Row1();
  }

  lemma Upto2()
    ensures NL in SAMPLE && TotalLines(SAMPLE, 33) == 3
  {
    Upto1();
    Row2();
  }

  lemma Upto3()
    ensures NL in SAMPLE && TotalLines(SAMPLE, 44) == 5
  {
    Upto2();
    Row3();
  }

  lemma Upto4()
    ensures NL in SAMPLE && TotalLines(SAMPLE, 55) == 8
  {
    Upto3();
    Row4();
  }

  lemma Upto5()
    ensures NL in SAMPLE && TotalLines(SAMPLE, 66) == 10
  {
    Upto4();
    Row5();
  }

  lemma Upto6()
    ensures NL in SAMPLE && TotalLines(SAMPLE, 77) == 10
  {
    Upto5();
    Row6();
  }

  lemma Upto7()
    ensures NL in SAMPLE && TotalLines(SAMPLE, 88) == 10
  {
    Upto6();
    Row7();
  }

  lemma Upto8()
    ensures NL in SAMPLE && TotalLines(SAMPLE, 99) == 10
  {
    Upto7();
    Row8();
  }

  lemma Upto9()
    ensures NL in SAMPLE && TotalLines(SAMPLE, 109) == 18
  {
    Upto8();
    Row9();
  }

  /** `part1_sample_input`: the sample grid holds 18 "XMAS". */
  lemma SamplePart1()
    ensures NL in SAMPLE && Part1(SAMPLE) == 18
  {
    Bytes0();
    Upto9();
    Part1CountsLines(SAMPLE);
  }
}
