/**
 * The HighSpeed TCP AIMD table (RFC 3649, Appendix B) and the index into it
 * that the fast-increase mode keeps in step with cwnd.
 */
module Aimd {
  import opened Uint

  /**
   * One table row: `cwnd` is the upper bound of a window bucket, `md` the
   * multiplicative-decrease factor in 1/256 units (128 is one half).
   */
  datatype AimdVal = AimdVal(cwnd: u32, md: u32)

  /** Number of rows of the table (`HSTCP_AIMD_MAX`). */
  const AimdMax: nat := 72

  /**
   * Row `i` of `hstcp_aimd_vals`, selected by halving the row range so that
   * a proof about one row does not have to consider all 72 of them.
   */
  function Entry(i: nat): AimdVal
    requires i < AimdMax
  {
    if i < 36 then
      if i < 18 then
        if i < 9 then
          if i < 4 then
            if i < 2 then
              if i < 1 then
                AimdVal(38, 128)  // row 0
              else
                AimdVal(118, 112)  // row 1
            else
              if i < 3 then
                AimdVal(221, 104)  // row 2
              else
                AimdVal(347, 98)  // row 3
          else
            if i < 6 then
              if i < 5 then
                AimdVal(495, 93)  // row 4
              else
                AimdVal(663, 89)  // row 5
            else
              if i < 7 then
                AimdVal(851, 86)  // row 6
              else
                if i < 8 then
                  AimdVal(1058, 83)  // row 7
                else
                  AimdVal(1284, 81)  // row 8
        else
          if i < 13 then
            if i < 11 then
              if i < 10 then
                AimdVal(1529, 78)  // row 9
              else
                AimdVal(1793, 76)  // row 10
            else
              if i < 12 then
                AimdVal(2076, 74)  // row 11
              else
                AimdVal(2378, 72)  // row 12
          else
            if i < 15 then
              if i < 14 then
                AimdVal(2699, 71)  // row 13
              else
                AimdVal(3039, 69)  // row 14
            else
              if i < 16 then
                AimdVal(3399, 68)  // row 15
              else
                if i < 17 then
                  AimdVal(3778, 66)  // row 16
                else
                  AimdVal(4177, 65)  // row 17
      else
        if i < 27 then
          if i < 22 then
            if i < 20 then
              if i < 19 then
                AimdVal(4596, 64)  // row 18
              else
                AimdVal(5036, 62)  // row 19
            else
              if i < 21 then
                AimdVal(5497, 61)  // row 20
              else
                AimdVal(5979, 60)  // row 21
          else
            if i < 24 then
              if i < 23 then
                AimdVal(6483, 59)  // row 22
              else
                AimdVal(7009, 58)  // row 23
            else
              if i < 25 then
                AimdVal(7558, 57)  // row 24
              else
                if i < 26 then
                  AimdVal(8130, 56)  // row 25
                else
                  AimdVal(8726, 55)  // row 26
        else
          if i < 31 then
            if i < 29 then
              if i < 28 then
                AimdVal(9346, 54)  // row 27
              else
                AimdVal(9991, 53)  // row 28
            else
              if i < 30 then
                AimdVal(10661, 52)  // row 29
              else
                AimdVal(11358, 52)  // row 30
          else
            if i < 33 then
              if i < 32 then
                AimdVal(12082, 51)  // row 31
              else
                AimdVal(12834, 50)  // row 32
            else
              if i < 34 then
                AimdVal(13614, 49)  // row 33
              else
                if i < 35 then
                  AimdVal(14424, 48)  // row 34
                else
                  AimdVal(15265, 48)  // row 35
    else
      if i < 54 then
        if i < 45 then
          if i < 40 then
            if i < 38 then
              if i < 37 then
                AimdVal(16137, 47)  // row 36
              else
                AimdVal(17042, 46)  // row 37
            else
              if i < 39 then
                AimdVal(17981, 45)  // row 38
              else
                AimdVal(18955, 45)  // row 39
          else
            if i < 42 then
              if i < 41 then
                AimdVal(19965, 44)  // row 40
              else
                AimdVal(21013, 43)  // row 41
            else
              if i < 43 then
                AimdVal(22101, 43)  // row 42
              else
                if i < 44 then
                  AimdVal(23230, 42)  // row 43
                else
                  AimdVal(24402, 41)  // row 44
        else
          if i < 49 then
            if i < 47 then
              if i < 46 then
                AimdVal(25618, 41)  // row 45
              else
                AimdVal(26881, 40)  // row 46
            else
              if i < 48 then
                AimdVal(28193, 39)  // row 47
              else
                AimdVal(29557, 39)  // row 48
          else
            if i < 51 then
              if i < 50 then
                AimdVal(30975, 38)  // row 49
              else
                AimdVal(32450, 38)  // row 50
            else
              if i < 52 then
                AimdVal(33986, 37)  // row 51
              else
                if i < 53 then
                  AimdVal(35586, 36)  // row 52
                else
                  AimdVal(37253, 36)  // row 53
      else
        if i < 63 then
          if i < 58 then
            if i < 56 then
              if i < 55 then
                AimdVal(38992, 35)  // row 54
              else
                AimdVal(40808, 35)  // row 55
            else
              if i < 57 then
                AimdVal(42707, 34)  // row 56
              else
                AimdVal(44694, 33)  // row 57
          else
            if i < 60 then
              if i < 59 then
                AimdVal(46776, 33)  // row 58
              else
                AimdVal(48961, 32)  // row 59
            else
              if i < 61 then
                AimdVal(51258, 32)  // row 60
              else
                if i < 62 then
                  AimdVal(53677, 31)  // row 61
                else
                  AimdVal(56230, 30)  // row 62
        else
          if i < 67 then
            if i < 65 then
              if i < 64 then
                AimdVal(58932, 30)  // row 63
              else
                AimdVal(61799, 29)  // row 64
            else
              if i < 66 then
                AimdVal(64851, 28)  // row 65
              else
                AimdVal(68113, 28)  // row 66
          else
            if i < 69 then
              if i < 68 then
                AimdVal(71617, 27)  // row 67
              else
                AimdVal(75401, 26)  // row 68
            else
              if i < 70 then
                AimdVal(79517, 26)  // row 69
              else
                if i < 71 then
                  AimdVal(84035, 25)  // row 70
                else
                  AimdVal(89053, 24)  // row 71
  }

  /** The rows of the table in order. */
  function Rows(): (t: seq<AimdVal>)
    ensures |t| == AimdMax
    ensures forall i :: 0 <= i < AimdMax ==> t[i] == Entry(i)
  {
    seq(AimdMax, i requires 0 <= i < AimdMax => Entry(i))
  }

  /** The constant table `hstcp_aimd_vals`. */
  const AimdVals: seq<AimdVal> := Rows()

  /** Every row of the table, in source order. */
  lemma TableRows()
    ensures |AimdVals| == AimdMax
    ensures AimdVals[0] == AimdVal(38, 128)
    ensures AimdVals[1] == AimdVal(118, 112)
    ensures AimdVals[2] == AimdVal(221, 104)
    ensures AimdVals[3] == AimdVal(347, 98)
    ensures AimdVals[4] == AimdVal(495, 93)
    ensures AimdVals[5] == AimdVal(663, 89)
    ensures AimdVals[6] == AimdVal(851, 86)
    ensures AimdVals[7] == AimdVal(1058, 83)
    ensures AimdVals[8] == AimdVal(1284, 81)
    ensures AimdVals[9] == AimdVal(1529, 78)
    ensures AimdVals[10] == AimdVal(1793, 76)
    ensures AimdVals[11] == AimdVal(2076, 74)
    ensures AimdVals[12] == AimdVal(2378, 72)
    ensures AimdVals[13] == AimdVal(2699, 71)
    ensures AimdVals[14] == AimdVal(3039, 69)
    ensures AimdVals[15] == AimdVal(3399, 68)
    ensures AimdVals[16] == AimdVal(3778, 66)
    ensures AimdVals[17] == AimdVal(4177, 65)
    ensures AimdVals[18] == AimdVal(4596, 64)
    ensures AimdVals[19] == AimdVal(5036, 62)
    ensures AimdVals[20] == AimdVal(5497, 61)
    ensures AimdVals[21] == AimdVal(5979, 60)
    ensures AimdVals[22] == AimdVal(6483, 59)
    ensures AimdVals[23] == AimdVal(7009, 58)
    ensures AimdVals[24] == AimdVal(7558, 57)
    ensures AimdVals[25] == AimdVal(8130, 56)
    ensures AimdVals[26] == AimdVal(8726, 55)
    ensures AimdVals[27] == AimdVal(9346, 54)
    ensures AimdVals[28] == AimdVal(9991, 53)
    ensures AimdVals[29] == AimdVal(10661, 52)
    ensures AimdVals[30] == AimdVal(11358, 52)
    ensures AimdVals[31] == AimdVal(12082, 51)
    ensures AimdVals[32] == AimdVal(12834, 50)
    ensures AimdVals[33] == AimdVal(13614, 49)
    ensures AimdVals[34] == AimdVal(14424, 48)
    ensures AimdVals[35] == AimdVal(15265, 48)
    ensures AimdVals[36] == AimdVal(16137, 47)
    ensures AimdVals[37] == AimdVal(17042, 46)
    ensures AimdVals[38] == AimdVal(17981, 45)
    ensures AimdVals[39] == AimdVal(18955, 45)
    ensures AimdVals[40] == AimdVal(19965, 44)
    ensures AimdVals[41] == AimdVal(21013, 43)
    ensures AimdVals[42] == AimdVal(22101, 43)
    ensures AimdVals[43] == AimdVal(23230, 42)
    ensures AimdVals[44] == AimdVal(24402, 41)
    ensures AimdVals[45] == AimdVal(25618, 41)
    ensures AimdVals[46] == AimdVal(26881, 40)
    ensures AimdVals[47] == AimdVal(28193, 39)
    ensures AimdVals[48] == AimdVal(29557, 39)
    ensures AimdVals[49] == AimdVal(30975, 38)
    ensures AimdVals[50] == AimdVal(32450, 38)
    ensures AimdVals[51] == AimdVal(33986, 37)
    ensures AimdVals[52] == AimdVal(35586, 36)
    ensures AimdVals[53] == AimdVal(37253, 36)
    ensures AimdVals[54] == AimdVal(38992, 35)
    ensures AimdVals[55] == AimdVal(40808, 35)
    ensures AimdVals[56] == AimdVal(42707, 34)
    ensures AimdVals[57] == AimdVal(44694, 33)
    ensures AimdVals[58] == AimdVal(46776, 33)
    ensures AimdVals[59] == AimdVal(48961, 32)
    ensures AimdVals[60] == AimdVal(51258, 32)
    ensures AimdVals[61] == AimdVal(53677, 31)
    ensures AimdVals[62] == AimdVal(56230, 30)
    ensures AimdVals[63] == AimdVal(58932, 30)
    ensures AimdVals[64] == AimdVal(61799, 29)
    ensures AimdVals[65] == AimdVal(64851, 28)
    ensures AimdVals[66] == AimdVal(68113, 28)
    ensures AimdVals[67] == AimdVal(71617, 27)
    ensures AimdVals[68] == AimdVal(75401, 26)
    ensures AimdVals[69] == AimdVal(79517, 26)
    ensures AimdVals[70] == AimdVal(84035, 25)
    ensures AimdVals[71] == AimdVal(89053, 24)
  {
  }

  /** The table has 72 rows, from (38, 128) to (89053, 24). */
  lemma TableEnds()
    ensures |AimdVals| == AimdMax == 72
    ensures AimdVals[0] == AimdVal(38, 128)
    ensures AimdVals[AimdMax - 1] == AimdVal(89053, 24)
  {
  }

  /** Each threshold is above the previous one. */
  lemma ThresholdsAscend()
    ensures Ascending(AimdVals)
  {
  }

  /** Each decrease factor is at most the previous one. */
  lemma FactorsDescend()
    ensures forall i :: 0 < i < AimdMax ==> AimdVals[i].md <= AimdVals[i - 1].md
  {
  }

  /** Every decrease factor lies between 24/256 and 128/256. */
  lemma FactorsBounded()
    ensures forall i :: 0 <= i < AimdMax ==> 24 <= AimdVals[i].md <= 128
  {
  }

  /** Thresholds of `t` increase from each row to the next. */
  ghost predicate Ascending(t: seq<AimdVal>)
  {
    forall i :: 0 < i < |t| ==> t[i - 1].cwnd < t[i].cwnd
  }

  /**
   * The bucket invariant of the fast-increase mode over a table `t`: `ai` is
   * a row of `t`, `t[ai-1].cwnd < cwnd` unless `ai` is the first row, and
   * `cwnd <= t[ai].cwnd` unless `ai` is the last row.
   */
  ghost predicate InBucket(t: seq<AimdVal>, ai: int, cwnd: int)
  {
    0 <= ai < |t| &&
    (ai > 0 ==> t[ai - 1].cwnd < cwnd) &&
    (ai < |t| - 1 ==> cwnd <= t[ai].cwnd)
  }

  /** In an ascending table the thresholds increase between any two rows, not only neighbours. */
  lemma {:induction false} AscendingStrict(t: seq<AimdVal>, i: nat, j: nat)
    requires Ascending(t) && i < j < |t|
    ensures t[i].cwnd < t[j].cwnd
    decreases j - i
  {
    if i + 1 < j {
      AscendingStrict(t, i, j - 1);
    }
  }

  /** In an ascending table at most one row satisfies the bucket invariant for a given cwnd. */
  lemma {:induction false} InBucketUnique(t: seq<AimdVal>, a: int, b: int, cwnd: int)
    requires Ascending(t) && InBucket(t, a, cwnd) && InBucket(t, b, cwnd)
    ensures a == b
  {
    if a != b {
      var lo, hi := Min(a, b), Max(a, b);
      if lo < hi - 1 { AscendingStrict(t, lo, hi - 1); }
      assert false;
    }
  }

  /** The bucket invariant over `hstcp_aimd_vals`. */
  ghost predicate Resolved(ai: int, cwnd: int)
  {
    InBucket(AimdVals, ai, cwnd)
  }

  /** First row at or after `i` whose threshold is at least `cwnd`, or the last row. */
  function IndexFrom(cwnd: u32, i: nat): (r: nat)
    requires i < AimdMax
    requires i > 0 ==> AimdVals[i - 1].cwnd < cwnd
    ensures i <= r < AimdMax
    ensures Resolved(r, cwnd)
    decreases AimdMax - i
  {
    if i == AimdMax - 1 || cwnd <= AimdVals[i].cwnd then i else IndexFrom(cwnd, i + 1)
  }

  /** The row of the table that `cwnd` falls in. */
  function IndexFor(cwnd: u32): (r: nat)
    ensures Resolved(r, cwnd)
  {
    IndexFrom(cwnd, 0)
  }

  /** At most one row of `hstcp_aimd_vals` satisfies the bucket invariant for a given cwnd. */
  lemma ResolvedUnique(a: int, b: int, cwnd: int)
    requires Resolved(a, cwnd) && Resolved(b, cwnd)
    ensures a == b
  {
    ThresholdsAscend();
    InBucketUnique(AimdVals, a, b, cwnd);
  }

  /** The row `IndexFor` picks is the first whose threshold is at least cwnd. */
  lemma {:induction false} IndexForIsFirst(cwnd: u32, j: nat)
    requires j < IndexFor(cwnd)
    ensures AimdVals[j].cwnd < cwnd
  {
    var r := IndexFor(cwnd);
    if j < r - 1 {
      ThresholdsAscend();
      AscendingStrict(AimdVals, j, r - 1);
    }
  }

  /** Worked examples: 38 is the first bucket, 39 the second (md 112), 10000 the 30th (md 52). */
  lemma IndexExamples()
    ensures IndexFor(38) == 0
    ensures IndexFor(39) == 1 && AimdVals[1].md == 112
    ensures IndexFor(10000) == 29 && AimdVals[29].md == 52
  {
    ResolvedUnique(IndexFor(38), 0, 38);
    ResolvedUnique(IndexFor(39), 1, 39);
    ResolvedUnique(IndexFor(10000), 29, 10000);
  }

  /**
   * The bounded walk of the fast-increase branch: from any valid index,
   * step forward while cwnd is above the current row's threshold, or
   * backward while cwnd is at or below the previous row's threshold.
   */
  method Resync(cwnd: u32, ai0: nat) returns (ai: nat)
    requires ai0 < AimdMax
    ensures Resolved(ai, cwnd)
    ensures ai == IndexFor(cwnd)
  {
    ThresholdsAscend();
    ai := ai0;
    if cwnd > AimdVals[ai].cwnd {
      while cwnd > AimdVals[ai].cwnd && ai < AimdMax - 1
        invariant ai0 <= ai < AimdMax
        invariant ai > 0 ==> AimdVals[ai - 1].cwnd < cwnd
        decreases AimdMax - ai
      {
        ai := ai + 1;
      }
    } else if ai > 0 && cwnd <= AimdVals[ai - 1].cwnd {
      while ai > 0 && cwnd <= AimdVals[ai - 1].cwnd
        invariant ai <= ai0
        invariant cwnd <= AimdVals[ai].cwnd
      {
        ai := ai - 1;
      }
    }
    ResolvedUnique(ai, IndexFor(cwnd), cwnd);
  }
}
