/**
 * TCP China congestion control: the per-connection state machine that grows
 * cwnd by slow start up to ssthresh and by the HighSpeed TCP rule beyond it,
 * and computes ssthresh from the HighSpeed TCP decrease factor on congestion.
 */
module China {
  import opened Uint
  import opened Aimd
  import opened RttEstimator

  /**
   * Largest clamp that keeps `cwnd * md` within 32 bits for every factor of
   * the table (`0xffffffff / 128`).
   */
  const ClampMax: u32 := 0xffff_ffff / 128

  /** Clamp left by initialisation: the host's clamp, narrowed to `ClampMax`. */
  function InitClamp(clamp: u32): (r: u32)
    ensures r <= clamp && r <= ClampMax
    ensures r == clamp || r == ClampMax
    ensures clamp <= ClampMax ==> r == clamp
  {
    Min(clamp, ClampMax)
  }

  /** Window and fractional-growth accumulator of a connection. */
  datatype Window = Window(cwnd: u32, cnt: u32)

  /**
   * The additive increase of the fast mode: below the clamp the accumulator
   * gains `ai + 1` (in u32 arithmetic), and once it reaches the window it
   * pays the window back and the window grows by one segment. At or above
   * the clamp nothing changes. The window never grows by more than one
   * segment, never past the clamp, and the accumulator accounts for every
   * unit it was given.
   */
  function AdditiveIncrease(w: Window, clamp: u32, ai: nat): (r: Window)
    requires ai < AimdMax
    ensures w.cwnd >= clamp ==> r == w
    ensures r.cwnd == w.cwnd || r.cwnd == w.cwnd + 1
    ensures w.cwnd <= clamp ==> r.cwnd <= clamp
    ensures w.cwnd < clamp && w.cnt + ai + 1 < Two32 ==>
      (r.cwnd == w.cwnd + 1 <==> w.cnt + ai + 1 >= w.cwnd) &&
      r.cnt + (r.cwnd - w.cwnd) * w.cwnd == w.cnt + ai + 1
  {
    if w.cwnd < clamp then
      var cnt := (w.cnt + ai + 1) % Two32;
      if cnt >= w.cwnd then Window(w.cwnd + 1, cnt - w.cwnd) else Window(w.cwnd, cnt)
    else
      w
  }

  /**
   * A connection using TCP China: the host's counters that the algorithm
   * reads and updates (`snd_cwnd`, `snd_ssthresh`, `snd_cwnd_cnt`,
   * `snd_cwnd_clamp`) and the algorithm's private state (`minrtt`, `artt`,
   * `ai`).
   */
  class Sock {
    var cwnd: u32
    var ssthresh: u32
    var cwndCnt: u32
    var cwndClamp: u32
    var minRtt: u32
    var avgRtt: u32
    var ai: u32

    /** RTT samples taken since the last reset, oldest first. */
    ghost var rttSamples: seq<s32>

    /**
     * The table index is a row of the table, and the RTT statistics are
     * those of the samples since the last reset.
     */
    ghost predicate Valid()
      reads this
    {
      ai < AimdMax &&
      minRtt == MinRttOf(rttSamples) &&
      avgRtt == AvgRttOf(rttSamples)
    }

    /**
     * A connection as the host hands it over: its own counters, and the
     * algorithm's private area zeroed.
     */
    constructor (cwnd0: u32, ssthresh0: u32, cnt0: u32, clamp0: u32)
      ensures Valid()
      ensures cwnd == cwnd0 && ssthresh == ssthresh0 && cwndCnt == cnt0 && cwndClamp == clamp0
      ensures minRtt == 0 && avgRtt == 0 && ai == 0 && rttSamples == []
    {
      cwnd, ssthresh, cwndCnt, cwndClamp := cwnd0, ssthresh0, cnt0, clamp0;
      minRtt, avgRtt, ai := 0, 0, 0;
      rttSamples := [];
    }

    /** Forget the RTT statistics. */
    method Reset()
      modifies this`minRtt, this`avgRtt, this`rttSamples
      ensures minRtt == 0 && avgRtt == 0 && rttSamples == []
    {
      minRtt := 0;
      avgRtt := 0;
      rttSamples := [];
    }

    /**
     * Adopt the algorithm: start at the first table row, narrow the clamp
     * so that the decrease arithmetic cannot overflow, and forget the RTT
     * statistics. Works from any state and establishes `Valid()`; the
     * clamp never grows, and initialising again changes nothing more.
     */
    method Init()
      modifies this`ai, this`cwndClamp, this`minRtt, this`avgRtt, this`rttSamples
      ensures Valid()
      ensures ai == 0 && minRtt == 0 && avgRtt == 0 && rttSamples == []
      ensures cwndClamp == InitClamp(old(cwndClamp))
      ensures cwndClamp <= old(cwndClamp) && cwndClamp <= ClampMax
    {
      ai := 0;
      cwndClamp := Min(cwndClamp, ClampMax);
      Reset();
    }

    /**
     * Take an RTT sample of `rttUs` microseconds (`numAcked` is not used):
     * update the minimum and the smoothed average with `rttUs + 1`.
     */
    method RttCalc(numAcked: u32, rttUs: s32)
      requires Valid()
      modifies this`minRtt, this`avgRtt, this`rttSamples
      ensures Valid()
      ensures rttSamples == old(rttSamples) + [rttUs]
      ensures minRtt == MinRttUpdate(old(minRtt), SampleRtt(rttUs))
      ensures avgRtt == AvgRttUpdate(old(avgRtt), SampleRtt(rttUs))
    {
      var rtt := (rttUs + 1) % Two32;
      var m, a := minRtt, avgRtt;
      if rtt < m || m == 0 {
        m := rtt;
      }
      if a > 0 {
        a := (a + (rtt / 8 - a / 8) % Two32) % Two32;
      } else {
        a := rtt;
      }
      avgRtt := a;
      minRtt := m;
      rttSamples := rttSamples + [rttUs];
      assert DropLast(rttSamples) == old(rttSamples);
    }

    /**
     * React to an ACK. `cwndLimited` is the host's verdict on whether the
     * connection is limited by cwnd, and `slowStartCwnd` the window the
     * host's slow-start routine leaves for `acked` acknowledged segments.
     * Not cwnd-limited: nothing changes. At or below ssthresh: only the
     * host's slow start acts. Above ssthresh: `ai` is moved to the row of
     * the table that cwnd falls in, whatever valid row it was at, and the
     * additive increase runs, ignoring `acked`.
     */
    method CongAvoid(cwndLimited: bool, acked: u32, slowStartCwnd: u32)
      requires Valid()
      modifies this`cwnd, this`cwndCnt, this`ai
      ensures Valid()
      ensures !cwndLimited ==> cwnd == old(cwnd) && cwndCnt == old(cwndCnt) && ai == old(ai)
      ensures cwndLimited && old(cwnd) <= ssthresh ==>
        cwnd == slowStartCwnd && cwndCnt == old(cwndCnt) && ai == old(ai)
      ensures cwndLimited && old(cwnd) > ssthresh ==>
        Resolved(ai, old(cwnd)) && ai == IndexFor(old(cwnd)) &&
        Window(cwnd, cwndCnt) == AdditiveIncrease(Window(old(cwnd), old(cwndCnt)), cwndClamp, ai)
      ensures old(cwnd) > ssthresh ==> cwnd <= old(cwnd) + 1
      ensures old(cwnd) > ssthresh && old(cwnd) <= cwndClamp ==> cwnd <= cwndClamp
    {
      if !cwndLimited {
        return;
      }
      if cwnd <= ssthresh {
        cwnd := slowStartCwnd;
      } else {
        var row := Resync(cwnd, ai);
        ai := row;
        if cwnd < cwndClamp {
          cwndCnt := (cwndCnt + ai + 1) % Two32;
          if cwndCnt >= cwnd {
            cwndCnt := cwndCnt - cwnd;
            cwnd := cwnd + 1;
          }
        }
      }
    }

    /**
     * The slow-start threshold after a congestion signal: cwnd less cwnd
     * times the decrease factor of the row `ai` was last left at, at least
     * 2. The product and the subtraction are u32 operations; the result is
     * never below 2 and never above cwnd (or 2), and when the product fits
     * in 32 bits it is the exact HighSpeed TCP decrease.
     */
    function Ssthresh(): (r: u32)
      reads this
      requires Valid()
      ensures 2 <= r <= Max(cwnd, 2)
      ensures cwnd * AimdVals[ai].md < Two32 ==>
        r == Max(cwnd - cwnd * AimdVals[ai].md / 256, 2)
    {
      var md := AimdVals[ai].md;
      DecreaseFits(cwnd, md, ai);
      var product := (cwnd * md) % Two32;
      var reduced := (cwnd - product / 256) % Two32;
      Max(reduced, 2)
    }
  }

  /** The decrease `(cwnd * md mod 2^32) / 256` never exceeds cwnd. */
  lemma DecreaseFits(cwnd: u32, md: u32, ai: nat)
    requires ai < AimdMax && md == AimdVals[ai].md
    ensures (cwnd * md) % Two32 / 256 <= cwnd
  {
    FactorsBounded();
    if cwnd * md < Two32 {
      assert cwnd * md <= cwnd * 128;
    } else {
      assert cwnd * 128 >= Two32;
    }
  }

  /**
   * Once the clamp has been narrowed by initialisation and cwnd respects
   * it, `cwnd * md` fits in 32 bits and the threshold is the exact
   * HighSpeed TCP decrease.
   */
  lemma SsthreshNoOverflow(s: Sock)
    requires s.Valid() && s.cwnd <= s.cwndClamp <= ClampMax
    ensures s.cwnd * AimdVals[s.ai].md < Two32
    ensures s.Ssthresh() == Max(s.cwnd - s.cwnd * AimdVals[s.ai].md / 256, 2)
  {
    FactorsBounded();
    assert s.cwnd * AimdVals[s.ai].md <= s.cwnd * 128;
  }

  /** A window of 10000 segments in row 29 (factor 52/256) falls back to 7969. */
  lemma SsthreshExample(s: Sock)
    requires s.Valid() && s.cwnd == 10000 && s.ai == IndexFor(10000)
    ensures s.Ssthresh() == 7969
  {
    IndexExamples();
  }
}
