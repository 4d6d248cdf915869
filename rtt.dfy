/**
 * The RTT estimator of TCP China: the minimum RTT seen since the last reset
 * and a 7/8-old, 1/8-new smoothed average RTT, both in microseconds, where
 * 0 stands for "no value yet".
 */
module RttEstimator {
  import opened Uint

  /**
   * The RTT the estimator works with for a sample of `rttUs` microseconds:
   * one more than the sample, as a u32, so that a zero sample never
   * yields a zero RTT. The "no sample" marker -1 does yield 0, and a more
   * negative sample wraps to itself plus 2^32 + 1, at least 2^31.
   */
  function SampleRtt(rttUs: s32): (r: u32)
    ensures rttUs >= 0 ==> r == rttUs + 1
    ensures rttUs == -1 ==> r == 0
    ensures rttUs < -1 ==> r == rttUs + 1 + Two32 && r >= 0x8000_0000
  {
    (rttUs + 1) % Two32
  }

  /**
   * New minimum RTT after an RTT of `rtt`: the RTT itself while the minimum
   * is unset (0), otherwise the smaller of the two.
   */
  function MinRttUpdate(minRtt: u32, rtt: u32): (r: u32)
    ensures minRtt == 0 ==> r == rtt
    ensures r == minRtt || r == rtt
    ensures r <= rtt
    ensures minRtt != 0 ==> r <= minRtt
  {
    if rtt < minRtt || minRtt == 0 then rtt else minRtt
  }

  /**
   * New average RTT after an RTT of `rtt`: the RTT itself while the average
   * is unset (0); otherwise the average loses an eighth of itself and gains
   * an eighth of the RTT, both rounded down. The u32 arithmetic of the
   * update wraps in between but the result never does, and it lies between
   * the old average and the new RTT.
   */
  function AvgRttUpdate(avgRtt: u32, rtt: u32): (r: u32)
    ensures avgRtt == 0 ==> r == rtt
    ensures avgRtt > 0 ==> r == avgRtt - avgRtt / 8 + rtt / 8
    ensures avgRtt > 0 ==> Min(avgRtt, rtt) <= r <= Max(avgRtt, rtt)
  {
    if avgRtt > 0 then
      SmoothingNoWrap(avgRtt, rtt);
      (avgRtt + (rtt / 8 - avgRtt / 8) % Two32) % Two32
    else
      rtt
  }

  /** The wrapped sum of the average update equals the unwrapped one, which stays in range. */
  lemma SmoothingNoWrap(a: u32, t: u32)
    ensures (a + (t / 8 - a / 8) % Two32) % Two32 == a - a / 8 + t / 8
    ensures Min(a, t) <= a - a / 8 + t / 8 <= Max(a, t)
  {
    if a <= t { EighthMonotone(a, t); } else { EighthMonotone(t, a); }
    if t / 8 >= a / 8 {
      assert (t / 8 - a / 8) % Two32 == t / 8 - a / 8;
    } else {
      assert (t / 8 - a / 8) % Two32 == Two32 + t / 8 - a / 8;
    }
  }

  /** Both `x / 8` and `x - x / 8` grow with `x`. */
  lemma EighthMonotone(x: nat, y: nat)
    requires x <= y
    ensures x / 8 <= y / 8
    ensures x - x / 8 <= y - y / 8
  {
  }

  /** All but the last sample. */
  function DropLast<T>(s: seq<T>): seq<T>
    requires |s| > 0
  {
    s[..|s| - 1]
  }

  /** Minimum RTT after the samples `samples`, oldest first, since the last reset. */
  function MinRttOf(samples: seq<s32>): u32
  {
    if samples == [] then 0
    else MinRttUpdate(MinRttOf(DropLast(samples)), SampleRtt(samples[|samples| - 1]))
  }

  /** Average RTT after the samples `samples`, oldest first, since the last reset. */
  function AvgRttOf(samples: seq<s32>): u32
  {
    if samples == [] then 0
    else AvgRttUpdate(AvgRttOf(DropLast(samples)), SampleRtt(samples[|samples| - 1]))
  }

  /**
   * With real samples (none negative), the minimum RTT since the last reset
   * is the least of the samples plus one, and 0 when there was none.
   */
  lemma {:induction false} MinRttIsMinimum(samples: seq<s32>)
    requires forall i :: 0 <= i < |samples| ==> samples[i] >= 0
    ensures samples == [] ==> MinRttOf(samples) == 0
    ensures forall i :: 0 <= i < |samples| ==> MinRttOf(samples) <= samples[i] as int + 1
    ensures samples != [] ==> exists i :: 0 <= i < |samples| && MinRttOf(samples) == samples[i] as int + 1
  {
    if samples != [] {
      var prefix, n := DropLast(samples), |samples| - 1;
      assert forall i :: 0 <= i < n ==> prefix[i] == samples[i];
      MinRttIsMinimum(prefix);
      if prefix == [] {
        assert MinRttOf(samples) == samples[0] as int + 1;
      } else {
        var k :| 0 <= k < n && MinRttOf(prefix) == prefix[k] as int + 1;
        if MinRttOf(samples) == MinRttOf(prefix) {
          assert MinRttOf(samples) == samples[k] as int + 1;
        } else {
          assert MinRttOf(samples) == samples[n] as int + 1;
        }
      }
    }
  }

  /**
   * With real samples (none negative), the average RTT since the last reset
   * lies between the least and the greatest of the samples plus one, and is
   * 0 when there was none.
   */
  lemma {:induction false} AvgRttWithinSamples(samples: seq<s32>)
    requires forall i :: 0 <= i < |samples| ==> samples[i] >= 0
    ensures samples == [] ==> AvgRttOf(samples) == 0
    ensures samples != [] ==> exists i :: 0 <= i < |samples| && samples[i] as int + 1 <= AvgRttOf(samples)
    ensures samples != [] ==> exists i :: 0 <= i < |samples| && AvgRttOf(samples) <= samples[i] as int + 1
  {
    if samples != [] {
      var prefix, n := DropLast(samples), |samples| - 1;
      assert forall i :: 0 <= i < n ==> prefix[i] == samples[i];
      AvgRttWithinSamples(prefix);
      var avg, rtt := AvgRttOf(prefix), samples[n] as int + 1;
      if prefix == [] {
        assert AvgRttOf(samples) == samples[0] as int + 1;
      } else {
        var lo :| 0 <= lo < n && prefix[lo] as int + 1 <= avg;
        var hi :| 0 <= hi < n && avg <= prefix[hi] as int + 1;
        assert Min(avg, rtt) <= AvgRttOf(samples) <= Max(avg, rtt);
        if avg <= rtt {
          assert samples[lo] as int + 1 <= AvgRttOf(samples) <= samples[n] as int + 1;
        } else {
          assert samples[n] as int + 1 <= AvgRttOf(samples) <= samples[hi] as int + 1;
        }
      }
    }
  }
}
