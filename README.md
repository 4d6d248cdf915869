# TCP China congestion control, modelled in Dafny

TCP China is a Linux congestion-control module (`tcp_china.c`). It grows the
congestion window (cwnd) by standard slow start while cwnd is at or below
ssthresh. Above ssthresh it always uses the HighSpeed TCP
additive-increase/multiplicative-decrease rule, driven by the AIMD table of
RFC 3649, Appendix B. It derives from TCP-Africa but never falls back to
Reno-like growth.

The model has four modules:

- `Uint` (`uint.dfy`): the kernel's `u32` and `s32` types. Every place where
  the C code's unsigned arithmetic can wrap is written out modulo 2^32.
- `Aimd` (`aimd.dfy`): the 72-row table `hstcp_aimd_vals`. Each row pairs a
  cwnd threshold with a decrease factor in 1/256 units. The module also holds
  the bucket invariant `Resolved(ai, cwnd)`, which is
  `AimdVals[ai-1].cwnd < cwnd <= AimdVals[ai].cwnd` with the outer bounds
  dropped at the first and last rows. `IndexFor(cwnd)` is the row satisfying
  it. `Resync` is the bounded forward/backward walk of the fast mode, as a
  method with loops. It is proved to land on `IndexFor(cwnd)` from any valid
  starting row.
- `RttEstimator` (`rtt.dfy`): the minimum-RTT and 7/8-smoothed average-RTT
  updates as functions. `MinRttOf` and `AvgRttOf` fold them over the samples
  taken since the last reset.
- `China` (`china.dfy`): class `Sock`, a connection. It holds the host
  counters the algorithm touches (`snd_cwnd`, `snd_ssthresh`,
  `snd_cwnd_cnt`, `snd_cwnd_clamp`) and the private state (`minrtt`, `artt`,
  `ai`). The methods `Reset`, `Init`, `RttCalc` and `CongAvoid` update the
  fields in place. The function `Ssthresh` only reads them. A ghost field
  records the RTT samples since the last reset, and `Valid()` ties
  `minRtt`/`avgRtt` to the folds over those samples.

Inputs from the host are parameters:

- `cwndLimited` is the answer of `tcp_is_cwnd_limited`.
- `slowStartCwnd` is the window that the host routine `tcp_slow_start` leaves.
  Its body is not part of this model, so nothing is claimed about its
  arithmetic.

Modelling decisions:

- The RTT used for a sample is `(rtt_us + 1) mod 2^32` for every `s32`
  sample. This covers the wrap of `INT_MAX + 1` under the kernel's wrapping
  signed arithmetic. It also covers the "no sample" value -1, which yields
  RTT 0 and so resets the minimum to "unset".
- The table has 72 rows (tcp_china.c:39-110, counted by `HSTCP_AIMD_MAX`
  at :113). The bucket invariant of tcp_china.c:202-206 puts cwnd = 10000 in
  row 29 (threshold 10661, factor 52), not in the row with threshold 9991,
  so the decrease gives 7969.
- The decrease result is not always below cwnd. For a small cwnd, or an `ai`
  left at a later row, it can equal cwnd: cwnd = 2 gives 2.
- `acked` is read only by the host's slow start. The fast branch ignores it
  and adds `ai + 1` to the accumulator on every call, even when `acked` is 0.

## Model

| member | source | states |
|---|---|---|
| `Aimd.Rows` | tcp_china.c:35-111 | `hstcp_aimd_vals` as a sequence of `AimdMax` rows, row i being `Entry(i)` |
| `Aimd.TableRows` | tcp_china.c:39-110 | each of the 72 (threshold, factor) rows of `hstcp_aimd_vals`, in source order |
| `Aimd.TableEnds` | tcp_china.c:35-113 | the table has `HSTCP_AIMD_MAX` = 72 rows, the first (38, 128) and the last (89053, 24) |
| `Aimd.ThresholdsAscend` | tcp_china.c:39-110 | the cwnd thresholds strictly increase from each row to the next |
| `Aimd.FactorsDescend` | tcp_china.c:39-110 | the decrease factors never increase from one row to the next |
| `Aimd.FactorsBounded` | tcp_china.c:39-110 | every decrease factor lies between 24 and 128 (at most one half) |
| `Aimd.AscendingStrict` | tcp_china.c:202-206 | in a table with ascending neighbours, any earlier row has a smaller threshold than any later one |
| `Aimd.InBucketUnique` | tcp_china.c:202-206 | in such a table at most one row satisfies the bucket invariant for a given cwnd |
| `Aimd.ResolvedUnique` | tcp_china.c:202-206 | at most one row of `hstcp_aimd_vals` satisfies the bucket invariant for a given cwnd |
| `Aimd.IndexFrom` | tcp_china.c:207-211 | searching forward from a row whose predecessor is below cwnd ends at a row, at or after the start, that satisfies the bucket invariant |
| `Aimd.IndexFor` | tcp_china.c:202-206 | every cwnd has a row satisfying the bucket invariant |
| `Aimd.IndexForIsFirst` | tcp_china.c:202-206 | every row before the chosen one has a threshold below cwnd, so the chosen row is the first whose threshold is at least cwnd (or the last row) |
| `Aimd.IndexExamples` | tcp_china.c:39-68 | cwnd 38 falls in row 0, cwnd 39 in row 1 (factor 112), cwnd 10000 in row 29 (factor 52) |
| `Aimd.Resync` | tcp_china.c:200-217 | from any valid row the forward or backward walk ends in a row that satisfies the bucket invariant, which is `IndexFor(cwnd)` |
| `RttEstimator.SampleRtt` | tcp_china.c:146 | the RTT is the sample plus one for every non-negative sample (never 0); -1 gives 0; a more negative sample wraps to itself plus 2^32 + 1, at least 2^31 |
| `RttEstimator.MinRttUpdate` | tcp_china.c:151-153 | an unset (0) minimum becomes the RTT; otherwise the result is one of the two values and at most both |
| `RttEstimator.AvgRttUpdate` | tcp_china.c:155-169 | an unset (0) average becomes the RTT; otherwise the result is `avg - avg/8 + rtt/8` with no 32-bit wrap, between the old average and the RTT |
| `RttEstimator.SmoothingNoWrap` | tcp_china.c:163 | the wrapping u32 form of `artt += (rtt >> 3) - (artt >> 3)` equals the unwrapped sum, which stays between the old average and the RTT |
| `RttEstimator.MinRttIsMinimum` | tcp_china.c:146-153 | after non-negative samples since a reset, the minimum RTT is the least sample plus one (0 if there was none) |
| `RttEstimator.AvgRttWithinSamples` | tcp_china.c:155-169 | after non-negative samples since a reset, the average RTT lies between the least and the greatest sample plus one (0 if there was none) |
| `China.InitClamp` | tcp_china.c:134-136 | the clamp after initialisation is at most the old clamp and at most `0xffffffff/128`, and a clamp already within that bound is kept (so initialising twice gives the same clamp) |
| `China.AdditiveIncrease` | tcp_china.c:219-227 | at or above the clamp nothing changes; otherwise cwnd grows by at most one and not past the clamp; without u32 wrap it grows exactly when the accumulator plus `ai + 1` reaches cwnd, and the accumulator keeps the remainder |
| `China.Sock.constructor` | tcp_china.c:115-119 | a connection arrives with the host's cwnd, ssthresh, accumulator and clamp as given and the private state zeroed, which satisfies the invariant |
| `China.Sock.Reset` | tcp_china.c:121-125 | the minimum and average RTT are unset, and the sample history is empty |
| `China.Sock.Init` | tcp_china.c:127-139 | from any state: `ai` = 0, RTT statistics unset, clamp narrowed to `min(clamp, 0xffffffff/128)` and never raised; cwnd, ssthresh and the accumulator are untouched |
| `China.Sock.RttCalc` | tcp_china.c:141-170 | the minimum and average are updated with `rtt_us + 1`, and remain the folds over all samples since the reset; nothing else changes |
| `China.Sock.CongAvoid` | tcp_china.c:173-229 | not cwnd-limited: nothing changes; at or below ssthresh only slow start moves cwnd (`ai` and the accumulator are untouched); above it `ai` becomes the resolved row and the additive increase runs; cwnd grows by at most one and respects the clamp |
| `China.Sock.Ssthresh` | tcp_china.c:231-240 | the result is at least 2 and at most `max(cwnd, 2)`, and equals `max(cwnd - cwnd*md/256, 2)` whenever the product fits in 32 bits |
| `China.DecreaseFits` | tcp_china.c:237-238 | the u32 product shifted right by 8 never exceeds cwnd, so the subtraction cannot wrap |
| `China.SsthreshNoOverflow` | tcp_china.c:134-136 | once cwnd is within a clamp narrowed by initialisation, `cwnd * md` fits in 32 bits and the threshold is the exact decrease |
| `China.SsthreshExample` | tcp_china.c:237-239 | cwnd 10000 in row 29 gives ssthresh 7969 |

## Left out

- Module registration and unregistration, the `tcp_congestion_ops` structure, `BUILD_BUG_ON` and the `MODULE_*` macros (tcp_china.c:242-272). They are kernel ABI plumbing with no algorithmic content.
- The pre-3.16 `cong_avoid` signature with `in_flight`, and the pre-3.15 `min_cwnd` hook. Only the current signature is modelled.
- The `ack` sequence-number argument of `cong_avoid`, which the code never reads.
- `tcp_is_cwnd_limited` and `tcp_slow_start` are kernel routines whose bodies are not part of this model. They become the inputs `cwndLimited` and `slowStartCwnd`.
- `tcp_sk` and `inet_csk_ca` are plain accessors. They become the fields of `Sock`.
- Single-writer access per connection is the host's duty. The model is sequential.
- China.Sock.CongAvoid: in the slow-start branch nothing is claimed about the new cwnd beyond its being the host routine's result. In particular `cwnd <= clamp` is claimed only for the fast branch, because the clamp check of slow start lives in `tcp_slow_start`.
