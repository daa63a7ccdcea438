/** The fixed-point arithmetic of the kernel sender: rates in packets per
    microsecond << 24, gains << 8, in u32 and u64 words that wrap. */
module LinuxArith {
  import opened Words

  const BW_UNIT: nat := 0x100_0000
  const BBR_UNIT: nat := 0x100
  const USEC_PER_SEC: nat := 1_000_000

  const HIGH_GAIN: nat := BBR_UNIT * 2885 / 1000 + 1
  const DRAIN_GAIN: nat := BBR_UNIT * 1000 / 2885
  const CWND_GAIN: nat := BBR_UNIT * 2
  const FULL_BW_THRESH: nat := BBR_UNIT * 5 / 4

  const TCP_INIT_CWND: nat := 10
  const NO_RTT: nat := 0xFFFF_FFFF

  /** Bytes per second of a rate with a gain; every step is a u64 operation. */
  function RateBytesPerSec(rate: nat, mtu: nat, gain: nat): nat {
    var r1 := rate * mtu % U64;
    var r2 := r1 * gain % U64;
    var r3 := r2 / BBR_UNIT;
    var r4 := r3 * USEC_PER_SEC % U64;
    r4 / BW_UNIT
  }

  /** No step of RateBytesPerSec leaves a u64. */
  predicate RateFits(rate: nat, mtu: nat, gain: nat) {
    && rate * mtu < U64
    && rate * mtu * gain < U64
    && rate * mtu * gain / BBR_UNIT * USEC_PER_SEC < U64
  }

  /** The last multiplication is the one that wraps first. */
  lemma RateFitsIff(rate: nat, mtu: nat, gain: nat)
    requires gain >= 1
    ensures RateFits(rate, mtu, gain) <==> rate * mtu * gain / BBR_UNIT * USEC_PER_SEC < U64
  {}

  lemma Monotone(x: nat, a: nat, b: nat)
    requires a <= b
    ensures x * a <= x * b
  {}

  lemma RateUnwrapped(rate: nat, mtu: nat, gain: nat)
    requires RateFits(rate, mtu, gain)
    ensures RateBytesPerSec(rate, mtu, gain) == rate * mtu * gain / BBR_UNIT * USEC_PER_SEC / BW_UNIT
  {
    var x := rate * mtu;
    var y := x * gain;
    assert x % U64 == x && y % U64 == y;
    assert RateBytesPerSec(rate, mtu, gain) == y / BBR_UNIT * USEC_PER_SEC % U64 / BW_UNIT;
  }

  /** For u32 rates and 16-bit packets the result is right exactly if no step wraps: a
      wrapped one is too small to be. */
  lemma RateIsExactIff(rate: nat, mtu: nat, gain: nat)
    requires rate < U32 && mtu < 0x1_0000 && gain >= 1
    ensures RateBytesPerSec(rate, mtu, gain) == rate * mtu * gain / BBR_UNIT * USEC_PER_SEC / BW_UNIT <==>
            RateFits(rate, mtu, gain)
  {
    var x := rate * mtu;
    var y := x * gain;
    Monotone(rate, mtu, 0x1_0000);
    if y / BBR_UNIT * USEC_PER_SEC < U64 {
      RateFitsIff(rate, mtu, gain);
      RateUnwrapped(rate, mtu, gain);
    } else {
      TooLarge(y / BBR_UNIT * USEC_PER_SEC);
      RateIsSmall(rate, mtu, gain);
    }
    hide RateBytesPerSec;
  }

  lemma TooLarge(z: nat)
    requires z >= U64
    ensures z / BW_UNIT >= U64 / BW_UNIT
  {}

  lemma RateIsSmall(rate: nat, mtu: nat, gain: nat)
    ensures RateBytesPerSec(rate, mtu, gain) < U64 / BW_UNIT
  {}

  lemma TerabitFits(x: nat, y: nat)
    requires x * 8 * USEC_PER_SEC <= 2_900_000_000_000 * BW_UNIT
    requires y <= x * HIGH_GAIN
    ensures y / BBR_UNIT * USEC_PER_SEC < U64
  {}

  /** Up to 2.9 Tbit/s and a gain of 739/256 nothing wraps, and the result is the
      exact floor of rate * mtu * gain * 10^6 / 2^32 or one less. */
  lemma PacingRateIsExact(rate: nat, mtu: nat, gain: nat)
    requires rate * mtu * 8 * USEC_PER_SEC <= 2_900_000_000_000 * BW_UNIT
    requires 1 <= gain <= HIGH_GAIN
    ensures RateFits(rate, mtu, gain)
    ensures var exact := rate * mtu * gain * USEC_PER_SEC / (BBR_UNIT * BW_UNIT);
            exact - 1 <= RateBytesPerSec(rate, mtu, gain) <= exact
  {
    var x := rate * mtu;
    var y := x * gain;
    Monotone(x, gain, HIGH_GAIN);
    TerabitFits(x, y);
    RateFitsIff(rate, mtu, gain);
    RateUnwrapped(rate, mtu, gain);
    NestedFloors(y);
  }

  lemma NestedFloors(y: nat)
    ensures var nested, exact := y / BBR_UNIT * USEC_PER_SEC / BW_UNIT, y * USEC_PER_SEC / (BBR_UNIT * BW_UNIT);
            exact - 1 <= nested <= exact
  {}

  lemma RemainderIs(x: nat, k: nat, r: nat)
    requires x == U64 * k + r && r < U64
    ensures x % U64 == r
  {}

  lemma TopRateGained()
    ensures (U32 - 1) * 1500 * HIGH_GAIN / BBR_UNIT == 18_597_543_931_669
    ensures RateBytesPerSec(U32 - 1, 1500, HIGH_GAIN) == 8_988_371_965
  {
    assert (U32 - 1) * 1500 == 6_442_450_942_500 && HIGH_GAIN == 739;
    RemainderIs(6_442_450_942_500, 0, 6_442_450_942_500);
    RemainderIs(6_442_450_942_500 * 739, 0, 6_442_450_942_500 * 739);
    RemainderIs(18_597_543_931_669 * USEC_PER_SEC, 1, 150_799_857_959_448_384);
  }

  lemma TopRatePlain()
    ensures RateBytesPerSec(U32 - 1, 1500, BBR_UNIT) == 383_999_999_910
  {
    PlainRateWraps(U32 - 1, 1500);
    hide RateBytesPerSec;
    RemainderIs(6_442_450_942_500 * USEC_PER_SEC, 0, 6_442_450_942_500 * USEC_PER_SEC);
  }

  /** The u32 rate format goes further than the u64 arithmetic: its largest rate,
      with Ethernet packets and the STARTUP gain, does wrap. */
  lemma TopRateWraps()
    ensures !RateFits(U32 - 1, 1500, HIGH_GAIN)
    ensures RateBytesPerSec(U32 - 1, 1500, HIGH_GAIN) < RateBytesPerSec(U32 - 1, 1500, BBR_UNIT)
  {
    hide RateBytesPerSec;
    TopRateGained();
    TopRatePlain();
  }

  /** The scaled product of gain, bandwidth and RTT as a packet count, plus room for
      three TSO segments, rounded up to an even number; u32 steps. */
  function EvenPackets(y: nat, tsoSegs: nat): nat {
    var packets := (y / BBR_UNIT + BW_UNIT - 1) / BW_UNIT % U32;
    var roomy := (packets + 3 * tsoSegs) % U32;
    (roomy + 1) % U32 / 2 * 2
  }

  /** gain * bw * min_rtt in packets; u64 products. */
  function TargetCwnd(bw: nat, minRtt: nat, gain: nat, tsoSegs: nat): nat {
    if minRtt == NO_RTT then TCP_INIT_CWND
    else EvenPackets(bw * minRtt % U64 * gain % U64, tsoSegs)
  }

  predicate PacketsFit(y: nat, tsoSegs: nat) {
    (y / BBR_UNIT + BW_UNIT - 1) / BW_UNIT + 3 * tsoSegs + 1 < U32
  }

  /** gain * bandwidth * RTT, scaled by 2^32. */
  function GainedBdp(bw: nat, minRtt: nat, gain: nat): nat {
    bw * minRtt * gain
  }

  /** No step of TargetCwnd wraps. */
  predicate TargetFits(bw: nat, minRtt: nat, gain: nat, tsoSegs: nat) {
    && minRtt < NO_RTT
    && bw * minRtt < U64
    && GainedBdp(bw, minRtt, gain) < U64
    && PacketsFit(GainedBdp(bw, minRtt, gain), tsoSegs)
  }

  lemma TargetUnwrapped(bw: nat, minRtt: nat, gain: nat, tsoSegs: nat)
    requires TargetFits(bw, minRtt, gain, tsoSegs)
    ensures TargetCwnd(bw, minRtt, gain, tsoSegs) == EvenPackets(GainedBdp(bw, minRtt, gain), tsoSegs)
  {
    hide EvenPackets, PacketsFit;
    var w := bw * minRtt;
    var y := w * gain;
    assert w % U64 == w && y % U64 == y;
  }

  lemma FitsU32(x: nat)
    requires x < U32
    ensures x % U32 == x
  {}

  lemma EvenPacketsUnwrapped(y: nat, tso: nat)
    requires PacketsFit(y, tso)
    ensures EvenPackets(y, tso) == ((y / BBR_UNIT + BW_UNIT - 1) / BW_UNIT + 3 * tso + 1) / 2 * 2
  {
    var p := (y / BBR_UNIT + BW_UNIT - 1) / BW_UNIT;
    FitsU32(p);
    FitsU32(p + 3 * tso);
    FitsU32(p + 3 * tso + 1);
  }

  lemma EvenPacketsTight(y: nat, tsoSegs: nat)
    requires PacketsFit(y, tsoSegs)
    ensures var c := EvenPackets(y, tsoSegs);
            && c % 2 == 0
            && y + 3 * tsoSegs * U32 - BBR_UNIT < c * U32 < y + 3 * tsoSegs * U32 + 2 * U32
  {
    EvenPacketsUnwrapped(y, tsoSegs);
    CeilingOfFloor(y);
    RoundedUp((y / BBR_UNIT + BW_UNIT - 1) / BW_UNIT + 3 * tsoSegs);
  }

  lemma RoundedUp(n: nat)
    ensures var c := (n + 1) / 2 * 2; c % 2 == 0 && n <= c <= n + 1
  {}

  lemma CeilingOfFloor(y: nat)
    ensures var p := (y / BBR_UNIT + BW_UNIT - 1) / BW_UNIT;
            y - BBR_UNIT < p * U32 < y + U32
  {}

  /** The target is even, less than 2^-24 packet below gain * BDP + 3 segments, and
      less than two packets above it (all scaled by 2^32). */
  lemma TargetCwndIsTight(bw: nat, minRtt: nat, gain: nat, tsoSegs: nat)
    requires TargetFits(bw, minRtt, gain, tsoSegs)
    ensures var c, ideal := TargetCwnd(bw, minRtt, gain, tsoSegs), GainedBdp(bw, minRtt, gain) + 3 * tsoSegs * U32;
            && c % 2 == 0
            && ideal - BBR_UNIT < c * U32 < ideal + 2 * U32
  {
    hide TargetCwnd, EvenPackets, PacketsFit, GainedBdp;
    TargetUnwrapped(bw, minRtt, gain, tsoSegs);
    EvenPacketsTight(GainedBdp(bw, minRtt, gain), tsoSegs);
  }

  lemma EvenPacketsMonotone(y: nat, tso: nat, y': nat, tso': nat)
    requires y <= y' && tso <= tso' && PacketsFit(y', tso')
    ensures PacketsFit(y, tso)
    ensures EvenPackets(y, tso) <= EvenPackets(y', tso')
  {
    var q, q' := y / BBR_UNIT, y' / BBR_UNIT;
    var p, p' := (q + BW_UNIT - 1) / BW_UNIT, (q' + BW_UNIT - 1) / BW_UNIT;
    assert q <= q';
    assert p <= p';
    EvenPacketsUnwrapped(y, tso);
    EvenPacketsUnwrapped(y', tso');
  }

  /** A larger bandwidth, RTT, gain or segment goal never lowers the target. */
  lemma TargetCwndIsMonotone(bw: nat, minRtt: nat, gain: nat, tso: nat, bw': nat, minRtt': nat, gain': nat, tso': nat)
    requires bw <= bw' && minRtt <= minRtt' && gain <= gain' && tso <= tso'
    requires TargetFits(bw', minRtt', gain', tso')
    ensures TargetFits(bw, minRtt, gain, tso)
    ensures TargetCwnd(bw, minRtt, gain, tso) <= TargetCwnd(bw', minRtt', gain', tso')
  {
    var w, w' := bw * minRtt, bw' * minRtt';
    Monotone(bw, minRtt, minRtt');
    Monotone(minRtt', bw, bw');
    Monotone(w, gain, gain');
    Monotone(gain', w, w');
    assert GainedBdp(bw, minRtt, gain) == w * gain && GainedBdp(bw', minRtt', gain') == w' * gain';
    EvenPacketsMonotone(w * gain, tso, w' * gain', tso');
    TargetUnwrapped(bw, minRtt, gain, tso);
    TargetUnwrapped(bw', minRtt', gain', tso');
  }

  /** The magnitude of a - b as the kernel's abs() sees two u32 values. */
  function AbsDiff(a: nat, b: nat): nat {
    var d := S32(a - b);
    if d < 0 then -d else d
  }

  /** The relative test of bbr_lt_bw_interval_done, in u32. */
  predicate CloseRates(bw: nat, ltBw: nat) {
    AbsDiff(bw, ltBw) * BBR_UNIT % U32 <= BBR_UNIT / 8 * ltBw % U32
  }

  /** Do two sampling intervals show the same rate? */
  predicate ConsistentRates(bw: nat, ltBw: nat, mtu: nat) {
    || CloseRates(bw, ltBw)
    || RateBytesPerSec(AbsDiff(bw, ltBw), mtu, BBR_UNIT) <= 4000 / 8
  }

  /** What the test is meant to say: the rates differ by at most an eighth of the
      earlier one, or by at most 500 bytes per second. */
  predicate WithinAnEighth(bw: int, ltBw: int) {
    && 8 * (bw - ltBw) <= ltBw
    && 8 * (ltBw - bw) <= ltBw
  }

  function Distance(a: nat, b: nat): nat {
    if a < b then b - a else a - b
  }

  predicate TrulyConsistent(bw: nat, ltBw: nat, mtu: nat) {
    WithinAnEighth(bw, ltBw) || Distance(bw, ltBw) * mtu * USEC_PER_SEC / BW_UNIT <= 500
  }

  // ----- Where the two tests differ -----

  /** The distance of two u32 values that the kernel sees: the short way round. */
  function ShortWay(bw: nat, ltBw: nat): nat
    requires bw < U32 && ltBw < U32
  {
    var d := Distance(bw, ltBw);
    if d <= HALF then d else U32 - d
  }

  /** Its test: the scaled distance loses its upper 8 bits, the scaled rate its upper 5,
      and the product of the second alternative all beyond 64. */
  predicate WrappedTest(distance: nat, ltBw: nat, mtu: nat) {
    || 8 * (distance % BW_UNIT) <= ltBw % 0x800_0000
    || distance * mtu * USEC_PER_SEC % U64 / BW_UNIT <= 500
  }

  /** Rates far apart, by a packet per microsecond or more, whose wrapped numbers show a
      small difference. */
  predicate FalselyPassed(bw: nat, ltBw: nat, mtu: nat)
    requires bw < U32 && ltBw < U32
  {
    var d := Distance(bw, ltBw);
    mtu > 0 && d >= BW_UNIT && 8 * d > ltBw && WrappedTest(ShortWay(bw, ltBw), ltBw, mtu)
  }

  /** Rates within an eighth, the earlier one so large that its scaled value wraps, whose
      wrapped numbers show a large difference. */
  predicate FalselyFailed(bw: nat, ltBw: nat, mtu: nat)
    requires bw < U32 && ltBw < U32
  {
    var d := Distance(bw, ltBw);
    ltBw >= 0x800_0000 && 8 * d <= ltBw && !WrappedTest(d, ltBw, mtu)
  }

  /** The kernel test gives the intended answer. */
  predicate TestIsExact(bw: nat, ltBw: nat, mtu: nat)
    requires bw < U32 && ltBw < U32
  {
    !FalselyPassed(bw, ltBw, mtu) && !FalselyFailed(bw, ltBw, mtu)
  }

  lemma ShortWayIsAbs(bw: nat, ltBw: nat)
    requires bw < U32 && ltBw < U32
    ensures AbsDiff(bw, ltBw) == ShortWay(bw, ltBw) <= HALF
  {}

  lemma WrappedProduct(distance: nat)
    ensures distance * BBR_UNIT % U32 == distance % BW_UNIT * BBR_UNIT
  {}

  lemma WrappedRatio(ltBw: nat)
    ensures BBR_UNIT / 8 * ltBw % U32 == 32 * (ltBw % 0x800_0000)
  {}

  lemma CloseRatesWraps(bw: nat, ltBw: nat)
    requires bw < U32 && ltBw < U32
    ensures CloseRates(bw, ltBw) <==> 8 * (ShortWay(bw, ltBw) % BW_UNIT) <= ltBw % 0x800_0000
  {
    ShortWayIsAbs(bw, ltBw);
    WrappedProduct(ShortWay(bw, ltBw));
    WrappedRatio(ltBw);
    hide AbsDiff, ShortWay;
  }

  /** Without a gain only the last product of the rate can wrap. */
  lemma PlainRateWraps(distance: nat, mtu: nat)
    requires distance < U32 && mtu < 0x1_0000
    ensures RateBytesPerSec(distance, mtu, BBR_UNIT) == distance * mtu * USEC_PER_SEC % U64 / BW_UNIT
  {
    var x := distance * mtu;
    Monotone(distance, mtu, 0x1_0000);
    Unscaled(x);
    RemainderIs(x, 0, x);
  }

  lemma Unscaled(x: nat)
    requires x < 0x1_0000_0000_0000
    ensures x * BBR_UNIT % U64 / BBR_UNIT == x
  {}

  lemma ConsistentRatesWraps(bw: nat, ltBw: nat, mtu: nat)
    requires bw < U32 && ltBw < U32 && mtu < 0x1_0000
    ensures ConsistentRates(bw, ltBw, mtu) <==> WrappedTest(ShortWay(bw, ltBw), ltBw, mtu)
  {
    ShortWayIsAbs(bw, ltBw);
    CloseRatesWraps(bw, ltBw);
    PlainRateWraps(ShortWay(bw, ltBw), mtu);
    hide CloseRates, AbsDiff, ShortWay, RateBytesPerSec;
  }

  /** A small distance wraps nowhere; a large one is never a small rate. */
  lemma SmallOrFast(distance: nat, mtu: nat)
    requires 1 <= mtu < 0x1_0000
    ensures distance < BW_UNIT ==> distance * mtu * USEC_PER_SEC < U64
    ensures distance >= BW_UNIT ==> distance * mtu * USEC_PER_SEC / BW_UNIT > 500
  {
    if distance < BW_UNIT {
      Monotone(distance, mtu, 0x1_0000);
    } else {
      Monotone(distance, 1, mtu);
      assert distance * mtu * USEC_PER_SEC >= BW_UNIT * USEC_PER_SEC;
      FloorGrows(BW_UNIT * USEC_PER_SEC, distance * mtu * USEC_PER_SEC);
    }
  }

  lemma FloorGrows(x: nat, y: nat)
    requires x <= y
    ensures x / BW_UNIT <= y / BW_UNIT
  {}

  lemma WithinByDistance(bw: nat, ltBw: nat)
    ensures WithinAnEighth(bw, ltBw) <==> 8 * Distance(bw, ltBw) <= ltBw
  {}

  /** For all u32 rates the test of bbr_lt_bw_interval_done gives the intended answer
      exactly if the rates are in neither of the two families above. */
  lemma ConsistencyIsExactIff(bw: nat, ltBw: nat, mtu: nat)
    requires bw < U32 && ltBw < U32 && mtu < 0x1_0000
    ensures (ConsistentRates(bw, ltBw, mtu) <==> TrulyConsistent(bw, ltBw, mtu)) <==> TestIsExact(bw, ltBw, mtu)
  {
    ConsistentRatesWraps(bw, ltBw, mtu);
    WithinByDistance(bw, ltBw);
    ShortIfNear(bw, ltBw);
    hide ConsistentRates, WithinAnEighth, Distance, ShortWay;
    if mtu == 0 {
      NoBytes(bw, ltBw);
    } else if Distance(bw, ltBw) < BW_UNIT {
      NoWrap(bw, ltBw, mtu);
      hide WrappedTest;
    } else {
      SmallOrFast(Distance(bw, ltBw), mtu);
      hide WrappedTest;
    }
  }

  lemma ShortIfNear(bw: nat, ltBw: nat)
    requires bw < U32 && ltBw < U32
    ensures 8 * Distance(bw, ltBw) <= ltBw || Distance(bw, ltBw) < BW_UNIT ==> ShortWay(bw, ltBw) == Distance(bw, ltBw)
  {}

  lemma NoBytes(bw: nat, ltBw: nat)
    requires bw < U32 && ltBw < U32
    ensures WrappedTest(ShortWay(bw, ltBw), ltBw, 0) && WrappedTest(Distance(bw, ltBw), ltBw, 0)
    ensures TrulyConsistent(bw, ltBw, 0)
  {
    assert ShortWay(bw, ltBw) * 0 * USEC_PER_SEC == 0 && Distance(bw, ltBw) * 0 * USEC_PER_SEC == 0;
    hide ShortWay, Distance, WithinAnEighth;
  }

  lemma NoWrap(bw: nat, ltBw: nat, mtu: nat)
    requires bw < U32 && ltBw < U32 && 1 <= mtu < 0x1_0000 && Distance(bw, ltBw) < BW_UNIT
    ensures var d := Distance(bw, ltBw);
            WrappedTest(ShortWay(bw, ltBw), ltBw, mtu) <==>
            8 * d <= ltBw % 0x800_0000 || d * mtu * USEC_PER_SEC / BW_UNIT <= 500
  {
    var d := Distance(bw, ltBw);
    SmallOrFast(d, mtu);
    RemainderIs(d * mtu * USEC_PER_SEC, 0, d * mtu * USEC_PER_SEC);
  }

  /** Rates that differ by a packet per microsecond or more can pass as equal: through
      the ratio, even a factor of 10^5 apart, or through the rate in bytes alone. */
  lemma FalseConsistency()
    ensures ConsistentRates(BW_UNIT + 100, 100, 1500) && !TrulyConsistent(BW_UNIT + 100, 100, 1500)
    ensures var bw := 2_049_638_331;
            ConsistentRates(bw, 100, 9000) && !CloseRates(bw, 100) && !TrulyConsistent(bw, 100, 9000)
  {}

  /** And rates a sixteenth apart can fail. */
  lemma FalseInconsistency()
    ensures var ltBw := 0x800_0000;
            !ConsistentRates(ltBw + ltBw / 16, ltBw, 1500) && TrulyConsistent(ltBw + ltBw / 16, ltBw, 1500)
  {}
}
