/** Soundness of the long-term ("LT") policer detector over runs: what its rate is,
    and for how long it is used. */
module LinuxPolicer {
  import opened Words
  import opened BbrModes
  import opened LinuxArith
  import opened LinuxBbr
  import LinuxModes
  import LinuxWrap

  /** The counters at one end of a sampling interval. */
  datatype Mark = Mark(delivered: int, lost: int, stamp: int)

  /** A completed sampling interval. */
  datatype Interval = Interval(start: Mark, end: Mark, rounds: nat, mtu: nat, rate: int)

  /** History: the intervals completed since sampling began, where the open one began
      and how many rounds it has seen, and the PROBE_BW rounds since the long-term
      rate came into use. */
  datatype Record = Record(done: seq<Interval>, start: Mark, rounds: nat, inUse: nat)

  function Now(tp: Sock): Mark {
    Mark(tp.delivered, tp.lost, tp.stampJiffies)
  }

  const NOTHING: Record := Record([], Mark(0, 0, 0), 0, 0)

  /** One call of bbr_lt_bw_sampling. */
  datatype Call = Call(s: Bbr, losses: nat, isAppLimited: bool, tp: Sock)

  function Effect(c: Call): Bbr {
    LtBwSampling(Exact, c.s, c.losses, c.isAppLimited, c.tp)
  }

  /** The calls an event makes: at most one. */
  function CallsOf(s: Bbr, e: Event): (cs: seq<Call>)
    ensures |cs| <= 1
  {
    match e
    case Ack(rs, tp) =>
      if ValidSample(rs) then [Call(CountRound(Exact, s, rs, tp), rs.losses, rs.isAppLimited, tp)] else []
    case CaState(newState, tp) => if newState == TCP_CA_LOSS then [Call(AtTimeout(s), 1, false, tp)] else []
    case _ => []
  }

  function StartNow(c: Call, r: Record): Mark {
    if c.s.lt.isSampling then r.start else Now(c.tp)
  }

  function RoundsNow(c: Call, r: Record): nat {
    (if c.s.lt.isSampling then r.rounds else 0) + (if c.s.model.roundStart then 1 else 0)
  }

  /** Lost and delivered packets in a ratio of at least 50/256. */
  predicate Lossy(start: Mark, end: Mark) {
    && end.delivered > start.delivered
    && 256 * (end.lost - start.lost) >= 50 * (end.delivered - start.delivered)
  }

  /** The time between two marks in microseconds. */
  function Usecs(hz: Hz, start: Mark, end: Mark): int {
    (end.stamp - start.stamp) * (USEC_PER_SEC / hz)
  }

  /** Packets per microsecond << 24, rounded down. */
  function RateOf(delivered: int, usecs: int): int
    requires usecs > 0
  {
    delivered * BW_UNIT / usecs
  }

  /** A sampling interval as the detector means it: 4 to 16 rounds, lossy, of a time that
      fits the kernel's int, with the average delivery rate between its ends. */
  predicate Sound(hz: Hz, i: Interval) {
    && 4 <= i.rounds <= 16
    && Lossy(i.start, i.end)
    && 0 < Usecs(hz, i.start, i.end) < HALF
    && i.rate == RateOf(i.end.delivered - i.start.delivered, Usecs(hz, i.start, i.end))
  }

  /** The interval that ends with this call, if it does. */
  function Candidate(c: Call, r: Record): Interval {
    var start, end := StartNow(c, r), Now(c.tp);
    var t := Usecs(c.s.hz, start, end);
    Interval(start, end, RoundsNow(c, r), c.tp.mtu, if t > 0 then RateOf(end.delivered - start.delivered, t) else 0)
  }

  predicate EndsInterval(c: Call, r: Record) {
    && !c.s.lt.useBw && c.losses > 0 && !c.isAppLimited
    && Sound(c.s.hz, Candidate(c, r))
  }

  /** The history after a call. */
  function Track(c: Call, r: Record): Record {
    var lt' := Effect(c).lt;
    if c.s.lt.useBw then
      if !lt'.useBw then NOTHING
      else if c.s.phase.mode == ProbeBw && c.s.model.roundStart then r.(inUse := r.inUse + 1)
      else r
    else if !lt'.isSampling then NOTHING
    else if EndsInterval(c, r) then Record(r.done + [Candidate(c, r)], Now(c.tp), 0, 0)
    else r.(start := StartNow(c, r), rounds := RoundsNow(c, r))
  }

  /** Interval i + 1 begins where interval i ends. */
  ghost predicate Chained(done: seq<Interval>) {
    forall i :: 0 < i < |done| ==> done[i].start == done[i - 1].end
  }

  ghost predicate AllSound(hz: Hz, done: seq<Interval>) {
    forall i :: 0 <= i < |done| ==> Sound(hz, done[i])
  }

  /** The claim of the detector: the rate is the floor average of two consecutive sound
      intervals with consistent rates, and its time is not up. */
  ghost predicate Policed(lt: Lt, r: Record) {
    var n := |r.done|;
    && n >= 2
    && var earlier, later := r.done[n - 2], r.done[n - 1];
    && later.start == earlier.end
    && 0 <= earlier.rate && 0 <= later.rate
    && TrulyConsistent(later.rate, earlier.rate, later.mtu)
    && lt.bw == (earlier.rate + later.rate) / 2
    && lt.rttCnt == r.inUse < BBR_LT_BW_MAX_RTTS
  }

  /** While sampling: the fields of struct bbr are those of the history. */
  ghost predicate Measuring(s: Bbr, r: Record) {
    && Mark(s.lt.lastDelivered, s.lt.lastLost, s.lt.lastStamp) == r.start
    && s.lt.rttCnt == r.rounds
    && if r.done == [] then s.lt.bw == 0
       else var last := r.done[|r.done| - 1];
            last.end == r.start && s.lt.bw == last.rate && 0 <= last.rate < HALF
  }

  ghost predicate Consistent(s: Bbr, r: Record) {
    && AllSound(s.hz, r.done) && Chained(r.done)
    && (!s.lt.isSampling ==> !s.lt.useBw && s.lt.bw == 0 && r.done == [])
    && (s.lt.isSampling && !s.lt.useBw ==> Measuring(s, r))
    && (s.lt.useBw ==> Policed(s.lt, r))
  }

  /** This call gets as far as to look at the losses of the interval. */
  predicate LooksAtLosses(c: Call) {
    && c.s.lt.isSampling && !c.s.lt.useBw && c.losses > 0 && !c.isAppLimited
    && 4 <= LtCountRound(c.s, c.tp).rttCnt <= 16
  }

  // ----- Where the words of the detector mislead it -----

  /** So many losses that their product with 256 wraps to a small one. */
  predicate HidesLosses(lost: nat, delivered: nat) {
    && lost >= 0x100_0000 && delivered > 0 && 256 * lost >= 50 * delivered
    && 256 * (lost % 0x100_0000) < 50 * delivered % U32
  }

  /** So many deliveries that their product with 50 wraps to a small one. */
  predicate FeignsLosses(lost: nat, delivered: nat) {
    && 50 * delivered >= U32 && 256 * lost < 50 * delivered
    && 256 * (lost % 0x100_0000) >= 50 * delivered % U32
  }

  predicate LossTestIsExact(lost: nat, delivered: nat) {
    !HidesLosses(lost, delivered) && !FeignsLosses(lost, delivered)
  }

  /** Is lost / delivered at least 50/256? */
  predicate Heavy(lost: int, delivered: int) {
    delivered > 0 && 256 * lost >= 50 * delivered
  }

  /** Counters whose differences are u32 values that the test gets right. */
  predicate CountsFit(lost: int, delivered: int) {
    0 <= lost < U32 && 0 <= delivered < U32 && LossTestIsExact(lost, delivered)
  }

  /** A time that wraps to a positive number of microseconds. */
  predicate WrapsToShort(usecs: int) {
    usecs >= U32 && 0 < usecs % U32 < HALF
  }

  /** A rate whose sum with another fits a u32, and which the comparison with the rate
      of the interval before does not get wrong. */
  predicate RateFitsTest(rate: int, ltBw: nat, mtu: nat) {
    && 0 <= rate < HALF
    && (ltBw != 0 ==> ltBw < U32 && TestIsExact(rate, ltBw, mtu))
  }

  /** What the detector is good for: where it looks at the losses their counts fit, and
      where the interval then is lossy its time does not wrap to a short one and its rate
      fits the test. */
  ghost predicate Bounded(c: Call) {
    LooksAtLosses(c) ==>
      var start, end := Mark(c.s.lt.lastDelivered, c.s.lt.lastLost, c.s.lt.lastStamp), Now(c.tp);
      var t := Usecs(c.s.hz, start, end);
      && CountsFit(end.lost - start.lost, end.delivered - start.delivered)
      && (Lossy(start, end) ==> !WrapsToShort(t))
      && (Lossy(start, end) && 0 < t < HALF ==>
            && c.tp.mtu < 0x1_0000
            && RateFitsTest(RateOf(end.delivered - start.delivered, t), c.s.lt.bw, c.tp.mtu))
  }

  lemma LossProducts(lost: nat, delivered: nat)
    ensures lost * BBR_UNIT % U32 == 256 * (lost % 0x100_0000)
    ensures lost < 0x100_0000 ==> lost % 0x100_0000 == lost
    ensures 50 * delivered < U32 ==> 50 * delivered % U32 == 50 * delivered
    ensures 0 <= lost % 0x100_0000 <= lost && 50 * delivered % U32 <= 50 * delivered
  {}

  /** For all u32 counts the loss test gives the intended answer exactly if neither
      product wraps misleadingly. */
  lemma LossTestIsExactIff(lost: nat, delivered: nat)
    requires lost < U32 && delivered < U32
    ensures (TooFewLosses(lost, delivered) <==> !Heavy(lost, delivered)) <==> LossTestIsExact(lost, delivered)
  {
    LossProducts(lost, delivered);
    if delivered > 0 {
      assert TooFewLosses(lost, delivered) <==> 256 * (lost % 0x100_0000) < 50 * delivered % U32;
    }
    hide TooFewLosses;
  }

  /** Both families have members: all of 2^24 packets lost, and none of 2^31. */
  lemma LossTestFails()
    ensures TooFewLosses(0x100_0000, 0x100_0000) && Heavy(0x100_0000, 0x100_0000)
    ensures !TooFewLosses(0, 0x8000_0000) && !Heavy(0, 0x8000_0000)
  {}

  /** Where the kernel goes on with a time, it is the true one exactly if that is below
      2^32 microseconds: the conversion wraps from there on. */
  lemma TimeIsExactIff(hz: Hz, jiffies: int)
    requires jiffies >= 1 && JiffiesToUsecs(hz, jiffies) > 0
    ensures JiffiesToUsecs(hz, jiffies) == jiffies * (USEC_PER_SEC / hz) <==>
            !WrapsToShort(jiffies * (USEC_PER_SEC / hz))
    ensures !WrapsToShort(jiffies * (USEC_PER_SEC / hz)) <==> jiffies * (USEC_PER_SEC / hz) < U32
  {
    TicksAreUsecs(hz, jiffies);
    WordOf(jiffies * (USEC_PER_SEC / hz));
  }

  lemma TicksAreUsecs(hz: Hz, jiffies: int)
    ensures jiffies >= 1 ==> jiffies * (USEC_PER_SEC / hz) >= 0
    ensures jiffies <= 0 ==> jiffies * (USEC_PER_SEC / hz) <= 0
  {}

  lemma WordOf(t: int)
    ensures 0 <= t < HALF ==> S32(t) == t
    ensures HALF <= t < U32 ==> S32(t) < 0
    ensures t >= U32 ==> (S32(t) > 0 <==> WrapsToShort(t)) && S32(t) != t
  {}

  lemma RateIsExact(delivered: int, usecs: int)
    requires usecs > 0 && delivered >= 0 && RateOf(delivered, usecs) < HALF
    ensures IntervalRate(delivered, usecs) == RateOf(delivered, usecs) >= 0
  {}

  lemma EndsIff(c: Call, r: Record)
    requires !c.s.lt.useBw && c.s.lt.isSampling && c.losses > 0 && !c.isAppLimited && 4 <= RoundsNow(c, r) <= 16
    ensures var t := Usecs(c.s.hz, r.start, Now(c.tp));
            && (EndsInterval(c, r) <==> Lossy(r.start, Now(c.tp)) && 0 < t < HALF)
            && (t > 0 ==> Candidate(c, r).rate == RateOf(c.tp.delivered - r.start.delivered, t))
  {
    hide Usecs, RateOf, Lossy;
  }

  /** LtCloseInterval on unbounded counters, in the terms of the history. */
  lemma CloseOnCounters(s1: Bbr, start: Mark, tp: Sock)
    requires Mark(s1.lt.lastDelivered, s1.lt.lastLost, s1.lt.lastStamp) == start
    requires CountsFit(tp.lost - start.lost, tp.delivered - start.delivered)
    requires Lossy(start, Now(tp)) ==> !WrapsToShort(Usecs(s1.hz, start, Now(tp)))
    ensures var t := Usecs(s1.hz, start, Now(tp));
            LtCloseInterval(Exact, s1, tp) ==
            if !Lossy(start, Now(tp)) || tp.stampJiffies <= start.stamp then s1
            else if 0 < t < HALF then LtBwIntervalDone(s1, IntervalRate(tp.delivered - start.delivered, t), tp)
            else s1.(lt := ResetLtBwSampling(s1.lt, tp))
  {
    LossTestIsExactIff(tp.lost - start.lost, tp.delivered - start.delivered);
    var jiffies := tp.stampJiffies - start.stamp;
    TicksAreUsecs(s1.hz, jiffies);
    WordOf(jiffies * (USEC_PER_SEC / s1.hz));
    assert JiffiesToUsecs(s1.hz, jiffies) == S32(Usecs(s1.hz, start, Now(tp)));
    hide JiffiesToUsecs, Usecs, S32, LtBwIntervalDone, TooFewLosses, IntervalRate, ResetLtBwSampling, WrapsToShort,
         LossTestIsExact;
  }

  lemma EndsWithRate(c: Call, r: Record)
    requires Bounded(c) && Measuring(c.s, r) && LooksAtLosses(c)
    requires EndsInterval(c, r)
    ensures var t := Usecs(c.s.hz, r.start, Now(c.tp));
            && 0 < t < HALF && c.tp.mtu < 0x1_0000
            && IntervalRate(c.tp.delivered - r.start.delivered, t) == Candidate(c, r).rate
            && RateFitsTest(Candidate(c, r).rate, c.s.lt.bw, c.tp.mtu)
  {
    RateIsExact(c.tp.delivered - r.start.delivered, Usecs(c.s.hz, r.start, Now(c.tp)));
    hide Usecs, RateOf, IntervalRate, TestIsExact, CountsFit, WrapsToShort;
  }

  /** The last part of the sampling function ends the interval exactly if it is sound. */
  lemma CloseEndsInterval(c: Call, r: Record, s1: Bbr)
    requires Bounded(c) && Measuring(c.s, r) && LooksAtLosses(c)
    requires s1 == c.s.(lt := LtCountRound(c.s, c.tp))
    ensures EndsInterval(c, r) ==> c.tp.mtu < 0x1_0000 && RateFitsTest(Candidate(c, r).rate, c.s.lt.bw, c.tp.mtu)
    ensures LtCloseInterval(Exact, s1, c.tp) ==
            if EndsInterval(c, r) then LtBwIntervalDone(s1, Candidate(c, r).rate, c.tp)
            else if Lossy(r.start, Now(c.tp)) && c.tp.stampJiffies > r.start.stamp
            then s1.(lt := ResetLtBwSampling(s1.lt, c.tp))
            else s1
  {
    if EndsInterval(c, r) {
      EndsWithRate(c, r);
    }
    hide LtCloseInterval, LtBwIntervalDone, EndsInterval, Candidate, RateOf, IntervalRate,
         Usecs, Lossy, ResetLtBwSampling, RateFitsTest, CountsFit, WrapsToShort;
    TicksAreUsecs(c.s.hz, c.tp.stampJiffies - r.start.stamp);
    EndsIff(c, r);
    CloseOnCounters(s1, r.start, c.tp);
  }

  /** Two consecutive sound intervals make a policed rate, or the later one is kept. */
  lemma DoneKeepsConsistent(c: Call, r: Record, s1: Bbr)
    requires c.tp.mtu < 0x1_0000 && Consistent(c.s, r) && c.s.lt.isSampling && !c.s.lt.useBw
    requires s1 == c.s.(lt := LtCountRound(c.s, c.tp)) && EndsInterval(c, r)
    requires RateFitsTest(Candidate(c, r).rate, c.s.lt.bw, c.tp.mtu)
    ensures Consistent(LtBwIntervalDone(s1, Candidate(c, r).rate, c.tp),
                       Record(r.done + [Candidate(c, r)], Now(c.tp), 0, 0))
  {
    var i := Candidate(c, r);
    var r' := Record(r.done + [i], Now(c.tp), 0, 0);
    DoneStaysSound(c.s.hz, r.done, i);
    var s' := LtBwIntervalDone(s1, i.rate, c.tp);
    if s'.lt.useBw {
      MakesPolicedRate(s1, r, i, c.tp);
    } else {
      assert Measuring(s', r');
    }
  }

  lemma DoneStaysSound(hz: Hz, done: seq<Interval>, i: Interval)
    requires AllSound(hz, done) && Chained(done) && Sound(hz, i)
    requires done != [] ==> i.start == done[|done| - 1].end
    ensures AllSound(hz, done + [i]) && Chained(done + [i])
  {
    hide Sound;
  }

  lemma MakesPolicedRate(s1: Bbr, r: Record, i: Interval, tp: Sock)
    requires r.done != [] && i.start == r.done[|r.done| - 1].end && i.mtu == tp.mtu < 0x1_0000
    requires RateFitsTest(i.rate, s1.lt.bw, tp.mtu) && s1.lt.bw == r.done[|r.done| - 1].rate < HALF
    requires s1.lt.bw != 0 && ConsistentRates(i.rate, s1.lt.bw, tp.mtu)
    ensures Policed(LtBwIntervalDone(s1, i.rate, tp).lt, Record(r.done + [i], Now(tp), 0, 0))
  {
    ConsistencyIsExactIff(i.rate, s1.lt.bw, tp.mtu);
    AverageIsExact(i.rate, s1.lt.bw);
    var done' := r.done + [i];
    assert done'[|done'| - 2] == r.done[|r.done| - 1];
    hide ConsistentRates, TrulyConsistent, TestIsExact, Average;
  }

  lemma AverageIsExact(a: nat, b: nat)
    requires a < HALF && b < HALF
    ensures Average(a, b) == (a + b) / 2
  {}

  lemma CallKeepsConsistent(c: Call, r: Record)
    requires Bounded(c) && Consistent(c.s, r)
    ensures Consistent(Effect(c), Track(c, r))
  {
    var s1 := c.s.(lt := LtCountRound(c.s, c.tp));
    if LooksAtLosses(c) {
      CloseEndsInterval(c, r, s1);
      if EndsInterval(c, r) {
        DoneKeepsConsistent(c, r, s1);
        assert Effect(c) == LtBwIntervalDone(s1, Candidate(c, r).rate, c.tp);
        assert Effect(c).lt.isSampling;
      }
    }
    hide LtCloseInterval, LtBwIntervalDone, TrulyConsistent, Bounded;
  }

  /** This call ends an interval whose rate confirms that of the interval before. */
  predicate Confirms(c: Call, r: Record) {
    && EndsInterval(c, r) && r.done != []
    && var rate, earlier := Candidate(c, r).rate, r.done[|r.done| - 1].rate;
    0 < earlier && 0 <= rate && TrulyConsistent(rate, earlier, c.tp.mtu)
  }

  lemma ConfirmedIsUsed(s1: Bbr, rate: nat, tp: Sock)
    requires !s1.lt.useBw && RateFitsTest(rate, s1.lt.bw, tp.mtu) && s1.lt.bw < HALF && tp.mtu < 0x1_0000
    ensures LtBwIntervalDone(s1, rate, tp).lt.useBw <==> s1.lt.bw != 0 && TrulyConsistent(rate, s1.lt.bw, tp.mtu)
  {
    if s1.lt.bw != 0 {
      ConsistencyIsExactIff(rate, s1.lt.bw, tp.mtu);
    }
    hide ConsistentRates, TrulyConsistent, TestIsExact;
  }

  /** One call brings the long-term rate into use exactly if it confirms it. */
  lemma CallDetectsIff(c: Call, r: Record)
    requires Bounded(c) && Consistent(c.s, r) && !c.s.lt.useBw
    ensures Effect(c).lt.useBw <==> Confirms(c, r)
  {
    var s1 := c.s.(lt := LtCountRound(c.s, c.tp));
    if LooksAtLosses(c) {
      CloseEndsInterval(c, r, s1);
      assert Effect(c) == LtCloseInterval(Exact, s1, c.tp);
      if EndsInterval(c, r) {
        ConfirmedIsUsed(s1, Candidate(c, r).rate, c.tp);
      }
      hide LtCloseInterval, LtBwIntervalDone, TrulyConsistent, Candidate, Effect;
    }
    hide LtCloseInterval, LtBwIntervalDone, TrulyConsistent, Candidate;
  }

  /** The interval is given up with this call: too many rounds without an end, or a lossy
      end after a time that does not fit the kernel's int. */
  predicate GivesUp(c: Call, r: Record) {
    var start, end, n := StartNow(c, r), Now(c.tp), RoundsNow(c, r);
    || n > 16
    || (n >= 4 && c.losses > 0 && Lossy(start, end) && end.stamp > start.stamp &&
        !(0 < Usecs(c.s.hz, start, end) < HALF))
  }

  /** Sampling begins with the first losses, and lasts until the application limits a
      sample or the interval is given up. */
  lemma CallSamplesIff(c: Call, r: Record)
    requires Bounded(c) && Consistent(c.s, r) && !c.s.lt.useBw
    ensures Effect(c).lt.isSampling <==>
            (c.s.lt.isSampling || c.losses > 0) && !c.isAppLimited && !GivesUp(c, r)
  {
    var s1 := c.s.(lt := LtCountRound(c.s, c.tp));
    if LooksAtLosses(c) {
      CloseEndsInterval(c, r, s1);
      EndsIff(c, r);
      TicksAreUsecs(c.s.hz, c.tp.stampJiffies - r.start.stamp);
      assert Effect(c) == LtCloseInterval(Exact, s1, c.tp);
      hide LtCloseInterval, TrulyConsistent, Candidate, Effect, ConsistentRates, Average, EndsInterval, Lossy, Usecs;
    } else {
      hide LtCloseInterval, LtBwIntervalDone, TrulyConsistent, Candidate, Lossy, Usecs;
    }
  }

  function RecordStep(s: Bbr, e: Event, r: Record): Record {
    var cs := CallsOf(s, e);
    if cs == [] then r else Track(cs[0], r)
  }

  function History(s: Bbr, es: seq<Event>): Record {
    if es == [] then NOTHING
    else RecordStep(Run(Exact, s, es[..|es| - 1]), es[|es| - 1], History(s, es[..|es| - 1]))
  }

  ghost predicate RunBounded(s: Bbr, es: seq<Event>) {
    es == [] || (RunBounded(s, es[..|es| - 1]) && EventBounded(Run(Exact, s, es[..|es| - 1]), es[|es| - 1]))
  }

  ghost predicate EventBounded(s: Bbr, e: Event) {
    var cs := CallsOf(s, e);
    cs == [] || Bounded(cs[0])
  }

  /** An event changes the detector by its calls only. */
  lemma EventEffect(s: Bbr, e: Event)
    ensures var cs := CallsOf(s, e);
            && Step(Exact, s, e).hz == s.hz
            && Step(Exact, s, e).lt == (if cs == [] then s.lt else Effect(cs[0]).lt)
            && (cs != [] ==> cs[0].s.lt == s.lt && cs[0].s.hz == s.hz && cs[0].s.phase == s.phase)
  {
    match e
    case Ack(rs, tp) =>
      LinuxModes.OnlyUpdateBwTouchesLt(Exact, s, rs, tp);
      HzIsConstant(s, rs, tp);
    case CaState(newState, tp) =>
    case _ =>
  }

  lemma HzIsConstant(s: Bbr, rs: RateSample, tp: Sock)
    ensures BbrMain(Exact, s, rs, tp).hz == s.hz
  {
    hide ConsistentRates, TooFewLosses, TargetCwnd, MinRttExpired, RateBytesPerSec, IsNextCyclePhase,
         FullBwThreshold, QueueDrained, S32, Before;
    var s1 := UpdateBw(Exact, s, rs, tp);
    assert s1.hz == s.hz;
    var s2 := CheckDrain(CheckFullBwReached(UpdateCyclePhase(s1, rs, tp), rs), tp);
    assert s2.hz == s.hz;
    assert UpdateMinRtt(Exact, s2, rs, tp).hz == s.hz;
  }

  /** Consistent speaks of the detector and the tick rate alone. */
  lemma ConsistentDependsOnLt(s: Bbr, s': Bbr, r: Record)
    requires Consistent(s, r) && s'.lt == s.lt && s'.hz == s.hz
    ensures Consistent(s', r)
  {}

  lemma {:induction false} RunConsistent(s: Bbr, es: seq<Event>)
    requires Fresh(s) && RunBounded(s, es)
    ensures Consistent(Run(Exact, s, es), History(s, es))
  {
    if es != [] {
      var front, e := es[..|es| - 1], es[|es| - 1];
      RunConsistent(s, front);
      var t, r := Run(Exact, s, front), History(s, front);
      EventEffect(t, e);
      var cs := CallsOf(t, e);
      if cs == [] {
        ConsistentDependsOnLt(t, Step(Exact, t, e), r);
      } else {
        ConsistentDependsOnLt(t, cs[0].s, r);
        CallKeepsConsistent(cs[0], r);
        EffectKeepsHz(cs[0]);
        ConsistentDependsOnLt(Effect(cs[0]), Step(Exact, t, e), Track(cs[0], r));
      }
    }
  }

  lemma EffectKeepsHz(c: Call)
    ensures Effect(c).hz == c.s.hz
  {}

  /** Detection is sound over runs: whenever the long-term rate is in use, it is the
      floor average of two consecutive sampling intervals, each of 4 to 16 rounds with
      at least 50/256 losses, whose rates differ by at most an eighth of the earlier
      one or 500 bytes per second. */
  lemma PolicerIsSound(s: Bbr, es: seq<Event>)
    requires Fresh(s) && RunBounded(s, es)
    requires Run(Exact, s, es).lt.useBw
    ensures var t, r := Run(Exact, s, es), History(s, es);
            && Policed(t.lt, r)
            && AllSound(t.hz, r.done)
  {
    RunConsistent(s, es);
  }

  /** And it comes into use exactly when an interval confirms the one before it. */
  lemma PolicerDetectsIff(s: Bbr, es: seq<Event>, e: Event)
    requires Fresh(s) && RunBounded(s, es + [e])
    requires !Run(Exact, s, es).lt.useBw
    ensures var t := Run(Exact, s, es);
            var cs := CallsOf(t, e);
            Step(Exact, t, e).lt.useBw <==> cs != [] && Confirms(cs[0], History(s, es))
  {
    assert (es + [e])[..|es|] == es;
    RunConsistent(s, es);
    var t, r := Run(Exact, s, es), History(s, es);
    EventEffect(t, e);
    var cs := CallsOf(t, e);
    if cs != [] {
      ConsistentDependsOnLt(t, cs[0].s, r);
      CallDetectsIff(cs[0], r);
    }
    hide Confirms, Effect, Consistent;
  }

  /** Sampling begins and ends in every run exactly so. */
  lemma RunSamplesIff(s: Bbr, es: seq<Event>, e: Event)
    requires Fresh(s) && RunBounded(s, es + [e])
    requires !Run(Exact, s, es).lt.useBw
    ensures var t, r := Run(Exact, s, es), History(s, es);
            var cs := CallsOf(t, e);
            Step(Exact, t, e).lt.isSampling <==>
            if cs == [] then t.lt.isSampling
            else (t.lt.isSampling || cs[0].losses > 0) && !cs[0].isAppLimited && !GivesUp(cs[0], r)
  {
    assert (es + [e])[..|es|] == es;
    RunConsistent(s, es);
    var t, r := Run(Exact, s, es), History(s, es);
    EventEffect(t, e);
    var cs := CallsOf(t, e);
    if cs != [] {
      ConsistentDependsOnLt(t, cs[0].s, r);
      CallSamplesIff(cs[0], r);
    }
    hide GivesUp, Effect, Consistent, Step, Run;
  }

  /** A retransmission timeout counts as the lossy end of a round: it opens sampling, and
      counts in an open interval and for a rate in use; and it forgets the baseline. */
  lemma TimeoutEndsRound(w: Width, s: Bbr, tp: Sock)
    ensures var t := Step(w, s, CaState(TCP_CA_LOSS, tp));
            && t.model.roundStart && t.model.fullBw == 0 && t.win.prevCaState == TCP_CA_LOSS
            && (!s.lt.useBw && !s.lt.isSampling ==> t.lt.isSampling && t.lt.rttCnt == 1)
            && (!s.lt.useBw && s.lt.isSampling && s.lt.rttCnt < 3 ==> t.lt.rttCnt == s.lt.rttCnt + 1)
            && (s.lt.useBw && s.phase.mode == ProbeBw && s.lt.rttCnt < 47 ==>
                  t.lt == s.lt.(rttCnt := s.lt.rttCnt + 1))
  {
    LinuxWrap.LtFrame(w, AtTimeout(s), 1, false, tp);
    hide LtCloseInterval;
  }

  /** The rate is given up exactly at the 48th PROBE_BW round of its use. */
  lemma DroppedAtRound48(s: Bbr, es: seq<Event>, e: Event)
    requires Fresh(s) && RunBounded(s, es)
    requires Run(Exact, s, es).lt.useBw
    ensures var t, cs := Run(Exact, s, es), CallsOf(Run(Exact, s, es), e);
            !Step(Exact, t, e).lt.useBw <==>
            cs != [] && t.phase.mode == ProbeBw && cs[0].s.model.roundStart && History(s, es).inUse + 1 == 48
  {
    RunConsistent(s, es);
    var t := Run(Exact, s, es);
    EventEffect(t, e);
    var cs := CallsOf(t, e);
    if cs != [] {
      assert Effect(cs[0]) == LtUseRound(cs[0].s, cs[0].tp);
    }
  }

  /** The same for the kernel's 32-bit counters. */
  lemma KernelPolicerIsSound(s: Bbr, es: seq<Event>)
    requires Fresh(s) && RunBounded(s, es) && LinuxWrap.RunInRange(s, es)
    requires Run(Bits32, LinuxWrap.Trunc(s), LinuxWrap.TruncEvents(es)).lt.useBw
    ensures var lt, r := Run(Bits32, LinuxWrap.Trunc(s), LinuxWrap.TruncEvents(es)).lt, History(s, es);
            Policed(lt, r) && AllSound(s.hz, r.done)
  {
    LinuxWrap.RunTruncs(s, es);
    PolicerIsSound(s, es);
    RunKeepsHz(s, es);
  }

  /** The kernel's uses of the rate before and after an event at the end of a run. */
  lemma KernelUse(s: Bbr, es: seq<Event>, e: Event)
    requires Fresh(s) && LinuxWrap.RunInRange(s, es + [e])
    ensures var k := Run(Bits32, LinuxWrap.Trunc(s), LinuxWrap.TruncEvents(es));
            && k.lt.useBw == Run(Exact, s, es).lt.useBw
            && Step(Bits32, k, LinuxWrap.TruncEvent(e)).lt.useBw == Step(Exact, Run(Exact, s, es), e).lt.useBw
  {
    assert (es + [e])[..|es|] == es;
    LinuxWrap.RunTruncs(s, es);
    LinuxWrap.StepTruncs(Run(Exact, s, es), e);
    hide Step, Run;
  }

  /** It comes into use, and is given up, exactly then on 32-bit counters, too. */
  lemma KernelPolicerIff(s: Bbr, es: seq<Event>, e: Event)
    requires Fresh(s) && RunBounded(s, es + [e]) && LinuxWrap.RunInRange(s, es + [e])
    ensures var k := Run(Bits32, LinuxWrap.Trunc(s), LinuxWrap.TruncEvents(es));
            var used := Step(Bits32, k, LinuxWrap.TruncEvent(e)).lt.useBw;
            var t, r := Run(Exact, s, es), History(s, es);
            var cs := CallsOf(t, e);
            && (!k.lt.useBw ==> (used <==> cs != [] && Confirms(cs[0], r)))
            && (k.lt.useBw ==>
                  (!used <==> cs != [] && t.phase.mode == ProbeBw && cs[0].s.model.roundStart && r.inUse + 1 == 48))
  {
    assert (es + [e])[..|es|] == es;
    KernelUse(s, es, e);
    if Run(Exact, s, es).lt.useBw {
      DroppedAtRound48(s, es, e);
    } else {
      PolicerDetectsIff(s, es, e);
    }
    hide Step, Run, Confirms, CallsOf;
  }

  lemma {:induction false} RunKeepsHz(s: Bbr, es: seq<Event>)
    ensures Run(Exact, s, es).hz == s.hz
  {
    if es != [] {
      RunKeepsHz(s, es[..|es| - 1]);
      EventEffect(Run(Exact, s, es[..|es| - 1]), es[|es| - 1]);
    }
  }
}
