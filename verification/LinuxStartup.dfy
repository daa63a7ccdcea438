/** STARTUP of the kernel sender ends: its full-pipe detector is the shared one, as
    long as the u32 threshold does not wrap. */
module LinuxStartup {
  import opened Words
  import opened BbrModes
  import opened LinuxArith
  import opened LinuxBbr
  import FullPipe
  import LinuxModes

  /** The integer threshold of bbr_check_full_bw_reached, without its u32 cast. */
  function Threshold(x: real): real {
    (x * 1.25).Floor as real
  }

  function DetectorOf(s: Bbr): FullPipe.Detector {
    FullPipe.Detector(s.model.fullBw as real, s.model.fullBwCnt)
  }

  /** The state in which an ACK asks whether the pipe is full. */
  function AtEvaluation(w: Width, s: Bbr, rs: RateSample, tp: Sock): Bbr {
    UpdateCyclePhase(UpdateBw(w, s, rs, tp), rs, tp)
  }

  /** What an event means to the detector. */
  function ProbesOf(w: Width, s: Bbr, e: Event): (ps: seq<FullPipe.Probe>)
    ensures |ps| <= 1
  {
    match e
    case Ack(rs, tp) =>
      var s1 := AtEvaluation(w, s, rs, tp);
      if EvaluatesFullBw(s1, rs) then [FullPipe.Evaluate(s1.model.maxBw as real)] else []
    case CaState(newState, _) => if newState == TCP_CA_LOSS then [FullPipe.Reset] else []
    case _ => []
  }

  function Trace(w: Width, s: Bbr, es: seq<Event>): seq<FullPipe.Probe> {
    if es == [] then []
    else Trace(w, s, es[..|es| - 1]) + ProbesOf(w, Run(w, s, es[..|es| - 1]), es[|es| - 1])
  }

  predicate NoTruncation(fullBw: nat) {
    fullBw * FULL_BW_THRESH / BBR_UNIT < U32
  }

  lemma ThresholdIsExact(fullBw: nat)
    requires NoTruncation(fullBw)
    ensures FullBwThreshold(fullBw) as real == Threshold(fullBw as real)
  {
    FiveQuarters(fullBw);
    FloorOfFiveQuarters(fullBw);
  }

  lemma FiveQuarters(n: nat)
    ensures n * FULL_BW_THRESH / BBR_UNIT == 5 * n / 4
  {}

  lemma FloorOfFiveQuarters(n: nat)
    ensures (n as real * 1.25).Floor == 5 * n / 4
  {}

  lemma CheckDetects(s: Bbr, rs: RateSample)
    requires NoTruncation(s.model.fullBw)
    ensures DetectorOf(CheckFullBwReached(s, rs)) ==
            if EvaluatesFullBw(s, rs)
            then FullPipe.Step(Threshold, BBR_FULL_BW_CNT, DetectorOf(s), FullPipe.Evaluate(s.model.maxBw as real))
            else DetectorOf(s)
  {
    ThresholdIsExact(s.model.fullBw);
  }

  lemma RestKeepsDetector(w: Width, s: Bbr, rs: RateSample, tp: Sock)
    ensures DetectorOf(AtEvaluation(w, s, rs, tp)) == DetectorOf(s)
    ensures DetectorOf(Control(UpdateMinRtt(w, CheckDrain(s, tp), rs, tp), rs, tp)) == DetectorOf(s)
  {
    LtKeepsDetector(w, CountRound(w, s, rs, tp), rs.losses, rs.isAppLimited, tp);
    var s1 := CheckDrain(s, tp);
    assert s1.model == s.model;
    MinRttKeepsDetector(w, s1, rs, tp);
    ControlKeepsDetector(UpdateMinRtt(w, s1, rs, tp), rs, tp);
  }

  lemma MinRttKeepsDetector(w: Width, s: Bbr, rs: RateSample, tp: Sock)
    ensures DetectorOf(UpdateMinRtt(w, s, rs, tp)) == DetectorOf(s)
  {}

  lemma ControlKeepsDetector(s: Bbr, rs: RateSample, tp: Sock)
    ensures DetectorOf(Control(s, rs, tp)) == DetectorOf(s)
  {}

  lemma LtKeepsDetector(w: Width, s: Bbr, losses: nat, isAppLimited: bool, tp: Sock)
    ensures LtBwSampling(w, s, losses, isAppLimited, tp).model == s.model
  {}

  lemma StepDetects(w: Width, s: Bbr, e: Event)
    requires NoTruncation(s.model.fullBw)
    ensures DetectorOf(Step(w, s, e)) == FullPipe.Run(Threshold, BBR_FULL_BW_CNT, DetectorOf(s), ProbesOf(w, s, e))
  {
    match e
    case Ack(rs, tp) =>
      RestKeepsDetector(w, s, rs, tp);
      var s1 := AtEvaluation(w, s, rs, tp);
      CheckDetects(s1, rs);
      RestKeepsDetector(w, CheckFullBwReached(s1, rs), rs, tp);
      OneProbe(DetectorOf(s), FullPipe.Evaluate(s1.model.maxBw as real));
    case CaState(newState, tp) =>
      LtKeepsDetector(w, AtTimeout(s), 1, false, tp);
      OneProbe(DetectorOf(s), FullPipe.Reset);
    case _ =>
  }

  lemma OneProbe(d: FullPipe.Detector, p: FullPipe.Probe)
    ensures FullPipe.Run(Threshold, BBR_FULL_BW_CNT, d, [p]) == FullPipe.Step(Threshold, BBR_FULL_BW_CNT, d, p)
  {}

  lemma RunAppends(d: FullPipe.Detector, ps: seq<FullPipe.Probe>, qs: seq<FullPipe.Probe>)
    requires |qs| <= 1
    ensures FullPipe.Run(Threshold, BBR_FULL_BW_CNT, d, ps + qs) ==
            FullPipe.Run(Threshold, BBR_FULL_BW_CNT, FullPipe.Run(Threshold, BBR_FULL_BW_CNT, d, ps), qs)
  {
    if qs == [] {
      assert ps + qs == ps;
    } else {
      assert (ps + qs)[..|ps + qs| - 1] == ps;
      OneProbe(FullPipe.Run(Threshold, BBR_FULL_BW_CNT, d, ps), qs[0]);
    }
  }

  /** Estimates in [b, top] that g growth steps from b exceed, below the u32 limit. */
  ghost predicate Band(b: nat, top: nat, g: nat) {
    && 0 < b <= top
    && NoTruncation(top)
    && (top as real) < FullPipe.Rung(Threshold, b as real, g)
  }

  lemma PrefixInBand(w: Width, s: Bbr, es: seq<Event>, b: nat, top: nat)
    requires es != [] && FullPipe.InBand(Trace(w, s, es), b as real, top as real)
    ensures FullPipe.InBand(Trace(w, s, es[..|es| - 1]), b as real, top as real)
  {
    var ps := Trace(w, s, es[..|es| - 1]);
    forall i | 0 <= i < |ps| && ps[i].Evaluate?
      ensures b as real <= ps[i].bw <= top as real
    {
      assert ps[i] == Trace(w, s, es)[i];
    }
  }

  /** The baseline never leaves the band, so the threshold is never truncated. */
  lemma BaselineFits(w: Width, s: Bbr, es: seq<Event>, b: nat, top: nat, g: nat)
    requires Band(b, top, g)
    requires FullPipe.InBand(Trace(w, s, es), b as real, top as real)
    requires DetectorOf(Run(w, s, es)) ==
             FullPipe.Run(Threshold, BBR_FULL_BW_CNT, FullPipe.Detector(0.0, 0), Trace(w, s, es))
    ensures NoTruncation(Run(w, s, es).model.fullBw)
  {
    ThresholdIsGrowth(b);
    FullPipe.FuelBound(Threshold, BBR_FULL_BW_CNT, b as real, top as real, g, Trace(w, s, es));
    Smaller(Run(w, s, es).model.fullBw, top);
  }

  lemma Smaller(x: nat, top: nat)
    requires x <= top && NoTruncation(top)
    ensures NoTruncation(x)
  {}

  lemma {:induction false} RunDetects(w: Width, s: Bbr, es: seq<Event>, b: nat, top: nat, g: nat)
    requires Fresh(s) && Band(b, top, g)
    requires FullPipe.InBand(Trace(w, s, es), b as real, top as real)
    ensures DetectorOf(Run(w, s, es)) ==
            FullPipe.Run(Threshold, BBR_FULL_BW_CNT, FullPipe.Detector(0.0, 0), Trace(w, s, es))
  {
    if es != [] {
      var front, ps := es[..|es| - 1], Trace(w, s, es[..|es| - 1]);
      PrefixInBand(w, s, es, b, top);
      RunDetects(w, s, front, b, top, g);
      BaselineFits(w, s, front, b, top, g);
      var t := Run(w, s, front);
      StepDetects(w, t, es[|es| - 1]);
      RunAppends(FullPipe.Detector(0.0, 0), ps, ProbesOf(w, t, es[|es| - 1]));
    }
  }

  lemma ThresholdIsGrowth(b: nat)
    requires 0 < b
    ensures FullPipe.Threshold(Threshold, b as real) && Threshold(0.0) >= 0.0
  {
    forall x: real, y: real | 0.0 <= x <= y
      ensures Threshold(x) <= Threshold(y)
    {
      ThresholdMonotone(x, y);
    }
    ThresholdMonotone(0.0, 0.0);
  }

  lemma ThresholdMonotone(x: real, y: real)
    requires 0.0 <= x <= y
    ensures 0.0 <= Threshold(x) <= Threshold(y)
    ensures x == 0.0 ==> Threshold(x) == 0.0
  {
    var a, b := x * 1.25, y * 1.25;
    assert a <= b;
    assert a.Floor <= b.Floor;
  }

  /** STARTUP terminates with a geometric bound: 3 g + 1 evaluated rounds, once more
      for every retransmission timeout, fill the pipe. */
  lemma StartupEnds(w: Width, s: Bbr, es: seq<Event>, b: nat, top: nat, g: nat)
    requires Fresh(s) && Band(b, top, g)
    requires FullPipe.InBand(Trace(w, s, es), b as real, top as real)
    requires FullPipe.Evaluations(Trace(w, s, es)) >=
             FullPipe.Allowance(BBR_FULL_BW_CNT, g, FullPipe.Resets(Trace(w, s, es)))
    ensures FullBwReached(Run(w, s, es))
  {
    RunDetects(w, s, es, b, top, g);
    ThresholdIsGrowth(b);
    FullPipe.FillsWithin(Threshold, BBR_FULL_BW_CNT, b as real, top as real, g, Trace(w, s, es));
  }

  /** From 4 units on, a growth step always grows the integer baseline, so a number g
      of steps to any top exists. */
  lemma {:induction false} RungsClimb(b: nat, k: nat)
    requires b >= 4
    ensures FullPipe.Rung(Threshold, b as real, k) >= (b + k) as real
  {
    if k > 0 {
      RungsClimb(b, k - 1);
    }
  }

  lemma StepsExist(b: nat, top: nat)
    requires 4 <= b <= top && NoTruncation(top)
    ensures Band(b, top, top - b + 1)
  {
    RungsClimb(b, top - b + 1);
  }

  // ----- A constant rate -----

  /** Every round that is evaluated finds the same estimate, and no timeout interferes. */
  ghost predicate Constant(ps: seq<FullPipe.Probe>, bw: nat) {
    forall p :: p in ps ==> p == FullPipe.Evaluate(bw as real)
  }

  lemma ConstantParts(ps: seq<FullPipe.Probe>, qs: seq<FullPipe.Probe>, bw: nat)
    requires Constant(ps + qs, bw)
    ensures Constant(ps, bw) && Constant(qs, bw)
  {
    assert forall p :: p in ps || p in qs ==> p in ps + qs;
  }

  /** The threshold is a quarter above the rate, unless it loses its 33rd bit. */
  lemma QuarterAbove(rate: nat)
    ensures rate * FULL_BW_THRESH / BBR_UNIT == rate + rate / 4
  {
    FiveQuarters(rate);
    assert 5 * rate == 4 * rate + rate;
  }

  lemma LooksLikeGrowth(rate: nat)
    requires rate < U32
    ensures FullBwThreshold(rate) <= rate <==> rate < 4 || !NoTruncation(rate)
  {
    QuarterAbove(rate);
    var t := rate + rate / 4;
    LowBits(t);
  }

  lemma LowBits(t: nat)
    requires t < 2 * U32
    ensures t % U32 == if t < U32 then t else t - U32
  {}

  /** The detector after n rounds with the estimate bw. */
  ghost predicate AfterRounds(s: Bbr, n: nat, bw: nat) {
    && s.model.fullBw == (if n == 0 then 0 else bw)
    && s.model.fullBwCnt == (if n == 0 || FullBwThreshold(bw) <= bw then 0 else n - 1)
  }

  lemma SameDetector(s: Bbr, t: Bbr)
    requires DetectorOf(s) == DetectorOf(t)
    ensures s.model.fullBw == t.model.fullBw && s.model.fullBwCnt == t.model.fullBwCnt
  {
    assert s.model.fullBw as real == t.model.fullBw as real;
  }

  lemma CheckCounts(s: Bbr, rs: RateSample, n: nat, bw: nat)
    requires AfterRounds(s, n, bw) && (EvaluatesFullBw(s, rs) ==> s.model.maxBw == bw)
    ensures AfterRounds(CheckFullBwReached(s, rs), if EvaluatesFullBw(s, rs) then n + 1 else n, bw)
  {
    assert FullBwThreshold(0) == 0;
    hide FullBwThreshold;
  }

  lemma StepCounts(w: Width, s: Bbr, e: Event, n: nat, bw: nat)
    requires AfterRounds(s, n, bw) && Constant(ProbesOf(w, s, e), bw)
    ensures AfterRounds(Step(w, s, e), n + |ProbesOf(w, s, e)|, bw)
  {
    match e
    case Ack(rs, tp) =>
      var s1 := AtEvaluation(w, s, rs, tp);
      var s2 := CheckFullBwReached(s1, rs);
      var s3 := Control(UpdateMinRtt(w, CheckDrain(s2, tp), rs, tp), rs, tp);
      RestKeepsDetector(w, s, rs, tp);
      RestKeepsDetector(w, s2, rs, tp);
      SameDetector(s, s1);
      SameDetector(s2, s3);
      assert Step(w, s, e) == s3;
      hide AtEvaluation, CheckFullBwReached, CheckDrain, UpdateMinRtt, Control, EvaluatesFullBw, FullBwThreshold, Step;
      assert EvaluatesFullBw(s1, rs) ==> FullPipe.Evaluate(s1.model.maxBw as real) in ProbesOf(w, s, e);
      CheckCounts(s1, rs, n, bw);
    case CaState(newState, tp) =>
      LtKeepsDetector(w, AtTimeout(s), 1, false, tp);
      assert newState == TCP_CA_LOSS ==> FullPipe.Reset in ProbesOf(w, s, e);
      hide FullBwThreshold, LtBwSampling;
    case _ =>
      hide FullBwThreshold, RateBytesPerSec;
  }

  lemma {:induction false} RunCounts(w: Width, s: Bbr, es: seq<Event>, bw: nat)
    requires Fresh(s) && Constant(Trace(w, s, es), bw)
    ensures AfterRounds(Run(w, s, es), |Trace(w, s, es)|, bw)
  {
    if es != [] {
      var front, e := es[..|es| - 1], es[|es| - 1];
      var t := Run(w, s, front);
      ConstantParts(Trace(w, s, front), ProbesOf(w, t, e), bw);
      RunCounts(w, s, front, bw);
      StepCounts(w, t, e, |Trace(w, s, front)|, bw);
      hide AfterRounds, Step, ProbesOf, Constant;
    }
  }

  /** In every run whose rounds all find the same estimate the pipe is full exactly after
      four of them and if the estimate is at least 4 units and its threshold fits a u32.
      Otherwise STARTUP goes on for ever, but for visits to PROBE_RTT. */
  lemma ConstantRateFillsIff(w: Width, s: Bbr, es: seq<Event>, bw: nat)
    requires Fresh(s) && Constant(Trace(w, s, es), bw) && bw < U32
    ensures FullBwReached(Run(w, s, es)) <==> |Trace(w, s, es)| >= 4 && 4 <= bw && NoTruncation(bw)
    ensures !FullBwReached(Run(w, s, es)) ==>
              Run(w, s, es).phase.mode == Startup || Run(w, s, es).phase.mode == ProbeRtt
  {
    RunCounts(w, s, es, bw);
    LooksLikeGrowth(bw);
    LinuxModes.ModesAreSound(w, s, es);
    hide Run, Trace, FullBwThreshold, NoTruncation;
  }

  // ----- Runs that never end STARTUP -----

  /** A round that ends with the sample, and so the estimate, bw, without a loss or an RTT
      sample. */
  function EndOfRound(s: Bbr, bw: nat): Event {
    Ack(RateSample(bw, BW_UNIT, s.model.nextRttDelivered, 0, -1, 0, 0, false),
        Sock(s.model.nextRttDelivered + bw, 0, 0, 0, 0, 0, TCP_CA_OPEN, 0, 0, 0, 0, bw, 0))
  }

  /** The filter takes the sample as it is. */
  lemma SampleIsEstimate(s: Bbr, bw: nat)
    ensures var e := EndOfRound(s, bw); ValidSample(e.rs) && SampleBw(e.rs) == bw == e.tp.filtered
  {}

  lemma EndOfRoundEvaluates(w: Width, s: Bbr, bw: nat)
    requires !FullBwReached(s)
    ensures ProbesOf(w, s, EndOfRound(s, bw)) == [FullPipe.Evaluate(bw as real)]
  {
    var e := EndOfRound(s, bw);
    RestKeepsDetector(w, s, e.rs, e.tp);
    SameDetector(s, AtEvaluation(w, s, e.rs, e.tp));
    LtKeepsDetector(w, CountRound(w, s, e.rs, e.tp), 0, false, e.tp);
    hide LtBwSampling, IsNextCyclePhase;
  }

  /** Below 4 units, or with a truncated threshold: a run of any number of rounds. */
  lemma {:induction false} Stalling(w: Width, s: Bbr, bw: nat, n: nat) returns (es: seq<Event>)
    requires Fresh(s) && bw < U32 && (bw < 4 || !NoTruncation(bw))
    ensures Constant(Trace(w, s, es), bw) && |Trace(w, s, es)| == n && !FullBwReached(Run(w, s, es))
  {
    if n == 0 {
      es := [];
    } else {
      var front := Stalling(w, s, bw, n - 1);
      var e := EndOfRound(Run(w, s, front), bw);
      es := front + [e];
      assert es[..|es| - 1] == front;
      EndOfRoundEvaluates(w, Run(w, s, front), bw);
      hide Fresh, Run, NoTruncation, FullBwReached, ProbesOf;
    }
    ConstantRateFillsIff(w, s, es, bw);
  }

  lemma {:induction false} CountConstant(ps: seq<FullPipe.Probe>, bw: nat)
    requires Constant(ps, bw)
    ensures FullPipe.Evaluations(ps) == |ps| && FullPipe.Resets(ps) == 0
    ensures FullPipe.InBand(ps, bw as real, bw as real)
  {
    if ps != [] {
      assert ps[|ps| - 1] in ps;
      assert ps == ps[..|ps| - 1] + ps[|ps| - 1..];
      ConstantParts(ps[..|ps| - 1], ps[|ps| - 1..], bw);
      CountConstant(ps[..|ps| - 1], bw);
    }
  }

  /** n evaluated rounds, and n more for each timeout, with estimates in [b, top]. */
  ghost predicate Ripe(ps: seq<FullPipe.Probe>, b: nat, top: nat, n: nat) {
    && FullPipe.InBand(ps, b as real, top as real)
    && FullPipe.Evaluations(ps) >= n * (FullPipe.Resets(ps) + 1)
  }

  /** So many fill the pipe in every run. */
  ghost predicate EndsWithin(w: Width, s: Bbr, b: nat, top: nat, n: nat) {
    forall es :: Ripe(Trace(w, s, es), b, top, n) ==> FullBwReached(Run(w, s, es))
  }

  lemma ConstantIsRipe(ps: seq<FullPipe.Probe>, bw: nat, b: nat, top: nat)
    requires Constant(ps, bw) && b <= bw <= top
    ensures Ripe(ps, b, top, |ps|)
  {
    CountConstant(ps, bw);
    hide FullPipe.Evaluations, FullPipe.Resets, Constant;
  }

  lemma StallingRefutes(w: Width, s: Bbr, b: nat, top: nat, bw: nat, n: nat)
    requires Fresh(s) && b <= bw <= top < U32 && (bw < 4 || !NoTruncation(bw))
    ensures !EndsWithin(w, s, b, top, n)
  {
    var es := Stalling(w, s, bw, n);
    ConstantIsRipe(Trace(w, s, es), bw, b, top);
    hide Fresh, Run, Trace, NoTruncation, FullBwReached, Constant, Ripe;
  }

  /** Rounds enough for a band: three for every growth step in it, and one. */
  function RoundsFor(b: nat, top: nat): nat
    requires b <= top
  {
    BBR_FULL_BW_CNT * (top - b + 1) + 1
  }

  lemma RipeFills(w: Width, s: Bbr, es: seq<Event>, b: nat, top: nat)
    requires Fresh(s) && 4 <= b <= top && NoTruncation(top)
    requires Ripe(Trace(w, s, es), b, top, RoundsFor(b, top))
    ensures FullBwReached(Run(w, s, es))
  {
    hide Ripe, RoundsFor, Band, NoTruncation, Fresh, Trace, Run, FullBwReached, FullPipe.InBand, FullPipe.Evaluations,
         FullPipe.Resets, FullPipe.Allowance;
    StepsExist(b, top);
    RipeIsAllowed(Trace(w, s, es), b, top);
    StartupEnds(w, s, es, b, top, top - b + 1);
  }

  lemma RipeIsAllowed(ps: seq<FullPipe.Probe>, b: nat, top: nat)
    requires b <= top && Ripe(ps, b, top, RoundsFor(b, top))
    ensures FullPipe.InBand(ps, b as real, top as real)
    ensures FullPipe.Evaluations(ps) >= FullPipe.Allowance(BBR_FULL_BW_CNT, top - b + 1, FullPipe.Resets(ps))
  {}

  lemma BandEnds(w: Width, s: Bbr, b: nat, top: nat)
    requires Fresh(s) && 4 <= b <= top && NoTruncation(top)
    ensures EndsWithin(w, s, b, top, RoundsFor(b, top))
  {
    forall es | Ripe(Trace(w, s, es), b, top, RoundsFor(b, top))
      ensures FullBwReached(Run(w, s, es))
    {
      RipeFills(w, s, es, b, top);
    }
    hide Ripe, RoundsFor, Trace, Run, FullBwReached, Fresh, NoTruncation;
  }

  /** STARTUP ends for sure, with estimates in [b, top], exactly if b is at least 4 units
      and the threshold above top is not truncated. */
  lemma StartupEndsIff(w: Width, s: Bbr, b: nat, top: nat)
    requires Fresh(s) && b <= top < U32
    ensures (exists n :: EndsWithin(w, s, b, top, n)) <==> 4 <= b && NoTruncation(top)
  {
    if 4 <= b && NoTruncation(top) {
      BandEnds(w, s, b, top);
    } else {
      forall n ensures !EndsWithin(w, s, b, top, n) {
        StallingRefutes(w, s, b, top, if b < 4 then b else top, n);
      }
    }
    hide EndsWithin;
  }

  // ----- Which rounds are evaluated -----

  /** An ACK evaluates the pipe exactly if it is not full, a round starts, and its sample is
      not limited by the application; and no other ACK moves the detector. */
  lemma EvaluatesIff(w: Width, s: Bbr, rs: RateSample, tp: Sock)
    ensures ProbesOf(w, s, Ack(rs, tp)) != [] <==>
            s.model.fullBwCnt < BBR_FULL_BW_CNT && StartsRound(w, s, rs) && !rs.isAppLimited
    ensures ProbesOf(w, s, Ack(rs, tp)) == [] ==> DetectorOf(Step(w, s, Ack(rs, tp))) == DetectorOf(s)
  {
    var s1 := AtEvaluation(w, s, rs, tp);
    RestKeepsDetector(w, s, rs, tp);
    SameDetector(s, s1);
    LtKeepsDetector(w, CountRound(w, s, rs, tp), rs.losses, rs.isAppLimited, tp);
    assert s1.model.roundStart == StartsRound(w, s, rs) by {
      hide LtBwSampling, StartsRound, IsNextCyclePhase;
    }
    RestKeepsDetector(w, CheckFullBwReached(s1, rs), rs, tp);
    hide AtEvaluation, StartsRound, CheckDrain, UpdateMinRtt, Control, FullBwThreshold, UpdateBw, UpdateCyclePhase;
  }
}
