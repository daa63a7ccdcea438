/** What an ACK makes of the model: the pacing rate and the window of the kernel sender,
    in terms of its fields and of ideal, unrounded targets. */
module LinuxControl {
  import opened Words
  import opened BbrModes
  import opened LinuxArith
  import opened LinuxBbr
  import LinuxModes
  import LinuxWrap

  /** gain * bandwidth * RTT and three segment goals, in 2^-32 packets; ten packets while
      the RTT is unknown. */
  function Ideal(bw: nat, minRtt: nat, gain: nat, segs: nat): nat {
    if minRtt == NO_RTT then TCP_INIT_CWND * U32 else GainedBdp(bw, minRtt, gain) + 3 * segs * U32
  }

  /** No word of the target wraps. */
  predicate IdealFits(bw: nat, minRtt: nat, gain: nat, segs: nat) {
    minRtt == NO_RTT || TargetFits(bw, minRtt, gain, segs)
  }

  /** The target is the ideal one, rounded up by less than two packets. */
  lemma TargetIsNear(bw: nat, minRtt: nat, gain: nat, segs: nat, n: nat)
    requires IdealFits(bw, minRtt, gain, segs)
    ensures var c, ideal := TargetCwnd(bw, minRtt, gain, segs), Ideal(bw, minRtt, gain, segs);
            && (n * U32 <= ideal ==> n <= c)
            && (n * U32 + BBR_UNIT <= ideal ==> n < c)
            && (n * U32 >= ideal + U32 ==> n >= c)
            && (n * U32 >= ideal + 2 * U32 ==> n > c)
  {
    if minRtt != NO_RTT {
      TargetCwndIsTight(bw, minRtt, gain, segs);
    }
    hide TargetCwnd, GainedBdp, TargetFits;
  }

  // ----- The rate -----

  /** The estimate that rules after an ACK: the rate of the policer while it is in use. */
  lemma ControlPaces(s: Bbr, rs: RateSample, tp: Sock)
    ensures var t := Control(s, rs, tp);
            var rate := Min(RateBytesPerSec(if s.lt.useBw then s.lt.bw else s.model.maxBw, tp.mtu, s.phase.pacingGain),
                            tp.maxPacingRate);
            && t.phase == s.phase && t.lt == s.lt && t.rtt == s.rtt
            && t.model.maxBw == s.model.maxBw && t.model.fullBwCnt == s.model.fullBwCnt
            && t.model.rttCnt == s.model.rttCnt
            && t.win.tsoSegsGoal == Min(tp.autosize, 0x7F)
            && t.win.pacingRate == if s.phase.mode == Startup then Max(s.win.pacingRate, rate) else rate
  {
    hide RateBytesPerSec, TargetCwnd;
  }

  /** Before PROBE_RTT is looked at, an ACK changes the window fields by ending packet
      conservation at most. */
  lemma EarlyWin(w: Width, s: Bbr, rs: RateSample, tp: Sock)
    ensures var t := CheckDrain(CheckFullBwReached(UpdateCyclePhase(UpdateBw(w, s, rs, tp), rs, tp), rs), tp);
            t.win == if StartsRound(w, s, rs) then s.win.(packetConservation := false) else s.win
  {
    var s1 := CountRound(w, s, rs, tp);
    LinuxWrap.LtFrame(w, s1, rs.losses, rs.isAppLimited, tp);
    assert UpdateBw(w, s, rs, tp).win == s1.win by {
      hide LtBwSampling, StartsRound;
    }
    hide UpdateBw, IsNextCyclePhase, FullBwThreshold, QueueDrained, StartsRound;
  }

  lemma MinRttWin(w: Width, s: Bbr, rs: RateSample, tp: Sock)
    ensures var t := UpdateMinRtt(w, s, rs, tp);
            && t.win.pacingRate == s.win.pacingRate && t.win.sndCwnd == s.win.sndCwnd
            && t.win.prevCaState == s.win.prevCaState && t.win.packetConservation == s.win.packetConservation
            && (s.win.restoreCwnd ==> t.win.restoreCwnd)
            && (!s.win.restoreCwnd ==>
                  (t.win.restoreCwnd <==> s.phase.mode == ProbeRtt && t.phase.mode != ProbeRtt))
            && (t.win.priorCwnd == s.win.priorCwnd || (s.phase.mode != ProbeRtt && t.win.priorCwnd >= s.win.sndCwnd))
  {
    hide MinRttExpired, MsecsToJiffies, After;
  }

  /** The model leaves pacing rate and window alone. */
  lemma ModelKeepsRate(w: Width, s: Bbr, rs: RateSample, tp: Sock)
    ensures var t := UpdateModel(w, s, rs, tp);
            && t.win.pacingRate == s.win.pacingRate && t.win.sndCwnd == s.win.sndCwnd
            && t.win.prevCaState == s.win.prevCaState
            && (t.win.packetConservation <==> s.win.packetConservation && !StartsRound(w, s, rs))
            && (s.win.restoreCwnd ==> t.win.restoreCwnd)
            && (t.win.priorCwnd == s.win.priorCwnd || (s.phase.mode != ProbeRtt && t.win.priorCwnd >= s.win.sndCwnd))
  {
    EarlyWin(w, s, rs, tp);
    LinuxWrap.FrameToMinRtt(w, s, rs, tp);
    hide UpdateBw, UpdateCyclePhase, CheckFullBwReached, CheckDrain, UpdateMinRtt, StartsRound;
    MinRttWin(w, CheckDrain(CheckFullBwReached(UpdateCyclePhase(UpdateBw(w, s, rs, tp), rs, tp), rs), tp), rs, tp);
  }

  /** Pacing over runs: outside STARTUP an ACK leaves the rate of the estimate in use with
      the gain of the mode, and in STARTUP that or the rate before; the policer's estimate
      is in use while lt_use_bw is set, and else the filtered maximum. */
  lemma AckPaces(w: Width, s: Bbr, es: seq<Event>, rs: RateSample, tp: Sock)
    requires Fresh(s)
    ensures var t, t' := Run(w, s, es), Run(w, s, es + [Ack(rs, tp)]);
            var bw := if t'.lt.useBw then t'.lt.bw else t'.model.maxBw;
            var rate := Min(RateBytesPerSec(bw, tp.mtu, t'.phase.pacingGain),
                            tp.maxPacingRate);
            && (t'.phase.mode != Startup ==> t'.win.pacingRate == rate)
            && (t'.phase.mode == Startup ==> t'.win.pacingRate == Max(t.win.pacingRate, rate))
            && t'.win.tsoSegsGoal == Min(tp.autosize, 0x7F)
            && LinuxModes.GainsMatch(t')
  {
    RunAppends(w, s, es, Ack(rs, tp));
    LinuxModes.ModesAreSound(w, s, es + [Ack(rs, tp)]);
    hide Run, UpdateModel, Control, Fresh, LinuxModes.GainsMatch;
    var t := Run(w, s, es);
    ModelKeepsRate(w, t, rs, tp);
    ControlPaces(UpdateModel(w, t, rs, tp), rs, tp);
  }

  lemma RunAppends(w: Width, s: Bbr, es: seq<Event>, e: Event)
    ensures Run(w, s, es + [e]) == Step(w, Run(w, s, es), e)
  {
    assert (es + [e])[..|es|] == es;
    hide Step;
  }

  /** The first rate: the window once in the smoothed round trip time, or a millisecond
      while that is unknown, with the high gain. */
  lemma InitPaces(hz: Hz, minRtt: nat, sndCwnd: nat, srttUs: nat, tp: Sock, rtt: nat)
    requires rtt == if srttUs < 8 then 1000 else srttUs / 8
    requires sndCwnd * BW_UNIT < U32
    ensures var s := Init(hz, minRtt, sndCwnd, srttUs, tp);
            && s.win.pacingRate == Min(RateBytesPerSec(sndCwnd * BW_UNIT / rtt, tp.mtu, HIGH_GAIN), tp.maxPacingRate)
            && s.win.sndCwnd == sndCwnd && s.rtt.minRtt == minRtt && s.rtt.stamp == tp.now && s.model.maxBw == 0
  {
    hide RateBytesPerSec;
    QuotientFits(sndCwnd * BW_UNIT, rtt);
  }

  lemma QuotientFits(x: nat, d: nat)
    requires x < U32 && d > 0
    ensures x / d % U32 == x / d
  {
    assert 0 <= x / d <= x;
  }

  /** A start from idle in PROBE_BW paces at the same estimate, with gain 1. */
  lemma RestartPaces(s: Bbr, tp: Sock)
    ensures var t := CwndEvent(s, true, tp);
            && t.rtt.idleRestart && t.phase == s.phase && t.win.sndCwnd == s.win.sndCwnd
            && (s.phase.mode == ProbeBw ==>
                  t.win.pacingRate ==
                  Min(RateBytesPerSec(if s.lt.useBw then s.lt.bw else s.model.maxBw, tp.mtu, BBR_UNIT),
                      tp.maxPacingRate))
            && (s.phase.mode != ProbeBw ==> t.win.pacingRate == s.win.pacingRate)
  {
    hide RateBytesPerSec;
  }

  /** An estimate below the maximum that the application limited is not taken. */
  lemma FilterTakesIff(w: Width, s: Bbr, rs: RateSample, tp: Sock)
    ensures var t := UpdateModel(w, s, rs, tp);
            t.model.maxBw ==
            if rs.delivered >= 0 && rs.intervalUs > 0 &&
               (rs.isAppLimited ==> rs.delivered * BW_UNIT / rs.intervalUs >= s.model.maxBw)
            then tp.filtered else s.model.maxBw
  {
    LinuxWrap.LtFrame(w, CountRound(w, s, rs, tp), rs.losses, rs.isAppLimited, tp);
    var s1 := UpdateBw(w, s, rs, tp);
    assert s1.model.maxBw == UpdateModel(w, s, rs, tp).model.maxBw by {
      MiddleKeepsMax(w, s1, rs, tp);
      hide UpdateBw, UpdateCyclePhase, CheckFullBwReached, CheckDrain, UpdateMinRtt;
    }
    hide LtBwSampling, UpdateModel;
  }

  lemma MiddleKeepsMax(w: Width, s: Bbr, rs: RateSample, tp: Sock)
    ensures UpdateMinRtt(w, CheckDrain(CheckFullBwReached(UpdateCyclePhase(s, rs, tp), rs), tp), rs, tp).model.maxBw ==
            s.model.maxBw
    ensures UpdateMinRtt(w, CheckDrain(CheckFullBwReached(UpdateCyclePhase(s, rs, tp), rs), tp), rs, tp).model.rttCnt ==
            s.model.rttCnt
  {
    hide MinRttExpired, MsecsToJiffies, After, IsNextCyclePhase, FullBwThreshold, QueueDrained;
    var s3 := CheckDrain(CheckFullBwReached(UpdateCyclePhase(s, rs, tp), rs), tp);
    assert s3.model.maxBw == s.model.maxBw && s3.model.rttCnt == s.model.rttCnt;
    assert UpdateMinRtt(w, s3, rs, tp).model.maxBw == s3.model.maxBw;
    assert UpdateMinRtt(w, s3, rs, tp).model.rttCnt == s3.model.rttCnt;
  }

  // ----- Rounds -----

  /** ACKs with a valid sample of a packet sent after the last round began. */
  function RoundStarts(w: Width, s: Bbr, es: seq<Event>): nat {
    if es == [] then 0
    else
      var front, e := es[..|es| - 1], es[|es| - 1];
      RoundStarts(w, s, front) + (if e.Ack? && StartsRound(w, Run(w, s, front), e.rs) then 1 else 0)
  }

  lemma AckCounts(w: Width, s: Bbr, rs: RateSample, tp: Sock)
    ensures BbrMain(w, s, rs, tp).model.rttCnt ==
            if StartsRound(w, s, rs) then Wrap(w, s.model.rttCnt + 1) else s.model.rttCnt
  {
    LinuxWrap.LtFrame(w, CountRound(w, s, rs, tp), rs.losses, rs.isAppLimited, tp);
    var s1 := UpdateBw(w, s, rs, tp);
    MiddleKeepsMax(w, s1, rs, tp);
    ControlPaces(UpdateModel(w, s, rs, tp), rs, tp);
    hide LtBwSampling, UpdateCyclePhase, CheckFullBwReached, CheckDrain, UpdateMinRtt, Control, StartsRound;
  }

  lemma StepCounts(w: Width, s: Bbr, e: Event)
    ensures Step(w, s, e).model.rttCnt ==
            if e.Ack? && StartsRound(w, s, e.rs) then Wrap(w, s.model.rttCnt + 1) else s.model.rttCnt
  {
    match e
    case Ack(rs, tp) =>
      AckCounts(w, s, rs, tp);
      hide BbrMain, StartsRound;
    case CaState(newState, tp) =>
      LinuxWrap.LtFrame(w, AtTimeout(s), 1, false, tp);
      hide LtBwSampling;
    case _ =>
      hide RateBytesPerSec;
  }

  /** rtt_cnt counts them, on counters of either width. */
  lemma {:induction false} RoundsAreCounted(w: Width, s: Bbr, es: seq<Event>)
    requires Fresh(s)
    ensures Run(w, s, es).model.rttCnt == Wrap(w, RoundStarts(w, s, es))
  {
    hide Step, StartsRound;
    if es != [] {
      var front := es[..|es| - 1];
      RoundsAreCounted(w, s, front);
      StepCounts(w, Run(w, s, front), es[|es| - 1]);
      WrapSum(RoundStarts(w, s, front), 1);
    }
  }
}
