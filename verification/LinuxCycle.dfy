/** When the phases of the kernel sender end: the gain cycle and DRAIN, by elapsed time and
    by the flight against ideal, unrounded targets. */
module LinuxCycle {
  import opened Words
  import opened BbrModes
  import opened LinuxArith
  import opened LinuxBbr
  import opened LinuxControl

  // ----- The end of a phase -----

  lemma UnusedKeepsPhase(w: Width, s: Bbr, losses: nat, isAppLimited: bool, tp: Sock)
    requires !s.lt.useBw && !LtBwSampling(w, s, losses, isAppLimited, tp).lt.useBw
    ensures LtBwSampling(w, s, losses, isAppLimited, tp).phase == s.phase
  {
    hide TooFewLosses, JiffiesToUsecs, IntervalRate, ConsistentRates, Average, Diff, SDiff;
  }

  /** The state in which an ACK looks at the gain cycle. */
  lemma AtCycle(w: Width, t: Bbr, rs: RateSample, tp: Sock)
    ensures var s1, t' := UpdateBw(w, t, rs, tp), BbrMain(w, t, rs, tp);
            && s1.rtt == t.rtt && s1.win.tsoSegsGoal == t.win.tsoSegsGoal
            && s1.lt == t'.lt && s1.model.maxBw == t'.model.maxBw
            && (!t.lt.useBw && !t'.lt.useBw ==> s1.phase == t.phase)
  {
    var s0 := CountRound(w, t, rs, tp);
    LinuxWrap.LtFrame(w, s0, rs.losses, rs.isAppLimited, tp);
    LinuxModes.OnlyUpdateBwTouchesLt(w, t, rs, tp);
    FilterTakesIff(w, t, rs, tp);
    ControlPaces(UpdateModel(w, t, rs, tp), rs, tp);
    if ValidSample(rs) && !s0.lt.useBw && !LtBwSampling(w, s0, rs.losses, rs.isAppLimited, tp).lt.useBw {
      UnusedKeepsPhase(w, s0, rs.losses, rs.isAppLimited, tp);
    }
    hide LtBwSampling, Control, UpdateModel, Before;
  }

  /** After the gain cycle an ACK that finds PROBE_BW leaves phase index and stamp. */
  lemma AfterCycle(w: Width, s: Bbr, rs: RateSample, tp: Sock)
    requires s.phase.mode == ProbeBw
    ensures var t := UpdateMinRtt(w, CheckDrain(CheckFullBwReached(s, rs), tp), rs, tp);
            t.phase.cycleIdx == s.phase.cycleIdx && t.phase.cycleStamp == s.phase.cycleStamp
            && (t.phase.mode == ProbeBw || t.phase.mode == ProbeRtt)
  {
    var s3 := CheckDrain(CheckFullBwReached(s, rs), tp);
    assert s3.phase == s.phase by {
      hide FullBwThreshold, QueueDrained;
    }
    hide CheckDrain, CheckFullBwReached, MinRttExpired, MsecsToJiffies, After;
  }

  /** The gain of the target that the phase looks at. */
  function Probed(gain: nat): nat {
    if gain > BBR_UNIT then gain else BBR_UNIT
  }

  /** The unrounded target of the phase when an ACK is handled that leads from t to t'. */
  predicate IdealOf(t: Bbr, t': Bbr, gain: nat, ideal: nat) {
    && IdealFits(t'.model.maxBw, t.rtt.minRtt, gain, t.win.tsoSegsGoal)
    && ideal == Ideal(t'.model.maxBw, t.rtt.minRtt, gain, t.win.tsoSegsGoal)
  }

  /** When a phase of this gain ends that has lasted `elapsed`: at gain 1 exactly after the
      min RTT; above it only then, and if there are losses or the flight has reached the
      target; below it then, or when the flight is down at the target. */
  predicate EndsInTime(gain: nat, elapsed: int, minRtt: nat, losses: nat, flight: nat, ideal: nat, ended: bool) {
    && (gain == BBR_UNIT ==> (ended <==> elapsed > minRtt))
    && (gain > BBR_UNIT ==>
          && (ended ==> elapsed > minRtt && (losses > 0 || flight * U32 + BBR_UNIT > ideal))
          && (elapsed > minRtt && (losses > 0 || flight * U32 >= ideal + U32) ==> ended))
    && (gain < BBR_UNIT ==>
          && (elapsed > minRtt || flight * U32 <= ideal ==> ended)
          && (ended ==> elapsed > minRtt || flight * U32 < ideal + 2 * U32))
  }

  lemma DecisionIsNear(s: Bbr, rs: RateSample, tp: Sock, ideal: nat)
    requires IdealFits(s.model.maxBw, s.rtt.minRtt, Probed(s.phase.pacingGain), s.win.tsoSegsGoal)
    requires ideal == Ideal(s.model.maxBw, s.rtt.minRtt, Probed(s.phase.pacingGain), s.win.tsoSegsGoal)
    ensures EndsInTime(s.phase.pacingGain, tp.stampUs - s.phase.cycleStamp, s.rtt.minRtt, rs.losses, rs.priorInFlight,
                       ideal, IsNextCyclePhase(s, rs, tp))
  {
    TargetIsNear(s.model.maxBw, s.rtt.minRtt, Probed(s.phase.pacingGain), s.win.tsoSegsGoal, rs.priorInFlight);
    hide TargetCwnd, Ideal, IdealFits;
  }

  /** An ACK in PROBE_BW without a rate of the policer: the phase goes on, or the next
      begins now, as decided. */
  lemma PhaseByAck(w: Width, t: Bbr, rs: RateSample, tp: Sock, ideal: nat)
    requires t.phase.mode == ProbeBw && t.phase.cycleIdx < CYCLE_LEN
    requires !t.lt.useBw && !BbrMain(w, t, rs, tp).lt.useBw
    requires IdealOf(t, BbrMain(w, t, rs, tp), Probed(t.phase.pacingGain), ideal)
    ensures var t' := BbrMain(w, t, rs, tp);
            var ended := t'.phase.cycleIdx == (t.phase.cycleIdx + 1) % CYCLE_LEN;
            && EndsInTime(t.phase.pacingGain, tp.stampUs - t.phase.cycleStamp, t.rtt.minRtt, rs.losses,
                          rs.priorInFlight, ideal, ended)
            && (if ended then t'.phase.cycleStamp == tp.stampUs
                else t'.phase.cycleIdx == t.phase.cycleIdx && t'.phase.cycleStamp == t.phase.cycleStamp)
  {
    var s1 := UpdateBw(w, t, rs, tp);
    AtCycle(w, t, rs, tp);
    ControlPaces(UpdateModel(w, t, rs, tp), rs, tp);
    hide UpdateBw, Control, CheckDrain, CheckFullBwReached, UpdateMinRtt, EndsInTime, IsNextCyclePhase, Ideal,
         IdealFits;
    DecisionIsNear(s1, rs, tp, ideal);
    AfterCycle(w, UpdateCyclePhase(s1, rs, tp), rs, tp);
  }

  // ----- When the phase began -----

  function StampOf(e: Event, otherwise: int): int {
    match e
    case Ack(_, tp) => tp.stampUs
    case CaState(_, tp) => tp.stampUs
    case _ => otherwise
  }

  /** A phase begins: PROBE_BW is entered, the index moves, or the rate of the policer is
      given up. */
  predicate Begins(t: Bbr, t': Bbr) {
    || (t.phase.mode != ProbeBw && t'.phase.mode == ProbeBw)
    || t'.phase.cycleIdx != t.phase.cycleIdx
    || (t.lt.useBw && !t'.lt.useBw)
  }

  /** The time at which the current phase began. */
  function PhaseStart(w: Width, s: Bbr, es: seq<Event>): int {
    if es == [] then s.phase.cycleStamp
    else
      var front, e := es[..|es| - 1], es[|es| - 1];
      if Begins(Run(w, s, front), Run(w, s, es)) then StampOf(e, PhaseStart(w, s, front)) else PhaseStart(w, s, front)
  }

  /** The stamp is that time. */
  ghost predicate Stamped(t: Bbr, start: int) {
    t.phase.mode == ProbeBw ==> t.phase.cycleStamp == start
  }

  /** How the cycle of PROBE_BW changes by an event with the stamp. */
  predicate Moved(t: Bbr, t': Bbr, stamp: int) {
    t'.phase.mode == ProbeBw ==>
      || (Begins(t, t') && t'.phase.cycleStamp == stamp)
      || (!Begins(t, t') && t.phase.mode == ProbeBw && t'.phase.cycleStamp == t.phase.cycleStamp)
  }

  lemma LtMoves(w: Width, s: Bbr, losses: nat, isAppLimited: bool, tp: Sock)
    requires s.phase.cycleIdx < CYCLE_LEN
    ensures Moved(s, LtBwSampling(w, s, losses, isAppLimited, tp), tp.stampUs)
    ensures LtBwSampling(w, s, losses, isAppLimited, tp).phase.cycleIdx < CYCLE_LEN
  {
    hide TooFewLosses, JiffiesToUsecs, IntervalRate, ConsistentRates, Average, Diff, SDiff;
  }

  /** PROBE_BW is entered with the stamp of the ACK. */
  lemma EntryStamps(w: Width, s: Bbr, rs: RateSample, tp: Sock)
    requires s.phase.mode != ProbeBw
    ensures var t := UpdateMinRtt(w, CheckDrain(CheckFullBwReached(s, rs), tp), rs, tp);
            t.phase.mode == ProbeBw ==> t.phase.cycleStamp == tp.stampUs
  {
    hide FullBwThreshold, QueueDrained, MinRttExpired, MsecsToJiffies, After;
    var s4 := CheckDrain(CheckFullBwReached(s, rs), tp);
    assert s4.phase.mode == ProbeBw ==> s4.phase.cycleStamp == tp.stampUs;
    hide CheckDrain, CheckFullBwReached;
  }

  /** Up to the detector: what becomes of a phase of PROBE_BW. */
  lemma BwMoves(w: Width, t: Bbr, rs: RateSample, tp: Sock)
    requires t.phase.cycleIdx < CYCLE_LEN
    ensures var s1 := UpdateBw(w, t, rs, tp);
            && s1.phase.cycleIdx < CYCLE_LEN && s1.phase.mode == t.phase.mode
            && (if t.lt.useBw && !s1.lt.useBw then t.phase.mode == ProbeBw && s1.phase.cycleStamp == tp.stampUs
                else s1.phase.cycleStamp == t.phase.cycleStamp && s1.phase.cycleIdx == t.phase.cycleIdx)
  {
    LtDrops(w, CountRound(w, t, rs, tp), rs.losses, rs.isAppLimited, tp);
    hide LtBwSampling, Before;
  }

  lemma LtDrops(w: Width, s: Bbr, losses: nat, isAppLimited: bool, tp: Sock)
    requires s.phase.cycleIdx < CYCLE_LEN
    ensures var t := LtBwSampling(w, s, losses, isAppLimited, tp);
            && t.phase.cycleIdx < CYCLE_LEN && t.phase.mode == s.phase.mode
            && (if s.lt.useBw && !t.lt.useBw then s.phase.mode == ProbeBw && t.phase.cycleStamp == tp.stampUs
                else t.phase.cycleStamp == s.phase.cycleStamp && t.phase.cycleIdx == s.phase.cycleIdx)
  {
    hide TooFewLosses, JiffiesToUsecs, IntervalRate, ConsistentRates, Average, Diff, SDiff;
  }

  lemma AckMoves(w: Width, t: Bbr, rs: RateSample, tp: Sock)
    requires t.phase.cycleIdx < CYCLE_LEN
    ensures Moved(t, BbrMain(w, t, rs, tp), tp.stampUs)
  {
    var s1 := UpdateBw(w, t, rs, tp);
    var s2 := UpdateCyclePhase(s1, rs, tp);
    BwMoves(w, t, rs, tp);
    AtCycle(w, t, rs, tp);
    ControlPaces(UpdateModel(w, t, rs, tp), rs, tp);
    if t.phase.mode == ProbeBw {
      AfterCycle(w, s2, rs, tp);
    } else {
      EntryStamps(w, s2, rs, tp);
    }
    hide UpdateBw, Control, CheckDrain, CheckFullBwReached, UpdateMinRtt, IsNextCyclePhase;
  }

  lemma StepMoves(w: Width, t: Bbr, e: Event, start: int)
    requires t.phase.cycleIdx < CYCLE_LEN && Stamped(t, start)
    ensures var t' := Step(w, t, e); Stamped(t', if Begins(t, t') then StampOf(e, start) else start)
  {
    match e
    case Ack(rs, tp) =>
      AckMoves(w, t, rs, tp);
      hide BbrMain;
    case CaState(newState, tp) =>
      LtMoves(w, AtTimeout(t), 1, false, tp);
      LinuxWrap.LtFrame(w, AtTimeout(t), 1, false, tp);
      hide LtBwSampling;
    case _ =>
      hide RateBytesPerSec;
  }

  lemma {:induction false} RunStamps(w: Width, s: Bbr, es: seq<Event>)
    requires Fresh(s)
    ensures Stamped(Run(w, s, es), PhaseStart(w, s, es))
  {
    if es != [] {
      var front := es[..|es| - 1];
      RunStamps(w, s, front);
      LinuxModes.ModesAreSound(w, s, front);
      hide Step, Fresh, Begins, LinuxModes.GainsMatch;
      StepMoves(w, Run(w, s, front), es[|es| - 1], PhaseStart(w, s, front));
    }
  }

  /** The gain cycle in every run: in PROBE_BW, while no rate of the policer is in use, an
      ACK ends the phase of gain 5/4, 3/4 or 1 when EndsInTime says so, counted from the
      event with which the phase began. */
  lemma PhasesEndInTime(w: Width, s: Bbr, es: seq<Event>, rs: RateSample, tp: Sock, ideal: nat)
    requires Fresh(s)
    requires var t, t' := Run(w, s, es), Run(w, s, es + [Ack(rs, tp)]);
             && t.phase.mode == ProbeBw && !t.lt.useBw && !t'.lt.useBw
             && IdealOf(t, t', if t.phase.cycleIdx == 0 then 320 else 256, ideal)
    ensures var t, t' := Run(w, s, es), Run(w, s, es + [Ack(rs, tp)]);
            EndsInTime(if t.phase.cycleIdx == 0 then 320 else if t.phase.cycleIdx == 1 then 192 else 256,
                       tp.stampUs - PhaseStart(w, s, es), t.rtt.minRtt, rs.losses, rs.priorInFlight, ideal,
                       t'.phase.cycleIdx == (t.phase.cycleIdx + 1) % CYCLE_LEN)
  {
    hide Run, Fresh, BbrMain, EndsInTime, IdealOf, LinuxModes.GainsMatch, LinuxModes.FieldsFit, PhaseStart, Stamped,
         CyclePacingGain;
    var t := Run(w, s, es);
    RunStamps(w, s, es);
    LinuxModes.ModesAreSound(w, s, es);
    RunAppends(w, s, es, Ack(rs, tp));
    GainOf(t, PhaseStart(w, s, es));
    PhaseByAck(w, t, rs, tp, ideal);
  }

  lemma GainOf(t: Bbr, start: int)
    requires t.phase.mode == ProbeBw && !t.lt.useBw && LinuxModes.GainsMatch(t) && LinuxModes.FieldsFit(t)
    requires Stamped(t, start)
    ensures t.phase.pacingGain == (if t.phase.cycleIdx == 0 then 320 else if t.phase.cycleIdx == 1 then 192 else 256)
    ensures t.phase.cycleIdx < CYCLE_LEN && t.phase.cycleStamp == start
  {}

  /** While the rate of the policer is in use PROBE_BW paces at gain 1 from the ACK with which
      it comes into use, and keeps its phase. */
  lemma PolicedPaces(w: Width, t: Bbr, rs: RateSample, tp: Sock)
    requires t.phase.mode == ProbeBw && BbrMain(w, t, rs, tp).phase.mode == ProbeBw
    requires BbrMain(w, t, rs, tp).lt.useBw
    ensures var t' := BbrMain(w, t, rs, tp);
            && t'.phase.pacingGain == (if t.lt.useBw then t.phase.pacingGain else BBR_UNIT)
            && t'.phase.cycleIdx == t.phase.cycleIdx && t'.phase.cycleStamp == t.phase.cycleStamp
  {
    var s1 := UpdateBw(w, t, rs, tp);
    AtCycle(w, t, rs, tp);
    UsedGain(w, CountRound(w, t, rs, tp), rs.losses, rs.isAppLimited, tp);
    assert s1.phase == t.phase.(pacingGain := if t.lt.useBw then t.phase.pacingGain else BBR_UNIT) by {
      hide LtBwSampling, Before;
    }
    KeptGain(w, s1, rs, tp);
    ControlPaces(UpdateModel(w, t, rs, tp), rs, tp);
    hide UpdateBw, Control, CheckDrain, CheckFullBwReached, UpdateMinRtt, IsNextCyclePhase;
  }

  lemma UsedGain(w: Width, s: Bbr, losses: nat, isAppLimited: bool, tp: Sock)
    requires LtBwSampling(w, s, losses, isAppLimited, tp).lt.useBw
    ensures LtBwSampling(w, s, losses, isAppLimited, tp).phase ==
            s.phase.(pacingGain := if s.lt.useBw then s.phase.pacingGain else BBR_UNIT)
  {
    hide TooFewLosses, JiffiesToUsecs, IntervalRate, ConsistentRates, Average, Diff, SDiff;
  }

  lemma KeptGain(w: Width, s: Bbr, rs: RateSample, tp: Sock)
    requires s.phase.mode == ProbeBw
    ensures var t := UpdateMinRtt(w, CheckDrain(CheckFullBwReached(s, rs), tp), rs, tp);
            t.phase.mode == ProbeBw ==> t.phase == s.phase
  {
    var s3 := CheckDrain(CheckFullBwReached(s, rs), tp);
    assert s3.phase == s.phase by {
      hide FullBwThreshold, QueueDrained;
    }
    hide CheckDrain, CheckFullBwReached, MinRttExpired, MsecsToJiffies, After;
  }

  // ----- The end of DRAIN -----

  /** An ACK in STARTUP or DRAIN, once the pipe is full: PROBE_BW, if the flight is at most
      BDP and three segment goals; DRAIN, if it is two packets or more above. */
  lemma DrainByAck(w: Width, t: Bbr, rs: RateSample, tp: Sock, ideal: nat)
    requires t.phase.mode == Startup || t.phase.mode == Drain
    requires IdealOf(t, BbrMain(w, t, rs, tp), BBR_UNIT, ideal)
    ensures var t' := BbrMain(w, t, rs, tp);
            && (t'.model.fullBwCnt >= BBR_FULL_BW_CNT && t'.phase.mode != ProbeRtt ==>
                  && (tp.inFlight * U32 <= ideal ==> t'.phase.mode == ProbeBw)
                  && (tp.inFlight * U32 >= ideal + 2 * U32 ==> t'.phase.mode == Drain))
            && (t'.model.fullBwCnt < BBR_FULL_BW_CNT && t.phase.mode == Startup ==>
                  t'.phase.mode == Startup || t'.phase.mode == ProbeRtt)
  {
    var s2 := UpdateCyclePhase(UpdateBw(w, t, rs, tp), rs, tp);
    BwMovesMode(w, t, rs, tp);
    AtCycle(w, t, rs, tp);
    ControlPaces(UpdateModel(w, t, rs, tp), rs, tp);
    var s3 := CheckFullBwReached(s2, rs);
    LinuxWrap.MinRttKeepsFull(w, CheckDrain(s3, tp), rs, tp);
    DrainIsNear(s3, tp, ideal);
    ModeAfterDrain(w, CheckDrain(s3, tp), rs, tp);
    hide UpdateBw, Control, CheckDrain, UpdateMinRtt, Ideal, IdealFits, FullBwThreshold;
  }

  lemma BwMovesMode(w: Width, t: Bbr, rs: RateSample, tp: Sock)
    ensures UpdateBw(w, t, rs, tp).phase.mode == t.phase.mode
  {
    LinuxWrap.LtFrame(w, CountRound(w, t, rs, tp), rs.losses, rs.isAppLimited, tp);
    hide LtBwSampling, Before;
  }

  lemma DrainIsNear(s: Bbr, tp: Sock, ideal: nat)
    requires s.phase.mode == Startup || s.phase.mode == Drain
    requires IdealFits(s.model.maxBw, s.rtt.minRtt, BBR_UNIT, s.win.tsoSegsGoal)
    requires ideal == Ideal(s.model.maxBw, s.rtt.minRtt, BBR_UNIT, s.win.tsoSegsGoal)
    ensures var t := CheckDrain(s, tp);
            && FullBwReached(t) == FullBwReached(s)
            && (FullBwReached(s) || s.phase.mode == Drain ==>
                  && (tp.inFlight * U32 <= ideal ==> t.phase.mode == ProbeBw)
                  && (tp.inFlight * U32 >= ideal + 2 * U32 ==> t.phase.mode == Drain))
            && (!FullBwReached(s) && s.phase.mode == Startup ==> t.phase.mode == Startup)
  {
    TargetIsNear(s.model.maxBw, s.rtt.minRtt, BBR_UNIT, s.win.tsoSegsGoal, tp.inFlight);
    hide TargetCwnd, Ideal, IdealFits;
  }

  lemma ModeAfterDrain(w: Width, s: Bbr, rs: RateSample, tp: Sock)
    requires s.phase.mode != ProbeRtt
    ensures var t := UpdateMinRtt(w, s, rs, tp); t.phase.mode == s.phase.mode || t.phase.mode == ProbeRtt
  {
    hide MinRttExpired, MsecsToJiffies, After;
  }

  // ----- Where a stay begins -----

  /** The phase in which a draw lets PROBE_BW begin. */
  function Entered(draw: nat): nat {
    ResetProbeBwMode(Phase(Drain, DRAIN_GAIN, HIGH_GAIN, 0, 0),
                     Sock(0, 0, 0, 0, 0, 0, TCP_CA_OPEN, 0, 0, 0, 0, 0, draw)).cycleIdx
  }

  lemma EnteredIs(draw: nat)
    ensures Entered(draw) == if draw % 7 == 0 then 0 else 8 - draw % 7
  {
    hide CyclePacingGain;
  }

  /** Every phase but that of gain 3/4 is entered by some draw, and different draws below
      seven enter different ones. */
  lemma EveryPhaseIsEntered(p: nat)
    ensures (exists draw :: Entered(draw) == p) <==> p < CYCLE_LEN && p != 1
    ensures forall a, b :: Entered(a) == Entered(b) ==> a % 7 == b % 7
  {
    hide Entered;
    forall draw: nat ensures Entered(draw) == if draw % 7 == 0 then 0 else 8 - draw % 7 {
      EnteredIs(draw);
    }
    if p < CYCLE_LEN && p != 1 {
      assert Entered(if p == 0 then 0 else 8 - p) == p;
    }
  }
}
