/** The kernel sender refines the BBR state machine, whatever its counters do. */
module LinuxModes {
  import opened Words
  import opened BbrModes
  import opened LinuxArith
  import opened LinuxBbr
  import BbrMachine

  /** The long-term estimator paces at the plain rate, whatever the mode. */
  predicate Overridden(s: Bbr) {
    s.lt.useBw && s.phase.pacingGain == BBR_UNIT
  }

  predicate GainsMatch(s: Bbr) {
    var p := s.phase;
    match p.mode
    case Startup => p.cwndGain == HIGH_GAIN && (p.pacingGain == HIGH_GAIN || Overridden(s))
    case Drain => p.cwndGain == HIGH_GAIN && (p.pacingGain == DRAIN_GAIN || Overridden(s))
    case ProbeBw => p.cwndGain == CWND_GAIN && (p.pacingGain == CyclePacingGain(p.cycleIdx) || Overridden(s))
    case ProbeRtt => p.cwndGain == BBR_UNIT && p.pacingGain == BBR_UNIT
  }

  /** Every bit field holds its value: prev_ca_state:3, cycle_idx:3, full_bw_cnt:3,
      lt_rtt_cnt:7 and tso_segs_goal:7 are never truncated. */
  predicate FieldsFit(s: Bbr) {
    && s.phase.cycleIdx < CYCLE_LEN
    && s.model.fullBwCnt <= BBR_FULL_BW_CNT
    && s.lt.rttCnt <= (if s.lt.useBw then BBR_LT_BW_MAX_RTTS - 1 else 4 * BBR_LT_INTVL_MIN_RTTS)
    && s.win.tsoSegsGoal <= 0x7F
    && s.win.prevCaState < 8
  }

  ghost predicate Refines(s: Bbr, m: BbrMachine.Machine) {
    && GainsMatch(s)
    && FieldsFit(s)
    && s.phase.mode == m.mode
    && FullBwReached(s) == m.full
    && (s.phase.mode == ProbeBw ==> s.phase.cycleIdx == m.phase)
  }

  /** The phase in which a new PROBE_BW stay begins. */
  function EntryPhase(tp: Sock): nat {
    (CYCLE_LEN - 1 - tp.draw % BBR_CYCLE_RAND + 1) % CYCLE_LEN
  }

  /** What the event makes the machine decide. */
  function AckChoice(w: Width, s: Bbr, rs: RateSample, tp: Sock): BbrMachine.Choice {
    var s1 := UpdateBw(w, s, rs, tp);
    var s2 := UpdateCyclePhase(s1, rs, tp);
    var s3 := CheckFullBwReached(s2, rs);
    var s4 := EnterDrain(s3);
    var s5 := CheckDrain(s3, tp);
    BbrMachine.Choice(
      s.lt.useBw && !s1.lt.useBw,
      !s1.lt.useBw && IsNextCyclePhase(s1, rs, tp),
      FullBwReached(s3),
      QueueDrained(s4, tp),
      MinRttExpired(w, s5, tp) && !s5.rtt.idleRestart,
      UpdateMinRtt(w, s5, rs, tp).phase.mode != ProbeRtt,
      EntryPhase(tp))
  }

  function ChoiceOf(w: Width, s: Bbr, e: Event): BbrMachine.Choice {
    match e
    case Ack(rs, tp) => AckChoice(w, s, rs, tp)
    case CaState(_, tp) => BbrMachine.IDLE.(restart := s.lt.useBw && !Step(w, s, e).lt.useBw, entry := EntryPhase(tp))
    case _ => BbrMachine.IDLE
  }

  function Choices(w: Width, s: Bbr, es: seq<Event>): (cs: seq<BbrMachine.Choice>)
    ensures |cs| == |es|
  {
    if es == [] then []
    else Choices(w, s, es[..|es| - 1]) + [ChoiceOf(w, Run(w, s, es[..|es| - 1]), es[|es| - 1])]
  }

  lemma EntryIsLegal(tp: Sock)
    ensures BbrMachine.LegalEntry(EntryPhase(tp))
  {}

  /** A fresh PROBE_BW stay never lets the same ACK advance its phase. */
  lemma LtSamplingRefines(w: Width, s: Bbr, losses: nat, isAppLimited: bool, tp: Sock, m: BbrMachine.Machine)
    requires Refines(s, m)
    ensures var s' := LtBwSampling(w, s, losses, isAppLimited, tp);
            var dropped := s.lt.useBw && !s'.lt.useBw;
            && (dropped ==>
                  && s.phase.mode == ProbeBw
                  && s'.phase.cycleStamp == tp.stampUs && s'.phase.pacingGain >= BBR_UNIT)
            && Refines(s', if dropped then BbrMachine.EnterProbeBw(m, EntryPhase(tp)) else m)
  {}

  lemma UpdateBwRefines(w: Width, s: Bbr, rs: RateSample, tp: Sock, m: BbrMachine.Machine)
    requires Refines(s, m)
    ensures var s' := UpdateBw(w, s, rs, tp);
            var dropped := s.lt.useBw && !s'.lt.useBw;
            && (dropped ==> s.phase.mode == ProbeBw && !IsNextCyclePhase(s', rs, tp))
            && Refines(s', if dropped then BbrMachine.EnterProbeBw(m, EntryPhase(tp)) else m)
  {
    var s1 := CountRound(w, s, rs, tp);
    if ValidSample(rs) {
      LtSamplingRefines(w, s1, rs.losses, rs.isAppLimited, tp, m);
    }
  }

  lemma CycleRefines(w: Width, s: Bbr, rs: RateSample, tp: Sock, m: BbrMachine.Machine)
    requires Refines(s, m)
    ensures Refines(UpdateCyclePhase(UpdateBw(w, s, rs, tp), rs, tp), BbrMachine.Cycle(m, AckChoice(w, s, rs, tp)))
  {
    UpdateBwRefines(w, s, rs, tp, m);
  }

  lemma FillAndDrainRefines(s: Bbr, rs: RateSample, tp: Sock, c: BbrMachine.Choice, m: BbrMachine.Machine)
    requires Refines(s, m) && BbrMachine.Sound(m)
    requires c.fills == FullBwReached(CheckFullBwReached(s, rs)) && c.entry == EntryPhase(tp)
    requires c.drained == QueueDrained(EnterDrain(CheckFullBwReached(s, rs)), tp)
    ensures Refines(CheckDrain(CheckFullBwReached(s, rs), tp), BbrMachine.FillAndDrain(m, c))
  {}

  lemma DipAndReturnRefines(w: Width, s: Bbr, rs: RateSample, tp: Sock, c: BbrMachine.Choice, m: BbrMachine.Machine)
    requires Refines(s, m) && c.entry == EntryPhase(tp)
    requires c.dip == (MinRttExpired(w, s, tp) && !s.rtt.idleRestart)
    requires c.finish == (UpdateMinRtt(w, s, rs, tp).phase.mode != ProbeRtt)
    ensures Refines(UpdateMinRtt(w, s, rs, tp), BbrMachine.DipAndReturn(m, c))
  {
    hide MinRttExpired, MsecsToJiffies, After, Before;
  }

  /** Pacing and window control leave the state machine alone. */
  lemma ControlRefines(s: Bbr, rs: RateSample, tp: Sock, m: BbrMachine.Machine)
    requires Refines(s, m)
    ensures Refines(Control(s, rs, tp), m)
  {}

  lemma AckRefines(w: Width, s: Bbr, rs: RateSample, tp: Sock, m: BbrMachine.Machine)
    requires Refines(s, m) && BbrMachine.Sound(m)
    ensures Refines(BbrMain(w, s, rs, tp), BbrMachine.Step(m, AckChoice(w, s, rs, tp)))
  {
    var c := AckChoice(w, s, rs, tp);
    EntryIsLegal(tp);
    CycleRefines(w, s, rs, tp, m);
    BbrMachine.CycleSound(m, c);
    var s2, m2 := UpdateCyclePhase(UpdateBw(w, s, rs, tp), rs, tp), BbrMachine.Cycle(m, c);
    FillAndDrainRefines(s2, rs, tp, c, m2);
    var s4, m4 := CheckDrain(CheckFullBwReached(s2, rs), tp), BbrMachine.FillAndDrain(m2, c);
    DipAndReturnRefines(w, s4, rs, tp, c, m4);
    var s5, m5 := UpdateMinRtt(w, s4, rs, tp), BbrMachine.DipAndReturn(m4, c);
    ControlRefines(s5, rs, tp, m5);
  }

  lemma StepRefines(w: Width, s: Bbr, e: Event, m: BbrMachine.Machine)
    requires Refines(s, m) && BbrMachine.Sound(m)
    ensures Refines(Step(w, s, e), BbrMachine.Step(m, ChoiceOf(w, s, e)))
    ensures BbrMachine.LegalEntry(ChoiceOf(w, s, e).entry)
  {
    match e
    case Ack(rs, tp) =>
      AckRefines(w, s, rs, tp, m);
      EntryIsLegal(tp);
    case CaState(newState, tp) =>
      EntryIsLegal(tp);
      if newState == TCP_CA_LOSS {
        LtSamplingRefines(w, AtTimeout(s), 1, false, tp, m);
      }
    case _ =>
  }

  /** Every run of the kernel sender is a run of the BBR state machine. */
  lemma {:induction false} RunRefines(w: Width, s: Bbr, es: seq<Event>)
    requires Fresh(s)
    ensures BbrMachine.LegalRun(Choices(w, s, es))
    ensures Refines(Run(w, s, es), BbrMachine.Run(Choices(w, s, es)))
  {
    if es != [] {
      var front := es[..|es| - 1];
      RunRefines(w, s, front);
      var cs := Choices(w, s, es);
      assert cs[..|cs| - 1] == Choices(w, s, front);
      BbrMachine.RunSound(Choices(w, s, front));
      StepRefines(w, Run(w, s, front), es[|es| - 1], BbrMachine.Run(Choices(w, s, front)));
    }
  }

  /** In every reachable state DRAIN and PROBE_BW mean a full pipe, STARTUP one that
      is not full, and the gains are those of the mode, with one exception: the
      long-term estimator may pace at 1.0. No bit field ever overflows. */
  lemma ModesAreSound(w: Width, s: Bbr, es: seq<Event>)
    requires Fresh(s)
    ensures var t := Run(w, s, es);
            && (t.phase.mode == Drain || t.phase.mode == ProbeBw ==> FullBwReached(t))
            && (t.phase.mode == Startup ==> !FullBwReached(t))
            && GainsMatch(t) && FieldsFit(t)
  {
    RunRefines(w, s, es);
    BbrMachine.RunSound(Choices(w, s, es));
  }

  /** A full pipe is never undone. */
  lemma FullForever(w: Width, s: Bbr, es: seq<Event>, n: nat)
    requires Fresh(s) && n <= |es|
    ensures FullBwReached(Run(w, s, es[..n])) ==> FullBwReached(Run(w, s, es))
  {
    RunRefines(w, s, es);
    RunRefines(w, s, es[..n]);
    ChoicesOfPrefix(w, s, es, n);
    BbrMachine.FullForever(Choices(w, s, es), n);
  }

  lemma {:induction false} ChoicesOfPrefix(w: Width, s: Bbr, es: seq<Event>, n: nat)
    requires n <= |es|
    ensures Choices(w, s, es)[..n] == Choices(w, s, es[..n])
    decreases |es|
  {
    if n == |es| {
      assert es[..n] == es;
    } else {
      var front := es[..|es| - 1];
      assert front[..n] == es[..n];
      ChoicesOfPrefix(w, s, front, n);
    }
  }

  lemma MiddleKeepsLt(s: Bbr, rs: RateSample, tp: Sock)
    ensures CheckDrain(CheckFullBwReached(UpdateCyclePhase(s, rs, tp), rs), tp).lt == s.lt
  {
    hide IsNextCyclePhase, FullBwThreshold, QueueDrained;
  }

  lemma MinRttKeepsLt(w: Width, s: Bbr, rs: RateSample, tp: Sock)
    ensures UpdateMinRtt(w, s, rs, tp).lt == s.lt
  {
    hide MinRttExpired, S32;
  }

  lemma ControlKeepsLt(s: Bbr, rs: RateSample, tp: Sock)
    ensures Control(s, rs, tp).lt == s.lt
  {
    hide RateBytesPerSec, TargetCwnd, S32;
  }

  /** After bbr_update_bw an ACK leaves the long-term detector alone. */
  lemma OnlyUpdateBwTouchesLt(w: Width, s: Bbr, rs: RateSample, tp: Sock)
    ensures BbrMain(w, s, rs, tp).lt == UpdateBw(w, s, rs, tp).lt
  {
    var s1 := UpdateBw(w, s, rs, tp);
    MiddleKeepsLt(s1, rs, tp);
    var s2 := CheckDrain(CheckFullBwReached(UpdateCyclePhase(s1, rs, tp), rs), tp);
    MinRttKeepsLt(w, s2, rs, tp);
    ControlKeepsLt(UpdateMinRtt(w, s2, rs, tp), rs, tp);
    hide UpdateBw, UpdateCyclePhase, CheckFullBwReached, CheckDrain, UpdateMinRtt, Control;
  }

  lemma StepDropsInProbeBw(w: Width, s: Bbr, e: Event, m: BbrMachine.Machine)
    requires Refines(s, m)
    requires s.lt.useBw && !Step(w, s, e).lt.useBw
    ensures s.phase.mode == ProbeBw
  {
    match e
    case Ack(rs, tp) =>
      OnlyUpdateBwTouchesLt(w, s, rs, tp);
      UpdateBwRefines(w, s, rs, tp, m);
    case CaState(newState, tp) =>
      if newState == TCP_CA_LOSS {
        LtSamplingRefines(w, AtTimeout(s), 1, false, tp, m);
      }
    case _ =>
  }

  /** The long-term estimate is only ever given up in PROBE_BW. */
  lemma EstimateDroppedInProbeBw(w: Width, s: Bbr, es: seq<Event>, e: Event)
    requires Fresh(s)
    requires Run(w, s, es).lt.useBw && !Step(w, Run(w, s, es), e).lt.useBw
    ensures Run(w, s, es).phase.mode == ProbeBw
  {
    RunRefines(w, s, es);
    StepDropsInProbeBw(w, Run(w, s, es), e, BbrMachine.Run(Choices(w, s, es)));
  }

  /** Gain cycle fairness for the kernel sender: the pacing gain in PROBE_BW is the
      last of a list of phase gains whose first n always sum to n or n + 1/4. */
  lemma CycleIsFair(w: Width, s: Bbr, es: seq<Event>, n: nat)
    requires Fresh(s) && Run(w, s, es).phase.mode == ProbeBw
    requires n <= |BbrMachine.Run(Choices(w, s, es)).paced|
    ensures var t, paced := Run(w, s, es), BbrMachine.Run(Choices(w, s, es)).paced;
            && (Overridden(t) || (|paced| > 0 && t.phase.pacingGain == BBR_UNIT * paced[|paced| - 1] / 4))
            && 4 * n <= BbrMachine.Sum(paced[..n]) <= 4 * n + 1
  {
    RunRefines(w, s, es);
    var cs := Choices(w, s, es);
    BbrMachine.CycleIsFair(cs, n);
    BbrMachine.NewestGain(cs);
  }
}
