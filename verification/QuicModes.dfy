/** The QUIC sender refines the BBR state machine, and its STARTUP ends. */
module QuicModes {
  import opened BbrModes
  import opened QuicBbr
  import BbrMachine
  import FullPipe

  predicate GainsMatch(s: Sender) {
    var p := s.phase;
    match p.mode
    case Startup => p.pacingGain == HIGH_GAIN && p.cwndGain == HIGH_GAIN
    case Drain => p.pacingGain == DRAIN_GAIN && p.cwndGain == HIGH_GAIN
    case ProbeBw => p.pacingGain == CycleGain(p.offset) && p.cwndGain == s.cfg.cwndGainConstant
    case ProbeRtt => p.pacingGain == 1.0
  }

  ghost predicate Refines(s: Sender, m: BbrMachine.Machine) {
    && GainsMatch(s)
    && s.phase.mode == m.mode
    && s.pipe.full == m.full
    && (s.phase.mode == ProbeBw ==> s.phase.offset == m.phase)
  }

  /** The state after the gain cycle and the full-pipe check of an event. */
  function AfterCycle(s: Sender, f: Feedback): Sender {
    var s1 := if f.acked != [] then AbsorbAcks(s, f) else s;
    if s1.phase.mode == ProbeBw then UpdateGainCyclePhase(s1, f) else s1
  }

  function AfterPipe(s: Sender, f: Feedback): Sender {
    var s2 := AfterCycle(s, f);
    if IsRoundStart(s, f) && !s2.pipe.full then s2.(pipe := CheckIfFullBandwidthReached(s2)) else s2
  }

  function FeedbackChoice(s: Sender, f: Feedback): BbrMachine.Choice {
    var s1 := if f.acked != [] then AbsorbAcks(s, f) else s;
    var s3 := AfterPipe(s, f);
    var s4 := UpdateModel(s, f);
    BbrMachine.Choice(
      false,
      AdvancesGainCycle(s1, f),
      s3.pipe.full,
      QueueDrained(ExitStartup(s3), f),
      ExpiresMinRtt(s, f) && !s4.probe.exitingQuiescence,
      OnCongestionEvent(s, f).phase.mode != ProbeRtt,
      EntryOffset(f.draw))
  }

  function ChoiceOf(s: Sender, e: Event): BbrMachine.Choice {
    match e
    case Send(_, _, _, _, _) => BbrMachine.IDLE
    case Congestion(f) => FeedbackChoice(s, f)
  }

  function Choices(s: Sender, es: seq<Event>): (cs: seq<BbrMachine.Choice>)
    ensures |cs| == |es|
  {
    if es == [] then []
    else Choices(s, es[..|es| - 1]) + [ChoiceOf(Run(s, es[..|es| - 1]), es[|es| - 1])]
  }

  lemma EntryIsLegal(draw: nat)
    ensures BbrMachine.LegalEntry(EntryOffset(draw))
  {}

  /** Acknowledgements, and the windows, leave modes and gains alone. */
  lemma AbsorbKeepsPhase(s: Sender, f: Feedback)
    requires f.acked != []
    ensures AbsorbAcks(s, f).phase == s.phase && AbsorbAcks(s, f).pipe == s.pipe
    ensures AbsorbAcks(s, f).cfg == s.cfg && AbsorbAcks(s, f).probe == s.probe
  {}

  lemma WindowsKeepPhase(s: Sender, a: nat, l: nat, extra: nat, inFlight: nat)
    ensures var s' := CalculateRecoveryWindow(CalculateCongestionWindow(s, a, extra), a, l, inFlight);
            s'.phase == s.phase && s'.pipe == s.pipe && s'.cfg == s.cfg && s'.probe == s.probe && s'.path == s.path
  {}

  lemma CycleRefines(s: Sender, f: Feedback, m: BbrMachine.Machine)
    requires Refines(s, m)
    ensures Refines(AfterCycle(s, f), BbrMachine.Cycle(m, FeedbackChoice(s, f)))
  {
    if f.acked != [] {
      AbsorbKeepsPhase(s, f);
    }
    hide AbsorbAcks, AdvancesGainCycle, AfterPipe, UpdateModel, OnCongestionEvent;
  }

  /** s3 is s2 after the full-pipe check. */
  lemma FillAndDrainRefines(s2: Sender, s3: Sender, f: Feedback, m: BbrMachine.Machine, c: BbrMachine.Choice)
    requires Refines(s2, m) && BbrMachine.Sound(m)
    requires s3 == s2.(pipe := s3.pipe) && (s2.pipe.full ==> s3.pipe.full)
    requires c.fills == s3.pipe.full && c.entry == EntryOffset(f.draw)
    requires c.drained == QueueDrained(ExitStartup(s3), f)
    ensures Refines(MaybeExitStartupOrDrain(s3, f), BbrMachine.FillAndDrain(m, c))
  {}

  lemma DipAndReturnRefines(s: Sender, f: Feedback, start: bool, expired: bool,
                            m: BbrMachine.Machine, c: BbrMachine.Choice)
    requires Refines(s, m) && c.entry == EntryOffset(f.draw)
    requires c.dip == (expired && !s.probe.exitingQuiescence)
    requires c.finish == (MaybeEnterOrExitProbeRtt(s, f, start, expired).phase.mode != ProbeRtt)
    ensures Refines(MaybeEnterOrExitProbeRtt(s, f, start, expired), BbrMachine.DipAndReturn(m, c))
  {}

  lemma FeedbackRefines(s: Sender, f: Feedback, m: BbrMachine.Machine)
    requires Refines(s, m) && BbrMachine.Sound(m)
    ensures Refines(OnCongestionEvent(s, f), BbrMachine.Step(m, FeedbackChoice(s, f)))
  {
    var c := FeedbackChoice(s, f);
    EntryIsLegal(f.draw);
    CycleRefines(s, f, m);
    var s2, m2 := AfterCycle(s, f), BbrMachine.Cycle(m, c);
    BbrMachine.CycleSound(m, c);
    FillAndDrainRefines(s2, AfterPipe(s, f), f, m2, c);
    var s4, m4 := UpdateModel(s, f), BbrMachine.FillAndDrain(m2, c);
    assert s4 == MaybeExitStartupOrDrain(AfterPipe(s, f), f);
    var s5 := MaybeEnterOrExitProbeRtt(s4, f, IsRoundStart(s, f), ExpiresMinRtt(s, f));
    WindowsKeepPhase(s5, AckedBytes(f.acked), LostBytes(f.lost), f.extra, f.inFlight);
    DipAndReturnRefines(s4, f, IsRoundStart(s, f), ExpiresMinRtt(s, f), m4, c);
  }

  lemma StepRefines(s: Sender, e: Event, m: BbrMachine.Machine)
    requires Refines(s, m) && BbrMachine.Sound(m)
    ensures Refines(Step(s, e), BbrMachine.Step(m, ChoiceOf(s, e)))
    ensures BbrMachine.LegalEntry(ChoiceOf(s, e).entry)
  {
    match e
    case Send(_, _, _, _, _) =>
    case Congestion(f) =>
      FeedbackRefines(s, f, m);
      EntryIsLegal(f.draw);
  }

  /** Every run of the QUIC sender is a run of the BBR state machine. */
  lemma {:induction false} RunRefines(cfg: Config, es: seq<Event>)
    ensures BbrMachine.LegalRun(Choices(Init(cfg), es))
    ensures Refines(Run(Init(cfg), es), BbrMachine.Run(Choices(Init(cfg), es)))
  {
    if es != [] {
      var s, front := Init(cfg), es[..|es| - 1];
      RunRefines(cfg, front);
      var cs := Choices(s, es);
      assert cs[..|cs| - 1] == Choices(s, front);
      BbrMachine.RunSound(Choices(s, front));
      StepRefines(Run(s, front), es[|es| - 1], BbrMachine.Run(Choices(s, front)));
    }
  }

  /** In every reachable state DRAIN and PROBE_BW mean a full pipe, STARTUP one that is
      not full, and the gains are those of the mode. */
  lemma ModesAreSound(cfg: Config, es: seq<Event>)
    ensures var t := Run(Init(cfg), es);
            && (t.phase.mode == Drain || t.phase.mode == ProbeBw ==> t.pipe.full)
            && (t.phase.mode == Startup ==> !t.pipe.full)
            && GainsMatch(t)
  {
    RunRefines(cfg, es);
    BbrMachine.RunSound(Choices(Init(cfg), es));
  }

  /** Gain cycle fairness for the QUIC sender. */
  lemma CycleIsFair(cfg: Config, es: seq<Event>, n: nat)
    requires Run(Init(cfg), es).phase.mode == ProbeBw
    requires n <= |BbrMachine.Run(Choices(Init(cfg), es)).paced|
    ensures var t, paced := Run(Init(cfg), es), BbrMachine.Run(Choices(Init(cfg), es)).paced;
            && |paced| > 0 && t.phase.pacingGain == paced[|paced| - 1] as real / 4.0
            && 4 * n <= BbrMachine.Sum(paced[..n]) <= 4 * n + 1
  {
    RunRefines(cfg, es);
    var cs := Choices(Init(cfg), es);
    BbrMachine.CycleIsFair(cs, n);
    BbrMachine.NewestGain(cs);
  }

  lemma StepKeepsFull(s: Sender, e: Event)
    ensures s.pipe.full ==> Step(s, e).pipe == s.pipe
  {
    match e
    case Send(_, _, _, _, _) =>
    case Congestion(f) =>
      PipeEffect(s, f);
      hide OnCongestionEvent, AfterCycle;
  }

  /** A full pipe is never undone. */
  lemma {:induction false} FullForever(cfg: Config, es: seq<Event>, n: nat)
    requires n <= |es| && Run(Init(cfg), es[..n]).pipe.full
    ensures Run(Init(cfg), es).pipe.full
    decreases |es|
  {
    if n == |es| {
      assert es[..n] == es;
    } else {
      var front := es[..|es| - 1];
      assert front[..n] == es[..n];
      FullForever(cfg, front, n);
      StepKeepsFull(Run(Init(cfg), front), es[|es| - 1]);
    }
  }

  // ----- STARTUP ends -----

  function Threshold(x: real): real {
    x * STARTUP_GROWTH_TARGET
  }

  function DetectorOf(s: Sender): FullPipe.Detector {
    FullPipe.Detector(s.pipe.lastBw, s.pipe.stalls)
  }

  /** An event evaluates the pipe at a round start that is not application-limited. */
  predicate Evaluates(s: Sender, f: Feedback) {
    IsRoundStart(s, f) && !s.pipe.full && !AfterCycle(s, f).path.lastAppLimited
  }

  function ProbesOf(s: Sender, e: Event): (ps: seq<FullPipe.Probe>)
    ensures |ps| <= 1
  {
    match e
    case Send(_, _, _, _, _) => []
    case Congestion(f) => if Evaluates(s, f) then [FullPipe.Evaluate(AfterCycle(s, f).path.maxBw)] else []
  }

  function Trace(s: Sender, es: seq<Event>): seq<FullPipe.Probe> {
    if es == [] then [] else Trace(s, es[..|es| - 1]) + ProbesOf(Run(s, es[..|es| - 1]), es[|es| - 1])
  }

  /** The detector changes in the full-pipe check only. */
  lemma PipeEffect(s: Sender, f: Feedback)
    ensures OnCongestionEvent(s, f).pipe == AfterPipe(s, f).pipe
    ensures AfterCycle(s, f).pipe == s.pipe && OnCongestionEvent(s, f).cfg == s.cfg && AfterCycle(s, f).cfg == s.cfg
  {
    if f.acked != [] {
      AbsorbKeepsPhase(s, f);
    }
    var s3 := AfterPipe(s, f);
    assert UpdateModel(s, f) == MaybeExitStartupOrDrain(s3, f);
    var s5 := MaybeEnterOrExitProbeRtt(UpdateModel(s, f), f, IsRoundStart(s, f), ExpiresMinRtt(s, f));
    assert s5.pipe == s3.pipe && s5.cfg == s.cfg;
    WindowsKeepPhase(s5, AckedBytes(f.acked), LostBytes(f.lost), f.extra, f.inFlight);
  }

  lemma ConfigStays(s: Sender, f: Feedback)
    ensures OnCongestionEvent(s, f).cfg == s.cfg
  {
    PipeEffect(s, f);
  }

  /** The pipe is full exactly when the detector has seen enough stalled rounds. */
  ghost predicate Agrees(s: Sender, limit: nat) {
    s.cfg.startupRounds == limit && (s.pipe.full <==> FullPipe.Full(limit, DetectorOf(s)))
  }

  lemma StepDetects(s: Sender, e: Event, limit: nat)
    requires Agrees(s, limit) && limit > 0
    ensures Agrees(Step(s, e), limit)
    ensures DetectorOf(Step(s, e)) ==
            if ProbesOf(s, e) == [] then DetectorOf(s)
            else FullPipe.Step(Threshold, limit, DetectorOf(s), ProbesOf(s, e)[0])
  {
    match e
    case Send(_, _, _, _, _) =>
    case Congestion(f) =>
      PipeEffect(s, f);
      hide OnCongestionEvent, AfterCycle;
  }

  lemma {:induction false} RunDetects(cfg: Config, es: seq<Event>)
    requires cfg.startupRounds > 0
    ensures Agrees(Run(Init(cfg), es), cfg.startupRounds)
    ensures DetectorOf(Run(Init(cfg), es)) ==
            FullPipe.Run(Threshold, cfg.startupRounds, FullPipe.Detector(0.0, 0), Trace(Init(cfg), es))
  {
    if es != [] {
      var s, front, e := Init(cfg), es[..|es| - 1], es[|es| - 1];
      RunDetects(cfg, front);
      StepDetects(Run(s, front), e, cfg.startupRounds);
      var ps, qs := Trace(s, front), ProbesOf(Run(s, front), e);
      if qs == [] {
        assert ps + qs == ps;
      } else {
        assert (ps + qs)[..|ps + qs| - 1] == ps;
      }
    }
  }

  lemma {:induction false} NoResets(s: Sender, es: seq<Event>)
    ensures FullPipe.Resets(Trace(s, es)) == 0
  {
    if es != [] {
      var ps, qs := Trace(s, es[..|es| - 1]), ProbesOf(Run(s, es[..|es| - 1]), es[|es| - 1]);
      NoResets(s, es[..|es| - 1]);
      if qs == [] {
        assert ps + qs == ps;
      } else {
        assert (ps + qs)[..|ps + qs| - 1] == ps;
      }
    }
  }

  /** STARTUP terminates with a geometric bound: with estimates in [b, top] and a top
      below b * 1.25^g, the pipe is full after startupRounds * g + 1 evaluated rounds. */
  lemma StartupEnds(cfg: Config, es: seq<Event>, b: real, top: real, g: nat)
    requires cfg.startupRounds > 0 && 0.0 < b && top < FullPipe.Rung(Threshold, b, g)
    requires FullPipe.InBand(Trace(Init(cfg), es), b, top)
    requires FullPipe.Evaluations(Trace(Init(cfg), es)) >= FullPipe.Allowance(cfg.startupRounds, g, 0)
    ensures Run(Init(cfg), es).pipe.full
  {
    RunDetects(cfg, es);
    NoResets(Init(cfg), es);
    ThresholdIsGrowth(b);
    FullPipe.FillsWithin(Threshold, cfg.startupRounds, b, top, g, Trace(Init(cfg), es));
  }

  lemma ThresholdIsGrowth(b: real)
    requires 0.0 < b
    ensures FullPipe.Threshold(Threshold, b) && Threshold(0.0) >= 0.0
  {}
}
