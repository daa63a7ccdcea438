/** When the phases of the QUIC sender end: the gain cycle and DRAIN, by elapsed time and
    by the flight against the unrounded bandwidth-delay product. */
module QuicCycle {
  import opened BbrModes
  import opened QuicBbr
  import QuicModes
  import QuicPath

  /** The bandwidth-delay product of a path, with the initial RTT while none is known. */
  function Bdp(s: Sender): real {
    s.path.maxBw * (if s.path.minRtt != 0 then s.path.minRtt else s.cfg.initialRtt) as real
  }

  function Times(gain: real, x: real): real {
    gain * x
  }

  /** n bytes are surely within the target of this gain: four segments, or gain * BDP up to
      the two truncations. */
  predicate Within(s: Sender, gain: real, n: int) {
    n <= 4 * s.cfg.mss || n as real <= Times(gain, Bdp(s) - 1.0)
  }

  /** n bytes are surely above it. */
  predicate Above(s: Sender, gain: real, n: int) {
    n > 4 * s.cfg.mss && n as real > Times(gain, Bdp(s)) && Times(gain, Bdp(s) - 1.0) >= 1.0
  }

  lemma TargetIsNear(s: Sender, gain: real, n: int)
    requires gain > 0.0
    ensures Within(s, gain, n) ==> n <= GetTargetCongestionWindow(s, gain)
    ensures Above(s, gain, n) ==> n > GetTargetCongestionWindow(s, gain)
    ensures 0.0 <= Bdp(s) < 1.0 ==>
              GetTargetCongestionWindow(s, gain) == Max(Scaled(gain, s.cfg.initialCwnd), 4 * s.cfg.mss)
  {
    BdpIsFloored(s);
    ScaledIsNear(gain, Scaled(s.path.maxBw, GetMinRtt(s)), Bdp(s), n);
    NothingScaled(gain);
    hide Scaled, Bdp, Times;
  }

  lemma BdpIsFloored(s: Sender)
    ensures Scaled(s.path.maxBw, GetMinRtt(s)) == Bdp(s).Floor
  {}

  lemma NothingScaled(gain: real)
    ensures Scaled(gain, 0) == 0
  {}

  lemma ScaledIsNear(gain: real, bdp: int, x: real, n: int)
    requires gain > 0.0 && bdp == x.Floor
    ensures n as real <= Times(gain, x - 1.0) ==> n <= Scaled(gain, bdp)
    ensures n as real > Times(gain, x) ==> n > Scaled(gain, bdp)
    ensures Times(gain, x - 1.0) >= 1.0 ==> Scaled(gain, bdp) >= 1
  {
    Grows(gain, x - 1.0, bdp as real);
    Grows(gain, bdp as real, x);
    assert Scaled(gain, bdp) == Times(gain, bdp as real).Floor;
    hide Times, Scaled;
  }

  lemma Grows(gain: real, x: real, y: real)
    requires gain > 0.0 && x <= y
    ensures Times(gain, x) <= Times(gain, y)
  {}

  // ----- The end of a phase -----

  /** When a phase of this gain ends that has lasted `elapsed`, for a path that s holds: at
      gain 1 exactly after the RTT; above it only then, and not while a flight within the
      target has no losses; below it then, or when the flight is down at the target. */
  predicate EndsInTime(s: Sender, gain: real, elapsed: int, lossFree: bool, flight: nat, ended: bool) {
    var late := elapsed > (if s.path.minRtt != 0 then s.path.minRtt else s.cfg.initialRtt);
    && (gain == 1.0 ==> (ended <==> late))
    && (gain > 1.0 ==>
          && (ended ==> late)
          && (lossFree && Within(s, gain, flight + 1) ==> !ended)
          && (late && (!lossFree || Above(s, gain, flight + 1)) ==> ended))
    && (gain < 1.0 ==>
          && (late || Within(s, 1.0, flight) ==> ended)
          && (!late && Above(s, 1.0, flight) ==> !ended))
  }

  lemma DecisionIsNear(s: Sender, f: Feedback)
    requires s.phase.pacingGain > 0.0
    ensures EndsInTime(s, s.phase.pacingGain, f.now - s.phase.cycleStart, f.lost == [], f.priorInFlight,
                       AdvancesGainCycle(s, f))
  {
    TargetIsNear(s, s.phase.pacingGain, f.priorInFlight + 1);
    TargetIsNear(s, 1.0, f.priorInFlight);
    hide GetTargetCongestionWindow, Within, Above;
  }

  /** What decides is the path that the event leaves. */
  lemma SamePath(s: Sender, f: Feedback, t: Sender)
    requires t.path.(minRttStamp := 0) == s.path.(minRttStamp := 0) && t.cfg == s.cfg
    ensures Bdp(t) == Bdp(s)
    ensures forall gain, elapsed, free, flight, ended ::
              EndsInTime(t, gain, elapsed, free, flight, ended) <==> EndsInTime(s, gain, elapsed, free, flight, ended)
  {}

  /** An event in PROBE_BW: the phase goes on, or the next begins now, as decided. */
  lemma PhaseByEvent(s: Sender, f: Feedback)
    requires s.phase.mode == ProbeBw && s.phase.offset < CYCLE_LEN && s.phase.pacingGain > 0.0
    ensures var s' := OnCongestionEvent(s, f);
            var ended := s'.phase.offset == (s.phase.offset + 1) % CYCLE_LEN;
            && EndsInTime(s', s.phase.pacingGain, f.now - s.phase.cycleStart, f.lost == [], f.priorInFlight, ended)
            && (if ended then s'.phase.cycleStart == f.now
                else s'.phase.offset == s.phase.offset && s'.phase.cycleStart == s.phase.cycleStart)
  {
    var s1 := if f.acked != [] then AbsorbAcks(s, f) else s;
    if f.acked != [] {
      QuicModes.AbsorbKeepsPhase(s, f);
    }
    QuicPath.PathEffect(s, f);
    QuicModes.ConfigStays(s, f);
    CyclePhase(s, f);
    assert s1.path == if f.acked != [] then UpdateBandwidthAndMinRtt(s, f) else s.path;
    hide OnCongestionEvent, AbsorbAcks, EndsInTime, UpdateBandwidthAndMinRtt;
    DecisionIsNear(s1, f);
    SamePath(s1, f, OnCongestionEvent(s, f));
  }

  lemma CyclePhase(s: Sender, f: Feedback)
    requires s.phase.mode == ProbeBw && s.phase.offset < CYCLE_LEN
    ensures var s1, s' := if f.acked != [] then AbsorbAcks(s, f) else s, OnCongestionEvent(s, f);
            && (s'.phase.mode == ProbeBw || s'.phase.mode == ProbeRtt)
            && (if AdvancesGainCycle(s1, f)
                then s'.phase.offset == (s.phase.offset + 1) % CYCLE_LEN && s'.phase.cycleStart == f.now
                else s'.phase.offset == s.phase.offset && s'.phase.cycleStart == s.phase.cycleStart)
  {
    if f.acked != [] {
      QuicModes.AbsorbKeepsPhase(s, f);
    }
    hide AbsorbAcks, AdvancesGainCycle, QueueDrained, EntryOffset, CycleGain, CheckIfFullBandwidthReached;
    var s4 := UpdateModel(s, f);
    var s5 := MaybeEnterOrExitProbeRtt(s4, f, IsRoundStart(s, f), ExpiresMinRtt(s, f));
    QuicModes.WindowsKeepPhase(s5, AckedBytes(f.acked), LostBytes(f.lost), f.extra, f.inFlight);
    hide UpdateModel;
    InProbeBw(s4, f, IsRoundStart(s, f), ExpiresMinRtt(s, f));
  }

  /** PROBE_RTT may begin, but not begin and end in one event, with another phase. */
  lemma InProbeBw(s: Sender, f: Feedback, start: bool, expired: bool)
    requires s.phase.mode == ProbeBw
    ensures var t := MaybeEnterOrExitProbeRtt(s, f, start, expired);
            && (t.phase.mode == ProbeBw || t.phase.mode == ProbeRtt)
            && t.phase.offset == s.phase.offset && t.phase.cycleStart == s.phase.cycleStart
  {}

  // ----- When the phase began -----

  /** A phase begins: PROBE_BW is entered, or the offset moves. */
  predicate Begins(t: Sender, t': Sender) {
    (t.phase.mode != ProbeBw && t'.phase.mode == ProbeBw) || t'.phase.offset != t.phase.offset
  }

  /** The time at which the current phase began. */
  function PhaseStart(s: Sender, es: seq<Event>): int {
    if es == [] then 0
    else
      var front, e := es[..|es| - 1], es[|es| - 1];
      if e.Congestion? && Begins(Run(s, front), Run(s, es)) then e.feedback.now else PhaseStart(s, front)
  }

  ghost predicate Stamped(t: Sender, start: int) {
    t.phase.offset < CYCLE_LEN && (t.phase.mode == ProbeBw ==> t.phase.cycleStart == start)
  }

  /** PROBE_BW is entered with the time of the event. */
  lemma EntryStamps(s: Sender, f: Feedback)
    requires s.phase.mode != ProbeBw && s.phase.offset < CYCLE_LEN
    ensures var t := OnCongestionEvent(s, f);
            && t.phase.offset < CYCLE_LEN
            && (t.phase.mode == ProbeBw ==> t.phase.cycleStart == f.now)
  {
    if f.acked != [] {
      QuicModes.AbsorbKeepsPhase(s, f);
    }
    hide AbsorbAcks, QueueDrained, CheckIfFullBandwidthReached, CycleGain;
    var s4 := UpdateModel(s, f);
    assert s4.phase.mode == ProbeBw ==> s4.phase.cycleStart == f.now;
    assert s4.phase.offset < CYCLE_LEN;
    var s5 := MaybeEnterOrExitProbeRtt(s4, f, IsRoundStart(s, f), ExpiresMinRtt(s, f));
    QuicModes.WindowsKeepPhase(s5, AckedBytes(f.acked), LostBytes(f.lost), f.extra, f.inFlight);
    hide UpdateModel;
  }

  lemma StepStamps(s: Sender, e: Event, start: int)
    requires Stamped(s, start)
    ensures var s' := Step(s, e);
            Stamped(s', if e.Congestion? && Begins(s, s') then e.feedback.now else start)
  {
    match e
    case Send(_, _, _, _, _) =>
    case Congestion(f) =>
      if s.phase.mode == ProbeBw {
        CyclePhase(s, f);
      } else {
        EntryStamps(s, f);
      }
      hide OnCongestionEvent, AdvancesGainCycle, AbsorbAcks;
  }

  lemma {:induction false} RunStamps(cfg: Config, es: seq<Event>)
    ensures Stamped(Run(Init(cfg), es), PhaseStart(Init(cfg), es))
  {
    if es != [] {
      var front := es[..|es| - 1];
      RunStamps(cfg, front);
      StepStamps(Run(Init(cfg), front), es[|es| - 1], PhaseStart(Init(cfg), front));
      hide Step, Begins, Stamped;
    }
  }

  /** The gain cycle in every run: an event in PROBE_BW ends the phase of gain 5/4, 3/4 or 1
      when EndsInTime says so, counted from the event with which the phase began. */
  lemma PhasesEndInTime(cfg: Config, es: seq<Event>, f: Feedback)
    requires Run(Init(cfg), es).phase.mode == ProbeBw
    ensures var t, t' := Run(Init(cfg), es), Run(Init(cfg), es + [Congestion(f)]);
            EndsInTime(t', if t.phase.offset == 0 then 1.25 else if t.phase.offset == 1 then 0.75 else 1.0,
                       f.now - PhaseStart(Init(cfg), es), f.lost == [], f.priorInFlight,
                       t'.phase.offset == (t.phase.offset + 1) % CYCLE_LEN)
  {
    hide OnCongestionEvent, EndsInTime, PhaseStart, CycleGain;
    assert (es + [Congestion(f)])[..|es|] == es;
    var t := Run(Init(cfg), es);
    RunStamps(cfg, es);
    QuicModes.ModesAreSound(cfg, es);
    GainOf(t.phase.offset);
    PhaseByEvent(t, f);
  }

  lemma GainOf(offset: nat)
    requires offset < CYCLE_LEN
    ensures CycleGain(offset) == if offset == 0 then 1.25 else if offset == 1 then 0.75 else 1.0
  {}

  // ----- The end of DRAIN -----

  /** An event in STARTUP or DRAIN, once the pipe is full: PROBE_BW, if the flight is
      within the target of gain 1; DRAIN, if it is above. */
  lemma DrainByEvent(s: Sender, f: Feedback)
    requires s.phase.mode == Startup || s.phase.mode == Drain
    requires s.phase.mode == Drain ==> s.pipe.full
    ensures var s' := OnCongestionEvent(s, f);
            && (s'.pipe.full && s'.phase.mode != ProbeRtt ==>
                  && (Within(s', 1.0, f.inFlight) ==> s'.phase.mode == ProbeBw)
                  && (Above(s', 1.0, f.inFlight) ==> s'.phase.mode == Drain))
            && (!s'.pipe.full ==> s'.phase.mode == Startup || s'.phase.mode == ProbeRtt)
  {
    QuicPath.PathEffect(s, f);
    QuicModes.PipeEffect(s, f);
    var s1 := if f.acked != [] then AbsorbAcks(s, f) else s;
    assert s1.path == if f.acked != [] then UpdateBandwidthAndMinRtt(s, f) else s.path;
    ModeAfterDrain(s, f);
    hide OnCongestionEvent, AbsorbAcks, UpdateBandwidthAndMinRtt, Within, Above, GetTargetCongestionWindow,
         QuicModes.AfterCycle;
    TargetIsNear(s1, 1.0, f.inFlight);
    SameTarget(s1, OnCongestionEvent(s, f), f.inFlight);
  }

  lemma SameTarget(s: Sender, t: Sender, n: int)
    requires t.path.(minRttStamp := 0) == s.path.(minRttStamp := 0) && t.cfg == s.cfg
    ensures Within(t, 1.0, n) == Within(s, 1.0, n) && Above(t, 1.0, n) == Above(s, 1.0, n)
  {}

  lemma ModeAfterDrain(s: Sender, f: Feedback)
    requires s.phase.mode == Startup || s.phase.mode == Drain
    requires s.phase.mode == Drain ==> s.pipe.full
    ensures var s1, s' := if f.acked != [] then AbsorbAcks(s, f) else s, OnCongestionEvent(s, f);
            && (s'.phase.mode != ProbeRtt ==>
                  s'.phase.mode == if !s'.pipe.full then Startup
                                   else if f.inFlight <= GetTargetCongestionWindow(s1, 1.0) then ProbeBw
                                   else Drain)
            && s1.cfg == s.cfg && s'.cfg == s.cfg
  {
    if f.acked != [] {
      QuicModes.AbsorbKeepsPhase(s, f);
    }
    QuicModes.PipeEffect(s, f);
    var s1 := if f.acked != [] then AbsorbAcks(s, f) else s;
    assert QuicModes.AfterCycle(s, f) == s1;
    var s3 := QuicModes.AfterPipe(s, f);
    assert UpdateModel(s, f) == MaybeExitStartupOrDrain(s3, f);
    assert s3 == s1.(pipe := s3.pipe);
    SameWindow(s1, s3);
    var s4 := MaybeExitStartupOrDrain(s3, f);
    var s5 := MaybeEnterOrExitProbeRtt(s4, f, IsRoundStart(s, f), ExpiresMinRtt(s, f));
    QuicModes.WindowsKeepPhase(s5, AckedBytes(f.acked), LostBytes(f.lost), f.extra, f.inFlight);
    hide AbsorbAcks, UpdateModel, CheckIfFullBandwidthReached, EntryOffset, CycleGain, QuicModes.AfterPipe,
         QuicModes.AfterCycle, IsRoundStart, ExpiresMinRtt, GetTargetCongestionWindow;
    TargetIgnoresPhase(s3);
  }

  lemma SameWindow(s: Sender, t: Sender)
    requires t == s.(pipe := t.pipe)
    ensures GetTargetCongestionWindow(t, 1.0) == GetTargetCongestionWindow(s, 1.0)
  {}

  lemma TargetIgnoresPhase(s: Sender)
    ensures GetTargetCongestionWindow(ExitStartup(s), 1.0) == GetTargetCongestionWindow(s, 1.0)
  {}

  // ----- Where a stay begins -----

  /** Every phase but that of gain 3/4 is entered by some draw, and different draws below
      seven enter different ones. */
  lemma EveryPhaseIsEntered(p: nat)
    ensures (exists draw :: EntryOffset(draw) == p) <==> p < CYCLE_LEN && p != 1
    ensures forall a, b :: EntryOffset(a) == EntryOffset(b) ==> a % 7 == b % 7
  {
    if p < CYCLE_LEN && p != 1 {
      assert EntryOffset(if p == 0 then 0 else p - 1) == p;
    }
  }
}
