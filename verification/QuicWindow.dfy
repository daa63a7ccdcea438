/** The lower half of window control in the QUIC sender: the congestion window grows with
    what is acknowledged, up to its target, and GROWTH releases what it promises. */
module QuicWindow {
  import opened BbrModes
  import opened QuicBbr
  import QuicCycle
  import QuicModes
  import QuicPath

  // ----- The congestion window -----

  /** What an event that acknowledges `acked` bytes makes of the window outside PROBE_RTT.
      With a full pipe it leaves every window n up to the old one and those bytes, up to
      the maximum, and within gain * BDP and the addition to it; and none above that.
      Before, the window grows by exactly those bytes below the target, and not above. */
  predicate Grew(s: Sender, acked: nat, extra: nat, s': Sender, n: nat) {
    var gain, top := s'.phase.cwndGain, s.cfg.maxCwnd;
    && (s'.pipe.full ==>
          && (n <= s.cwnd + acked && n <= top && QuicCycle.Within(s', gain, n - extra) ==> n <= s'.cwnd)
          && (QuicCycle.Above(s', gain, n - extra) ==> s'.cwnd < n))
    && (!s'.pipe.full ==>
          && (QuicCycle.Within(s', gain, s.cwnd + 1 - extra) || s'.path.totalAcked < s.cfg.initialCwnd ==>
                s'.cwnd == Min(Max(s.cwnd + acked, 4 * s.cfg.mss), top))
          && (QuicCycle.Above(s', gain, s.cwnd - extra) && s'.path.totalAcked >= s.cfg.initialCwnd ==>
                s'.cwnd == Min(Max(s.cwnd, 4 * s.cfg.mss), top)))
  }

  lemma SameTargets(s: Sender, t: Sender, gain: real, n: int)
    requires t.path == s.path && t.cfg == s.cfg
    ensures QuicCycle.Within(t, gain, n) == QuicCycle.Within(s, gain, n)
    ensures QuicCycle.Above(t, gain, n) == QuicCycle.Above(s, gain, n)
  {}

  lemma CalculationGrows(s: Sender, acked: nat, extra: nat, n: nat)
    requires s.phase.mode != ProbeRtt && s.phase.cwndGain > 0.0
    ensures Grew(s, acked, extra, CalculateCongestionWindow(s, acked, extra), n)
  {
    var s', gain := CalculateCongestionWindow(s, acked, extra), s.phase.cwndGain;
    var c := GetTargetCongestionWindow(s, gain);
    NearAndSame(s, s', gain, n - extra);
    NearAndSame(s, s', gain, s.cwnd + 1 - extra);
    NearAndSame(s, s', gain, s.cwnd - extra);
    hide QuicCycle.Within, QuicCycle.Above, GetTargetCongestionWindow;
  }

  lemma NearAndSame(s: Sender, t: Sender, gain: real, n: int)
    requires t.path == s.path && t.cfg == s.cfg && gain > 0.0
    ensures QuicCycle.Within(t, gain, n) ==> n <= GetTargetCongestionWindow(s, gain)
    ensures QuicCycle.Above(t, gain, n) ==> n > GetTargetCongestionWindow(s, gain) && n > 4 * s.cfg.mss
  {
    SameTargets(s, t, gain, n);
    QuicCycle.TargetIsNear(s, gain, n);
    hide GetTargetCongestionWindow;
  }

  /** The recovery window is not part of it. */
  lemma RecoveryIsApart(s: Sender, acked: nat, lost: nat, inFlight: nat, extra: nat, s0: Sender, n: nat)
    requires Grew(s0, acked, extra, s, n)
    ensures Grew(s0, acked, extra, CalculateRecoveryWindow(s, acked, lost, inFlight), n)
  {
    var t := CalculateRecoveryWindow(s, acked, lost, inFlight);
    assert t == s.(recovery := t.recovery);
    hide CalculateRecoveryWindow;
    SameTargets(s, t, s.phase.cwndGain, n - extra);
    SameTargets(s, t, s.phase.cwndGain, s0.cwnd + 1 - extra);
    SameTargets(s, t, s.phase.cwndGain, s0.cwnd - extra);
    hide QuicCycle.Within, QuicCycle.Above;
  }

  lemma SameStart(s: Sender, t: Sender, acked: nat, extra: nat, s': Sender, n: nat)
    requires s.cwnd == t.cwnd && s.cfg == t.cfg
    ensures Grew(s, acked, extra, s', n) == Grew(t, acked, extra, s', n)
  {}

  /** From any state. */
  lemma EventGrows(s: Sender, f: Feedback, n: nat)
    requires OnCongestionEvent(s, f).phase.mode != ProbeRtt && OnCongestionEvent(s, f).phase.cwndGain > 0.0
    ensures Grew(s, AckedBytes(f.acked), f.extra, OnCongestionEvent(s, f), n)
  {
    var s5 := QuicPath.BeforeWindows(s, f);
    var acked := AckedBytes(f.acked);
    QuicPath.ModelKeepsWindow(s, f);
    QuicModes.WindowsKeepPhase(s5, acked, LostBytes(f.lost), f.extra, f.inFlight);
    var s6 := CalculateCongestionWindow(s5, acked, f.extra);
    assert OnCongestionEvent(s, f) == CalculateRecoveryWindow(s6, acked, LostBytes(f.lost), f.inFlight);
    hide OnCongestionEvent, Grew, CalculateCongestionWindow, CalculateRecoveryWindow, QuicPath.BeforeWindows,
         AckedBytes, LostBytes;
    CalculationGrows(s5, acked, f.extra, n);
    RecoveryIsApart(s6, acked, LostBytes(f.lost), f.inFlight, f.extra, s5, n);
    SameStart(s, s5, acked, f.extra, OnCongestionEvent(s, f), n);
  }

  /** In PROBE_RTT the congestion window waits, and four segments may be in flight. */
  lemma ProbeRttWaits(s: Sender, f: Feedback, flight: nat)
    requires OnCongestionEvent(s, f).phase.mode == ProbeRtt
    ensures OnCongestionEvent(s, f).cwnd == s.cwnd
    ensures MaySend(OnCongestionEvent(s, f), flight) <==> flight < 4 * s.cfg.mss
  {
    var s5 := QuicPath.BeforeWindows(s, f);
    QuicPath.ModelKeepsWindow(s, f);
    QuicModes.WindowsKeepPhase(s5, AckedBytes(f.acked), LostBytes(f.lost), f.extra, f.inFlight);
    assert OnCongestionEvent(s, f) ==
           CalculateRecoveryWindow(CalculateCongestionWindow(s5, AckedBytes(f.acked), f.extra), AckedBytes(f.acked),
                                   LostBytes(f.lost), f.inFlight);
    hide OnCongestionEvent, QuicPath.BeforeWindows, AckedBytes, LostBytes, GetTargetCongestionWindow;
  }

  /** Elsewhere both windows gate in recovery, unless it is rate-based, and else the first. */
  lemma WindowsGate(s: Sender, flight: nat)
    requires s.phase.mode != ProbeRtt
    ensures MaySend(s, flight) <==>
            flight < s.cwnd &&
            (s.recovery.state != NotInRecovery && !s.cfg.rateBasedRecovery ==> flight < s.recovery.window)
  {}

  // ----- The window reaches its target -----

  /** Events that leave a full pipe outside PROBE_RTT, with targets of at least n. */
  ghost predicate Filling(s: Sender, es: seq<Event>, n: nat) {
    es == [] ||
    var front, e := es[..|es| - 1], es[|es| - 1];
    var t' := Run(s, es);
    && Filling(s, front, n)
    && (e.Congestion? ==>
          && t'.pipe.full && t'.phase.mode != ProbeRtt && t'.phase.cwndGain > 0.0
          && QuicCycle.Within(t', t'.phase.cwndGain, n - e.feedback.extra))
  }

  /** Over any number of them the window grows by all that is acknowledged, until it has
      reached n, or the maximum. */
  lemma {:induction false} WindowReaches(s: Sender, es: seq<Event>, n: nat)
    requires Filling(s, es, n) && n <= s.cfg.maxCwnd
    ensures var t := Run(s, es); t.cfg == s.cfg && Min(n, s.cwnd + QuicPath.TotalAcked(es)) <= t.cwnd
  {
    hide OnCongestionEvent, AckedBytes, QuicCycle.Within, QuicCycle.Above, Filling, Run, Grew, QuicPath.TotalAcked;
    if es == [] {
      NothingYet(s);
    } else {
      var front, e := es[..|es| - 1], es[|es| - 1];
      LastFills(s, es, n);
      WindowReaches(s, front, n);
      match e
      case Send(_, _, _, _, _) =>
      case Congestion(f) =>
        OneFills(Run(s, front), f, n, Min(n, s.cwnd + QuicPath.TotalAcked(es)));
    }
  }

  lemma NothingYet(s: Sender)
    ensures Run(s, []) == s && QuicPath.TotalAcked([]) == 0
  {}

  lemma OneFills(t: Sender, f: Feedback, n: nat, m: nat)
    requires var t' := OnCongestionEvent(t, f);
             && t'.pipe.full && t'.phase.mode != ProbeRtt && t'.phase.cwndGain > 0.0
             && QuicCycle.Within(t', t'.phase.cwndGain, n - f.extra)
    requires m <= n <= t.cfg.maxCwnd && m <= t.cwnd + AckedBytes(f.acked)
    ensures OnCongestionEvent(t, f).cwnd >= m && OnCongestionEvent(t, f).cfg == t.cfg
  {
    hide OnCongestionEvent, AckedBytes, QuicCycle.Within, QuicCycle.Above;
    QuicModes.ConfigStays(t, f);
    EventGrows(t, f, m);
    WithinLess(OnCongestionEvent(t, f), n - f.extra, m - f.extra);
  }

  lemma LastFills(s: Sender, es: seq<Event>, n: nat)
    requires es != [] && Filling(s, es, n)
    ensures var front, e, t' := es[..|es| - 1], es[|es| - 1], Run(s, es);
            && Filling(s, front, n) && t' == Step(Run(s, front), e)
            && QuicPath.TotalAcked(es) == QuicPath.TotalAcked(front) + QuicPath.AckedBy(e)
            && (e.Congestion? ==>
                  && t'.pipe.full && t'.phase.mode != ProbeRtt && t'.phase.cwndGain > 0.0
                  && QuicCycle.Within(t', t'.phase.cwndGain, n - e.feedback.extra))
  {
    hide OnCongestionEvent, AckedBytes, QuicCycle.Within;
  }

  lemma WithinLess(s: Sender, n: int, m: int)
    requires m <= n && QuicCycle.Within(s, s.phase.cwndGain, n)
    ensures QuicCycle.Within(s, s.phase.cwndGain, m)
  {
    hide QuicCycle.Times, QuicCycle.Bdp;
  }

  // ----- Recovery -----

  /** Once in recovery there is a window for it. */
  ghost predicate HasWindow(s: Sender) {
    s.recovery.state != NotInRecovery && !s.cfg.rateBasedRecovery ==> s.recovery.window > 0
  }

  /** The recovery window in GROWTH after an event: room for what it releases. */
  predicate Released(cfg: Config, w: nat, a: nat, lost: nat, inFlight: nat, w': nat) {
    w' == Max(4 * cfg.mss,
              if cfg.fixConservation then Max((if w >= lost then w - lost else cfg.mss) + a, inFlight + a)
              else inFlight + 2 * a)
  }

  lemma CalculationReleases(s: Sender, a: nat, lost: nat, inFlight: nat)
    ensures var t := CalculateRecoveryWindow(s, a, lost, inFlight);
            && HasWindow(t) && t.cfg == s.cfg && t.recovery.state == s.recovery.state
            && (s.recovery.state == Growth && !s.cfg.rateBasedRecovery && s.recovery.window > 0 ==>
                  Released(s.cfg, s.recovery.window, a, lost, inFlight, t.recovery.window))
  {}

  /** Acknowledgements leave the recovery window, but for the entry to recovery. */
  lemma AcksKeepWindow(s: Sender, f: Feedback)
    requires f.acked != []
    ensures var t := AbsorbAcks(s, f);
            && t.cfg == s.cfg
            && (t.recovery.state == Growth ==>
                  t.recovery.window == s.recovery.window && s.recovery.state != NotInRecovery)
  {
    hide UpdateBandwidthAndMinRtt;
  }

  lemma ModelKeepsRecovery(s: Sender, f: Feedback)
    ensures QuicPath.BeforeWindows(s, f).recovery == (if f.acked != [] then AbsorbAcks(s, f) else s).recovery
  {
    var s1 := if f.acked != [] then AbsorbAcks(s, f) else s;
    hide AbsorbAcks, GetTargetCongestionWindow, AdvancesGainCycle, QueueDrained, CheckIfFullBandwidthReached,
         EntryOffset, CycleGain;
    var s4 := UpdateModel(s, f);
    assert s4.recovery == s1.recovery;
    hide UpdateModel;
  }

  lemma EventRecovers(s: Sender, f: Feedback)
    ensures var s' := OnCongestionEvent(s, f);
            && HasWindow(s') && s'.cfg == s.cfg
            && (s'.recovery.state == Growth && !s.cfg.rateBasedRecovery && HasWindow(s) ==>
                  Released(s.cfg, s.recovery.window, AckedBytes(f.acked), LostBytes(f.lost), f.inFlight,
                           s'.recovery.window))
  {
    var s5 := QuicPath.BeforeWindows(s, f);
    QuicPath.ModelKeepsWindow(s, f);
    ModelKeepsRecovery(s, f);
    if f.acked != [] {
      AcksKeepWindow(s, f);
    }
    var s6 := CalculateCongestionWindow(s5, AckedBytes(f.acked), f.extra);
    assert s6.recovery == s5.recovery && s6.cfg == s5.cfg;
    assert OnCongestionEvent(s, f) == CalculateRecoveryWindow(s6, AckedBytes(f.acked), LostBytes(f.lost), f.inFlight);
    hide OnCongestionEvent, QuicPath.BeforeWindows, AckedBytes, LostBytes, CalculateCongestionWindow,
         CalculateRecoveryWindow, AbsorbAcks, Released;
    CalculationReleases(s6, AckedBytes(f.acked), LostBytes(f.lost), f.inFlight);
  }

  lemma {:induction false} RunHasWindow(cfg: Config, es: seq<Event>)
    ensures HasWindow(Run(Init(cfg), es)) && Run(Init(cfg), es).cfg == cfg
  {
    if es != [] {
      RunHasWindow(cfg, es[..|es| - 1]);
      match es[|es| - 1]
      case Send(_, _, _, _, _) =>
      case Congestion(f) => EventRecovers(Run(Init(cfg), es[..|es| - 1]), f);
      hide OnCongestionEvent, AckedBytes, LostBytes;
    }
  }

  /** What GROWTH releases: after an event the recovery window leaves room for twice the
      acknowledged bytes above the flight, or, with fix_conservation2, for once; and then it
      is never below the old one less the losses plus what is acknowledged. */
  predicate Releases(s: Sender, f: Feedback, s': Sender) {
    var w, w', a := s.recovery.window, s'.recovery.window, AckedBytes(f.acked);
    && w' >= f.inFlight + (if s.cfg.fixConservation then a else 2 * a)
    && (s.cfg.fixConservation ==> w' + LostBytes(f.lost) >= w + a)
    && (w' <= Max(4 * s.cfg.mss, f.inFlight + 2 * a) || (s.cfg.fixConservation && w' <= Max(w, s.cfg.mss) + a))
  }

  lemma EventReleases(s: Sender, f: Feedback)
    requires HasWindow(s) && !s.cfg.rateBasedRecovery && OnCongestionEvent(s, f).recovery.state == Growth
    ensures Releases(s, f, OnCongestionEvent(s, f))
  {
    hide OnCongestionEvent, AckedBytes, LostBytes, Released;
    EventRecovers(s, f);
    RoomIs(s.cfg, s.recovery.window, AckedBytes(f.acked), LostBytes(f.lost), f.inFlight,
           OnCongestionEvent(s, f).recovery.window);
  }

  /** So in every run. */
  lemma GrowthReleases(cfg: Config, es: seq<Event>, f: Feedback)
    requires !cfg.rateBasedRecovery && Run(Init(cfg), es + [Congestion(f)]).recovery.state == Growth
    ensures Releases(Run(Init(cfg), es), f, Run(Init(cfg), es + [Congestion(f)]))
  {
    assert (es + [Congestion(f)])[..|es|] == es;
    hide OnCongestionEvent, Releases, HasWindow;
    RunHasWindow(cfg, es);
    EventReleases(Run(Init(cfg), es), f);
  }

  lemma RoomIs(cfg: Config, w: nat, a: nat, lost: nat, inFlight: nat, w': nat)
    requires Released(cfg, w, a, lost, inFlight, w')
    ensures w' >= inFlight + (if cfg.fixConservation then a else 2 * a)
    ensures cfg.fixConservation ==> w' + lost >= w + a
    ensures w' <= Max(4 * cfg.mss, inFlight + 2 * a) || (cfg.fixConservation && w' <= Max(w, cfg.mss) + a)
    ensures inFlight + a + lost >= w ==> w' + lost >= w + a
  {}

  function TotalLost(es: seq<Event>): nat {
    if es == [] then 0
    else TotalLost(es[..|es| - 1]) +
         (if es[|es| - 1].Congestion? then LostBytes(es[|es| - 1].feedback.lost) else 0)
  }

  /** Events in GROWTH, each of which finds the flight it says; without fix_conservation2 a
      flight that has used the window up. */
  ghost predicate Growing(s: Sender, es: seq<Event>) {
    es == [] ||
    var front, e := es[..|es| - 1], es[|es| - 1];
    && Growing(s, front)
    && (e.Congestion? ==>
          var f := e.feedback;
          && Run(s, es).recovery.state == Growth
          && f.priorInFlight == f.inFlight + AckedBytes(f.acked) + LostBytes(f.lost)
          && (s.cfg.fixConservation || f.priorInFlight >= Run(s, front).recovery.window))
  }

  /** So over any number of events GROWTH grows the window by all that is acknowledged,
      less the losses. */
  lemma {:induction false} GrowthGrows(s: Sender, es: seq<Event>)
    requires HasWindow(s) && !s.cfg.rateBasedRecovery && Growing(s, es)
    ensures var t := Run(s, es);
            && HasWindow(t) && t.cfg == s.cfg
            && t.recovery.window + TotalLost(es) >= s.recovery.window + QuicPath.TotalAcked(es)
  {
    if es != [] {
      var front, e := es[..|es| - 1], es[|es| - 1];
      hide OnCongestionEvent, AckedBytes, LostBytes, Released, Growing, HasWindow;
      LastGrows(s, es);
      GrowthGrows(s, front);
      var t := Run(s, front);
      match e
      case Send(_, _, _, _, _) =>
        SendKeepsRecovery(t, e);
      case Congestion(f) =>
        EventRecovers(t, f);
        RoomIs(s.cfg, t.recovery.window, AckedBytes(f.acked), LostBytes(f.lost), f.inFlight,
               OnCongestionEvent(t, f).recovery.window);
    }
  }

  lemma SendKeepsRecovery(s: Sender, e: Event)
    requires e.Send?
    ensures HasWindow(Step(s, e)) == HasWindow(s) && Step(s, e).recovery == s.recovery && Step(s, e).cfg == s.cfg
  {}

  lemma LastGrows(s: Sender, es: seq<Event>)
    requires es != [] && Growing(s, es)
    ensures var front, e := es[..|es| - 1], es[|es| - 1];
            && Growing(s, front)
            && (e.Congestion? ==>
                  var f := e.feedback;
                  && Run(s, es).recovery.state == Growth
                  && f.priorInFlight == f.inFlight + AckedBytes(f.acked) + LostBytes(f.lost)
                  && (s.cfg.fixConservation || f.priorInFlight >= Run(s, front).recovery.window))
  {}
}
