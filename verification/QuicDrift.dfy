/** CONSERVATION of the QUIC sender conserves exactly if all packets have one size: runs
    of unequal packets in which the flight outgrows its cap, by up to one byte less than
    a packet with every congestion event. */
module QuicDrift {
  import opened BbrModes
  import opened QuicBbr
  import opened Remainders
  import QuicConservation
  import QuicModes
  import QuicPath
  import QuicRounds

  function Flight(cfg: Config, q: Size, es: seq<Event>): QuicConservation.Flight {
    QuicConservation.Story(Init(cfg), es, q)
  }

  /** Sends are gated and of at most a segment, flights add up, packet numbers grow, and
      only sent packets are acknowledged. */
  ghost predicate Legal(cfg: Config, q: Size, es: seq<Event>) {
    QuicConservation.LegalRun(Init(cfg), es, q) && QuicRounds.LegalRun(Init(cfg), es)
  }

  ghost predicate WasSent(cfg: Config, es: seq<Event>, pn: nat) {
    pn in QuicRounds.Story(Init(cfg), es).sentAt
  }

  lemma Extend(cfg: Config, q: Size, es: seq<Event>, e: Event)
    requires Legal(cfg, q, es) && QuicConservation.Legal(Run(Init(cfg), es), Flight(cfg, q, es), e, q)
    requires QuicRounds.Legal(Run(Init(cfg), es), QuicRounds.Story(Init(cfg), es), e)
    ensures Legal(cfg, q, es + [e])
    ensures Run(Init(cfg), es + [e]) == Step(Run(Init(cfg), es), e)
    ensures Flight(cfg, q, es + [e]) == QuicConservation.Follow(Run(Init(cfg), es), Flight(cfg, q, es), e, q)
    ensures forall pn :: WasSent(cfg, es, pn) || (e.Send? && pn == e.pn) ==> WasSent(cfg, es + [e], pn)
  {
    assert (es + [e])[..|es|] == es;
  }

  /** A congestion event that acknowledges one segment is legal. */
  lemma ExtendByAck(cfg: Config, q: Size, es: seq<Event>, f: Feedback, pn: nat)
    requires Legal(cfg, q, es) && WasSent(cfg, es, pn) && f.acked == [Segment(q, pn)]
    requires f.priorInFlight == Flight(cfg, q, es).bytes == f.inFlight + q + LostBytes(f.lost)
    ensures Legal(cfg, q, es + [Congestion(f)])
    ensures Run(Init(cfg), es + [Congestion(f)]) == OnCongestionEvent(Run(Init(cfg), es), f)
    ensures Flight(cfg, q, es + [Congestion(f)]) ==
            QuicConservation.Follow(Run(Init(cfg), es), Flight(cfg, q, es), Congestion(f), q)
    ensures forall n :: WasSent(cfg, es, n) ==> WasSent(cfg, es + [Congestion(f)], n)
  {
    OnePacket(Gathered(0.0, false, -1), Segment(q, pn));
    hide Legal, Run, OnCongestionEvent, AckedBytes, LostBytes;
    Extend(cfg, q, es, Congestion(f));
  }

  // ----- A sender that learns nothing of its path -----

  predicate Quiet(s: Sender) {
    && s.phase.mode == Startup && !s.pipe.full && s.path.minRtt == 0
    && s.cwnd <= s.cfg.maxCwnd && !s.cfg.rateBasedRecovery
  }

  /** The acknowledgement of a segment, without a usable sample. */
  function Segment(q: Size, pn: nat): AckedPacket {
    AckedPacket(pn, q, 0.0, 0, true, 0.0)
  }

  lemma OnePacket(g: Gathered, p: AckedPacket)
    ensures GatherAll(g, [p]) == Gather(g, p) && AckedBytes([p]) == p.bytes
  {
    assert [p][..0] == [];
  }

  lemma NothingLearned(s: Sender, f: Feedback, q: Size, pn: nat)
    requires f.acked == [Segment(q, pn)] && s.path.minRtt == 0
    ensures var p := UpdateBandwidthAndMinRtt(s, f); p.minRtt == 0 && p.lastAppLimited
    ensures !MinRttExpired(s, f) && AckedBytes(f.acked) == q
  {
    OnePacket(Gathered(s.path.maxBw, s.path.lastAppLimited, -1), Segment(q, pn));
    hide GatherAll, AckedBytes;
  }

  lemma QuietStays(s: Sender, f: Feedback, q: Size, pn: nat)
    requires Quiet(s) && f.acked == [Segment(q, pn)]
    ensures var s' := OnCongestionEvent(s, f); Quiet(s') && s.cwnd <= s'.cwnd && s'.cfg == s.cfg
  {
    NothingLearned(s, f, q, pn);
    QuicPath.WindowIsPaid(s, f);
    QuicPath.PathEffect(s, f);
    QuicModes.PipeEffect(s, f);
    QuietModel(s, f, q, pn);
    var s5 := MaybeEnterOrExitProbeRtt(UpdateModel(s, f), f, IsRoundStart(s, f), ExpiresMinRtt(s, f));
    QuicModes.WindowsKeepPhase(s5, AckedBytes(f.acked), LostBytes(f.lost), f.extra, f.inFlight);
    hide UpdateModel, UpdateBandwidthAndMinRtt, MinRttExpired, QuicModes.AfterPipe, QuicModes.AfterCycle,
         CalculateCongestionWindow, CalculateRecoveryWindow;
  }

  lemma QuietModel(s: Sender, f: Feedback, q: Size, pn: nat)
    requires Quiet(s) && f.acked == [Segment(q, pn)]
    ensures var s4 := UpdateModel(s, f); s4.phase.mode == Startup && !s4.pipe.full
  {
    var s0 := s.(rounds := UpdateRoundTripCounter(s.rounds, pn));
    NothingLearned(s0, f, q, pn);
    QuicModes.AbsorbKeepsPhase(s, f);
    assert AbsorbAcks(s, f).path == UpdateBandwidthAndMinRtt(s0, f);
    hide AbsorbAcks, UpdateBandwidthAndMinRtt, UpdateGainCyclePhase, QueueDrained;
  }

  // ----- The run -----

  /** m packets of q bytes leave. */
  lemma Fill(cfg: Config, q: Size, m: nat) returns (es: seq<Event>)
    requires m * q <= cfg.initialCwnd
    ensures Legal(cfg, q, es) && Run(Init(cfg), es) == Init(cfg).(rounds := Rounds(0, m, 0))
    ensures Flight(cfg, q, es) == QuicConservation.Flight(m * q, 0, 0)
    ensures forall pn :: 1 <= pn <= m ==> WasSent(cfg, es, pn)
    ensures forall e :: e in es ==> QuicConservation.Whole(e, q)
  {
    es := [];
    if m > 0 {
      assert m * q == (m - 1) * q + q;
      var front := Fill(cfg, q, m - 1);
      var e := Send((m - 1) * q, m, q, true, false);
      Extend(cfg, q, front, e);
      es := front + [e];
      hide Legal, Flight, WasSent, Run;
    }
  }

  /** Recovering since m packets were sent, the flight r bytes above what is allowed. */
  ghost predicate Over(cfg: Config, q: Size, es: seq<Event>, m: nat, r: nat) {
    var s, h := Run(Init(cfg), es), Flight(cfg, q, es);
    && Legal(cfg, q, es) && Quiet(s) && s.cfg == cfg && s.cwnd >= cfg.initialCwnd
    && s.recovery.state == Conservation && s.rounds.end == m && s.recovery.endAt == m
    && s.recovery.window == h.cap + h.drift && h.cap >= MinimumCwnd(cfg)
    && h.bytes == h.cap + h.drift + r
    && forall pn :: 1 <= pn <= m ==> WasSent(cfg, es, pn)
  }

  /** The same with room for one more packet of q bytes. */
  ghost predicate Open(cfg: Config, q: Size, es: seq<Event>, m: nat) {
    var s, h := Run(Init(cfg), es), Flight(cfg, q, es);
    && Legal(cfg, q, es) && Quiet(s) && s.cfg == cfg && s.cwnd >= cfg.initialCwnd
    && s.recovery.state == Conservation && s.rounds.end == m && s.recovery.endAt == m
    && s.recovery.window == h.cap + h.drift && h.cap >= MinimumCwnd(cfg)
    && h.bytes == h.cap + h.drift - q
    && forall pn :: 1 <= pn <= m ==> WasSent(cfg, es, pn)
  }

  /** A packet of r bytes, and one of q, while r less than q bytes of window are left. */
  lemma Overshoot(cfg: Config, q: Size, es: seq<Event>, m: nat, r: nat) returns (es': seq<Event>)
    requires Open(cfg, q, es, m) && r < q
    requires Flight(cfg, q, es).cap + Flight(cfg, q, es).drift <= cfg.initialCwnd
    ensures Over(cfg, q, es', m, r)
    ensures Flight(cfg, q, es').cap == Flight(cfg, q, es).cap && Flight(cfg, q, es').drift == Flight(cfg, q, es).drift
    ensures forall e :: e in es' ==> e in es || (e.Send? && (e.bytes == r || e.bytes == q))
  {
    var s, h := Run(Init(cfg), es), Flight(cfg, q, es);
    hide Flight, Legal, WasSent, Run;
    var e := Send(h.bytes, s.rounds.lastSent + 1, r, true, false);
    Extend(cfg, q, es, e);
    var es1 := es + [e];
    var s1, h1 := Run(Init(cfg), es1), Flight(cfg, q, es1);
    var e1 := Send(h1.bytes, s1.rounds.lastSent + 1, q, true, false);
    Extend(cfg, q, es1, e1);
    es' := es1 + [e1];
  }

  /** The minimum window in packets of q bytes. */
  function MinimumPackets(cfg: Config, q: Size): nat {
    (MinimumCwnd(cfg) + q - 1) / q
  }

  /** The losses of one packet are found: CONSERVATION begins. */
  lemma Enter(cfg: Config, q: Size, n: nat) returns (es: seq<Event>)
    requires n + 1 >= MinimumPackets(cfg, q)
    requires (n + 2) * q <= cfg.initialCwnd <= cfg.maxCwnd && !cfg.rateBasedRecovery
    ensures Open(cfg, q, es, n + 2) && Flight(cfg, q, es).drift == 0 && Flight(cfg, q, es).cap == (n + 1) * q
    ensures forall e :: e in es ==> QuicConservation.Whole(e, q)
  {
    var front := Fill(cfg, q, n + 2);
    var s := Run(Init(cfg), front);
    Segments(q, n);
    var f := Feedback(0, (n + 2) * q, [Segment(q, 1)], [LostPacket(2, q)], n * q, 0, 0);
    assert LostBytes(f.lost) == q by {
      assert f.lost[..0] == [];
    }
    assert QuicConservation.Whole(Congestion(f), q);
    hide Run, Flight, Legal, WasSent, LostBytes, OnCongestionEvent, QuicConservation.CapAtEntry,
         QuicConservation.Whole;
    ExtendByAck(cfg, q, front, f, 1);
    es := front + [Congestion(f)];
    QuietStays(s, f, q, 1);
    EntryState(s, f, q, n);
  }

  lemma Segments(q: Size, n: nat)
    ensures (n + 2) * q == n * q + 2 * q && (n + 1) * q == n * q + q && n * q >= 0
  {}

  /** The first losses, while n + 2 segments are in flight. */
  lemma EntryState(s: Sender, f: Feedback, q: Size, n: nat)
    requires Quiet(s) && s.recovery.state == NotInRecovery && s.rounds.lastSent == n + 2
    requires f.acked == [Segment(q, 1)] && f.lost != [] && LostBytes(f.lost) == q
    requires f.priorInFlight == (n + 2) * q == f.inFlight + 2 * q
    requires n + 1 >= MinimumPackets(s.cfg, q)
    ensures var s' := OnCongestionEvent(s, f);
            && QuicConservation.EntersRecovery(s, f)
            && s'.recovery.state == Conservation && s'.rounds.end == n + 2 && s'.recovery.endAt == n + 2
            && s'.recovery.window == QuicConservation.CapAtEntry(s, f, q) == (n + 1) * q >= MinimumCwnd(s.cfg)
  {
    Segments(q, n);
    OnePacket(Gathered(0.0, false, -1), Segment(q, 1));
    QuicRounds.RestKeepsMarks(s, f);
    QuicModes.ConfigStays(s, f);
    EntryMarks(s, f, q, n);
    hide AbsorbAcks, OnCongestionEvent, QuicConservation.WholePackets, AckedBytes, LostBytes;
    QuicConservation.WindowIsConserved(s, f);
    CapIsFlight(s.cfg, q, n);
  }

  lemma EntryMarks(s: Sender, f: Feedback, q: Size, n: nat)
    requires s.recovery.state == NotInRecovery && s.rounds.lastSent == n + 2
    requires f.acked == [Segment(q, 1)] && f.lost != []
    ensures var s1 := AbsorbAcks(s, f);
            s1.recovery.state == Conservation && s1.rounds.end == n + 2 && s1.recovery.endAt == n + 2
  {
    hide UpdateBandwidthAndMinRtt;
  }

  lemma CapIsFlight(cfg: Config, q: Size, n: nat)
    requires n + 1 >= MinimumPackets(cfg, q)
    ensures MinimumCwnd(cfg) <= QuicConservation.WholePackets(MinimumCwnd(cfg), q) <= (n + 1) * q
  {
    QuicConservation.RoundedUp(MinimumCwnd(cfg), q);
    MorePackets(MinimumPackets(cfg, q), n + 1, q);
  }

  lemma MorePackets(a: nat, b: nat, q: Size)
    requires a <= b
    ensures a * q <= b * q
  {}

  /** A segment sent before recovery began is acknowledged. */
  lemma Acknowledge(cfg: Config, q: Size, es: seq<Event>, m: nat, pn: nat) returns (es': seq<Event>)
    requires Over(cfg, q, es, m, q - 1) && 1 <= pn <= m
    ensures Open(cfg, q, es', m) && Flight(cfg, q, es').cap == Flight(cfg, q, es).cap
    ensures Flight(cfg, q, es').drift == Flight(cfg, q, es).drift + q - 1
  {
    var s, h := Run(Init(cfg), es), Flight(cfg, q, es);
    var f := Feedback(0, h.bytes, [Segment(q, pn)], [], h.bytes - q, 0, 0);
    OnePacket(Gathered(0.0, false, -1), Segment(q, pn));
    hide Run, Flight, Legal, WasSent, OnCongestionEvent, AckedBytes;
    ExtendByAck(cfg, q, es, f, pn);
    es' := es + [Congestion(f)];
    QuietStays(s, f, q, pn);
    StayMarks(s, f);
    WindowFollowsFlight(s, f);
  }

  lemma StayMarks(s: Sender, f: Feedback)
    requires s.recovery.state == Conservation && f.acked != [] && f.lost == [] && !IsRoundStart(s, f)
    requires f.acked[|f.acked| - 1].pn <= s.recovery.endAt
    ensures var s' := OnCongestionEvent(s, f);
            && s'.recovery.state == Conservation && s'.recovery.endAt == s.recovery.endAt
            && s'.rounds == s.rounds
  {
    QuicRounds.RestKeepsMarks(s, f);
    hide OnCongestionEvent, UpdateBandwidthAndMinRtt;
  }

  /** A loss-free event in CONSERVATION lifts the recovery window to the flight. */
  lemma WindowFollowsFlight(s: Sender, f: Feedback)
    requires QuicConservation.Conserving(s) && f.acked != [] && f.lost == [] && !IsRoundStart(s, f)
    requires f.acked[|f.acked| - 1].pn <= s.recovery.endAt
    requires 0 < s.recovery.window <= f.priorInFlight == f.inFlight + AckedBytes(f.acked)
    requires MinimumCwnd(s.cfg) <= f.priorInFlight
    ensures OnCongestionEvent(s, f).recovery.window == f.priorInFlight
  {
    QuicModes.ConfigStays(s, f);
    var s1 := AbsorbAcks(s, f);
    assert s1.recovery == s.recovery;
    hide AbsorbAcks, AckedBytes;
    var s5 := MaybeEnterOrExitProbeRtt(UpdateModel(s, f), f, IsRoundStart(s, f), ExpiresMinRtt(s, f));
    assert s5.recovery == s.recovery && s5.cfg == s.cfg by {
      QuicModes.AbsorbKeepsPhase(s, f);
      hide AdvancesGainCycle, QueueDrained, GetTargetCongestionWindow, EntryOffset;
    }
    hide UpdateModel, MaybeEnterOrExitProbeRtt, GetTargetCongestionWindow;
  }

  /** One byte less than a packet, k times. */
  function Shortfall(q: Size, k: nat): nat {
    if k == 0 then 0 else Shortfall(q, k - 1) + q - 1
  }

  lemma {:induction false} ShortfallIs(q: Size, k: nat)
    ensures Shortfall(q, k) == k * (q - 1)
  {
    if k > 0 {
      ShortfallIs(q, k - 1);
      assert k * (q - 1) == (k - 1) * (q - 1) + (q - 1);
    }
  }

  lemma {:induction false} ShortfallGrows(q: Size, k: nat, n: nat)
    requires k <= n
    ensures Shortfall(q, k) <= Shortfall(q, n)
  {
    if k < n {
      ShortfallGrows(q, k, n - 1);
    }
  }

  /** k of n congestion events after the entry. */
  lemma Drift(cfg: Config, q: Size, n: nat, k: nat, cap: nat) returns (es: seq<Event>)
    requires k <= n && cap == (n + MinimumPackets(cfg, q)) * q && !cfg.rateBasedRecovery
    requires cap + q <= cfg.initialCwnd && cap + Shortfall(q, n) <= cfg.initialCwnd <= cfg.maxCwnd
    ensures Over(cfg, q, es, n + MinimumPackets(cfg, q) + 1, q - 1)
    ensures Flight(cfg, q, es).drift == Shortfall(q, k) && Flight(cfg, q, es).cap == cap
  {
    SomePackets(cfg, q);
    ShortfallGrows(q, k, n);
    hide Over, Open, Flight, MinimumPackets;
    var p := n + MinimumPackets(cfg, q);
    var open: seq<Event>;
    if k == 0 {
      Segments(q, p - 1);
      open := Enter(cfg, q, p - 1);
    } else {
      var front := Drift(cfg, q, n, k - 1, cap);
      open := Acknowledge(cfg, q, front, p + 1, k + 2);
    }
    es := Overshoot(cfg, q, open, p + 1, q - 1);
  }

  lemma SomePackets(cfg: Config, q: Size)
    ensures MinimumPackets(cfg, q) >= 1
  {}

  /** The minimum window is four whole segments. */
  lemma FourSegments(cfg: Config)
    ensures MinimumPackets(cfg, cfg.mss) == 4
  {
    Division(5 * cfg.mss - 1, cfg.mss);
    NoRoom((5 * cfg.mss - 1) / cfg.mss - 4, cfg.mss);
  }

  /** The windows that the run needs. */
  lemma Windows(q: Size, n: nat, p: nat)
    ensures (n + p) * q + n * (q - 1) <= (2 * n + p + 2) * q && (n + p) * q + q <= (2 * n + p + 2) * q
  {
    assert (2 * n + p + 2) * q == (n + p) * q + n * q + 2 * q;
    assert n * q == n * (q - 1) + n;
  }

  /** The bound on the drift is reached, for every number of congestion events: with a
      large enough window there is a run of legal packets of at most a segment each that
      takes the flight as far above its cap as n events allow. */
  lemma DriftIsTight(cfg: Config, q: Size, n: nat)
    requires (2 * n + MinimumPackets(cfg, q) + 2) * q <= cfg.initialCwnd <= cfg.maxCwnd && !cfg.rateBasedRecovery
    ensures exists es ::
              && Legal(cfg, q, es) && QuicConservation.Conserving(Run(Init(cfg), es))
              && Flight(cfg, q, es).drift == n * (q - 1)
              && Flight(cfg, q, es).bytes == Flight(cfg, q, es).cap + Flight(cfg, q, es).drift + q - 1
  {
    var p := MinimumPackets(cfg, q);
    Windows(q, n, p);
    ShortfallIs(q, n);
    var es := Drift(cfg, q, n, n, (n + p) * q);
    hide Legal, Flight, Run;
    assert QuicConservation.Conserving(Run(Init(cfg), es));
  }

  // ----- Unequal packets -----

  /** Every packet that counts has one of these sizes. */
  ghost predicate Sized(e: Event, sizes: set<nat>) {
    match e
    case Send(_, _, bytes, retransmittable, _) => retransmittable ==> bytes in sizes
    case Congestion(f) =>
      (forall p :: p in f.acked ==> p.bytes in sizes) && (forall p :: p in f.lost ==> p.bytes in sizes)
  }

  /** A legal run of packets of these sizes, in CONSERVATION at its end. */
  ghost predicate ConservingRun(cfg: Config, q: Size, sizes: set<nat>, es: seq<Event>) {
    && Legal(cfg, q, es) && (forall e :: e in es ==> Sized(e, sizes))
    && QuicConservation.Conserving(Run(Init(cfg), es))
  }

  /** CONSERVATION conserves: while it lasts the flight does not exceed its cap. */
  ghost predicate Conserves(cfg: Config, q: Size, sizes: set<nat>) {
    forall es :: ConservingRun(cfg, q, sizes, es) ==> Flight(cfg, q, es).bytes <= Flight(cfg, q, es).cap
  }

  lemma WholeConserves(cfg: Config, q: Size)
    ensures Conserves(cfg, q, {q})
  {
    forall es | ConservingRun(cfg, q, {q}, es)
      ensures Flight(cfg, q, es).bytes <= Flight(cfg, q, es).cap
    {
      assert forall e :: Sized(e, {q}) ==> QuicConservation.Whole(e, q);
      QuicConservation.FlightIsConserved(cfg, es, q);
    }
  }

  /** A smaller packet and a full one take the flight above its cap by the smaller one. */
  lemma UnequalOvershoot(cfg: Config, q: Size, r: nat, sizes: set<nat>)
    requires r in sizes && q in sizes && 1 <= r < q
    requires (MinimumPackets(cfg, q) + 1) * q <= cfg.initialCwnd <= cfg.maxCwnd && !cfg.rateBasedRecovery
    ensures !Conserves(cfg, q, sizes)
  {
    var p := MinimumPackets(cfg, q);
    SomePackets(cfg, q);
    Segments(q, p - 1);
    var front := Enter(cfg, q, p - 1);
    assert forall e :: QuicConservation.Whole(e, q) ==> Sized(e, sizes);
    var es := Overshoot(cfg, q, front, p + 1, r);
    hide Legal, Flight, Run, QuicConservation.Whole;
    assert ConservingRun(cfg, q, sizes, es);
  }

  /** When CONSERVATION conserves: exactly if all packets have the same size. */
  lemma ConservesIff(cfg: Config, q: Size, sizes: set<nat>)
    requires q in sizes && forall r :: r in sizes ==> 1 <= r <= q
    requires (MinimumPackets(cfg, q) + 1) * q <= cfg.initialCwnd <= cfg.maxCwnd && !cfg.rateBasedRecovery
    ensures Conserves(cfg, q, sizes) <==> sizes == {q}
  {
    hide Conserves;
    if r :| r in sizes && r != q {
      UnequalOvershoot(cfg, q, r, sizes);
    } else {
      assert sizes == {q};
      WholeConserves(cfg, q);
    }
  }
}
