/** Packet conservation in the QUIC sender: what CONSERVATION promises about the bytes
    in flight, over whole runs of gated sends and congestion events. */
module QuicConservation {
  import opened QuicBbr
  import opened Remainders
  import QuicModes
  import QuicRounds

  /** Bytes in flight; the cap fixed when CONSERVATION was entered; and drift, which
      grows by one byte less than a packet at every later congestion event. */
  datatype Flight = Flight(bytes: nat, cap: nat, drift: nat)

  const EMPTY: Flight := Flight(0, 0, 0)

  /** n rounded up to whole packets of q bytes. */
  function WholePackets(n: nat, q: Size): nat {
    (n + q - 1) / q * q
  }

  predicate EntersRecovery(s: Sender, f: Feedback) {
    s.recovery.state == NotInRecovery && f.acked != [] && f.lost != []
  }

  /** The flight when the loss was detected, without what was lost. */
  function CapAtEntry(s: Sender, f: Feedback, q: Size): nat {
    Max(WholePackets(MinimumCwnd(s.cfg), q), Max(0, f.priorInFlight - LostBytes(f.lost)))
  }

  function Follow(s: Sender, h: Flight, e: Event, q: Size): Flight {
    match e
    case Send(_, _, bytes, retransmittable, _) => if retransmittable then h.(bytes := h.bytes + bytes) else h
    case Congestion(f) =>
      if EntersRecovery(s, f) then Flight(f.inFlight, CapAtEntry(s, f, q), 0)
      else h.(bytes := f.inFlight, drift := h.drift + q - 1)
  }

  /** What the connection guarantees: counted packets are sent only when TimeUntilSend
      allows it, have at most q bytes, and leave the flight when acknowledged or lost. */
  ghost predicate Legal(s: Sender, h: Flight, e: Event, q: Size) {
    match e
    case Send(flight, _, bytes, retransmittable, _) =>
      flight == h.bytes && (retransmittable ==> bytes <= q && MaySend(s, flight))
    case Congestion(f) =>
      f.priorInFlight == h.bytes && f.inFlight + AckedBytes(f.acked) + LostBytes(f.lost) == h.bytes
  }

  /** Every packet that counts has exactly q bytes. */
  ghost predicate Whole(e: Event, q: Size) {
    match e
    case Send(_, _, bytes, retransmittable, _) => retransmittable ==> bytes == q
    case Congestion(f) => (forall p :: p in f.acked ==> p.bytes == q) && (forall p :: p in f.lost ==> p.bytes == q)
  }

  function Story(s: Sender, es: seq<Event>, q: Size): Flight {
    if es == [] then EMPTY
    else Follow(Run(s, es[..|es| - 1]), Story(s, es[..|es| - 1], q), es[|es| - 1], q)
  }

  ghost predicate LegalRun(s: Sender, es: seq<Event>, q: Size) {
    es == [] || (LegalRun(s, es[..|es| - 1], q) &&
                 Legal(Run(s, es[..|es| - 1]), Story(s, es[..|es| - 1], q), es[|es| - 1], q))
  }

  // ----- Whole packets -----

  lemma RoundedUp(n: nat, q: Size)
    ensures n <= WholePackets(n, q) < n + q && WholePackets(n, q) % q == 0
  {
    var k := (n + q - 1) / q;
    assert n + q - 1 == k * q + (n + q - 1) % q;
    IsMultiple(k * q, k, q);
  }

  lemma {:induction false} AckedIsWhole(ps: seq<AckedPacket>, q: Size)
    requires forall p :: p in ps ==> p.bytes == q
    ensures AckedBytes(ps) % q == 0
  {
    if ps != [] {
      AckedIsWhole(ps[..|ps| - 1], q);
      assert ps[|ps| - 1] in ps;
      AddMultiples(AckedBytes(ps[..|ps| - 1]), q, q);
    }
  }

  lemma {:induction false} LostIsWhole(ps: seq<LostPacket>, q: Size)
    requires forall p :: p in ps ==> p.bytes == q
    ensures LostBytes(ps) % q == 0
  {
    if ps != [] {
      LostIsWhole(ps[..|ps| - 1], q);
      assert ps[|ps| - 1] in ps;
      AddMultiples(LostBytes(ps[..|ps| - 1]), q, q);
    }
  }

  // ----- The recovery window -----

  predicate Conserving(s: Sender) {
    s.recovery.state == Conservation && !s.cfg.rateBasedRecovery
  }

  /** What one congestion event leaves in the recovery window: at most what was in flight
      without the losses, or the window before; never less than four segments. */
  lemma WindowIsConserved(s: Sender, f: Feedback)
    requires Conserving(OnCongestionEvent(s, f))
    requires f.inFlight + AckedBytes(f.acked) + LostBytes(f.lost) == f.priorInFlight
    requires s.recovery.state == Conservation ==> s.recovery.window > 0
    ensures s.recovery.state == Conservation || EntersRecovery(s, f)
    ensures var w, kept := OnCongestionEvent(s, f).recovery.window, f.priorInFlight - LostBytes(f.lost);
            && kept >= 0 && w >= MinimumCwnd(s.cfg)
            && (EntersRecovery(s, f) ==> w == Max(MinimumCwnd(s.cfg), kept))
            && (!EntersRecovery(s, f) ==> w == MinimumCwnd(s.cfg) || w <= kept || w <= s.recovery.window)
  {
    QuicRounds.RestKeepsMarks(s, f);
    QuicModes.ConfigStays(s, f);
    var s1 := if f.acked != [] then AbsorbAcks(s, f) else s;
    var s5 := MaybeEnterOrExitProbeRtt(UpdateModel(s, f), f, IsRoundStart(s, f), ExpiresMinRtt(s, f));
    assert s5.recovery == s1.recovery && s5.cfg == s.cfg by {
      hide UpdateBandwidthAndMinRtt, GetTargetCongestionWindow, AdvancesGainCycle, QueueDrained;
    }
    var s6 := CalculateCongestionWindow(s5, AckedBytes(f.acked), f.extra);
    assert s6.recovery == s5.recovery && s6.cfg == s5.cfg;
    hide UpdateModel, MaybeEnterOrExitProbeRtt, CalculateCongestionWindow,
         UpdateBandwidthAndMinRtt, UpdateRoundTripCounter;
  }

  // ----- The bound over whole runs -----

  /** While conserving, neither the window nor the flight outgrows cap by more than drift. */
  ghost predicate Bounded(s: Sender, h: Flight, q: Size) {
    Conserving(s) ==>
      && 0 < s.recovery.window <= h.cap + h.drift
      && h.bytes <= h.cap + h.drift + q - 1
      && MinimumCwnd(s.cfg) <= h.cap
  }

  /** The same without any drift, for whole packets. */
  ghost predicate WhollyBounded(s: Sender, h: Flight, q: Size) {
    && h.bytes % q == 0
    && (Conserving(s) ==>
          && 0 < s.recovery.window <= h.cap && h.bytes <= h.cap
          && h.cap % q == 0 && MinimumCwnd(s.cfg) <= h.cap)
  }

  lemma SendStaysBounded(s: Sender, h: Flight, e: Event, q: Size)
    requires e.Send? && Legal(s, h, e, q) && Bounded(s, h, q)
    ensures Bounded(Step(s, e), Follow(s, h, e, q), q)
    ensures WhollyBounded(s, h, q) && Whole(e, q) ==> WhollyBounded(Step(s, e), Follow(s, h, e, q), q)
  {
    if WhollyBounded(s, h, q) && e.retransmittable && e.bytes == q {
      AddMultiples(h.bytes, q, q);
      if Conserving(s) {
        RoomForOne(h.bytes, h.cap, q);
      }
    }
  }

  /** Entering CONSERVATION fixes the cap, and respects it. */
  lemma EntryIsCapped(s: Sender, h: Flight, f: Feedback, q: Size)
    requires Legal(s, h, Congestion(f), q)
    requires Conserving(OnCongestionEvent(s, f)) && EntersRecovery(s, f)
    ensures var s', cap := OnCongestionEvent(s, f), CapAtEntry(s, f, q);
            && 0 < s'.recovery.window <= cap && f.inFlight <= cap && MinimumCwnd(s.cfg) <= cap
  {
    RoundedUp(MinimumCwnd(s.cfg), q);
    WindowIsConserved(s, f);
    hide OnCongestionEvent, WholePackets, AckedBytes, LostBytes, MinimumCwnd, EntersRecovery;
  }

  /** Staying in CONSERVATION: the window follows the old window and the old flight. */
  lemma StayIsCapped(s: Sender, h: Flight, f: Feedback, q: Size)
    requires Legal(s, h, Congestion(f), q) && Bounded(s, h, q)
    requires Conserving(OnCongestionEvent(s, f)) && !EntersRecovery(s, f)
    ensures Conserving(s) && f.inFlight <= h.bytes
    ensures var w := OnCongestionEvent(s, f).recovery.window;
            0 < w && (w == MinimumCwnd(s.cfg) || w <= h.bytes || w <= s.recovery.window)
  {
    assert MinimumCwnd(s.cfg) > 0;
    hide OnCongestionEvent, AckedBytes, LostBytes, MinimumCwnd, EntersRecovery;
    QuicModes.ConfigStays(s, f);
    assert s.recovery.state == Conservation ==> Conserving(s);
    WindowIsConserved(s, f);
  }

  lemma WholeFeedback(s: Sender, h: Flight, f: Feedback, q: Size)
    requires Legal(s, h, Congestion(f), q) && h.bytes % q == 0 && Whole(Congestion(f), q)
    ensures f.inFlight % q == 0 && CapAtEntry(s, f, q) % q == 0
  {
    RoundedUp(MinimumCwnd(s.cfg), q);
    AckedIsWhole(f.acked, q);
    LostIsWhole(f.lost, q);
    AddMultiples(f.priorInFlight, LostBytes(f.lost), q);
    AddMultiples(f.priorInFlight - LostBytes(f.lost), AckedBytes(f.acked), q);
    hide WholePackets, AckedBytes, LostBytes, MinimumCwnd;
  }

  lemma FeedbackStaysBounded(s: Sender, h: Flight, f: Feedback, q: Size)
    requires Legal(s, h, Congestion(f), q) && Bounded(s, h, q)
    ensures Bounded(Step(s, Congestion(f)), Follow(s, h, Congestion(f), q), q)
    ensures WhollyBounded(s, h, q) && Whole(Congestion(f), q) ==>
              WhollyBounded(Step(s, Congestion(f)), Follow(s, h, Congestion(f), q), q)
  {
    QuicModes.ConfigStays(s, f);
    if Conserving(OnCongestionEvent(s, f)) {
      if EntersRecovery(s, f) {
        EntryIsCapped(s, h, f, q);
      } else {
        StayIsCapped(s, h, f, q);
      }
    }
    if WhollyBounded(s, h, q) && Whole(Congestion(f), q) {
      WholeFeedback(s, h, f, q);
    }
    hide OnCongestionEvent, CapAtEntry, EntersRecovery, Whole, Legal, MinimumCwnd;
  }

  lemma {:induction false} RunStaysBounded(cfg: Config, es: seq<Event>, q: Size)
    requires LegalRun(Init(cfg), es, q)
    ensures Bounded(Run(Init(cfg), es), Story(Init(cfg), es, q), q)
    ensures (forall e :: e in es ==> Whole(e, q)) ==> WhollyBounded(Run(Init(cfg), es), Story(Init(cfg), es, q), q)
  {
    if es != [] {
      var front, e := es[..|es| - 1], es[|es| - 1];
      RunStaysBounded(cfg, front, q);
      assert e in es;
      var s, h := Run(Init(cfg), front), Story(Init(cfg), front, q);
      match e
      case Send(_, _, _, _, _) => SendStaysBounded(s, h, e, q);
      case Congestion(f) => FeedbackStaysBounded(s, h, f, q);
      hide Step, Whole;
    }
  }

  /** Packet conservation: with packets of q bytes each, the flight never exceeds what
      was in flight, without the lost bytes, when the loss was detected, or the minimum
      window in whole packets; for any number of events and both settings of the flag. */
  lemma FlightIsConserved(cfg: Config, es: seq<Event>, q: Size)
    requires LegalRun(Init(cfg), es, q) && forall e :: e in es ==> Whole(e, q)
    requires Conserving(Run(Init(cfg), es))
    ensures Story(Init(cfg), es, q).bytes <= Story(Init(cfg), es, q).cap
  {
    RunStaysBounded(cfg, es, q);
  }

  /** With packets of any sizes up to q the flight may drift: one byte less than a packet
      for every congestion event since the entry, and no more. */
  lemma DriftIsBounded(cfg: Config, es: seq<Event>, q: Size)
    requires LegalRun(Init(cfg), es, q) && Conserving(Run(Init(cfg), es))
    ensures var h := Story(Init(cfg), es, q); h.bytes <= h.cap + h.drift + q - 1
  {
    RunStaysBounded(cfg, es, q);
  }
}
