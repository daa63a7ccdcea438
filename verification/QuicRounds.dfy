/** Rounds and recovery of the QUIC sender are tied to real packets: what was sent
    when, and what its acknowledgement may end. */
module QuicRounds {
  import opened QuicBbr

  /** History. Events are numbered from 1; sentAt gives the event at which a packet was
      sent; round, recovery and loss are the events of the last round start, of the
      last entry to CONSERVATION, and of the last acknowledgement that reported losses. */
  datatype History = History(clock: nat, sentAt: map<nat, nat>, round: nat, recovery: nat, loss: nat)

  const START: History := History(0, map[], 0, 0, 0)

  /** Packet numbers grow, and only sent packets are acknowledged. */
  predicate Legal(s: Sender, h: History, e: Event) {
    match e
    case Send(_, pn, _, _, _) => pn > s.rounds.lastSent
    case Congestion(f) => forall p :: p in f.acked ==> p.pn in h.sentAt
  }

  function LastAcked(f: Feedback): nat
    requires f.acked != []
  {
    f.acked[|f.acked| - 1].pn
  }

  function Follow(s: Sender, h: History, e: Event): History {
    var now := h.clock + 1;
    match e
    case Send(_, pn, _, _, _) => h.(clock := now, sentAt := h.sentAt[pn := now])
    case Congestion(f) =>
      if f.acked == [] then h.(clock := now)
      else
        History(now, h.sentAt,
                if IsRoundStart(s, f) then now else h.round,
                if s.recovery.state == NotInRecovery && f.lost != [] then now else h.recovery,
                if f.lost != [] then now else h.loss)
  }

  function Story(s: Sender, es: seq<Event>): History {
    if es == [] then START
    else Follow(Run(s, es[..|es| - 1]), Story(s, es[..|es| - 1]), es[|es| - 1])
  }

  ghost predicate LegalRun(s: Sender, es: seq<Event>) {
    es == [] || (LegalRun(s, es[..|es| - 1]) && Legal(Run(s, es[..|es| - 1]), Story(s, es[..|es| - 1]), es[|es| - 1]))
  }

  /** The packet-number marks of the sender split the packets by the time of sending. */
  ghost predicate Marks(s: Sender, h: History) {
    && h.round <= h.clock && h.recovery <= h.clock && h.loss <= h.clock
    && s.rounds.end <= s.rounds.lastSent && s.recovery.endAt <= s.rounds.lastSent
    && forall pn :: pn in h.sentAt ==>
          && pn <= s.rounds.lastSent
          && (pn > s.rounds.end ==> h.sentAt[pn] > h.round)
          && (pn > s.recovery.endAt ==> h.sentAt[pn] > h.loss)
          && (s.recovery.state == Conservation && pn > s.rounds.end ==> h.sentAt[pn] > h.recovery)
          && (s.recovery.state == Conservation && pn > s.recovery.endAt ==> pn > s.rounds.end)
  }

  /** The rest of OnCongestionEvent moves neither the round nor the recovery state. */
  lemma RestKeepsMarks(s: Sender, f: Feedback)
    ensures var s1 := if f.acked != [] then AbsorbAcks(s, f) else s;
            var s' := OnCongestionEvent(s, f);
            && s'.rounds == s1.rounds
            && s'.recovery.state == s1.recovery.state
            && s'.recovery.endAt == s1.recovery.endAt
  {
    var s1 := if f.acked != [] then AbsorbAcks(s, f) else s;
    var s4 := UpdateModel(s, f);
    assert s4.rounds == s1.rounds && s4.recovery == s1.recovery;
    var s5 := MaybeEnterOrExitProbeRtt(s4, f, IsRoundStart(s, f), ExpiresMinRtt(s, f));
    assert s5.rounds == s1.rounds && s5.recovery == s1.recovery;
    WindowsKeepMarks(s5, AckedBytes(f.acked), LostBytes(f.lost), f.extra, f.inFlight);
  }

  lemma WindowsKeepMarks(s: Sender, a: nat, l: nat, extra: nat, inFlight: nat)
    ensures var s' := CalculateRecoveryWindow(CalculateCongestionWindow(s, a, extra), a, l, inFlight);
            s'.rounds == s.rounds && s'.recovery == s.recovery.(window := s'.recovery.window)
  {}

  lemma StepKeepsMarks(s: Sender, h: History, e: Event)
    requires Marks(s, h) && Legal(s, h, e)
    ensures Marks(Step(s, e), Follow(s, h, e))
  {
    match e
    case Send(_, _, _, _, _) =>
    case Congestion(f) =>
      RestKeepsMarks(s, f);
      hide OnCongestionEvent, UpdateBandwidthAndMinRtt;
  }

  lemma {:induction false} RunKeepsMarks(cfg: Config, es: seq<Event>)
    requires LegalRun(Init(cfg), es)
    ensures Marks(Run(Init(cfg), es), Story(Init(cfg), es))
  {
    if es != [] {
      var front := es[..|es| - 1];
      RunKeepsMarks(cfg, front);
      StepKeepsMarks(Run(Init(cfg), front), Story(Init(cfg), front), es[|es| - 1]);
    }
  }

  lemma LastEvent(cfg: Config, es: seq<Event>, e: Event)
    requires LegalRun(Init(cfg), es + [e])
    ensures LegalRun(Init(cfg), es) && Legal(Run(Init(cfg), es), Story(Init(cfg), es), e)
  {}

  /** Every round start is caused by the acknowledgement of a packet sent after the
      previous round start. */
  lemma RoundsAreReal(cfg: Config, es: seq<Event>, f: Feedback)
    requires LegalRun(Init(cfg), es + [Congestion(f)])
    requires IsRoundStart(Run(Init(cfg), es), f)
    ensures var h := Story(Init(cfg), es); LastAcked(f) in h.sentAt && h.sentAt[LastAcked(f)] > h.round
  {
    LastEvent(cfg, es, Congestion(f));
    RunKeepsMarks(cfg, es);
    assert f.acked[|f.acked| - 1] in f.acked;
  }

  /** CONSERVATION ends only on the acknowledgement of a packet sent after recovery
      began, whichever state follows it. */
  lemma ConservationLastsARound(cfg: Config, es: seq<Event>, e: Event)
    requires LegalRun(Init(cfg), es + [e])
    requires Run(Init(cfg), es).recovery.state == Conservation
    requires Step(Run(Init(cfg), es), e).recovery.state != Conservation
    ensures var h := Story(Init(cfg), es);
            && e.Congestion? && e.feedback.acked != []
            && LastAcked(e.feedback) in h.sentAt && h.sentAt[LastAcked(e.feedback)] > h.recovery
  {
    LastEvent(cfg, es, e);
    RunKeepsMarks(cfg, es);
    var s := Run(Init(cfg), es);
    match e
    case Send(_, _, _, _, _) =>
    case Congestion(f) =>
      RestKeepsMarks(s, f);
      assert f.acked[|f.acked| - 1] in f.acked;
      hide OnCongestionEvent, UpdateBandwidthAndMinRtt, Run, Story;
  }

  /** Recovery ends only on a loss-free acknowledgement of a packet sent after the last
      acknowledgement that reported losses, even straight out of CONSERVATION. */
  lemma RecoveryEndsLossFree(cfg: Config, es: seq<Event>, e: Event)
    requires LegalRun(Init(cfg), es + [e])
    requires InRecovery(Run(Init(cfg), es)) && !InRecovery(Step(Run(Init(cfg), es), e))
    ensures var h := Story(Init(cfg), es);
            && e.Congestion? && e.feedback.acked != [] && e.feedback.lost == []
            && LastAcked(e.feedback) in h.sentAt && h.sentAt[LastAcked(e.feedback)] > h.loss
  {
    LastEvent(cfg, es, e);
    RunKeepsMarks(cfg, es);
    var s := Run(Init(cfg), es);
    match e
    case Send(_, _, _, _, _) =>
    case Congestion(f) =>
      RestKeepsMarks(s, f);
      assert f.acked[|f.acked| - 1] in f.acked;
      hide OnCongestionEvent, UpdateBandwidthAndMinRtt, Run, Story;
  }

  /** Leaving CONSERVATION for no recovery at all passes through a round start. */
  lemma FallthroughIsARoundStart(cfg: Config, es: seq<Event>, f: Feedback)
    requires LegalRun(Init(cfg), es + [Congestion(f)])
    requires Run(Init(cfg), es).recovery.state == Conservation
    requires Step(Run(Init(cfg), es), Congestion(f)).recovery.state == NotInRecovery
    ensures IsRoundStart(Run(Init(cfg), es), f)
  {
    LastEvent(cfg, es, Congestion(f));
    RunKeepsMarks(cfg, es);
    RestKeepsMarks(Run(Init(cfg), es), f);
    if f.acked != [] {
      assert f.acked[|f.acked| - 1] in f.acked;
    }
    hide OnCongestionEvent, UpdateBandwidthAndMinRtt, Run, Story;
  }

  // ----- And exactly then -----

  /** The last round start or entry to CONSERVATION, both of which set the mark of rounds. */
  function LastMark(h: History): nat {
    if h.round < h.recovery then h.recovery else h.round
  }

  /** What is not above a mark was sent before the event that set it. */
  ghost predicate Before(s: Sender, h: History) {
    forall pn :: pn in h.sentAt ==>
      && (pn <= s.rounds.end <==> h.sentAt[pn] <= LastMark(h))
      && (pn <= s.recovery.endAt ==> h.sentAt[pn] <= h.loss)
      && h.sentAt[pn] <= h.clock && pn > 0
  }

  lemma StepKeepsBefore(s: Sender, h: History, e: Event)
    requires Marks(s, h) && Before(s, h) && Legal(s, h, e)
    ensures Before(Step(s, e), Follow(s, h, e))
  {
    match e
    case Send(_, _, _, _, _) =>
    case Congestion(f) =>
      RestKeepsMarks(s, f);
      hide OnCongestionEvent, UpdateBandwidthAndMinRtt;
  }

  lemma {:induction false} RunKeepsBefore(cfg: Config, es: seq<Event>)
    requires LegalRun(Init(cfg), es)
    ensures Before(Run(Init(cfg), es), Story(Init(cfg), es))
  {
    if es != [] {
      var front := es[..|es| - 1];
      RunKeepsBefore(cfg, front);
      RunKeepsMarks(cfg, front);
      StepKeepsBefore(Run(Init(cfg), front), Story(Init(cfg), front), es[|es| - 1]);
      hide Step, Marks, Before, Follow;
    }
  }

  /** When the last packet that an event acknowledges was sent, 0 for none. */
  function SentAt(h: History, f: Feedback): nat {
    if f.acked != [] && LastAcked(f) in h.sentAt then h.sentAt[LastAcked(f)] else 0
  }

  /** Recovery begins exactly with an acknowledgement that reports losses; CONSERVATION
      turns to GROWTH exactly with the acknowledgement of a packet sent after the last
      round start and the entry; and recovery ends exactly with a loss-free acknowledgement
      of a packet sent after the last that reported losses. */
  predicate RecoveryAsTold(t: Sender, h: History, f: Feedback, t': Sender) {
    && (IsRoundStart(t, f) <==> SentAt(h, f) > LastMark(h))
    && (!InRecovery(t) ==> (InRecovery(t') <==> f.acked != [] && f.lost != []))
    && (!InRecovery(t) && InRecovery(t') ==> t'.recovery.state == Conservation)
    && (InRecovery(t) ==> (!InRecovery(t') <==> f.lost == [] && SentAt(h, f) > h.loss))
    && (t.recovery.state == Conservation && InRecovery(t') ==>
          (t'.recovery.state == Growth <==> SentAt(h, f) > LastMark(h)))
    && (t.recovery.state == Growth && InRecovery(t') ==> t'.recovery.state == Growth)
  }

  lemma EventAsTold(t: Sender, h: History, f: Feedback)
    requires Marks(t, h) && Before(t, h) && Legal(t, h, Congestion(f))
    ensures RecoveryAsTold(t, h, f, OnCongestionEvent(t, f))
  {
    if f.acked != [] {
      assert f.acked[|f.acked| - 1] in f.acked;
    }
    RecoveryByEvent(t, f);
    hide OnCongestionEvent;
  }

  /** So in every run. */
  lemma RecoveryIff(cfg: Config, es: seq<Event>, f: Feedback)
    requires LegalRun(Init(cfg), es + [Congestion(f)])
    ensures RecoveryAsTold(Run(Init(cfg), es), Story(Init(cfg), es), f, Run(Init(cfg), es + [Congestion(f)]))
  {
    LastEvent(cfg, es, Congestion(f));
    assert (es + [Congestion(f)])[..|es|] == es;
    hide OnCongestionEvent, LegalRun, Marks, Before, RecoveryAsTold, Legal;
    RunKeepsMarks(cfg, es);
    RunKeepsBefore(cfg, es);
    EventAsTold(Run(Init(cfg), es), Story(Init(cfg), es), f);
  }

  lemma RecoveryByEvent(t: Sender, f: Feedback)
    ensures var t' := OnCongestionEvent(t, f);
            var last := if f.acked != [] then LastAcked(f) else 0;
            && (!InRecovery(t) ==> (InRecovery(t') <==> f.acked != [] && f.lost != []))
            && (!InRecovery(t) && InRecovery(t') ==> t'.recovery.state == Conservation)
            && (InRecovery(t) ==> (!InRecovery(t') <==> f.acked != [] && f.lost == [] && last > t.recovery.endAt))
            && (t.recovery.state == Conservation && InRecovery(t') ==>
                  (t'.recovery.state == Growth <==> IsRoundStart(t, f)))
            && (t.recovery.state == Growth && InRecovery(t') ==> t'.recovery.state == Growth)
  {
    RestKeepsMarks(t, f);
    hide OnCongestionEvent, UpdateBandwidthAndMinRtt;
  }

  function RoundStarts(s: Sender, es: seq<Event>): nat {
    if es == [] then 0
    else
      var front, e := es[..|es| - 1], es[|es| - 1];
      RoundStarts(s, front) + (if e.Congestion? && IsRoundStart(Run(s, front), e.feedback) then 1 else 0)
  }

  /** The round counter counts the round starts. */
  lemma {:induction false} RoundsAreCounted(cfg: Config, es: seq<Event>)
    ensures Run(Init(cfg), es).rounds.count == RoundStarts(Init(cfg), es)
  {
    if es != [] {
      var front := es[..|es| - 1];
      RoundsAreCounted(cfg, front);
      match es[|es| - 1]
      case Send(_, _, _, _, _) =>
      case Congestion(f) => RestKeepsMarks(Run(Init(cfg), front), f);
      hide OnCongestionEvent, UpdateBandwidthAndMinRtt;
    }
  }
}
