/** Reno's rule against repeated window cuts, compare section 5 of RFC 2582. */
module TcpReno {
  import opened TcpSender

  /** History: the last packet sent before the last fast-retransmit cut or timeout. */
  datatype Mark = Unmarked | Marked(maxSeq: SeqNo)

  predicate ThirdDuplicate(s: Tcp, e: Event) {
    e.Ack? && e.ackNo == s.seqs.highestAck && s.control.dupAcks + 1 == s.cfg.numDupAcks
  }

  predicate Cuts(s: Tcp, e: Event) {
    ThirdDuplicate(s, e) && MayCut(s)
  }

  function Follow(s: Tcp, e: Event, m: Mark): Mark {
    if e.Timer? || Cuts(s, e) then Marked(s.seqs.maxSeq) else m
  }

  function Story(s: Tcp, es: seq<Event>): Mark {
    if es == [] then Unmarked else Follow(Run(s, es[..|es| - 1]), es[|es| - 1], Story(s, es[..|es| - 1]))
  }

  /** recover_ is the mark, and a last action DUPACK means that the duplicates that led to
      it are still being counted. */
  ghost predicate Remembers(s: Tcp, m: Mark) {
    && s.control.recover == (if m.Marked? then m.maxSeq else 0)
    && (s.control.action == DupAck ==> s.control.dupAcks >= s.cfg.numDupAcks)
  }

  lemma OutputFrame(s: Tcp, seqno: nat, now: real)
    ensures Output(s, seqno, now).control == s.control && Output(s, seqno, now).cfg == s.cfg
  {}

  lemma {:induction false} BurstFrame(s: Tcp, now: real, sent: nat)
    ensures SendBurst(s, now, sent).control == s.control && SendBurst(s, now, sent).cfg == s.cfg
    decreases s.seqs.highestAck + Window(s) + 1 - s.seqs.tSeqno
  {
    if HasRoom(s) {
      OutputFrame(s, s.seqs.tSeqno, now);
      if s.cfg.maxBurst == 0 || sent + 1 != s.cfg.maxBurst {
        BurstFrame(SendNext(s, now), now, sent + 1);
      }
      hide Output;
    }
  }

  lemma FastRetransmitMarks(s: Tcp, now: real)
    ensures var s' := FastRetransmit(s, now);
            && s'.control.recover == s.seqs.maxSeq && s'.control.action == DupAck
            && s'.control.dupAcks == s.control.dupAcks && s'.cfg == s.cfg
  {}

  lemma DuplicateRemembers(s: Tcp, e: Event, m: Mark)
    requires Remembers(s, m) && e.Ack? && e.ackNo == s.seqs.highestAck
    ensures Remembers(DuplicateAck(s, e.now), Follow(s, e, m)) && DuplicateAck(s, e.now).cfg == s.cfg
  {
    hide Output, FastRetransmit;
    var s1 := s.(control := s.control.(dupAcks := s.control.dupAcks + 1));
    assert MayCut(s1) == MayCut(s);
    hide MayCut;
    if s1.control.dupAcks == s.cfg.numDupAcks {
      FastRetransmitMarks(s1, e.now);
    } else {
      OutputFrame(s1, s.seqs.tSeqno, e.now);
    }
  }

  lemma StepRemembers(s: Tcp, e: Event, m: Mark)
    requires Remembers(s, m) && s.cfg.bugFix
    ensures Remembers(Step(s, e), Follow(s, e, m)) && Step(s, e).cfg == s.cfg
  {
    hide DuplicateAck, SendBurst;
    match e
    case Advance(delta, now) =>
      BurstFrame(s.(seqs := s.seqs.(curSeq := s.seqs.curSeq + delta)), now, 0);
    case Ack(ackNo, grown, now) =>
      var s1 := if ackNo > s.seqs.highestAck then NewAck(s, ackNo, grown)
                else if ackNo == s.seqs.highestAck then DuplicateAck(s, now)
                else s;
      if ackNo == s.seqs.highestAck {
        DuplicateRemembers(s, e, m);
      }
      BurstFrame(s1, now, 0);
    case Timer(now) =>
      var s1 := s.(control := s.control.(dupWnd := 0, dupAcks := 0, recover := s.seqs.maxSeq));
      var s2 := ResumeAfterAck(s1.(control := TimeoutCut(s1)));
      BurstFrame(s2.(control := s2.control.(action := TimedOut)), now, 0);
      hide Share;
  }

  lemma {:induction false} RunRemembers(cfg: Config, cwnd: NonNeg, ssthresh: int, es: seq<Event>)
    requires cfg.bugFix
    ensures Remembers(Run(Init(cfg, cwnd, ssthresh), es), Story(Init(cfg, cwnd, ssthresh), es))
    ensures Run(Init(cfg, cwnd, ssthresh), es).cfg == cfg
  {
    if es != [] {
      var s := Init(cfg, cwnd, ssthresh);
      RunRemembers(cfg, cwnd, ssthresh, es[..|es| - 1]);
      StepRemembers(Run(s, es[..|es| - 1]), es[|es| - 1], Story(s, es[..|es| - 1]));
    }
  }

  /** At most one fast-retransmit cut per window of data: in every run the third duplicate
      ACK cuts the window exactly if everything sent before the last cut or timeout has
      been acknowledged, or, with bugfix_ss_, if packet 0 alone has been. */
  lemma OneCutPerWindow(cfg: Config, cwnd: NonNeg, ssthresh: int, es: seq<Event>, e: Event)
    requires cfg.bugFix && ThirdDuplicate(Run(Init(cfg, cwnd, ssthresh), es), e)
    ensures var s, m := Run(Init(cfg, cwnd, ssthresh), es), Story(Init(cfg, cwnd, ssthresh), es);
            Cuts(s, e) <==>
            || s.seqs.highestAck > (if m.Marked? then m.maxSeq else 0)
            || (cfg.bugfixSs && s.seqs.highestAck == 0)
  {
    RunRemembers(cfg, cwnd, ssthresh, es);
  }

  /** Without bug_fix_ every third duplicate ACK cuts it. */
  lemma EveryThirdCuts(s: Tcp, e: Event)
    requires !s.cfg.bugFix && ThirdDuplicate(s, e)
    ensures Cuts(s, e) && DuplicateAck(s, e.now).control.recover == s.seqs.maxSeq
  {}

  /** A standard cut halves what is in flight and sends the first unacknowledged packet. */
  lemma FastRetransmitHalves(s: Tcp, now: real)
    requires s.cfg.decrease == 0.5
    ensures var s', flight := FastRetransmit(s, now), PacketInFlight(s);
            && s'.control.ssthresh == Max(2, flight / 2)
            && 2.0 * s'.control.cwnd <= flight as real
            && Window(s') <= flight / 2 + s.cfg.numDupAcks
            && s'.seqs.tSeqno == s.seqs.tSeqno
            && (s'.wire == s.wire + [Packet(s.seqs.highestAck + 1, now)] || (s'.wire == s.wire && Aborted(s')))
  {
    var flight := PacketInFlight(s);
    Halves(s.cfg, flight);
    var s1 := s.(control := s.control.(recover := s.seqs.maxSeq, action := DupAck));
    var s2 := s1.(control := Slowdown(s1, HalveBoth));
    OutputFrame(s2, s.seqs.highestAck + 1, now);
    hide Stamp, Share;
  }

  lemma Halves(cfg: Config, n: nat)
    ensures Share(cfg, 0.5, n).Floor == n / 2 && 2.0 * Share(cfg, 0.5, n) <= n as real
  {}

  /** A timeout leaves one packet of window, and resumes after the last ACK. */
  lemma TimeoutRestarts(s: Tcp)
    requires s.seqs.highestAck < s.seqs.maxSeq
    ensures TimeoutCut(s).cwnd == 1.0 && TimeoutCut(s).ssthresh == Max(2, PacketInFlight(s) / 2)
  {}
}
