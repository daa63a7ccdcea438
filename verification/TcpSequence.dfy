/** Sequence safety of the TCP sender: what was sent, what is outstanding, and how often. */
module TcpSequence {
  import opened TcpSender

  function Sent(wire: seq<Packet>, k: int): bool {
    wire != [] && (wire[|wire| - 1].seqno == k || Sent(wire[..|wire| - 1], k))
  }

  /** Sequence numbers and counters agree with what went over the wire. */
  ghost predicate Sound(s: Tcp) {
    && s.seqs.highestAck <= s.seqs.maxSeq
    && s.seqs.highestAck < s.seqs.tSeqno <= s.seqs.maxSeq + 1
    && (forall k :: Sent(s.wire, k) <==> 0 <= k <= s.seqs.maxSeq)
    && |s.wire| == s.counts.data == s.counts.rexmit + s.seqs.maxSeq + 1
    && (s.counts.connects > 0 ==> s.seqs.maxSeq >= 0)
  }

  /** The number of packets from the first unacknowledged one to the last one sent on. */
  function Outstanding(s: Tcp): int {
    s.seqs.tSeqno - 1 - s.seqs.highestAck
  }

  lemma TransmitSent(s: Tcp, seqno: nat, now: real)
    requires forall k :: Sent(s.wire, k) <==> 0 <= k <= s.seqs.maxSeq
    requires seqno <= s.seqs.maxSeq + 1
    ensures var s' := Transmit(s, seqno, now);
            && s'.seqs.maxSeq == Max(s.seqs.maxSeq, seqno)
            && forall k :: Sent(s'.wire, k) <==> 0 <= k <= s'.seqs.maxSeq
  {}

  /** Sending the packet after the last one, or one sent before, is sound. */
  lemma OutputSound(s: Tcp, seqno: nat, now: real)
    requires Sound(s) && seqno <= s.seqs.maxSeq + 1
    ensures var s' := Output(s, seqno, now);
            && Sound(s') && seqno <= s'.seqs.maxSeq
            && s'.control == s.control && s'.cfg == s.cfg
            && s'.seqs.highestAck == s.seqs.highestAck && s'.seqs.tSeqno == s.seqs.tSeqno
            && s.seqs.maxSeq <= s'.seqs.maxSeq
  {
    TransmitSent(s, seqno, now);
    hide Stamp, Sent;
  }

  lemma SendNextSound(s: Tcp, now: real)
    requires Sound(s)
    ensures Sound(SendNext(s, now))
    ensures SendNext(s, now).seqs.tSeqno == s.seqs.tSeqno + 1
    ensures SendNext(s, now).control == s.control && SendNext(s, now).cfg == s.cfg
    ensures SendNext(s, now).seqs.highestAck == s.seqs.highestAck
  {
    OutputSound(s, s.seqs.tSeqno, now);
    hide Output;
  }

  /** The send loop leaves at most a window outstanding, or what was outstanding before. */
  lemma {:induction false} BurstSound(s: Tcp, now: real, sent: nat)
    requires Sound(s)
    ensures var s' := SendBurst(s, now, sent);
            && Sound(s') && s'.control == s.control && s'.cfg == s.cfg
            && s'.seqs.highestAck == s.seqs.highestAck && s.seqs.tSeqno <= s'.seqs.tSeqno
            && Outstanding(s') <= Max(Outstanding(s), Window(s))
    decreases s.seqs.highestAck + Window(s) + 1 - s.seqs.tSeqno
  {
    if HasRoom(s) {
      SendNextSound(s, now);
      var s1 := SendNext(s, now);
      if s.cfg.maxBurst == 0 || sent + 1 != s.cfg.maxBurst {
        BurstSound(s1, now, sent + 1);
      }
      hide SendNext, Sound;
    }
  }

  /** The loop is done only when nothing more may be sent, or the burst is complete. */
  lemma {:induction false} BurstIsComplete(s: Tcp, now: real, sent: nat)
    requires Sound(s) && (s.cfg.maxBurst == 0 || sent < s.cfg.maxBurst)
    ensures var s' := SendBurst(s, now, sent);
            HasRoom(s') ==> s'.seqs.tSeqno == s.seqs.tSeqno + s.cfg.maxBurst - sent && s.cfg.maxBurst != 0
    decreases s.seqs.highestAck + Window(s) + 1 - s.seqs.tSeqno
  {
    if HasRoom(s) {
      SendNextSound(s, now);
      if s.cfg.maxBurst == 0 || sent + 1 != s.cfg.maxBurst {
        BurstIsComplete(SendNext(s, now), now, sent + 1);
      }
      hide SendNext, Sound;
    }
  }

  /** Sound, and never more outstanding than the advertised window. */
  ghost predicate Safe(s: Tcp) {
    Sound(s) && Outstanding(s) <= s.cfg.wnd
  }

  lemma SendMuchSafe(s: Tcp, now: real)
    requires Safe(s)
    ensures Safe(SendMuch(s, now)) && SendMuch(s, now).control == s.control && SendMuch(s, now).cfg == s.cfg
  {
    BurstSound(s, now, 0);
    hide SendBurst, Sound;
  }

  /** The window plays no part in it. */
  lemma ControlIsFree(s: Tcp, c: Control)
    requires Safe(s)
    ensures Safe(s.(control := c))
  {}

  lemma FastRetransmitSafe(s: Tcp, now: real)
    requires Safe(s)
    ensures Safe(FastRetransmit(s, now)) && FastRetransmit(s, now).cfg == s.cfg
  {
    var s1 := s.(control := s.control.(recover := s.seqs.maxSeq, action := DupAck));
    var s2 := s1.(control := Slowdown(s1, HalveBoth));
    OutputSound(s2, s.seqs.highestAck + 1, now);
    hide Output, Slowdown, Sent;
  }

  lemma DuplicateAckSafe(s: Tcp, now: real)
    requires Safe(s)
    ensures Safe(DuplicateAck(s, now)) && DuplicateAck(s, now).cfg == s.cfg
  {
    hide Sound, FastRetransmit, SendNext;
    var n, cfg := s.control.dupAcks + 1, s.cfg;
    var s1 := s.(control := s.control.(dupAcks := n));
    ControlIsFree(s, s1.control);
    if n == cfg.numDupAcks {
      FastRetransmitSafe(s1, now);
      var s2 := DupAckAction(s1, now);
      ControlIsFree(s2, s2.control.(dupWnd := cfg.numDupAcks));
    } else if n > cfg.numDupAcks {
      ControlIsFree(s1, s1.control.(dupWnd := s.control.dupWnd + 1));
    } else {
      SendNextSound(s1, now);
    }
  }

  lemma StepSafe(s: Tcp, e: Event)
    requires Safe(s) && Legal(s, e)
    ensures Safe(Step(s, e)) && Step(s, e).cfg == s.cfg
  {
    hide Sent, SendMuch, DuplicateAck, TimeoutCut;
    match e
    case Advance(delta, now) =>
      SendMuchSafe(s.(seqs := s.seqs.(curSeq := s.seqs.curSeq + delta)), now);
    case Ack(ackNo, grown, now) =>
      DuplicateAckSafe(s, now);
      var s1 := if ackNo > s.seqs.highestAck then NewAck(s, ackNo, grown)
                else if ackNo == s.seqs.highestAck then DuplicateAck(s, now)
                else s;
      SendMuchSafe(s1, now);
    case Timer(now) =>
      var c := s.control.(dupWnd := 0, dupAcks := 0,
                          recover := if s.cfg.bugFix then s.seqs.maxSeq else s.control.recover);
      var s1 := s.(control := c);
      var s2 := ResumeAfterAck(s1.(control := TimeoutCut(s1)));
      SendMuchSafe(s2.(control := s2.control.(action := TimedOut)), now);
  }

  /** In every run: acknowledged < next <= last + 1; exactly the numbers 0 .. maxSeq were
      sent, each packet beyond the first of its number counted as a retransmission; and
      at most the advertised window is outstanding. */
  lemma {:induction false} RunSafe(cfg: Config, cwnd: NonNeg, ssthresh: int, es: seq<Event>)
    requires LegalRun(Init(cfg, cwnd, ssthresh), es)
    ensures Safe(Run(Init(cfg, cwnd, ssthresh), es)) && Run(Init(cfg, cwnd, ssthresh), es).cfg == cfg
  {
    if es != [] {
      var s := Init(cfg, cwnd, ssthresh);
      RunSafe(cfg, cwnd, ssthresh, es[..|es| - 1]);
      StepSafe(Run(s, es[..|es| - 1]), es[|es| - 1]);
    }
  }
}
