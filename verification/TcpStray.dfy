/** The copy loop that doubles the table of time stamps begins at highest_ack_, which is
    -1 before the first ACK: when it leaves its arrays. */
module TcpStray {
  import opened TcpSender
  import TcpReno

  // ----- One burst -----

  lemma {:induction false} StrayStays(s: Tcp, now: real, sent: nat)
    requires s.ring.strayed
    ensures SendBurst(s, now, sent).ring.strayed
    decreases s.seqs.highestAck + Window(s) + 1 - s.seqs.tSeqno
  {
    if HasRoom(s) && (s.cfg.maxBurst == 0 || sent + 1 != s.cfg.maxBurst) {
      StrayStays(SendNext(s, now), now, sent + 1);
    }
  }

  /** Before anything has strayed: at most 90 packets before the first ACK, and no doubling. */
  predicate Early(s: Tcp) {
    s.seqs.highestAck == -1 ==>
      s.seqs.tSeqno <= 90 && (s.ring.slots == [] || |s.ring.slots| == RING_SIZE)
  }

  /** Packets that the burst limit still allows a burst that has sent `sent`. */
  predicate BurstReaches(cfg: Config, sent: nat, more: nat) {
    cfg.maxBurst == 0 || sent + more <= cfg.maxBurst
  }

  /** The sender is about to give up on its SYN. */
  predicate LastSyn(s: Tcp) {
    s.cfg.syn && s.seqs.tSeqno == 0 && 0 < s.cfg.maxConnects <= s.counts.connects
  }

  /** The guards of a burst let it reach the 91st packet; the SYN makes room for one more. */
  predicate Reaches91(s: Tcp, sent: nat) {
    && Window(s) >= 91
    && s.seqs.curSeq >= (if s.cfg.syn && s.seqs.tSeqno == 0 then 90 else 91)
    && s.seqs.tSeqno <= 91 && BurstReaches(s.cfg, sent, 91 - s.seqs.tSeqno)
    && !LastSyn(s)
  }

  /** The 91st packet before the first ACK doubles the ring, whose copy loop then begins
      at index -1. */
  lemma {:induction false} BurstStraysIff(s: Tcp, now: real, sent: nat)
    requires s.seqs.highestAck == -1 && Early(s) && !s.ring.strayed
    requires BurstReaches(s.cfg, sent, 1)
    ensures SendBurst(s, now, sent).ring.strayed <==> Reaches91(s, sent)
    decreases s.seqs.highestAck + Window(s) + 1 - s.seqs.tSeqno
  {
    if HasRoom(s) {
      var s1 := SendNext(s, now);
      NextReaches(s, now, sent);
      SendNextTells(s, now);
      if s1.ring.strayed {
        StrayStays(s1, now, sent + 1);
      } else if s.cfg.maxBurst == 0 || sent + 1 != s.cfg.maxBurst {
        BurstStraysIff(s1, now, sent + 1);
      }
      hide SendNext, Reaches91;
    }
  }

  /** One packet more leaves it as far from the 91st as it was. */
  lemma NextReaches(s: Tcp, now: real, sent: nat)
    requires s.seqs.highestAck == -1 && s.seqs.tSeqno <= 90 && HasRoom(s) && BurstReaches(s.cfg, sent, 1)
    ensures var s1 := SendNext(s, now);
            && s1.cfg == s.cfg && s1.seqs.tSeqno == s.seqs.tSeqno + 1 && Window(s1) == Window(s)
            && (s.seqs.tSeqno < 90 ==> (Reaches91(s1, sent + 1) <==> Reaches91(s, sent)))
            && (s.seqs.tSeqno == 90 ==> Reaches91(s, sent))
            && (s.seqs.tSeqno < 90 && s.cfg.maxBurst == sent + 1 ==> !Reaches91(s, sent))
  {
    hide Copied;
  }

  /** The first burst of a connection accesses memory before the ring exactly if the
      initial and the advertised window, the burst limit and the data, of which the SYN
      counts as one, let it send 91 packets. */
  lemma FirstBurstStraysIff(cfg: Config, cwnd: NonNeg, ssthresh: int, n: int, now: real)
    ensures Step(Init(cfg, cwnd, ssthresh), Advance(n, now)).ring.strayed <==>
            && n >= (if cfg.syn then 90 else 91)
            && cfg.wnd >= 91 && cwnd >= 91.0
            && (cfg.maxBurst == 0 || cfg.maxBurst >= 91)
  {
    var s := Init(cfg, cwnd, ssthresh);
    BurstStraysIff(s.(seqs := s.seqs.(curSeq := n)), now, 0);
    hide SendBurst;
  }

  // ----- One event -----

  /** An event before the first ACK that gets to the 91st packet, or cuts the window, and so
      sends packet 0 again, while 90 or more are out. */
  predicate Overruns(s: Tcp, e: Event) {
    && s.seqs.highestAck == -1 && Step(s, e).seqs.highestAck == -1
    && (Step(s, e).seqs.tSeqno >= 91 || (TcpReno.Cuts(s, e) && s.seqs.tSeqno >= 90))
  }

  /** What sending may do: stray, exactly if it gets to the 91st packet or sends with 90 out. */
  lemma OutputStraysIff(s: Tcp, seqno: nat, now: real)
    requires Early(s) && !s.ring.strayed
    ensures var s' := Output(s, seqno, now);
            && s'.seqs.highestAck == s.seqs.highestAck && s'.seqs.tSeqno == s.seqs.tSeqno
            && (s'.ring.strayed <==> s.seqs.highestAck == -1 && s.seqs.tSeqno == 90)
            && (!s'.ring.strayed ==> Early(s'))
  {
    hide Copied;
  }

  lemma OutputKeepsStray(s: Tcp, seqno: nat, now: real)
    ensures s.ring.strayed ==> Output(s, seqno, now).ring.strayed
    ensures Output(s, seqno, now).seqs.highestAck == s.seqs.highestAck
  {
    hide Copied;
  }

  /** Strayed or early, and strayed with 91 packets out: what one burst leaves. */
  predicate Told(s: Tcp, s': Tcp) {
    && s'.seqs.highestAck == s.seqs.highestAck
    && (s'.ring.strayed <==> s.ring.strayed || (s.seqs.highestAck == -1 && s'.seqs.tSeqno >= 91))
    && (!s'.ring.strayed ==> Early(s'))
  }

  lemma SendNextTells(s: Tcp, now: real)
    requires Early(s) && !s.ring.strayed
    ensures Told(s, SendNext(s, now))
  {
    OutputStraysIff(s, s.seqs.tSeqno, now);
    hide Output;
  }

  lemma {:induction false} BurstTells(s: Tcp, now: real, sent: nat)
    requires Early(s) && !s.ring.strayed
    ensures Told(s, SendBurst(s, now, sent))
    decreases s.seqs.highestAck + Window(s) + 1 - s.seqs.tSeqno
  {
    if HasRoom(s) {
      var s1 := SendNext(s, now);
      SendNextTells(s, now);
      if s.cfg.maxBurst == 0 || sent + 1 != s.cfg.maxBurst {
        if s1.ring.strayed {
          StrayStays(s1, now, sent + 1);
          BurstGrows(s1, now, sent + 1);
        } else {
          BurstTells(s1, now, sent + 1);
        }
      }
      hide SendNext;
    }
  }

  lemma {:induction false} BurstGrows(s: Tcp, now: real, sent: nat)
    ensures var s' := SendBurst(s, now, sent);
            s'.seqs.highestAck == s.seqs.highestAck && s'.seqs.tSeqno >= s.seqs.tSeqno
    decreases s.seqs.highestAck + Window(s) + 1 - s.seqs.tSeqno
  {
    if HasRoom(s) {
      OutputKeepsStray(s, s.seqs.tSeqno, now);
      if s.cfg.maxBurst == 0 || sent + 1 != s.cfg.maxBurst {
        BurstGrows(SendNext(s, now), now, sent + 1);
      }
      hide Output;
    }
  }

  /** A burst that may already have strayed. */
  lemma BurstGoesOn(s: Tcp, now: real)
    requires !s.ring.strayed ==> Early(s)
    ensures var s' := SendMuch(s, now);
            && s'.seqs.highestAck == s.seqs.highestAck && s'.seqs.tSeqno >= s.seqs.tSeqno
            && (s'.ring.strayed <==> s.ring.strayed || (s.seqs.highestAck == -1 && s'.seqs.tSeqno >= 91))
            && (!s'.ring.strayed ==> Early(s'))
  {
    BurstGrows(s, now, 0);
    if s.ring.strayed {
      StrayStays(s, now, 0);
    } else {
      BurstTells(s, now, 0);
    }
    hide SendBurst;
  }

  lemma FastRetransmitTells(s: Tcp, now: real)
    requires Early(s) && !s.ring.strayed
    ensures var s' := FastRetransmit(s, now);
            && s'.seqs.highestAck == s.seqs.highestAck && s'.seqs.tSeqno == s.seqs.tSeqno
            && (s'.ring.strayed <==> s.seqs.highestAck == -1 && s.seqs.tSeqno == 90)
            && (!s'.ring.strayed ==> Early(s'))
  {
    hide Output, Slowdown;
    var s1 := s.(control := s.control.(recover := s.seqs.maxSeq, action := DupAck));
    var s2 := s1.(control := Slowdown(s1, HalveBoth));
    OutputStraysIff(s2, s2.seqs.highestAck + 1, now);
  }

  /** A duplicate of no ACK at all: limited transmit and the fast retransmit send, too. */
  lemma DuplicateAckTells(s: Tcp, e: Event)
    requires Early(s) && !s.ring.strayed && e.Ack? && e.ackNo == s.seqs.highestAck
    ensures var s' := DuplicateAck(s, e.now);
            && s'.seqs.highestAck == s.seqs.highestAck && s'.seqs.tSeqno >= s.seqs.tSeqno
            && (s'.ring.strayed <==>
                  s.seqs.highestAck == -1 && (s'.seqs.tSeqno >= 91 || (TcpReno.Cuts(s, e) && s.seqs.tSeqno >= 90)))
            && (!s'.ring.strayed ==> Early(s'))
  {
    hide FastRetransmit, SendNext;
    var s1 := s.(control := s.control.(dupAcks := s.control.dupAcks + 1));
    assert MayCut(s1) == MayCut(s);
    FastRetransmitTells(s1, e.now);
    SendNextTells(s1, e.now);
    SendNextGrows(s1, e.now);
    hide MayCut;
  }

  lemma SendNextGrows(s: Tcp, now: real)
    ensures SendNext(s, now).seqs.tSeqno == s.seqs.tSeqno + 1
  {}

  lemma StepTells(s: Tcp, e: Event)
    requires Early(s) && !s.ring.strayed
    ensures Step(s, e).ring.strayed <==> Overruns(s, e)
    ensures !Step(s, e).ring.strayed ==> Early(Step(s, e))
  {
    hide SendBurst, DuplicateAck, TimeoutCut, MayCut;
    match e
    case Advance(delta, now) =>
      BurstGoesOn(s.(seqs := s.seqs.(curSeq := s.seqs.curSeq + delta)), now);
    case Ack(ackNo, grown, now) =>
      if ackNo == s.seqs.highestAck {
        DuplicateAckTells(s, e);
      }
      var s1 := if ackNo > s.seqs.highestAck then NewAck(s, ackNo, grown)
                else if ackNo == s.seqs.highestAck then DuplicateAck(s, now)
                else s;
      BurstGoesOn(s1, now);
    case Timer(now) =>
      var c := s.control.(dupWnd := 0, dupAcks := 0,
                          recover := if s.cfg.bugFix then s.seqs.maxSeq else s.control.recover);
      var s1 := s.(control := c);
      var s2 := ResumeAfterAck(s1.(control := TimeoutCut(s1)));
      BurstGoesOn(s2.(control := s2.control.(action := TimedOut)), now);
  }

  /** What has strayed is never repaired. */
  lemma StepKeepsStray(s: Tcp, e: Event)
    requires s.ring.strayed
    ensures Step(s, e).ring.strayed
  {
    hide SendBurst, Output, TimeoutCut, Slowdown, MayCut;
    match e
    case Advance(delta, now) =>
      StrayStays(s.(seqs := s.seqs.(curSeq := s.seqs.curSeq + delta)), now, 0);
    case Ack(ackNo, grown, now) =>
      DuplicateAckKeepsStray(s, now);
      hide DuplicateAck;
      var s1 := if ackNo > s.seqs.highestAck then NewAck(s, ackNo, grown)
                else if ackNo == s.seqs.highestAck then DuplicateAck(s, now)
                else s;
      StrayStays(s1, now, 0);
    case Timer(now) =>
      var c := s.control.(dupWnd := 0, dupAcks := 0,
                          recover := if s.cfg.bugFix then s.seqs.maxSeq else s.control.recover);
      var s1 := s.(control := c);
      var s2 := ResumeAfterAck(s1.(control := TimeoutCut(s1)));
      StrayStays(s2.(control := s2.control.(action := TimedOut)), now, 0);
  }

  lemma DuplicateAckKeepsStray(s: Tcp, now: real)
    requires s.ring.strayed
    ensures DuplicateAck(s, now).ring.strayed
  {
    hide Output, Slowdown, MayCut;
    var s1 := s.(control := s.control.(dupAcks := s.control.dupAcks + 1));
    var s2 := s1.(control := s1.control.(recover := s.seqs.maxSeq, action := DupAck));
    var s3 := s2.(control := Slowdown(s2, HalveBoth));
    OutputKeepsStray(s3, s3.seqs.highestAck + 1, now);
    OutputKeepsStray(s1, s1.seqs.tSeqno, now);
  }

  // ----- The guards of one event -----

  /** Limited transmit sends a packet. */
  predicate SendsOne(s: Tcp) {
    && s.control.dupAcks + 1 < s.cfg.numDupAcks && s.cfg.singleDup && s.seqs.tSeqno < s.seqs.curSeq
    && s.seqs.tSeqno <= s.seqs.highestAck + s.cfg.wnd
    && s.seqs.tSeqno as real <= s.seqs.highestAck as real + s.control.cwnd + (s.control.dupAcks + 1) as real
  }

  /** The state in which a timeout begins to send. */
  function TimedOutState(s: Tcp): Tcp {
    var s1 := s.(control := s.control.(dupWnd := 0, dupAcks := 0,
                                       recover := if s.cfg.bugFix then s.seqs.maxSeq else s.control.recover));
    var c := TimeoutCut(s1);
    s1.(control := c.(action := TimedOut), seqs := s.seqs.(tSeqno := s.seqs.highestAck + 1))
  }

  /** What decides, before the event: with 90 packets out the next packet, from limited
      transmit, or packet 0, from a fast retransmit; else a burst that reaches the 91st. */
  predicate Unguarded(s: Tcp, e: Event) {
    s.seqs.highestAck == -1 &&
    match e
    case Advance(delta, _) => Reaches91(s.(seqs := s.seqs.(curSeq := s.seqs.curSeq + delta)), 0)
    case Ack(ackNo, _, now) =>
      ackNo == -1 &&
      (|| (s.seqs.tSeqno == 90 && (SendsOne(s) || TcpReno.Cuts(s, e)))
       || (s.control.dupAcks + 1 >= s.cfg.numDupAcks && Reaches91(DuplicateAck(s, now), 0)))
    case Timer(_) => Reaches91(TimedOutState(s), 0)
  }

  lemma SendsOneIff(s: Tcp, now: real)
    requires Early(s) && !s.ring.strayed && s.seqs.highestAck == -1
    requires s.control.dupAcks + 1 < s.cfg.numDupAcks
    ensures DuplicateAck(s, now).ring.strayed <==> s.seqs.tSeqno == 90 && SendsOne(s)
  {
    var s1 := s.(control := s.control.(dupAcks := s.control.dupAcks + 1));
    SendNextTells(s1, now);
    SendNextGrows(s1, now);
    hide SendNext;
  }

  lemma AckIsUnguardedIff(s: Tcp, e: Event)
    requires Early(s) && !s.ring.strayed && s.seqs.highestAck == -1 && e.Ack? && e.ackNo == -1
    ensures Step(s, e).ring.strayed <==> Unguarded(s, e)
  {
    var s1 := DuplicateAck(s, e.now);
    DuplicateAckTells(s, e);
    DuplicateAckCounts(s, e.now);
    if s.control.dupAcks + 1 < s.cfg.numDupAcks {
      SendsOneIff(s, e.now);
    } else {
      StrayAtCut(s, e);
      if s1.ring.strayed {
        StrayStays(s1, e.now, 0);
      } else {
        BurstStraysIff(s1, e.now, 0);
      }
    }
    hide DuplicateAck, SendBurst, Reaches91, MayCut, Early;
  }

  lemma DuplicateAckCounts(s: Tcp, now: real)
    ensures var s' := DuplicateAck(s, now); s'.control.dupAcks == s.control.dupAcks + 1 && s'.cfg == s.cfg
  {
    hide Copied, Crowded, Share, MayCut;
  }

  lemma StrayAtCut(s: Tcp, e: Event)
    requires Early(s) && !s.ring.strayed && s.seqs.highestAck == -1 && e.Ack? && e.ackNo == -1
    requires s.control.dupAcks + 1 >= s.cfg.numDupAcks
    ensures DuplicateAck(s, e.now).ring.strayed <==> s.seqs.tSeqno == 90 && TcpReno.Cuts(s, e)
  {
    hide FastRetransmit;
    var s1 := s.(control := s.control.(dupAcks := s.control.dupAcks + 1));
    assert MayCut(s1) == MayCut(s);
    FastRetransmitTells(s1, e.now);
    hide MayCut;
  }

  lemma TimerIsUnguardedIff(s: Tcp, now: real)
    requires Early(s) && !s.ring.strayed && s.seqs.highestAck == -1
    ensures Timeout(s, now).ring.strayed <==> Reaches91(TimedOutState(s), 0)
  {
    hide TimeoutCut, SendBurst, Reaches91;
    BurstStraysIff(TimedOutState(s), now, 0);
  }

  lemma StepIsUnguardedIff(s: Tcp, e: Event)
    requires Early(s) && !s.ring.strayed
    ensures Step(s, e).ring.strayed <==> Unguarded(s, e)
  {
    StepTells(s, e);
    if s.seqs.highestAck == -1 {
      match e
      case Advance(delta, now) =>
        hide SendBurst, Reaches91;
        BurstStraysIff(s.(seqs := s.seqs.(curSeq := s.seqs.curSeq + delta)), now, 0);
      case Ack(ackNo, _, now) =>
        if ackNo == -1 {
          AckIsUnguardedIff(s, e);
        } else {
          NewAckEnds(s, e);
        }
        hide Step, Reaches91, DuplicateAck, TcpReno.Cuts, SendsOne, Early;
      case Timer(now) =>
        hide Timeout, TimedOutState, Reaches91;
        TimerIsUnguardedIff(s, now);
    }
    hide Step, Unguarded, Early;
  }

  lemma NewAckEnds(s: Tcp, e: Event)
    requires Early(s) && !s.ring.strayed && e.Ack? && e.ackNo > s.seqs.highestAck
    ensures !Step(s, e).ring.strayed
  {
    BurstGoesOn(NewAck(s, e.ackNo, e.grown), e.now);
    hide SendBurst;
  }

  // ----- Whole runs -----

  ghost predicate SomeOverrun(s: Tcp, es: seq<Event>) {
    exists i :: 0 <= i < |es| && Overruns(Run(s, es[..i]), es[i])
  }

  ghost predicate SomeUnguarded(s: Tcp, es: seq<Event>) {
    exists i :: 0 <= i < |es| && Unguarded(Run(s, es[..i]), es[i])
  }

  lemma OverrunInFrontOrLast(s: Tcp, es: seq<Event>)
    requires es != []
    ensures var front := es[..|es| - 1];
            SomeOverrun(s, es) <==> SomeOverrun(s, front) || Overruns(Run(s, front), es[|es| - 1])
  {
    hide Overruns, Run;
    var front := es[..|es| - 1];
    if i :| 0 <= i < |es| && Overruns(Run(s, es[..i]), es[i]) {
      assert i < |front| ==> front[..i] == es[..i] && front[i] == es[i];
    }
    if i :| 0 <= i < |front| && Overruns(Run(s, front[..i]), front[i]) {
      assert front[..i] == es[..i] && front[i] == es[i];
    }
  }

  lemma UnguardedInFrontOrLast(s: Tcp, es: seq<Event>)
    requires es != []
    ensures var front := es[..|es| - 1];
            SomeUnguarded(s, es) <==> SomeUnguarded(s, front) || Unguarded(Run(s, front), es[|es| - 1])
  {
    hide Unguarded, Run;
    var front := es[..|es| - 1];
    if i :| 0 <= i < |es| && Unguarded(Run(s, es[..i]), es[i]) {
      assert i < |front| ==> front[..i] == es[..i] && front[i] == es[i];
    }
    if i :| 0 <= i < |front| && Unguarded(Run(s, front[..i]), front[i]) {
      assert front[..i] == es[..i] && front[i] == es[i];
    }
  }

  /** In every run the sender accesses memory outside its tables exactly if some event
      before the first ACK takes it to the 91st packet, or makes it send packet 0 again by
      a fast retransmit while 90 or more are out; which is decided before the event. */
  lemma {:induction false} RunStraysIff(cfg: Config, cwnd: NonNeg, ssthresh: int, es: seq<Event>)
    ensures var s := Init(cfg, cwnd, ssthresh);
            && (Run(s, es).ring.strayed <==> SomeOverrun(s, es))
            && (Run(s, es).ring.strayed <==> SomeUnguarded(s, es))
            && (!Run(s, es).ring.strayed ==> Early(Run(s, es)))
  {
    if es != [] {
      var s, front, e := Init(cfg, cwnd, ssthresh), es[..|es| - 1], es[|es| - 1];
      RunStraysIff(cfg, cwnd, ssthresh, front);
      OverrunInFrontOrLast(s, es);
      UnguardedInFrontOrLast(s, es);
      hide Step, Early, Overruns, Unguarded, SomeOverrun, SomeUnguarded;
      if Run(s, front).ring.strayed {
        StepKeepsStray(Run(s, front), e);
      } else {
        StepTells(Run(s, front), e);
        StepIsUnguardedIff(Run(s, front), e);
      }
    }
  }
}
