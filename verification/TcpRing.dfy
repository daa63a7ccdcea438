/** The doubling ring of time stamps refines a map from sequence numbers to the time of
    their last transmission. */
module TcpRing {
  import opened TcpSender
  import opened Remainders
  import TcpSequence

  /** The time at which k was last handed to the network. */
  function LastSent(wire: seq<Packet>, k: int): real {
    if wire == [] then 0.0
    else if wire[|wire| - 1].seqno == k then wire[|wire| - 1].time
    else LastSent(wire[..|wire| - 1], k)
  }

  /** The ring holds the time of every unacknowledged packet. Only the SYN with which the
      sender gives up is stamped and not sent. */
  ghost predicate Refines(s: Tcp) {
    var slots, a, m := s.ring.slots, s.seqs.highestAck, s.seqs.maxSeq;
    && (slots == [] ==> m == -1)
    && (slots != [] ==>
          && |slots| >= RING_SIZE && m - a < |slots|
          && forall k :: a < k <= m && 0 <= k && !(k == 0 && Aborted(s)) ==> slots[k % |slots|] == LastSent(s.wire, k))
  }

  // ----- The copy loop -----

  /** After i rounds the doubled table holds the i entries above the acknowledged one. */
  lemma {:induction false} CopyKeeps(slots: seq<real>, highestAck: SeqNo, i: nat, k: int)
    requires slots != [] && i <= |slots| && 0 <= k && highestAck <= k < highestAck + i
    ensures Copied(slots, highestAck, i)[k % (2 * |slots|)] == slots[k % |slots|]
  {
    var n, last := |slots|, highestAck + i - 1;
    if k < last {
      CopyKeeps(slots, highestAck, i - 1, k);
      RemaindersDiffer(k, last, 2 * n);
    }
  }

  /** Preparing the ring for a store keeps all that is in it. */
  lemma PreparedKeeps(r: Ring, a: SeqNo, m: SeqNo, inFlight: nat, k: int)
    requires r.slots != [] && a <= m && m - a < |r.slots| && 0 <= k && a < k <= m
    ensures var r' := Prepared(r, a, inFlight);
            |r'.slots| >= |r.slots| && r'.slots[k % |r'.slots|] == r.slots[k % |r.slots|]
  {
    CopyKeeps(r.slots, a, |r.slots|, k);
    hide Copied;
  }

  /** And there is room for the number after the last one sent. */
  lemma PreparedFits(s: Tcp, seqno: nat)
    requires TcpSequence.Sound(s) && Refines(s)
    requires seqno <= s.seqs.maxSeq || seqno == s.seqs.highestAck + 1 || seqno == s.seqs.tSeqno
    ensures var r := Prepared(s.ring, s.seqs.highestAck, PacketInFlight(s));
            |r.slots| >= RING_SIZE && Max(s.seqs.maxSeq, seqno) - s.seqs.highestAck < |r.slots|
  {}

  lemma StampRefines(s: Tcp, seqno: nat, now: real, k: int)
    requires TcpSequence.Sound(s) && Refines(s) && s.seqs.highestAck < seqno <= s.seqs.maxSeq + 1
    requires seqno <= s.seqs.maxSeq || seqno == s.seqs.highestAck + 1 || seqno == s.seqs.tSeqno
    requires 0 <= k && s.seqs.highestAck < k <= Max(s.seqs.maxSeq, seqno)
    ensures var slots := Stamp(s.ring, s.seqs.highestAck, PacketInFlight(s), seqno, now).slots;
            && |slots| > 0
            && slots[k % |slots|] ==
               if k == seqno then now else s.ring.slots[k % |s.ring.slots|]
  {
    var a, m := s.seqs.highestAck, s.seqs.maxSeq;
    var r := Prepared(s.ring, a, PacketInFlight(s));
    PreparedFits(s, seqno);
    if k < seqno {
      RemaindersDiffer(k, seqno, |r.slots|);
    } else if seqno < k {
      RemaindersDiffer(seqno, k, |r.slots|);
    }
    if k != seqno {
      PreparedKeeps(s.ring, a, m, PacketInFlight(s), k);
    }
    hide Prepared, TcpSequence.Sent, LastSent;
  }

  lemma LastSentMore(wire: seq<Packet>, p: Packet, k: int)
    ensures LastSent(wire + [p], k) == if k == p.seqno then p.time else LastSent(wire, k)
  {}

  lemma OutputRefines(s: Tcp, seqno: nat, now: real)
    requires TcpSequence.Sound(s) && Refines(s) && s.seqs.highestAck < seqno <= s.seqs.maxSeq + 1
    requires seqno <= s.seqs.maxSeq || seqno == s.seqs.highestAck + 1 || seqno == s.seqs.tSeqno
    ensures Refines(Output(s, seqno, now))
  {
    var s', slots := Output(s, seqno, now), Stamp(s.ring, s.seqs.highestAck, PacketInFlight(s), seqno, now).slots;
    PreparedFits(s, seqno);
    assert s'.ring.slots == slots && |slots| >= RING_SIZE && s'.seqs.maxSeq - s.seqs.highestAck < |slots|;
    assert Aborted(s) ==> Aborted(s');
    forall k | s.seqs.highestAck < k <= s'.seqs.maxSeq && 0 <= k && !(k == 0 && Aborted(s'))
      ensures slots[k % |slots|] == LastSent(s'.wire, k)
    {
      StampRefines(s, seqno, now, k);
      LastSentMore(s.wire, Packet(seqno, now), k);
      hide Stamp, LastSent, TcpSequence.Sent;
    }
    hide Stamp, LastSent, TcpSequence.Sent;
  }

  lemma SendNextRefines(s: Tcp, now: real)
    requires TcpSequence.Sound(s) && Refines(s)
    ensures Refines(SendNext(s, now))
  {
    OutputRefines(s, s.seqs.tSeqno, now);
    hide Output;
  }

  lemma {:induction false} BurstRefines(s: Tcp, now: real, sent: nat)
    requires TcpSequence.Sound(s) && Refines(s)
    ensures Refines(SendBurst(s, now, sent))
    decreases s.seqs.highestAck + Window(s) + 1 - s.seqs.tSeqno
  {
    if HasRoom(s) {
      SendNextRefines(s, now);
      TcpSequence.SendNextSound(s, now);
      if s.cfg.maxBurst == 0 || sent + 1 != s.cfg.maxBurst {
        BurstRefines(SendNext(s, now), now, sent + 1);
      }
      hide SendNext, TcpSequence.Sound, Refines;
    }
  }

  /** The window plays no part in it. */
  lemma ControlIsFree(s: Tcp, c: Control)
    requires TcpSequence.Sound(s) && Refines(s)
    ensures TcpSequence.Sound(s.(control := c)) && Refines(s.(control := c))
  {}

  lemma FastRetransmitRefines(s: Tcp, now: real)
    requires TcpSequence.Sound(s) && Refines(s)
    ensures Refines(FastRetransmit(s, now)) && TcpSequence.Sound(FastRetransmit(s, now))
  {
    hide Slowdown, Output, Refines, TcpSequence.Sound;
    var s1 := s.(control := s.control.(recover := s.seqs.maxSeq, action := DupAck));
    var s2 := s1.(control := Slowdown(s1, HalveBoth));
    assert s2 == s.(control := s2.control);
    ControlIsFree(s, s2.control);
    ResendRefines(s2, now);
    var s3 := Output(s2, s2.seqs.highestAck + 1, now);
    ControlIsFree(s3, s3.control.(dupWnd := s.cfg.numDupAcks));
    assert FastRetransmit(s, now) == s3.(control := s3.control.(dupWnd := s.cfg.numDupAcks));
  }

  /** Sending the first unacknowledged packet again. */
  lemma ResendRefines(s: Tcp, now: real)
    requires TcpSequence.Sound(s) && Refines(s)
    ensures var s' := Output(s, s.seqs.highestAck + 1, now); Refines(s') && TcpSequence.Sound(s')
  {
    OutputRefines(s, s.seqs.highestAck + 1, now);
    TcpSequence.OutputSound(s, s.seqs.highestAck + 1, now);
    hide Output, Refines;
  }

  lemma ThirdDuplicateRefines(s: Tcp, now: real)
    requires TcpSequence.Sound(s) && Refines(s)
    ensures var s' := DupAckAction(s, now);
            Refines(s') && Refines(s'.(control := s'.control.(dupWnd := s.cfg.numDupAcks)))
  {
    FastRetransmitRefines(s, now);
    var s' := DupAckAction(s, now);
    ControlIsFree(s', s'.control.(dupWnd := s.cfg.numDupAcks));
    hide FastRetransmit, Refines, TcpSequence.Sound;
  }

  lemma DuplicateAckRefines(s: Tcp, now: real)
    requires TcpSequence.Sound(s) && Refines(s)
    ensures Refines(DuplicateAck(s, now))
  {
    hide Refines, TcpSequence.Sound, DupAckAction, SendNext;
    var n, cfg := s.control.dupAcks + 1, s.cfg;
    var s1 := s.(control := s.control.(dupAcks := n));
    ControlIsFree(s, s1.control);
    if n == cfg.numDupAcks {
      ThirdDuplicateRefines(s1, now);
    } else if n > cfg.numDupAcks {
      ControlIsFree(s1, s1.control.(dupWnd := s.control.dupWnd + 1));
    } else {
      SendNextRefines(s1, now);
    }
  }

  lemma StepRefines(s: Tcp, e: Event)
    requires TcpSequence.Safe(s) && Refines(s) && Legal(s, e)
    ensures Refines(Step(s, e))
  {
    hide TcpSequence.Sent, LastSent, SendBurst, DuplicateAck, TimeoutCut;
    match e
    case Advance(delta, now) =>
      BurstRefines(s.(seqs := s.seqs.(curSeq := s.seqs.curSeq + delta)), now, 0);
    case Ack(ackNo, grown, now) =>
      TcpSequence.DuplicateAckSafe(s, now);
      DuplicateAckRefines(s, now);
      var s1 := if ackNo > s.seqs.highestAck then NewAck(s, ackNo, grown)
                else if ackNo == s.seqs.highestAck then DuplicateAck(s, now)
                else s;
      BurstRefines(s1, now, 0);
    case Timer(now) =>
      var c := s.control.(dupWnd := 0, dupAcks := 0,
                          recover := if s.cfg.bugFix then s.seqs.maxSeq else s.control.recover);
      var s1 := s.(control := c);
      var s2 := ResumeAfterAck(s1.(control := TimeoutCut(s1)));
      BurstRefines(s2.(control := s2.control.(action := TimedOut)), now, 0);
  }

  lemma {:induction false} RunRefines(cfg: Config, cwnd: NonNeg, ssthresh: int, es: seq<Event>)
    requires LegalRun(Init(cfg, cwnd, ssthresh), es)
    ensures Refines(Run(Init(cfg, cwnd, ssthresh), es))
  {
    if es != [] {
      var s := Init(cfg, cwnd, ssthresh);
      RunRefines(cfg, cwnd, ssthresh, es[..|es| - 1]);
      TcpSequence.RunSafe(cfg, cwnd, ssthresh, es[..|es| - 1]);
      StepRefines(Run(s, es[..|es| - 1]), es[|es| - 1]);
    }
  }

  /** In every run, across all sends and doublings: the slot of an unacknowledged sequence
      number holds the time of its last transmission. */
  lemma RingRefinesMap(cfg: Config, cwnd: NonNeg, ssthresh: int, es: seq<Event>, k: nat)
    requires LegalRun(Init(cfg, cwnd, ssthresh), es)
    requires var s := Run(Init(cfg, cwnd, ssthresh), es);
             s.seqs.highestAck < k <= s.seqs.maxSeq && !(k == 0 && Aborted(s))
    ensures var s := Run(Init(cfg, cwnd, ssthresh), es);
            var slots := s.ring.slots;
            slots != [] && slots[k % |slots|] == LastSent(s.wire, k) && TcpSequence.Sent(s.wire, k)
  {
    RunRefines(cfg, cwnd, ssthresh, es);
    TcpSequence.RunSafe(cfg, cwnd, ssthresh, es);
  }
}
