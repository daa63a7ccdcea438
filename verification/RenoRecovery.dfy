/** What the sender puts on the wire in fast recovery, after new ACKs and after a timeout,
    without a limit on bursts. */
module RenoRecovery {
  import opened TcpSender
  import TcpReno
  import TcpSequence

  function Least(a: int, b: int): int { if a < b then a else b }

  /** The number after the last one sent, if `allowed` packets may be outstanding. */
  function SentUpTo(s: Tcp, allowed: nat): int {
    Max(s.seqs.tSeqno, Least(s.seqs.curSeq, s.seqs.highestAck + 1 + allowed))
  }

  /** The sequence numbers on the wire, in order. */
  function Seqnos(wire: seq<Packet>): seq<int> {
    if wire == [] then [] else Seqnos(wire[..|wire| - 1]) + [wire[|wire| - 1].seqno]
  }

  function Range(from: int, upTo: int): (r: seq<int>)
    ensures |r| == (if from < upTo then upTo - from else 0) && forall j :: 0 <= j < |r| ==> r[j] == from + j
    decreases upTo - from
  {
    if upTo <= from then [] else Range(from, upTo - 1) + [upTo - 1]
  }

  lemma SeqnosMore(wire: seq<Packet>, p: Packet)
    ensures Seqnos(wire + [p]) == Seqnos(wire) + [p.seqno]
  {
    assert (wire + [p])[..|wire|] == wire;
  }

  lemma RangesJoin(a: int, b: int, c: int)
    requires a <= b <= c
    ensures Range(a, b) + Range(b, c) == Range(a, c)
  {}

  /** From s to s' the sender has put just the numbers on the wire, as far as `allowed`
      outstanding packets and the data go. */
  ghost predicate SentAll(s: Tcp, s': Tcp, allowed: nat) {
    && s'.seqs.tSeqno == SentUpTo(s, allowed)
    && s'.seqs.curSeq == s.seqs.curSeq && s'.seqs.highestAck == s.seqs.highestAck
    && s'.control == s.control && s'.cfg == s.cfg
    && Seqnos(s'.wire) == Seqnos(s.wire) + Range(s.seqs.tSeqno, s'.seqs.tSeqno)
  }

  /** A burst sends exactly what the window allows and the application has supplied. */
  lemma {:induction false} BurstSends(s: Tcp, now: real, sent: nat)
    requires s.cfg.maxBurst == 0 && s.seqs.tSeqno > s.seqs.highestAck && s.seqs.tSeqno > 0
    ensures SentAll(s, SendBurst(s, now, sent), Window(s))
    decreases s.seqs.highestAck + Window(s) + 1 - s.seqs.tSeqno
  {
    if HasRoom(s) {
      NextSends(s, now);
      BurstSends(SendNext(s, now), now, sent + 1);
      assert SendBurst(s, now, sent) == SendBurst(SendNext(s, now), now, sent + 1);
      hide SendNext, SendBurst, Seqnos;
      OneMore(s, SendNext(s, now), SendBurst(s, now, sent), Window(s));
    } else {
      assert SentUpTo(s, Window(s)) == s.seqs.tSeqno;
    }
  }

  lemma OneMore(s: Tcp, s1: Tcp, s': Tcp, allowed: nat)
    requires s.seqs.tSeqno > s.seqs.highestAck
    requires s.seqs.tSeqno - s.seqs.highestAck <= allowed && s.seqs.tSeqno < s.seqs.curSeq
    requires Seqnos(s1.wire) == Seqnos(s.wire) + [s.seqs.tSeqno] && s1.seqs.tSeqno == s.seqs.tSeqno + 1
    requires s1.seqs.curSeq == s.seqs.curSeq && s1.seqs.highestAck == s.seqs.highestAck
    requires s1.control == s.control && s1.cfg == s.cfg && SentAll(s1, s', allowed)
    ensures SentAll(s, s', allowed)
  {
    var a, b := s.seqs.tSeqno, s'.seqs.tSeqno;
    RangesJoin(a, a + 1, b);
    assert Range(a, a + 1) == [a];
    hide Seqnos, Range;
  }

  lemma NextSends(s: Tcp, now: real)
    requires s.seqs.tSeqno > 0
    ensures var s' := SendNext(s, now);
            && Seqnos(s'.wire) == Seqnos(s.wire) + [s.seqs.tSeqno] && s'.seqs.tSeqno == s.seqs.tSeqno + 1
            && s'.seqs.curSeq == s.seqs.curSeq && s'.seqs.highestAck == s.seqs.highestAck
            && s'.control == s.control && s'.cfg == s.cfg
  {
    SeqnosMore(s.wire, Packet(s.seqs.tSeqno, now));
    hide Copied, Seqnos;
  }

  // ----- Fast recovery -----

  /** The cut itself: half the flight is left, and the first unacknowledged packet goes out. */
  lemma CutSends(s: Tcp, now: real)
    requires s.seqs.highestAck >= 0
    ensures var s' := FastRetransmit(s, now);
            && Seqnos(s'.wire) == Seqnos(s.wire) + [s.seqs.highestAck + 1]
            && s'.seqs.tSeqno == s.seqs.tSeqno && s'.seqs.curSeq == s.seqs.curSeq
            && s'.seqs.highestAck == s.seqs.highestAck && s'.cfg == s.cfg
            && s'.control.action == DupAck && s'.control.dupAcks == s.control.dupAcks
            && s'.control.dupWnd == s.cfg.numDupAcks
            && s'.control.cwnd == CutTo(s) && s'.control.ssthresh == ThresholdTo(s)
  {
    var s1 := s.(control := s.control.(recover := s.seqs.maxSeq, action := DupAck));
    var s2 := s1.(control := Slowdown(s1, HalveBoth));
    CutLeaves(s, s1);
    RetransmitSends(s2, now);
    hide Output, Seqnos, Slowdown, CutTo, ThresholdTo;
  }

  lemma CutLeaves(s: Tcp, s1: Tcp)
    requires s1 == s.(control := s.control.(recover := s.seqs.maxSeq, action := DupAck))
    ensures var c := Slowdown(s1, HalveBoth);
            && c.cwnd == CutTo(s) && c.ssthresh == ThresholdTo(s)
            && c.action == DupAck && c.dupAcks == s.control.dupAcks
  {
    HalfOf(s.cfg, PacketInFlight(s));
    ShareOf(s.cfg, PacketInFlight(s));
    hide Share, Whole, Portion;
  }

  lemma HalfOf(cfg: Config, n: nat)
    ensures Share(cfg, 0.5, n) == Whole(cfg, n as real / 2.0)
  {
    assert Portion(0.5, n) == n as real / 2.0;
    hide Portion;
  }

  lemma ShareOf(cfg: Config, n: nat)
    ensures Share(cfg, cfg.decrease, n) == Whole(cfg, Portion(cfg.decrease, n))
  {
    hide Portion;
  }

  lemma RetransmitSends(s: Tcp, now: real)
    requires s.seqs.highestAck >= 0
    ensures var s' := Output(s, s.seqs.highestAck + 1, now);
            && Seqnos(s'.wire) == Seqnos(s.wire) + [s.seqs.highestAck + 1]
            && s'.seqs.tSeqno == s.seqs.tSeqno && s'.seqs.curSeq == s.seqs.curSeq
            && s'.seqs.highestAck == s.seqs.highestAck && s'.cfg == s.cfg && s'.control == s.control
  {
    SeqnosMore(s.wire, Packet(s.seqs.highestAck + 1, now));
    hide Copied, Seqnos;
  }

  /** What a cut leaves of the flight: half of it in slow start, at the first cut and by
      default, and else the configured share; whole packets, unless precision is asked for. */
  function CutTo(s: Tcp): real {
    var n: nat := if s.seqs.tSeqno > s.seqs.highestAck then s.seqs.tSeqno - s.seqs.highestAck else 0;
    var standard := s.control.firstDecrease || s.control.cwnd < s.control.ssthresh as real || s.cfg.decrease == 0.5;
    if standard then Whole(s.cfg, n as real / 2.0) else Whole(s.cfg, Portion(s.cfg.decrease, n))
  }

  /** And what it leaves as threshold, at least two packets. */
  function ThresholdTo(s: Tcp): int {
    var n: nat := if s.seqs.tSeqno > s.seqs.highestAck then s.seqs.tSeqno - s.seqs.highestAck else 0;
    if s.control.firstDecrease || s.control.cwnd < s.control.ssthresh as real then
      Max(2, Whole(s.cfg, n as real / 2.0).Floor)
    else Max(2, Whole(s.cfg, Portion(s.cfg.decrease, n)).Floor)
  }

  function Whole(cfg: Config, x: real): real {
    if cfg.precisionReduce then x else x.Floor as real
  }

  /** The third duplicate, which cuts, and k more: the numbers sent, since s. */
  ghost predicate Recovering(s: Tcp, t: Tcp, k: nat) {
    var c, num := t.control, s.cfg.numDupAcks;
    && c.dupAcks == num + k && c.dupWnd == num + k && c.action == DupAck
    && t.cfg == s.cfg && t.seqs.highestAck == s.seqs.highestAck && t.seqs.curSeq == s.seqs.curSeq
    && t.seqs.tSeqno == SentUpTo(s, Least(s.cfg.wnd, c.cwnd.Floor + num + k))
    && Seqnos(t.wire) == Seqnos(s.wire) + [s.seqs.highestAck + 1] + Range(s.seqs.tSeqno, t.seqs.tSeqno)
  }

  ghost predicate Ready(s: Tcp) {
    s.cfg.maxBurst == 0 && s.seqs.tSeqno > s.seqs.highestAck >= 0
  }

  lemma CutRecovers(s: Tcp, e: Event)
    requires Ready(s) && TcpReno.Cuts(s, e)
    ensures Recovering(s, Step(s, e), 0)
    ensures Step(s, e).control.cwnd == CutTo(s)
  {
    hide FastRetransmit, MayCut, SendBurst, Seqnos, Range, CutTo;
    var s1 := s.(control := s.control.(dupAcks := s.control.dupAcks + 1));
    CountKeepsCut(s, s1);
    SameCut(s, s1);
    CutSends(s1, e.now);
    var s2 := DuplicateAck(s, e.now);
    assert s2 == FastRetransmit(s1, e.now);
    hide DuplicateAck;
    BurstSends(s2, e.now, 0);
  }

  lemma SameCut(s: Tcp, s1: Tcp)
    requires s1 == s.(control := s.control.(dupAcks := s.control.dupAcks + 1))
    ensures CutTo(s1) == CutTo(s)
  {
    hide Whole, Portion;
  }

  lemma CountKeepsCut(s: Tcp, s1: Tcp)
    requires s1 == s.(control := s.control.(dupAcks := s.control.dupAcks + 1))
    ensures MayCut(s1) == MayCut(s)
  {}

  lemma MoreRecovers(s: Tcp, t: Tcp, k: nat, e: Event)
    requires Ready(s) && s.cfg.numDupAcks > 0 && Recovering(s, t, k) && e.Ack? && e.ackNo == s.seqs.highestAck
    ensures Recovering(s, Step(t, e), k + 1) && Step(t, e).control.cwnd == t.control.cwnd
  {
    hide SendBurst, Seqnos, Range;
    var t1 := t.(control := t.control.(dupAcks := t.control.dupAcks + 1, dupWnd := t.control.dupWnd + 1));
    assert DuplicateAck(t, e.now) == t1 by {
      hide DupAckAction, SendOne;
    }
    assert Step(t, e) == SendMuch(t1, e.now) by {
      hide DuplicateAck;
    }
    BurstSends(t1, e.now, 0);
    hide Step, DuplicateAck, SendMuch;
    RangesGrow(s, t, SendBurst(t1, e.now, 0));
  }

  lemma RangesGrow(s: Tcp, t: Tcp, t': Tcp)
    requires s.seqs.tSeqno <= t.seqs.tSeqno <= t'.seqs.tSeqno
    requires Seqnos(t.wire) == Seqnos(s.wire) + [s.seqs.highestAck + 1] + Range(s.seqs.tSeqno, t.seqs.tSeqno)
    requires Seqnos(t'.wire) == Seqnos(t.wire) + Range(t.seqs.tSeqno, t'.seqs.tSeqno)
    ensures Seqnos(t'.wire) == Seqnos(s.wire) + [s.seqs.highestAck + 1] + Range(s.seqs.tSeqno, t'.seqs.tSeqno)
  {
    RangesJoin(s.seqs.tSeqno, t.seqs.tSeqno, t'.seqs.tSeqno);
    hide Seqnos, Range;
  }

  lemma {:induction false} DuplicatesRecover(s: Tcp, t: Tcp, k: nat, ds: seq<Event>)
    requires Ready(s) && s.cfg.numDupAcks > 0 && Recovering(s, t, k)
    requires forall d :: d in ds ==> d.Ack? && d.ackNo == s.seqs.highestAck
    ensures Recovering(s, Run(t, ds), k + |ds|) && Run(t, ds).control.cwnd == t.control.cwnd
  {
    if ds != [] {
      var front := ds[..|ds| - 1];
      assert ds[|ds| - 1] in ds;
      DuplicatesRecover(s, t, k, front);
      MoreRecovers(s, Run(t, front), k + |front|, ds[|ds| - 1]);
      hide Step, Recovering;
    }
  }

  lemma {:induction false} RunAppends(s: Tcp, us: seq<Event>, vs: seq<Event>)
    ensures Run(s, us + vs) == Run(Run(s, us), vs)
  {
    if vs == [] {
      assert us + vs == us;
    } else {
      assert (us + vs)[..|us + vs| - 1] == us + vs[..|vs| - 1];
      RunAppends(s, us, vs[..|vs| - 1]);
      hide Step;
    }
  }

  /** After a fast retransmit from s and k more duplicate ACKs the sender has, of the data
      supplied, min(wnd_, cwnd_ + numdupacks_ + k) packets outstanding, or what it had
      before if that was more; it has sent the first unacknowledged packet and just the
      numbers up to there; and cwnd_ is what the cut left. */
  ghost predicate Recovered(s: Tcp, t: Tcp, k: nat) {
    var allowed := Least(s.cfg.wnd, t.control.cwnd.Floor + s.cfg.numDupAcks + k);
    && t.seqs.tSeqno == Max(s.seqs.tSeqno, Least(s.seqs.curSeq, s.seqs.highestAck + 1 + allowed))
    && t.seqs.highestAck == s.seqs.highestAck
    && Seqnos(t.wire) == Seqnos(s.wire) + [s.seqs.highestAck + 1] + Range(s.seqs.tSeqno, t.seqs.tSeqno)
    && t.control.cwnd == CutTo(s)
  }

  lemma CutAndDuplicates(s: Tcp, e: Event, ds: seq<Event>)
    requires Ready(s) && TcpReno.Cuts(s, e) && forall d :: d in ds ==> d.Ack? && d.ackNo == s.seqs.highestAck
    ensures Recovered(s, Run(Step(s, e), ds), |ds|)
  {
    hide Run, Step, Seqnos, Range, TcpReno.Cuts, CutTo, Recovering, Recovered;
    CutIsThird(s, e);
    CutRecovers(s, e);
    DuplicatesRecover(s, Step(s, e), 0, ds);
    RecoveringIsRecovered(s, Run(Step(s, e), ds), |ds|);
  }

  lemma RecoveringIsRecovered(s: Tcp, t: Tcp, k: nat)
    requires Recovering(s, t, k) && t.control.cwnd == CutTo(s)
    ensures Recovered(s, t, k)
  {
    hide CutTo, Seqnos, Range;
  }

  /** So in every run. */
  lemma RecoverySends(cfg: Config, cwnd: NonNeg, ssthresh: int, us: seq<Event>, e: Event, ds: seq<Event>)
    requires LegalRun(Init(cfg, cwnd, ssthresh), us) && cfg.maxBurst == 0
    requires var s := Run(Init(cfg, cwnd, ssthresh), us);
             && TcpReno.Cuts(s, e) && s.seqs.highestAck >= 0
             && forall d :: d in ds ==> d.Ack? && d.ackNo == s.seqs.highestAck
    ensures var s0 := Init(cfg, cwnd, ssthresh);
            Recovered(Run(s0, us), Run(s0, us + [e] + ds), |ds|)
  {
    hide Run, Step, LegalRun, TcpReno.Cuts, Recovered, TcpSequence.Sent;
    var s0 := Init(cfg, cwnd, ssthresh);
    var s := Run(s0, us);
    TcpSequence.RunSafe(cfg, cwnd, ssthresh, us);
    RunAppends(s0, us + [e], ds);
    RunAppends(s0, us, [e]);
    RunOne(s, e);
    CutAndDuplicates(s, e, ds);
  }

  lemma RunOne(s: Tcp, e: Event)
    ensures Run(s, [e]) == Step(s, e)
  {
    assert [e][..0] == [];
    hide Step;
  }

  lemma CutIsThird(s: Tcp, e: Event)
    ensures TcpReno.Cuts(s, e) ==> s.cfg.numDupAcks > 0
  {}

  // ----- New ACKs and timeouts -----

  /** An ACK for new data ends fast recovery and lets the sender have min(wnd_, cwnd_)
      packets outstanding. */
  lemma NewAckSends(s: Tcp, e: Event)
    requires TcpSequence.Safe(s) && s.cfg.maxBurst == 0
    requires e.Ack? && s.seqs.highestAck < e.ackNo <= s.seqs.maxSeq
    ensures var t, from := Step(s, e), Max(s.seqs.tSeqno, e.ackNo + 1);
            && t.seqs.highestAck == e.ackNo && t.control.dupAcks == 0 && t.control.cwnd == e.grown
            && t.seqs.tSeqno == Max(from, Least(s.seqs.curSeq, e.ackNo + 1 + Least(s.cfg.wnd, e.grown.Floor)))
            && Seqnos(t.wire) == Seqnos(s.wire) + Range(from, t.seqs.tSeqno)
  {
    BurstSends(NewAck(s, e.ackNo, e.grown), e.now, 0);
    hide SendBurst, Seqnos, TcpSequence.Sent;
  }

  /** A timeout with data outstanding sends the first unacknowledged packet again, alone,
      if the windows allow any. */
  lemma TimeoutSends(s: Tcp, now: real)
    requires TcpSequence.Safe(s) && s.cfg.maxBurst == 0 && 0 <= s.seqs.highestAck < s.seqs.maxSeq
    ensures var t, next := Step(s, Timer(now)), s.seqs.highestAck + 1;
            && t.control.cwnd == 1.0
            && t.seqs.tSeqno == (if s.cfg.wnd > 0 && next < s.seqs.curSeq then next + 1 else next)
            && Seqnos(t.wire) == Seqnos(s.wire) + Range(next, t.seqs.tSeqno)
  {
    var c := s.control.(dupWnd := 0, dupAcks := 0,
                        recover := if s.cfg.bugFix then s.seqs.maxSeq else s.control.recover);
    var s1 := s.(control := c);
    TcpReno.TimeoutRestarts(s1);
    var s2 := ResumeAfterAck(s1.(control := TimeoutCut(s1)));
    var s3 := s2.(control := s2.control.(action := TimedOut));
    assert s3.control.dupWnd == 0 by {
      hide Share;
    }
    BurstSends(s3, now, 0);
    hide SendBurst, Seqnos, TcpSequence.Sent, TimeoutCut;
  }

  /** A timeout with nothing outstanding leaves the windows, unless the connection restarts
      in slow start; then the threshold stays with restart_bugfix_ alone. */
  lemma IdleTimeout(s: Tcp, now: real)
    requires s.seqs.highestAck == s.seqs.maxSeq && s.seqs.tSeqno == s.seqs.maxSeq + 1
    ensures var c, c' := s.control, Step(s, Timer(now)).control;
            && c'.cwnd == (if s.cfg.slowStartRestart then 1.0 else if c.cwnd < 1.0 then 1.0 else c.cwnd)
            && c'.ssthresh == (if !s.cfg.slowStartRestart then c.ssthresh
                               else if s.cfg.restartBugfix then Max(2, c.ssthresh)
                               else 2)
            && c'.dupWnd == 0 && c'.dupAcks == 0 && c'.action == TimedOut
  {
    var c := s.control.(dupWnd := 0, dupAcks := 0,
                        recover := if s.cfg.bugFix then s.seqs.maxSeq else s.control.recover);
    var s1 := s.(control := c);
    var s2 := ResumeAfterAck(s1.(control := TimeoutCut(s1)));
    TcpReno.BurstFrame(s2.(control := s2.control.(action := TimedOut)), now, 0);
    OneIsHalved(s.cfg);
    hide SendBurst, Share;
  }

  /** Half of one packet or its share is none. */
  lemma OneIsHalved(cfg: Config)
    ensures Share(cfg, 0.5, 1).Floor == 0
  {}

  /** An ACK for less than was acknowledged changes nothing; with aggressive_maxburst_ it may
      let a burst go on. */
  lemma OldAcksAreIgnored(s: Tcp, e: Event)
    requires e.Ack? && e.ackNo < s.seqs.highestAck
    ensures var idle := !s.cfg.aggressiveMaxburst || 0 < s.control.dupAcks < s.cfg.numDupAcks;
            Step(s, e) == if idle then s else SendMuch(s, e.now)
  {
    hide SendBurst;
  }

  /** Without a cut, and with exitFastRetrans_, the third duplicate and those after it leave
      the window alone. */
  lemma UncutDuplicates(s: Tcp, e: Event)
    requires s.cfg.exitFastRetrans && s.control.action != DupAck && e.Ack? && e.ackNo == s.seqs.highestAck
    requires s.control.dupAcks + 1 >= s.cfg.numDupAcks && !TcpReno.Cuts(s, e)
    ensures var c := Step(s, e).control;
            c == s.control.(dupAcks := s.control.dupAcks + 1)
  {
    var s1 := s.(control := s.control.(dupAcks := s.control.dupAcks + 1));
    CountKeepsCut(s, s1);
    TcpReno.BurstFrame(s1, e.now, 0);
    hide SendBurst, FastRetransmit, MayCut;
  }

  /** And without exitFastRetrans_ they inflate it all the same. */
  lemma UncutInflates(s: Tcp, e: Event)
    requires !s.cfg.exitFastRetrans && e.Ack? && e.ackNo == s.seqs.highestAck
    requires s.control.dupAcks + 1 >= s.cfg.numDupAcks && !TcpReno.Cuts(s, e)
    ensures var c := Step(s, e).control;
            c == s.control.(dupAcks := s.control.dupAcks + 1,
                            dupWnd := if s.control.dupAcks + 1 == s.cfg.numDupAcks then s.cfg.numDupAcks
                                      else s.control.dupWnd + 1)
  {
    var s1 := s.(control := s.control.(dupAcks := s.control.dupAcks + 1));
    CountKeepsCut(s, s1);
    TcpReno.BurstFrame(DuplicateAck(s, e.now), e.now, 0);
    hide SendBurst, FastRetransmit, MayCut;
  }
}
