/** drafts/tcp.cc and drafts/tcp-reno.cc in their own form: the agent as a class that
    updates its fields and its table of time stamps in place, each method proved against
    the state machine of TcpSender. */
module RenoAgent {
  import opened TcpSender
  import TcpRing
  import TcpSequence
  import TcpStray

  class RenoTcpAgent {
    const cfg: Config
    var tSeqno: nat
    var highestAck: SeqNo
    var maxSeq: SeqNo
    var curSeq: int
    var tss: array?<real>
    var strayed: bool
    var nDataPack: nat
    var nRexmitPack: nat
    var synConnects: nat
    var cwnd: NonNeg
    var ssthresh: int
    var dupAcks: nat
    var dupWnd: nat
    var recover: int
    var lastCwndAction: Action
    var firstDecrease: bool
    ghost var wire: seq<Packet>
    ghost const start: Tcp
    ghost var events: seq<Event>

    ghost predicate Valid()
      reads this
    {
      tss != null ==> tss.Length > 0
    }

    ghost function View(): Tcp
      reads this, tss
    {
      Tcp(cfg,
          Seqs(tSeqno, highestAck, maxSeq, curSeq),
          Ring(if tss == null then [] else tss[..], strayed),
          Counts(nDataPack, nRexmitPack, synConnects),
          wire,
          Control(cwnd, ssthresh, dupAcks, dupWnd, recover, lastCwndAction, firstDecrease))
    }

    /** The object has handled the events, and nothing else. */
    ghost predicate Follows()
      reads this, tss
    {
      Valid() && View() == Run(start, events)
    }

    /** reset. */
    constructor (cfg: Config, cwnd: NonNeg, ssthresh: int)
      ensures Valid() && View() == Init(cfg, cwnd, ssthresh) && tss == null
      ensures start == View() && Follows() && events == []
    {
      start, events := Init(cfg, cwnd, ssthresh), [];
      this.cfg, this.cwnd, this.ssthresh := cfg, cwnd, ssthresh;
      tSeqno, highestAck, maxSeq, curSeq := 0, -1, -1, 0;
      tss, strayed := null, false;
      nDataPack, nRexmitPack, synConnects := 0, 0, 0;
      dupAcks, dupWnd, recover, lastCwndAction, firstDecrease := 0, 0, 0, NoAction, true;
      wire := [];
    }

    method PacketInFlight() returns (n: nat)
      ensures n == TcpSender.PacketInFlight(View())
    {
      n := if tSeqno > highestAck then tSeqno - highestAck else 0;
    }

    method Window() returns (win: nat)
      ensures win == TcpSender.Window(View())
    {
      win := cwnd.Floor + dupWnd;
      if win > cfg.wnd {
        win := cfg.wnd;
      }
    }

    /** One round of the copy loop; out: the access is outside a table. */
    method CopyOne(ntss: array<real>, k: SeqNo) returns (out: bool)
      requires tss != null && tss.Length > 0 && ntss != tss && ntss.Length == 2 * tss.Length
      modifies ntss
      ensures ntss[..] == CopyEntry(tss[..], old(ntss[..]), k) && out == (k < 0)
    {
      var n := tss.Length;
      PlaceOutside(k, n);
      PlaceOutside(k, 2 * n);
      var to, from := CRemainder(k, 2 * n), CRemainder(k, n);
      hide CRemainder;
      out := to < 0 || from < 0;
      if !out {
        ntss[to] := tss[from];
      }
    }

    /** The copy loop: fills a table of twice the size; out: an access left a table. */
    method CopyTable(ntss: array<real>) returns (out: bool)
      requires tss != null && tss.Length > 0 && ntss != tss && ntss.Length == 2 * tss.Length
      requires ntss[..] == Zeros(ntss.Length)
      modifies ntss
      ensures ntss[..] == Copied(tss[..], highestAck, tss.Length) && out == (highestAck < 0)
    {
      hide Zeros, CopyEntry;
      ghost var slots := tss[..];
      out := false;
      for i := 0 to tss.Length
        invariant tss[..] == slots && ntss[..] == Copied(slots, highestAck, i)
        invariant out == (i > 0 && highestAck < 0)
      {
        var stray := CopyOne(ntss, highestAck + i);
        out := out || stray;
      }
    }

    method DoubleTable()
      requires tss != null && tss.Length > 0
      modifies this
      ensures Valid() && fresh(tss) && tss != null
      ensures View() == old(View()).(ring := Doubled(old(View()).ring, old(View()).seqs.highestAck))
    {
      var ntss := new real[2 * tss.Length](_ => 0.0);
      assert ntss[..] == Zeros(2 * tss.Length);
      hide Copied, Zeros;
      var out := CopyTable(ntss);
      strayed := strayed || out;
      tss := ntss;
    }

    /** The part of output that keeps the time stamps. */
    method StampTime(seqno: nat, now: real)
      requires Valid()
      modifies this, tss
      ensures Valid() && (tss == old(tss) || fresh(tss))
      ensures View() == old(View()).(ring := Stamp(old(View()).ring, old(View()).seqs.highestAck,
                                                   TcpSender.PacketInFlight(old(View())), seqno, now))
    {
      ghost var s := View();
      if tss == null {
        tss := new real[RING_SIZE](_ => 0.0);
      }
      assert View().ring.slots == Allocated(s.ring).slots;
      ghost var s1 := View();
      assert s1 == s.(ring := Allocated(s.ring));
      var inFlight := PacketInFlight();
      if 10 * inFlight > 9 * tss.Length {
        DoubleTable();
      }
      assert View() == s.(ring := Prepared(s.ring, s.seqs.highestAck, inFlight));
      ghost var slots := tss[..];
      tss[seqno % tss.Length] := now;
      assert tss[..] == slots[seqno % |slots| := now];
    }

    method Transmit(seqno: nat, now: real)
      modifies this
      ensures tss == old(tss) && View() == TcpSender.Transmit(old(View()), seqno, now)
    {
      wire, nDataPack := wire + [Packet(seqno, now)], nDataPack + 1;
      if seqno > maxSeq {
        maxSeq := seqno;
      } else {
        nRexmitPack := nRexmitPack + 1;
      }
    }

    method Output(seqno: nat, now: real)
      requires Valid()
      modifies this, tss
      ensures Valid() && (tss == old(tss) || fresh(tss))
      ensures View() == TcpSender.Output(old(View()), seqno, now)
    {
      hide Stamp, TcpSender.Transmit;
      StampTime(seqno, now);
      if seqno == 0 && cfg.syn {
        curSeq := curSeq + 1;
        synConnects := synConnects + 1;
        if cfg.maxConnects > 0 && synConnects > cfg.maxConnects {
          curSeq := 0;
          return;
        }
      }
      Transmit(seqno, now);
    }

    /** Sends the next packet and moves on. */
    method SendNext(now: real)
      requires Valid()
      modifies this, tss
      ensures Valid() && (tss == old(tss) || fresh(tss))
      ensures View() == TcpSender.SendNext(old(View()), now)
    {
      hide TcpSender.Output;
      var t := tSeqno;
      Output(t, now);
      tSeqno := t + 1;
    }

    method SendMuch(now: real)
      requires Valid()
      modifies this, tss
      ensures Valid() && (tss == old(tss) || fresh(tss))
      ensures View() == TcpSender.SendMuch(old(View()), now)
    {
      ghost var target := SendBurst(View(), now, 0);
      var sent := 0;
      var inFlight := PacketInFlight();
      var win := Window();
      while inFlight <= win && tSeqno < curSeq
        invariant Valid() && (tss == old(tss) || fresh(tss))
        invariant inFlight == TcpSender.PacketInFlight(View()) && win == TcpSender.Window(View())
        invariant SendBurst(View(), now, sent) == target
        decreases highestAck + win + 1 - tSeqno
      {
        ghost var s := View();
        FrameOfSendNext(s, now);
        SendNext(now);
        hide TcpSender.SendNext;
        sent := sent + 1;
        win := Window();
        inFlight := PacketInFlight();
        if cfg.maxBurst != 0 && sent == cfg.maxBurst {
          return;
        }
      }
    }

    method SendOne(now: real)
      requires Valid()
      modifies this, tss
      ensures Valid() && (tss == old(tss) || fresh(tss))
      ensures View() == TcpSender.SendOne(old(View()), now)
    {
      hide TcpSender.SendNext;
      if tSeqno <= highestAck + cfg.wnd && tSeqno < curSeq
         && tSeqno as real <= highestAck as real + cwnd + dupAcks as real {
        SendNext(now);
      }
    }

    method Slowdown(how: Cut)
      modifies this
      ensures tss == old(tss) && View() == old(View()).(control := TcpSender.Slowdown(old(View()), how))
    {
      hide Share;
      var slowStart := cwnd < ssthresh as real;
      var flight := PacketInFlight();
      var half, less := Share(cfg, 0.5, flight), Share(cfg, cfg.decrease, flight);
      if !how.RestartOnly? {
        ssthresh := if firstDecrease || slowStart || lastCwndAction == TimedOut then half.Floor else less.Floor;
      }
      if how.HalveBoth? {
        cwnd := if firstDecrease || slowStart || cfg.decrease == 0.5 then half else less;
      } else {
        cwnd := 1.0;
      }
      if ssthresh < 2 {
        ssthresh := 2;
      }
      firstDecrease := false;
    }

    method DupAckAction(now: real)
      requires Valid()
      modifies this, tss
      ensures Valid() && (tss == old(tss) || fresh(tss))
      ensures View() == TcpSender.DupAckAction(old(View()), now)
    {
      hide TcpSender.Output, TcpSender.Slowdown;
      var recovered := highestAck > recover;
      if recovered || !cfg.bugFix || lastCwndAction == DupAck || (cfg.bugfixSs && highestAck == 0) {
        recover, lastCwndAction := maxSeq, DupAck;
        Slowdown(HalveBoth);
        Output(highestAck + 1, now);
        dupWnd := cfg.numDupAcks;
      }
    }

    /** newack, with the window opened. */
    method NewAck(ackNo: SeqNo, grown: NonNeg)
      modifies this
      ensures tss == old(tss) && View() == TcpSender.NewAck(old(View()), ackNo, grown)
    {
      if lastCwndAction == DupAck {
        lastCwndAction := Exited;
      }
      dupWnd, dupAcks, highestAck := 0, 0, ackNo;
      if tSeqno < ackNo + 1 {
        tSeqno := ackNo + 1;
      }
      cwnd := grown;
    }

    method DuplicateAck(now: real)
      requires Valid()
      modifies this, tss
      ensures Valid() && (tss == old(tss) || fresh(tss))
      ensures View() == TcpSender.DuplicateAck(old(View()), now)
    {
      ghost var s := View();
      hide TcpSender.DupAckAction, TcpSender.SendOne;
      dupAcks := dupAcks + 1;
      assert View() == s.(control := s.control.(dupAcks := s.control.dupAcks + 1));
      if dupAcks == cfg.numDupAcks {
        DupAckAction(now);
        if !cfg.exitFastRetrans {
          dupWnd := cfg.numDupAcks;
        }
      } else if dupAcks > cfg.numDupAcks && (!cfg.exitFastRetrans || lastCwndAction == DupAck) {
        dupWnd := dupWnd + 1;
      } else if dupAcks < cfg.numDupAcks && cfg.singleDup {
        SendOne(now);
      }
    }

    method Recv(ackNo: SeqNo, grown: NonNeg, now: real)
      requires Valid()
      modifies this, tss
      ensures Valid() && (tss == old(tss) || fresh(tss))
      ensures View() == TcpSender.Recv(old(View()), ackNo, grown, now)
    {
      hide TcpSender.NewAck, TcpSender.DuplicateAck, TcpSender.SendMuch;
      if ackNo > highestAck {
        NewAck(ackNo, grown);
      } else if ackNo == highestAck {
        DuplicateAck(now);
      }
      var valid := ackNo >= highestAck || cfg.aggressiveMaxburst;
      if valid {
        if dupAcks == 0 || dupAcks > cfg.numDupAcks - 1 {
          SendMuch(now);
        }
      }
    }

    /** What TcpAgent::timeout does to the window. */
    method CutAfterTimeout()
      modifies this
      ensures tss == old(tss) && View() == old(View()).(control := TimeoutCut(old(View())))
    {
      hide TcpSender.Slowdown;
      if cwnd < 1.0 {
        cwnd := 1.0;
      }
      if highestAck != maxSeq || cfg.slowStartRestart {
        recover := maxSeq;
        if highestAck == maxSeq && cfg.restartBugfix {
          Slowdown(RestartOnly);
        } else {
          lastCwndAction := TimedOut;
          Slowdown(HalveAndRestart);
        }
      }
    }

    /** What RenoTcpAgent::timeout clears. */
    method ForgetDuplicates()
      modifies this
      ensures tss == old(tss)
      ensures var s := old(View());
              View() == s.(control := s.control.(dupWnd := 0, dupAcks := 0,
                                                 recover := if cfg.bugFix then s.seqs.maxSeq else s.control.recover))
    {
      dupWnd, dupAcks := 0, 0;
      if cfg.bugFix {
        recover := maxSeq;
      }
    }

    /** The next packet is the first unacknowledged one. */
    method Resume()
      modifies this
      ensures tss == old(tss)
      ensures var s := ResumeAfterAck(old(View()));
              View() == s.(control := s.control.(action := TimedOut))
    {
      tSeqno, lastCwndAction := highestAck + 1, TimedOut;
    }

    method Timeout(now: real)
      requires Valid()
      modifies this, tss
      ensures Valid() && (tss == old(tss) || fresh(tss))
      ensures View() == TcpSender.Timeout(old(View()), now)
    {
      hide TimeoutCut, TcpSender.SendMuch;
      ForgetDuplicates();
      CutAfterTimeout();
      Resume();
      SendMuch(now);
    }

    /** The application supplies delta more packets. */
    method AdvanceBy(delta: int, now: real)
      requires Valid()
      modifies this, tss
      ensures Valid() && (tss == old(tss) || fresh(tss))
      ensures View() == Step(old(View()), Advance(delta, now))
    {
      hide TcpSender.SendMuch;
      curSeq := curSeq + delta;
      SendMuch(now);
    }

    // ----- What the sender reacts to, with the history -----

    method OnData(delta: int, now: real)
      requires Follows()
      modifies this, tss
      ensures Follows() && events == old(events) + [Advance(delta, now)]
    {
      ghost var es := events;
      AdvanceBy(delta, now);
      Append(es, Advance(delta, now));
    }

    method OnAck(ackNo: SeqNo, grown: NonNeg, now: real)
      requires Follows()
      modifies this, tss
      ensures Follows() && events == old(events) + [Ack(ackNo, grown, now)]
    {
      ghost var es := events;
      Recv(ackNo, grown, now);
      Append(es, Ack(ackNo, grown, now));
    }

    method OnTimer(now: real)
      requires Follows()
      modifies this, tss
      ensures Follows() && events == old(events) + [Timer(now)]
    {
      ghost var es := events;
      Timeout(now);
      Append(es, Timer(now));
    }

    ghost method Append(es: seq<Event>, e: Event)
      requires Valid() && View() == Step(Run(start, es), e)
      modifies `events
      ensures Follows() && events == es + [e]
    {
      hide Step, Run;
      RunMore(start, es, e);
      events := es + [e];
    }

    /** Whatever it has handled: the sequence numbers are safe, and the table holds the
        time of every unacknowledged packet. */
    lemma RunIsSound(cwnd0: NonNeg, ssthresh0: int)
      requires Follows() && start == Init(cfg, cwnd0, ssthresh0) && LegalRun(start, events)
      ensures TcpSequence.Safe(View()) && TcpRing.Refines(View())
    {
      TcpSequence.RunSafe(cfg, cwnd0, ssthresh0, events);
      TcpRing.RunRefines(cfg, cwnd0, ssthresh0, events);
      hide Run, TcpSequence.Safe, TcpRing.Refines, LegalRun;
    }

    /** The object has accessed memory outside its tables exactly if an event got it past
        the guards before the first ACK. */
    lemma StraysIff(cwnd0: NonNeg, ssthresh0: int)
      requires Follows() && start == Init(cfg, cwnd0, ssthresh0)
      ensures strayed <==> TcpStray.SomeUnguarded(start, events)
    {
      TcpStray.RunStraysIff(cfg, cwnd0, ssthresh0, events);
      hide Run, TcpStray.SomeUnguarded, TcpStray.SomeOverrun, TcpStray.Early;
    }
  }

  /** A number below zero is placed outside a ring of more than one slot, others inside. */
  lemma PlaceOutside(k: SeqNo, m: nat)
    requires m > 0
    ensures k >= 0 ==> 0 <= CRemainder(k, m) < m
    ensures m > 1 && k < 0 ==> CRemainder(k, m) < 0
    ensures CRemainder(k, m) < m
  {}

  lemma RunMore(s: Tcp, es: seq<Event>, e: Event)
    ensures Run(s, es + [e]) == Step(Run(s, es), e)
  {
    assert (es + [e])[..|es|] == es;
    hide Step;
  }

  /** Sending leaves what the loop's measure reads alone. */
  lemma FrameOfSendNext(s: Tcp, now: real)
    ensures var s' := SendNext(s, now);
            && s'.control == s.control && s'.cfg == s.cfg && s'.seqs.highestAck == s.seqs.highestAck
            && s'.seqs.tSeqno == s.seqs.tSeqno + 1
  {}
}
