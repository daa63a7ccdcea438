/** When STARTUP of the QUIC sender ends for sure. */
module QuicStartup {
  import opened QuicBbr
  import FullPipe
  import QuicModes
  import QuicRounds

  /** n evaluated rounds fill the pipe in every run whose estimates stay in [b, top]. */
  ghost predicate EndsWithin(cfg: Config, b: real, top: real, n: nat) {
    forall es ::
      FullPipe.InBand(QuicModes.Trace(Init(cfg), es), b, top) &&
      FullPipe.Evaluations(QuicModes.Trace(Init(cfg), es)) >= n ==>
        Run(Init(cfg), es).pipe.full
  }

  lemma BandEnds(cfg: Config, b: real, top: real) returns (n: nat)
    requires cfg.startupRounds > 0 && 0.0 < b <= top
    ensures EndsWithin(cfg, b, top, n)
  {
    var g := FullPipe.StepsExist(QuicModes.Threshold, b, top);
    n := FullPipe.Allowance(cfg.startupRounds, g, 0);
    hide Run, Init, QuicModes.Trace, FullPipe.InBand, FullPipe.Evaluations, FullPipe.Allowance, FullPipe.Rung;
    forall es |
      FullPipe.InBand(QuicModes.Trace(Init(cfg), es), b, top) &&
      FullPipe.Evaluations(QuicModes.Trace(Init(cfg), es)) >= n
      ensures Run(Init(cfg), es).pipe.full
    {
      QuicModes.StartupEnds(cfg, es, b, top, g);
    }
  }

  // ----- Runs that never end STARTUP -----

  /** The acknowledgement of the only packet in flight, with a bandwidth sample of 0. */
  function ZeroAck(cfg: Config, pn: nat): Feedback {
    Feedback(0, cfg.mss, [AckedPacket(pn, cfg.mss, 0.0, 0, false, 0.0)], [], 0, 0, 0)
  }

  /** After n rounds in which nothing but zeros was found. */
  predicate Idle(s: Sender, cfg: Config, n: nat) {
    && s.cfg == cfg && s.rounds.lastSent == n == s.rounds.end
    && !s.pipe.full && s.pipe.lastBw == 0.0
  }

  lemma ZeroSamples(s: Sender, pn: nat)
    ensures var p := UpdateBandwidthAndMinRtt(s, ZeroAck(s.cfg, pn)); p.maxBw == 0.0 && !p.lastAppLimited
  {
    var ps := ZeroAck(s.cfg, pn).acked;
    assert ps[..0] == [];
    assert GatherAll(Gathered(s.path.maxBw, s.path.lastAppLimited, -1), ps) ==
           Gather(Gathered(s.path.maxBw, s.path.lastAppLimited, -1), ps[0]);
    hide GatherAll, AckedBytes;
  }

  /** A round of zeros is evaluated, and looks like growth. */
  lemma ZeroRound(s: Sender, cfg: Config, n: nat)
    requires s.cfg == cfg && s.rounds.lastSent == n + 1 && s.rounds.end == n
    requires !s.pipe.full && s.pipe.lastBw == 0.0
    ensures var f := ZeroAck(cfg, n + 1);
            && Idle(OnCongestionEvent(s, f), cfg, n + 1)
            && QuicModes.ProbesOf(s, Congestion(f)) == [FullPipe.Evaluate(0.0)]
  {
    var f := ZeroAck(cfg, n + 1);
    var s1 := s.(rounds := UpdateRoundTripCounter(s.rounds, n + 1));
    ZeroSamples(s1, n + 1);
    QuicRounds.RestKeepsMarks(s, f);
    QuicModes.PipeEffect(s, f);
    QuicModes.AbsorbKeepsPhase(s, f);
    hide OnCongestionEvent, UpdateBandwidthAndMinRtt, AdvancesGainCycle, CycleGain;
  }

  function ZeroRounds(cfg: Config, n: nat): seq<Event> {
    if n == 0 then []
    else ZeroRounds(cfg, n - 1) + [Send(0, n, cfg.mss, true, false)] + [Congestion(ZeroAck(cfg, n))]
  }

  ghost predicate AllZero(ps: seq<FullPipe.Probe>) {
    forall p :: p in ps ==> p == FullPipe.Evaluate(0.0)
  }

  lemma Extend(s: Sender, es: seq<Event>, e: Event)
    ensures Run(s, es + [e]) == Step(Run(s, es), e)
    ensures QuicModes.Trace(s, es + [e]) == QuicModes.Trace(s, es) + QuicModes.ProbesOf(Run(s, es), e)
    ensures QuicRounds.Story(s, es + [e]) == QuicRounds.Follow(Run(s, es), QuicRounds.Story(s, es), e)
    ensures QuicRounds.LegalRun(s, es) && QuicRounds.Legal(Run(s, es), QuicRounds.Story(s, es), e) ==>
              QuicRounds.LegalRun(s, es + [e])
  {
    assert (es + [e])[..|es|] == es;
    hide Step, QuicModes.ProbesOf;
  }

  /** What n rounds of zeros leave. */
  ghost predicate Zeroed(cfg: Config, es: seq<Event>, n: nat) {
    && QuicRounds.LegalRun(Init(cfg), es) && Idle(Run(Init(cfg), es), cfg, n)
    && |QuicModes.Trace(Init(cfg), es)| == n && AllZero(QuicModes.Trace(Init(cfg), es))
  }

  lemma SendAndAck(cfg: Config, es: seq<Event>, n: nat)
    requires Zeroed(cfg, es, n)
    ensures Zeroed(cfg, es + [Send(0, n + 1, cfg.mss, true, false)] + [Congestion(ZeroAck(cfg, n + 1))], n + 1)
  {
    hide Run, QuicModes.Trace, QuicRounds.Story, QuicRounds.LegalRun, QuicModes.Evaluates, OnCongestionEvent;
    var send, f := Send(0, n + 1, cfg.mss, true, false), ZeroAck(cfg, n + 1);
    var s, h := Run(Init(cfg), es), QuicRounds.Story(Init(cfg), es);
    Extend(Init(cfg), es, send);
    var s1 := OnPacketSent(s, 0, n + 1, false);
    assert QuicModes.ProbesOf(s, send) == [];
    assert QuicRounds.Legal(s1, QuicRounds.Follow(s, h, send), Congestion(f));
    ZeroRound(s1, cfg, n);
    Extend(Init(cfg), es + [send], Congestion(f));
  }

  lemma NothingSent(cfg: Config)
    ensures Zeroed(cfg, [], 0)
  {}

  /** With bandwidth samples of 0 a legal run of any number of rounds fills nothing. */
  lemma {:induction false} ZeroNeverFills(cfg: Config, n: nat)
    ensures Zeroed(cfg, ZeroRounds(cfg, n), n)
  {
    hide Zeroed, ZeroAck;
    if n == 0 {
      NothingSent(cfg);
    } else {
      ZeroNeverFills(cfg, n - 1);
      SendAndAck(cfg, ZeroRounds(cfg, n - 1), n - 1);
    }
  }

  lemma {:induction false} CountZeros(ps: seq<FullPipe.Probe>, top: real)
    requires AllZero(ps) && 0.0 <= top
    ensures FullPipe.Evaluations(ps) == |ps| && FullPipe.InBand(ps, 0.0, top)
  {
    if ps != [] {
      var front := ps[..|ps| - 1];
      assert ps[|ps| - 1] in ps;
      forall p | p in front ensures p == FullPipe.Evaluate(0.0) {
        assert p in ps;
      }
      CountZeros(front, top);
    }
  }

  /** STARTUP ends for sure, with estimates in [b, top], exactly if they are not 0. */
  lemma StartupEndsIff(cfg: Config, b: real, top: real)
    requires cfg.startupRounds > 0 && 0.0 <= b <= top
    ensures (exists n :: EndsWithin(cfg, b, top, n)) <==> 0.0 < b
  {
    if 0.0 < b {
      var n := BandEnds(cfg, b, top);
    } else {
      forall n ensures !EndsWithin(cfg, b, top, n) {
        ZeroNeverFills(cfg, n);
        CountZeros(QuicModes.Trace(Init(cfg), ZeroRounds(cfg, n)), top);
        hide Run, QuicModes.Trace, FullPipe.Evaluations, FullPipe.InBand, AllZero, ZeroRounds;
      }
    }
    hide EndsWithin;
  }
}
