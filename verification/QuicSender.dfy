/** drafts/bbr_sender.cc in its own form: BbrSender as a class whose methods update its
    fields in place, each proved against the state machine of QuicBbr. */
module QuicSender {
  import opened BbrModes
  import opened QuicBbr
  import QuicConservation
  import QuicModes
  import QuicPath
  import QuicProbeRtt

  class BbrSender {
    const cfg: Config
    ghost var events: seq<Event>
    var mode: Mode
    var pacingGain: real
    var congestionWindowGain: real
    var cycleCurrentOffset: nat
    var lastCycleStart: int
    var roundTripCount: nat
    var lastSentPacket: nat
    var currentRoundTripEnd: nat
    var maxBandwidth: real
    var minRtt: int
    var minRttTimestamp: int
    var lastSampleIsAppLimited: bool
    var totalBytesAcked: nat
    var isAtFullBandwidth: bool
    var roundsWithoutBandwidthGain: nat
    var bandwidthAtLastRound: real
    var exitProbeRttAt: int
    var probeRttRoundPassed: bool
    var exitingQuiescence: bool
    var recoveryState: RecoveryState
    var endRecoveryAt: nat
    var recoveryWindow: nat
    var congestionWindow: nat

    ghost function View(): Sender
      reads this
    {
      Sender(cfg,
             Phase(mode, pacingGain, congestionWindowGain, cycleCurrentOffset, lastCycleStart),
             Rounds(roundTripCount, lastSentPacket, currentRoundTripEnd),
             Path(maxBandwidth, minRtt, minRttTimestamp, lastSampleIsAppLimited, totalBytesAcked),
             Pipe(isAtFullBandwidth, roundsWithoutBandwidthGain, bandwidthAtLastRound),
             Probe(exitProbeRttAt, probeRttRoundPassed, exitingQuiescence),
             Recovery(recoveryState, endRecoveryAt, recoveryWindow),
             congestionWindow)
    }

    /** The object has handled the events, and nothing else. */
    ghost predicate Valid()
      reads this
    {
      View() == Run(Init(cfg), events)
    }

    constructor (cfg: Config)
      ensures View() == Init(cfg)
      ensures this.cfg == cfg && Valid() && events == []
    {
      events := [];
      this.cfg, congestionWindow := cfg, cfg.initialCwnd;
      roundTripCount, lastSentPacket, currentRoundTripEnd := 0, 0, 0;
      maxBandwidth, minRtt, minRttTimestamp, totalBytesAcked := 0.0, 0, 0, 0;
      cycleCurrentOffset, lastCycleStart := 0, 0;
      isAtFullBandwidth, roundsWithoutBandwidthGain, bandwidthAtLastRound := false, 0, 0.0;
      exitingQuiescence, exitProbeRttAt, probeRttRoundPassed := false, 0, false;
      lastSampleIsAppLimited := false;
      recoveryState, endRecoveryAt, recoveryWindow := NotInRecovery, 0, cfg.maxCwnd;
      mode, pacingGain, congestionWindowGain := Startup, HIGH_GAIN, HIGH_GAIN;
    }

    method OnPacketSent(flight: nat, pn: nat, appLimited: bool)
      modifies this
      ensures View() == QuicBbr.OnPacketSent(old(View()), flight, pn, appLimited)
    {
      lastSentPacket := pn;
      if flight == 0 && appLimited {
        exitingQuiescence := true;
      }
    }

    method CongestionWindow() returns (w: nat)
      ensures w == GetCongestionWindow(View())
    {
      if mode == ProbeRtt {
        return 4 * cfg.mss;
      }
      if recoveryState != NotInRecovery && !cfg.rateBasedRecovery {
        return if congestionWindow < recoveryWindow then congestionWindow else recoveryWindow;
      }
      return congestionWindow;
    }

    /** Zero delay, or none at all. */
    method TimeUntilSend(flight: nat) returns (now: bool)
      ensures now == MaySend(View(), flight)
    {
      var w := CongestionWindow();
      now := flight < w;
    }

    method MinRtt() returns (rtt: int)
      ensures rtt == GetMinRtt(View())
    {
      rtt := if minRtt != 0 then minRtt else cfg.initialRtt;
    }

    method TargetCongestionWindow(gain: real) returns (target: nat)
      ensures target == GetTargetCongestionWindow(View(), gain)
    {
      hide Scaled;
      var rtt := MinRtt();
      var bdp := Scaled(maxBandwidth, rtt);
      var window := Scaled(gain, bdp);
      if window == 0 {
        window := Scaled(gain, cfg.initialCwnd);
      }
      target := if window < 4 * cfg.mss then 4 * cfg.mss else window;
    }

    method EnterStartupMode()
      modifies this
      ensures View() == old(View()).(phase := QuicBbr.EnterStartupMode(old(View()).phase))
    {
      mode, pacingGain, congestionWindowGain := Startup, HIGH_GAIN, HIGH_GAIN;
    }

    /** A phase of the gain cycle begins. */
    method StartCyclePhase(now: int, offset: nat)
      modifies this
      ensures View() == old(View()).(phase := old(View()).phase.(
                          offset := offset, cycleStart := now, pacingGain := CycleGain(offset)))
    {
      cycleCurrentOffset, lastCycleStart, pacingGain := offset, now, CycleGain(offset);
    }

    method EnterProbeBandwidthMode(now: int, draw: nat)
      modifies this
      ensures View() == old(View()).(phase := QuicBbr.EnterProbeBandwidthMode(old(View()), now, draw))
    {
      mode, congestionWindowGain := ProbeBw, cfg.cwndGainConstant;
      var offset := draw % (CYCLE_LEN - 1);
      if offset >= 1 {
        offset := offset + 1;
      }
      StartCyclePhase(now, offset);
    }

    method UpdateRoundTripCounter(lastAcked: nat) returns (isRoundStart: bool)
      modifies this
      ensures View() == old(View()).(rounds := QuicBbr.UpdateRoundTripCounter(old(View()).rounds, lastAcked))
      ensures isRoundStart == StartsRound(old(View()), lastAcked)
    {
      isRoundStart := lastAcked > currentRoundTripEnd;
      if isRoundStart {
        roundTripCount := roundTripCount + 1;
        currentRoundTripEnd := lastSentPacket;
      }
    }

    /** The loop over the acknowledged packets. */
    method TakeSamples(acked: seq<AckedPacket>) returns (sampleMinRtt: int)
      modifies this
      ensures var g := GatherAll(Gathered(old(maxBandwidth), old(lastSampleIsAppLimited), -1), acked);
              && sampleMinRtt == g.minSample
              && View() == old(View()).(path := old(View()).path.(
                             maxBw := g.maxBw, lastAppLimited := g.appLimited,
                             totalAcked := old(totalBytesAcked) + AckedBytes(acked)))
    {
      ghost var was := View();
      ghost var g0 := Gathered(maxBandwidth, lastSampleIsAppLimited, -1);
      sampleMinRtt := -1;
      var i := 0;
      while i < |acked|
        invariant 0 <= i <= |acked|
        invariant GatherAll(g0, acked[..i]) == Gathered(maxBandwidth, lastSampleIsAppLimited, sampleMinRtt)
        invariant totalBytesAcked == was.path.totalAcked + AckedBytes(acked[..i])
        invariant View() == was.(path := was.path.(maxBw := maxBandwidth, lastAppLimited := lastSampleIsAppLimited,
                                                   totalAcked := totalBytesAcked))
      {
        var p := acked[i];
        assert acked[..i + 1][..i] == acked[..i];
        totalBytesAcked, lastSampleIsAppLimited := totalBytesAcked + p.bytes, p.appLimited;
        if p.rtt != 0 {
          sampleMinRtt := if sampleMinRtt < 0 || p.rtt < sampleMinRtt then p.rtt else sampleMinRtt;
        }
        if !p.appLimited || p.bw > maxBandwidth {
          maxBandwidth := p.filtered;
        }
        i := i + 1;
      }
      assert acked[..i] == acked;
    }

    method UpdateBandwidthAndMinRtt(f: Feedback) returns (expired: bool)
      modifies this
      ensures View() == old(View()).(path := QuicBbr.UpdateBandwidthAndMinRtt(old(View()), f))
      ensures expired == MinRttExpired(old(View()), f)
    {
      var sampleMinRtt := TakeSamples(f.acked);
      if sampleMinRtt < 0 {
        return false;
      }
      expired := minRtt != 0 && f.now > minRttTimestamp + MIN_RTT_EXPIRY;
      if expired || sampleMinRtt < minRtt || minRtt == 0 {
        minRtt, minRttTimestamp := sampleMinRtt, f.now;
      }
    }

    method UpdateRecoveryState(lastAcked: nat, hasLosses: bool, isRoundStart: bool)
      modifies this
      ensures View() == QuicBbr.UpdateRecoveryState(old(View()), lastAcked, hasLosses, isRoundStart)
    {
      if hasLosses {
        endRecoveryAt := lastSentPacket;
      }
      if recoveryState == NotInRecovery {
        if hasLosses {
          recoveryState := Conservation;
          if cfg.fixConservation {
            recoveryWindow := 0;
          }
          currentRoundTripEnd := lastSentPacket;
        }
      } else {
        if recoveryState == Conservation && isRoundStart {
          recoveryState := Growth;
        }
        if !hasLosses && lastAcked > endRecoveryAt {
          recoveryState := NotInRecovery;
        }
      }
    }

    method UpdateGainCyclePhase(f: Feedback)
      modifies this
      ensures View() == QuicBbr.UpdateGainCyclePhase(old(View()), f)
    {
      hide GetTargetCongestionWindow;
      var rtt := MinRtt();
      var shouldAdvance := f.now - lastCycleStart > rtt;
      if pacingGain > 1.0 && f.lost == [] {
        var target := TargetCongestionWindow(pacingGain);
        if f.priorInFlight < target {
          shouldAdvance := false;
        }
      }
      if pacingGain < 1.0 {
        var target := TargetCongestionWindow(1.0);
        if f.priorInFlight <= target {
          shouldAdvance := true;
        }
      }
      if shouldAdvance {
        StartCyclePhase(f.now, (cycleCurrentOffset + 1) % CYCLE_LEN);
      }
    }

    method CheckIfFullBandwidthReached()
      modifies this
      ensures View() == old(View()).(pipe := QuicBbr.CheckIfFullBandwidthReached(old(View())))
    {
      if lastSampleIsAppLimited {
        return;
      }
      var target := bandwidthAtLastRound * STARTUP_GROWTH_TARGET;
      if maxBandwidth >= target {
        bandwidthAtLastRound, roundsWithoutBandwidthGain := maxBandwidth, 0;
        return;
      }
      roundsWithoutBandwidthGain := roundsWithoutBandwidthGain + 1;
      if roundsWithoutBandwidthGain >= cfg.startupRounds {
        isAtFullBandwidth := true;
      }
    }

    method MaybeExitStartupOrDrain(f: Feedback)
      modifies this
      ensures View() == QuicBbr.MaybeExitStartupOrDrain(old(View()), f)
    {
      hide GetTargetCongestionWindow;
      if mode == Startup && isAtFullBandwidth {
        mode, pacingGain, congestionWindowGain := Drain, DRAIN_GAIN, HIGH_GAIN;
      }
      assert View() == ExitStartup(old(View()));
      if mode == Drain {
        var target := TargetCongestionWindow(1.0);
        if f.inFlight <= target {
          EnterProbeBandwidthMode(f.now, f.draw);
        }
      }
    }

    /** The part of MaybeEnterOrExitProbeRtt inside PROBE_RTT. */
    method StayInProbeRtt(f: Feedback, isRoundStart: bool)
      modifies this
      ensures View() == QuicBbr.StayInProbeRtt(old(View()), f, isRoundStart)
    {
      if exitProbeRttAt == 0 {
        if f.inFlight < 4 * cfg.mss + cfg.maxPacketSize {
          exitProbeRttAt, probeRttRoundPassed := f.now + PROBE_RTT_TIME, false;
        }
        return;
      }
      if isRoundStart {
        probeRttRoundPassed := true;
      }
      if f.now >= exitProbeRttAt && probeRttRoundPassed {
        minRttTimestamp := f.now;
        if !isAtFullBandwidth {
          EnterStartupMode();
        } else {
          EnterProbeBandwidthMode(f.now, f.draw);
        }
      }
    }

    method MaybeEnterOrExitProbeRtt(f: Feedback, isRoundStart: bool, minRttExpired: bool)
      modifies this
      ensures View() == QuicBbr.MaybeEnterOrExitProbeRtt(old(View()), f, isRoundStart, minRttExpired)
    {
      hide QuicBbr.StayInProbeRtt;
      if minRttExpired && !exitingQuiescence && mode != ProbeRtt {
        mode, pacingGain, exitProbeRttAt := ProbeRtt, 1.0, 0;
      }
      if mode == ProbeRtt {
        StayInProbeRtt(f, isRoundStart);
      }
      exitingQuiescence := false;
    }

    method CalculateCongestionWindow(bytesAcked: nat, extra: nat)
      modifies this
      ensures View() == QuicBbr.CalculateCongestionWindow(old(View()), bytesAcked, extra)
    {
      hide GetTargetCongestionWindow;
      if mode == ProbeRtt {
        return;
      }
      var target := TargetCongestionWindow(congestionWindowGain);
      target := target + extra;
      if isAtFullBandwidth {
        congestionWindow := if target < congestionWindow + bytesAcked then target else congestionWindow + bytesAcked;
      } else if congestionWindow < target || totalBytesAcked < cfg.initialCwnd {
        congestionWindow := congestionWindow + bytesAcked;
      }
      if congestionWindow < 4 * cfg.mss {
        congestionWindow := 4 * cfg.mss;
      }
      if congestionWindow > cfg.maxCwnd {
        congestionWindow := cfg.maxCwnd;
      }
    }

    method CalculateRecoveryWindow(bytesAcked: nat, bytesLost: nat, inFlight: nat)
      modifies this
      ensures View() == QuicBbr.CalculateRecoveryWindow(old(View()), bytesAcked, bytesLost, inFlight)
    {
      if cfg.rateBasedRecovery {
        return;
      }
      if cfg.fixConservation {
        if recoveryState == NotInRecovery {
          return;
        }
        if recoveryWindow == 0 {
          recoveryWindow := inFlight + bytesAcked;
        } else {
          recoveryWindow := if recoveryWindow >= bytesLost then recoveryWindow - bytesLost else cfg.mss;
          if recoveryState == Growth {
            recoveryWindow := recoveryWindow + bytesAcked;
          }
          if recoveryWindow < inFlight + bytesAcked {
            recoveryWindow := inFlight + bytesAcked;
          }
        }
      } else {
        match recoveryState
        case Conservation => recoveryWindow := inFlight + bytesAcked;
        case Growth => recoveryWindow := inFlight + 2 * bytesAcked;
        case NotInRecovery =>
      }
      if recoveryWindow < 4 * cfg.mss {
        recoveryWindow := 4 * cfg.mss;
      }
    }

    /** The loop that adds up the lost packets. */
    static method CountLost(lost: seq<LostPacket>) returns (bytesLost: nat)
      ensures bytesLost == LostBytes(lost)
    {
      bytesLost := 0;
      var i := 0;
      while i < |lost|
        invariant 0 <= i <= |lost| && bytesLost == LostBytes(lost[..i])
      {
        assert lost[..i + 1][..i] == lost[..i];
        bytesLost := bytesLost + lost[i].bytes;
        i := i + 1;
      }
      assert lost[..i] == lost;
    }

    method OnCongestionEvent(f: Feedback)
      modifies this
      ensures View() == QuicBbr.OnCongestionEvent(old(View()), f)
    {
      ghost var s := View();
      var before := totalBytesAcked;
      var isRoundStart, minRttExpired := false, false;
      if f.acked != [] {
        var lastAcked := f.acked[|f.acked| - 1].pn;
        isRoundStart := UpdateRoundTripCounter(lastAcked);
        minRttExpired := UpdateBandwidthAndMinRtt(f);
        UpdateRecoveryState(lastAcked, f.lost != [], isRoundStart);
      }
      ghost var s1 := if f.acked != [] then AbsorbAcks(s, f) else s;
      assert View() == s1 && isRoundStart == IsRoundStart(s, f) && minRttExpired == ExpiresMinRtt(s, f);
      var bytesAcked := totalBytesAcked - before;
      assert bytesAcked == AckedBytes(f.acked);
      hide AbsorbAcks, IsRoundStart, ExpiresMinRtt, QuicBbr.UpdateGainCyclePhase, QuicBbr.CheckIfFullBandwidthReached,
           QuicBbr.MaybeExitStartupOrDrain, QuicBbr.MaybeEnterOrExitProbeRtt, QuicBbr.CalculateCongestionWindow,
           QuicBbr.CalculateRecoveryWindow;
      if mode == ProbeBw {
        UpdateGainCyclePhase(f);
      }
      if isRoundStart && !isAtFullBandwidth {
        CheckIfFullBandwidthReached();
      }
      MaybeExitStartupOrDrain(f);
      assert View() == UpdateModel(s, f);
      MaybeEnterOrExitProbeRtt(f, isRoundStart, minRttExpired);
      var bytesLost := CountLost(f.lost);
      CalculateCongestionWindow(bytesAcked, f.extra);
      CalculateRecoveryWindow(bytesAcked, bytesLost, f.inFlight);
    }

    // ----- The two entry points, with their history -----

    method PacketSent(flight: nat, pn: nat, bytes: nat, retransmittable: bool, appLimited: bool)
      requires Valid()
      modifies this
      ensures Valid() && events == old(events) + [Send(flight, pn, bytes, retransmittable, appLimited)]
    {
      ghost var es := events;
      OnPacketSent(flight, pn, appLimited);
      Append(es, Send(flight, pn, bytes, retransmittable, appLimited));
    }

    method CongestionEvent(f: Feedback)
      requires Valid()
      modifies this
      ensures Valid() && events == old(events) + [Congestion(f)]
    {
      ghost var es := events;
      OnCongestionEvent(f);
      Append(es, Congestion(f));
    }

    ghost method Append(es: seq<Event>, e: Event)
      requires View() == Step(Run(Init(cfg), es), e)
      modifies `events
      ensures Valid() && events == es + [e]
    {
      events := es + [e];
      assert events[..|events| - 1] == es;
      hide Step, Init;
    }

    /** Whatever it has handled, DRAIN and PROBE_BW mean a full pipe, STARTUP one that is
        not full, the gains are those of the mode, and the window is paid for. */
    lemma RunIsSound()
      requires Valid()
      ensures mode == Drain || mode == ProbeBw ==> isAtFullBandwidth
      ensures mode == Startup ==> !isAtFullBandwidth
      ensures QuicModes.GainsMatch(View())
      ensures QuicPath.Afforded(View(), cfg, QuicPath.TotalAcked(events))
    {
      QuicModes.ModesAreSound(cfg, events);
      QuicPath.WindowIsPaidFor(cfg, events);
      hide Run, Init, QuicModes.GainsMatch, QuicPath.Afforded;
    }

    /** In CONSERVATION the flight of whole packets stays within its cap. */
    lemma FlightIsConserved(q: Size)
      requires Valid() && recoveryState == Conservation && !cfg.rateBasedRecovery
      requires QuicConservation.LegalRun(Init(cfg), events, q)
      requires forall e :: e in events ==> QuicConservation.Whole(e, q)
      ensures var h := QuicConservation.Story(Init(cfg), events, q); h.bytes <= h.cap
    {
      hide Run, QuicConservation.LegalRun, QuicConservation.Story, QuicConservation.Whole;
      QuicConservation.FlightIsConserved(cfg, events, q);
    }

    /** Its last event ended PROBE_RTT only after 200 ms and a round, and began it only ten
        seconds after the last. */
    lemma ProbeRttIsSound(es: seq<Event>, e: Event)
      requires Valid() && events == es + [e] && QuicProbeRtt.MonotoneRun(Init(cfg), events)
      ensures var before := Run(Init(cfg), es);
              var v := QuicProbeRtt.Story(Init(cfg), es);
              var v' := QuicProbeRtt.Follow(before, e, View(), v);
              && (before.phase.mode == ProbeRtt && mode != ProbeRtt ==>
                    e.Congestion? && v'.drained.At? && v'.rounds > 0 &&
                    e.feedback.now >= v'.drained.time + 200_000)
              && (before.phase.mode != ProbeRtt && mode == ProbeRtt && v.exit.At? ==>
                    e.Congestion? && e.feedback.now > v.exit.time + 10_000_000)
    {
      assert events[..|events| - 1] == es;
      hide Step, Init, QuicProbeRtt.MonotoneRun, QuicProbeRtt.Story, QuicProbeRtt.Follow;
      if Run(Init(cfg), es).phase.mode == ProbeRtt && mode != ProbeRtt {
        QuicProbeRtt.StayIsLongEnough(cfg, es, e);
      } else if Run(Init(cfg), es).phase.mode != ProbeRtt && mode == ProbeRtt {
        QuicProbeRtt.StaysAreSpaced(cfg, es, e);
      }
    }
  }
}
