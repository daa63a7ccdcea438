/** drafts/real_bbr.c in its own form: struct bbr as a class whose methods update its
    fields in place, each proved against the state machine of LinuxBbr on 32-bit
    counters. */
module LinuxSocket {
  import opened Words
  import opened BbrModes
  import opened LinuxArith
  import opened LinuxBbr
  import LinuxModes
  import LinuxPolicer
  import LinuxProbeRtt
  import LinuxWrap

  class BbrSocket {
    const hz: Hz
    ghost const start: Bbr
    ghost var events: seq<Event>
    var minRtt: nat
    var minRttStamp: int
    var probeRttDoneStamp: int
    var maxBw: nat
    var rttCnt: int
    var nextRttDelivered: int
    var cycleStamp: int
    var mode: Mode
    var prevCaState: TcpState
    var packetConservation: bool
    var restoreCwnd: bool
    var roundStart: bool
    var tsoSegsGoal: nat
    var idleRestart: bool
    var probeRttRoundDone: bool
    var ltIsSampling: bool
    var ltRttCnt: nat
    var ltUseBw: bool
    var ltBw: nat
    var ltLastDelivered: int
    var ltLastStamp: int
    var ltLastLost: int
    var pacingGain: nat
    var cwndGain: nat
    var fullBwCnt: nat
    var cycleIdx: nat
    var priorCwnd: nat
    var fullBw: nat
    var sndCwnd: nat
    var pacingRate: nat
    var appLimited: nat

    ghost function View(): Bbr
      reads this
    {
      Bbr(hz,
          Phase(mode, pacingGain, cwndGain, cycleIdx, cycleStamp),
          Model(maxBw, rttCnt, nextRttDelivered, roundStart, fullBw, fullBwCnt),
          Lt(ltIsSampling, ltRttCnt, ltUseBw, ltBw, ltLastDelivered, ltLastStamp, ltLastLost),
          MinRtt(minRtt, minRttStamp, probeRttDoneStamp, probeRttRoundDone, idleRestart),
          Win(prevCaState, packetConservation, restoreCwnd, priorCwnd, tsoSegsGoal, sndCwnd, pacingRate,
              appLimited))
    }

    /** The object has handled the events, and nothing else. */
    ghost predicate Valid()
      reads this
    {
      Fresh(start) && View() == Run(Bits32, start, events)
    }

    /** bbr_init. */
    constructor (hz: Hz, minRtt: nat, sndCwnd: nat, srttUs: nat, tp: Sock)
      ensures View() == Init(hz, minRtt, sndCwnd, srttUs, tp)
      ensures Fresh(View())
      ensures Valid() && events == []
    {
      start, events := Init(hz, minRtt, sndCwnd, srttUs, tp), [];
      this.hz, this.sndCwnd, this.minRtt := hz, sndCwnd, minRtt;
      priorCwnd, tsoSegsGoal, rttCnt, nextRttDelivered := 0, 0, 0, 0;
      prevCaState, packetConservation := TCP_CA_OPEN, false;
      probeRttDoneStamp, probeRttRoundDone, minRttStamp := 0, false, tp.now;
      maxBw := 0;
      var rtt := if srttUs / 8 == 0 then 1000 else srttUs / 8;
      var bw := sndCwnd * BW_UNIT / rtt % U32;
      var rate := RateBytesPerSec(bw, tp.mtu, HIGH_GAIN);
      pacingRate := if rate < tp.maxPacingRate then rate else tp.maxPacingRate;
      restoreCwnd, roundStart, idleRestart, appLimited := false, false, false, 0;
      fullBw, fullBwCnt, cycleStamp, cycleIdx := 0, 0, 0, 0;
      ltBw, ltUseBw, ltIsSampling, ltRttCnt := 0, false, false, 0;
      ltLastStamp, ltLastDelivered, ltLastLost := tp.stampJiffies, tp.delivered, tp.lost;
      mode, pacingGain, cwndGain := Startup, HIGH_GAIN, HIGH_GAIN;
    }

    method SetPacingRate(bw: nat, gain: nat, tp: Sock)
      modifies this
      ensures View() == LinuxBbr.SetPacingRate(old(View()), bw, gain, tp)
    {
      var rate := RateBytesPerSec(bw, tp.mtu, gain);
      if tp.maxPacingRate < rate {
        rate := tp.maxPacingRate;
      }
      if mode != Startup || rate > pacingRate {
        pacingRate := rate;
      }
    }

    method SetTsoSegsGoal(tp: Sock)
      modifies this
      ensures View() == LinuxBbr.SetTsoSegsGoal(old(View()), tp)
    {
      tsoSegsGoal := if tp.autosize < 0x7F then tp.autosize else 0x7F;
    }

    method SaveCwnd()
      modifies this
      ensures View() == LinuxBbr.SaveCwnd(old(View()))
    {
      if prevCaState < TCP_CA_RECOVERY && mode != ProbeRtt {
        priorCwnd := sndCwnd;
      } else if priorCwnd < sndCwnd {
        priorCwnd := sndCwnd;
      }
    }

    method CurrentBandwidth() returns (bw: nat)
      ensures bw == Bandwidth(View())
    {
      bw := if ltUseBw then ltBw else maxBw;
    }

    method CwndEvent(appLimited: bool, tp: Sock)
      modifies this
      ensures View() == LinuxBbr.CwndEvent(old(View()), appLimited, tp)
    {
      if appLimited {
        idleRestart := true;
        if mode == ProbeBw {
          var bw := CurrentBandwidth();
          SetPacingRate(bw, BBR_UNIT, tp);
        }
      }
    }

    /** The recovery state machine inside bbr_set_cwnd_to_recover_or_restore. */
    method TrackRecovery(tp: Sock)
      modifies this
      ensures View() == LinuxBbr.TrackRecovery(old(View()), tp)
    {
      if tp.caState == TCP_CA_RECOVERY && prevCaState != TCP_CA_RECOVERY {
        packetConservation := true;
        nextRttDelivered := tp.delivered;
      } else if prevCaState >= TCP_CA_RECOVERY && tp.caState < TCP_CA_RECOVERY {
        restoreCwnd := true;
        packetConservation := false;
      }
      prevCaState := tp.caState;
    }

    method SetCwndToRecoverOrRestore(rs: RateSample, acked: nat, tp: Sock) returns (newCwnd: nat, conserving: bool)
      modifies this
      ensures (View(), newCwnd, conserving) == LinuxBbr.SetCwndToRecoverOrRestore(old(View()), rs, acked, tp)
    {
      hide S32, LinuxBbr.TrackRecovery;
      newCwnd := sndCwnd;
      if rs.losses > 0 {
        var left := S32(newCwnd - rs.losses);
        newCwnd := if left < 1 then 1 else left;
      }
      if tp.caState == TCP_CA_RECOVERY && prevCaState != TCP_CA_RECOVERY {
        newCwnd := (tp.inFlight + acked) % U32;
      }
      TrackRecovery(tp);
      if restoreCwnd {
        newCwnd := if newCwnd < priorCwnd then priorCwnd else newCwnd;
        restoreCwnd := false;
      }
      conserving := packetConservation;
      if conserving {
        var conserved := (tp.inFlight + acked) % U32;
        newCwnd := if newCwnd < conserved then conserved else newCwnd;
      }
    }

    method SetCwnd(rs: RateSample, acked: nat, bw: nat, gain: nat, tp: Sock)
      modifies this
      ensures View() == LinuxBbr.SetCwnd(old(View()), rs, acked, bw, gain, tp)
    {
      if acked == 0 {
        return;
      }
      var cwnd, conserving := SetCwndToRecoverOrRestore(rs, acked, tp);
      if !conserving {
        var target := TargetCwnd(bw, minRtt, gain, tsoSegsGoal);
        if fullBwCnt >= BBR_FULL_BW_CNT {
          var grown := (cwnd + acked) % U32;
          cwnd := if grown < target then grown else target;
        } else if cwnd < target || tp.delivered < TCP_INIT_CWND {
          cwnd := (cwnd + acked) % U32;
        }
        if cwnd < BBR_CWND_MIN_TARGET {
          cwnd := BBR_CWND_MIN_TARGET;
        }
      }
      sndCwnd := if cwnd < tp.sndCwndClamp then cwnd else tp.sndCwndClamp;
      if mode == ProbeRtt && sndCwnd > BBR_CWND_MIN_TARGET {
        sndCwnd := BBR_CWND_MIN_TARGET;
      }
    }

    method IsNextCyclePhase(rs: RateSample, tp: Sock) returns (next: bool)
      ensures next == LinuxBbr.IsNextCyclePhase(View(), rs, tp)
    {
      var isFullLength := tp.stampUs - cycleStamp > minRtt;
      if pacingGain == BBR_UNIT {
        return isFullLength;
      }
      if pacingGain > BBR_UNIT {
        var probed := TargetCwnd(maxBw, minRtt, pacingGain, tsoSegsGoal);
        return isFullLength && (rs.losses > 0 || rs.priorInFlight >= probed);
      }
      var drained := TargetCwnd(maxBw, minRtt, BBR_UNIT, tsoSegsGoal);
      return isFullLength || rs.priorInFlight <= drained;
    }

    method AdvanceCyclePhase(tp: Sock)
      modifies this
      ensures View() == old(View()).(phase := LinuxBbr.AdvanceCyclePhase(old(View()).phase, tp))
    {
      cycleIdx := (cycleIdx + 1) % CYCLE_LEN;
      cycleStamp := tp.stampUs;
      pacingGain := CyclePacingGain(cycleIdx);
    }

    method UpdateCyclePhase(rs: RateSample, tp: Sock)
      modifies this
      ensures View() == LinuxBbr.UpdateCyclePhase(old(View()), rs, tp)
    {
      if mode == ProbeBw && !ltUseBw {
        var next := IsNextCyclePhase(rs, tp);
        if next {
          AdvanceCyclePhase(tp);
        }
      }
    }

    /** A mode with its gains. */
    method SetMode(newMode: Mode, newPacingGain: nat, newCwndGain: nat)
      modifies this
      ensures View() == old(View()).(phase := old(View()).phase.(
                          mode := newMode, pacingGain := newPacingGain, cwndGain := newCwndGain))
    {
      mode, pacingGain, cwndGain := newMode, newPacingGain, newCwndGain;
    }

    method ResetStartupMode()
      modifies this
      ensures View() == old(View()).(phase := LinuxBbr.ResetStartupMode(old(View()).phase))
    {
      SetMode(Startup, HIGH_GAIN, HIGH_GAIN);
    }

    method ResetProbeBwMode(tp: Sock)
      modifies this
      ensures View() == old(View()).(phase := LinuxBbr.ResetProbeBwMode(old(View()).phase, tp))
    {
      SetMode(ProbeBw, BBR_UNIT, CWND_GAIN);
      cycleIdx := CYCLE_LEN - 1 - tp.draw % BBR_CYCLE_RAND;
      AdvanceCyclePhase(tp);
    }

    method ResetMode(tp: Sock)
      modifies this
      ensures View() == LinuxBbr.ResetMode(old(View()), tp)
    {
      if fullBwCnt < BBR_FULL_BW_CNT {
        ResetStartupMode();
      } else {
        ResetProbeBwMode(tp);
      }
    }

    /** The counters at the start of an interval. */
    method MarkInterval(tp: Sock)
      modifies this
      ensures View() == old(View()).(lt := old(View()).lt.(
                          lastStamp := tp.stampJiffies, lastDelivered := tp.delivered, lastLost := tp.lost))
    {
      ltLastStamp, ltLastDelivered, ltLastLost := tp.stampJiffies, tp.delivered, tp.lost;
    }

    method ResetLtBwSamplingInterval(tp: Sock)
      modifies this
      ensures View() == old(View()).(lt := LinuxBbr.ResetLtBwSamplingInterval(old(View()).lt, tp))
    {
      MarkInterval(tp);
      ltRttCnt := 0;
    }

    method ResetLtBwSampling(tp: Sock)
      modifies this
      ensures View() == old(View()).(lt := LinuxBbr.ResetLtBwSampling(old(View()).lt, tp))
    {
      ltBw := 0;
      ltUseBw := false;
      ltIsSampling := false;
      ResetLtBwSamplingInterval(tp);
    }

    /** The rate of two consistent intervals comes into use. */
    method UseLtBw(bw: nat)
      modifies this
      ensures View() == old(View()).(lt := old(View()).lt.(bw := bw, useBw := true, rttCnt := 0))
    {
      ltBw, ltUseBw, ltRttCnt := bw, true, 0;
    }

    method LtBwIntervalDone(bw: nat, tp: Sock)
      modifies this
      ensures View() == LinuxBbr.LtBwIntervalDone(old(View()), bw, tp)
    {
      if ltBw != 0 {
        if ConsistentRates(bw, ltBw, tp.mtu) {
          UseLtBw((bw + ltBw) % U32 / 2);
          pacingGain := BBR_UNIT;
          return;
        }
      }
      ltBw := bw;
      ResetLtBwSamplingInterval(tp);
    }

    /** The tail of bbr_lt_bw_sampling. */
    method LtCloseInterval(tp: Sock)
      modifies this
      ensures View() == LinuxBbr.LtCloseInterval(Bits32, old(View()), tp)
    {
      var lost := (tp.lost - ltLastLost) % U32;
      var delivered := (tp.delivered - ltLastDelivered) % U32;
      if delivered == 0 || lost * BBR_UNIT % U32 < BBR_LT_LOSS_THRESH * delivered % U32 {
        return;
      }
      var t := S32(tp.stampJiffies - ltLastStamp);
      if t < 1 {
        return;
      }
      t := JiffiesToUsecs(hz, t);
      if t < 1 {
        ResetLtBwSampling(tp);
        return;
      }
      var bw := delivered * BW_UNIT / t;
      LtBwIntervalDone(bw % U32, tp);
    }

    method LtBwSampling(losses: nat, isAppLimited: bool, tp: Sock)
      modifies this
      ensures View() == LinuxBbr.LtBwSampling(Bits32, old(View()), losses, isAppLimited, tp)
    {
      if ltUseBw {
        if mode == ProbeBw && roundStart {
          ltRttCnt := ltRttCnt + 1;
          if ltRttCnt >= BBR_LT_BW_MAX_RTTS {
            ResetLtBwSampling(tp);
            ResetProbeBwMode(tp);
          }
        }
        return;
      }
      if !ltIsSampling {
        if losses == 0 {
          return;
        }
        ResetLtBwSamplingInterval(tp);
        ltIsSampling := true;
      }
      hide LinuxBbr.LtCloseInterval;
      if isAppLimited {
        ResetLtBwSampling(tp);
        return;
      }
      if roundStart {
        ltRttCnt := ltRttCnt + 1;
      }
      assert View() == old(View()).(lt := LtCountRound(old(View()), tp));
      if ltRttCnt < BBR_LT_INTVL_MIN_RTTS {
        return;
      }
      if ltRttCnt > 4 * BBR_LT_INTVL_MIN_RTTS {
        ResetLtBwSampling(tp);
        return;
      }
      if losses == 0 {
        return;
      }
      LtCloseInterval(tp);
    }

    method StartRound(tp: Sock)
      modifies this
      ensures var m := old(View()).model;
              View() == old(View()).(model := m.(nextRttDelivered := tp.delivered, rttCnt := (m.rttCnt + 1) % U32,
                                                 roundStart := true))
    {
      nextRttDelivered, rttCnt, roundStart := tp.delivered, (rttCnt + 1) % U32, true;
    }

    /** The start of bbr_update_bw: has the ACK begun a round trip? */
    method CountRound(rs: RateSample, tp: Sock)
      modifies this
      ensures View() == LinuxBbr.CountRound(Bits32, old(View()), rs, tp)
    {
      hide S32;
      roundStart := false;
      if rs.delivered < 0 || rs.intervalUs <= 0 {
        return;
      }
      if !Before(Bits32, rs.priorDelivered, nextRttDelivered) {
        StartRound(tp);
        packetConservation := false;
      }
    }

    method UpdateBw(rs: RateSample, tp: Sock)
      modifies this
      ensures View() == LinuxBbr.UpdateBw(Bits32, old(View()), rs, tp)
    {
      hide LinuxBbr.LtBwSampling, LinuxBbr.CountRound;
      CountRound(rs, tp);
      if rs.delivered < 0 || rs.intervalUs <= 0 {
        return;
      }
      LtBwSampling(rs.losses, rs.isAppLimited, tp);
      var bw := rs.delivered * BW_UNIT / rs.intervalUs;
      if !rs.isAppLimited || bw >= maxBw {
        maxBw := tp.filtered;
      }
    }

    method CheckFullBwReached(rs: RateSample)
      modifies this
      ensures View() == LinuxBbr.CheckFullBwReached(old(View()), rs)
    {
      if fullBwCnt >= BBR_FULL_BW_CNT || !roundStart || rs.isAppLimited {
        return;
      }
      var bwThresh := fullBw * FULL_BW_THRESH / BBR_UNIT % U32;
      if maxBw >= bwThresh {
        fullBw := maxBw;
        fullBwCnt := 0;
        return;
      }
      fullBwCnt := fullBwCnt + 1;
    }

    method CheckDrain(tp: Sock)
      modifies this
      ensures View() == LinuxBbr.CheckDrain(old(View()), tp)
    {
      if mode == Startup && fullBwCnt >= BBR_FULL_BW_CNT {
        mode := Drain;
        pacingGain := DRAIN_GAIN;
        cwndGain := HIGH_GAIN;
      }
      if mode == Drain && tp.inFlight <= TargetCwnd(maxBw, minRtt, BBR_UNIT, tsoSegsGoal) {
        ResetProbeBwMode(tp);
      }
    }

    method LeaveProbeRtt(tp: Sock)
      modifies this
      ensures var s := old(View());
              View() == LinuxBbr.ResetMode(s.(rtt := s.rtt.(stamp := tp.now), win := s.win.(restoreCwnd := true)), tp)
    {
      minRttStamp := tp.now;
      restoreCwnd := true;
      ResetMode(tp);
    }

    method StayInProbeRtt(tp: Sock)
      modifies this
      ensures View() == LinuxBbr.StayInProbeRtt(Bits32, old(View()), tp)
    {
      var mark := (tp.delivered + tp.inFlight) % U32;
      appLimited := if mark == 0 then 1 else mark;
      StayOrLeave(tp);
    }

    method StayOrLeave(tp: Sock)
      modifies this
      ensures View() == LinuxBbr.StayOrLeave(Bits32, old(View()), tp)
    {
      hide After, MsecsToJiffies, LinuxBbr.ResetMode;
      if probeRttDoneStamp == 0 && tp.inFlight <= BBR_CWND_MIN_TARGET {
        probeRttDoneStamp := (tp.now + MsecsToJiffies(hz, BBR_PROBE_RTT_MODE_MS)) % U32;
        probeRttRoundDone := false;
        nextRttDelivered := tp.delivered;
      } else if probeRttDoneStamp != 0 {
        if roundStart {
          probeRttRoundDone := true;
        }
        if probeRttRoundDone && After(Bits32, tp.now, probeRttDoneStamp) {
          LeaveProbeRtt(tp);
        }
      }
    }

    method TrackMinRtt(rs: RateSample, filterExpired: bool, tp: Sock)
      requires filterExpired == MinRttExpired(Bits32, View(), tp)
      modifies this
      ensures View() == LinuxBbr.TrackMinRtt(Bits32, old(View()), rs, tp)
    {
      if rs.rttUs >= 0 && (rs.rttUs <= minRtt || filterExpired) {
        minRtt := rs.rttUs % U32;
        minRttStamp := tp.now;
      }
    }

    method EnterProbeRtt()
      modifies this
      ensures View() == LinuxBbr.EnterProbeRtt(old(View()))
    {
      SetMode(ProbeRtt, BBR_UNIT, BBR_UNIT);
      SaveCwnd();
      probeRttDoneStamp := 0;
    }

    method UpdateMinRtt(rs: RateSample, tp: Sock)
      modifies this
      ensures View() == LinuxBbr.UpdateMinRtt(Bits32, old(View()), rs, tp)
    {
      var filterExpired := After(Bits32, tp.now, minRttStamp + BBR_MIN_RTT_WIN_SEC * hz);
      TrackMinRtt(rs, filterExpired, tp);
      if filterExpired && !idleRestart && mode != ProbeRtt {
        EnterProbeRtt();
      }
      if mode == ProbeRtt {
        StayInProbeRtt(tp);
      }
      idleRestart := false;
    }

    method UpdateModel(rs: RateSample, tp: Sock)
      modifies this
      ensures View() == LinuxBbr.UpdateModel(Bits32, old(View()), rs, tp)
    {
      UpdateBw(rs, tp);
      UpdateCyclePhase(rs, tp);
      CheckFullBwReached(rs);
      CheckDrain(tp);
      UpdateMinRtt(rs, tp);
    }

    /** bbr_main. */
    method BbrMain(rs: RateSample, tp: Sock)
      modifies this
      ensures View() == Step(Bits32, old(View()), Ack(rs, tp))
    {
      UpdateModel(rs, tp);
      var bw := CurrentBandwidth();
      SetPacingRate(bw, pacingGain, tp);
      SetTsoSegsGoal(tp);
      SetCwnd(rs, rs.ackedSacked, bw, cwndGain, tp);
    }

    /** bbr_set_state. */
    method SetState(newState: TcpState, tp: Sock)
      modifies this
      ensures View() == Step(Bits32, old(View()), CaState(newState, tp))
    {
      if newState == TCP_CA_LOSS {
        prevCaState := TCP_CA_LOSS;
        fullBw := 0;
        roundStart := true;
        assert View() == AtTimeout(old(View()));
        LtBwSampling(1, false, tp);
      }
    }

    // ----- The callbacks of struct tcp_congestion_ops, with their history -----

    method CongControl(rs: RateSample, tp: Sock)
      requires Valid()
      modifies this
      ensures Valid() && events == old(events) + [Ack(rs, tp)]
    {
      ghost var es := events;
      BbrMain(rs, tp);
      Append(es, Ack(rs, tp));
    }

    method OnState(newState: TcpState, tp: Sock)
      requires Valid()
      modifies this
      ensures Valid() && events == old(events) + [CaState(newState, tp)]
    {
      ghost var es := events;
      SetState(newState, tp);
      Append(es, CaState(newState, tp));
    }

    method OnTxStart(appLimited: bool, tp: Sock)
      requires Valid()
      modifies this
      ensures Valid() && events == old(events) + [TxStart(appLimited, tp)]
    {
      ghost var es := events;
      CwndEvent(appLimited, tp);
      Append(es, TxStart(appLimited, tp));
    }

    method OnSsthresh()
      requires Valid()
      modifies this
      ensures Valid() && events == old(events) + [Ssthresh]
    {
      ghost var es := events;
      SaveCwnd();
      Append(es, Ssthresh);
    }

    /** The stack sets the window on its own. */
    method StackSets(cwnd: nat)
      requires Valid()
      modifies this
      ensures Valid() && events == old(events) + [StackSetsCwnd(cwnd)]
    {
      ghost var es := events;
      sndCwnd := cwnd;
      Append(es, StackSetsCwnd(cwnd));
    }

    ghost method Append(es: seq<Event>, e: Event)
      requires Fresh(start) && View() == Step(Bits32, Run(Bits32, start, es), e)
      modifies `events
      ensures Valid() && events == es + [e]
    {
      hide Step, Fresh, Run;
      RunAppends(start, es, e);
      events := es + [e];
    }

    /** Whatever callbacks it has handled, DRAIN and PROBE_BW mean a full pipe, STARTUP one
        that is not full, and the gains are those of the mode. */
    lemma ModesAreSound()
      requires Valid()
      ensures mode == Drain || mode == ProbeBw ==> fullBwCnt >= BBR_FULL_BW_CNT
      ensures mode == Startup ==> fullBwCnt < BBR_FULL_BW_CNT
      ensures LinuxModes.GainsMatch(View()) && LinuxModes.FieldsFit(View())
    {
      LinuxModes.ModesAreSound(Bits32, start, events);
      hide Run, LinuxModes.GainsMatch, LinuxModes.FieldsFit;
    }

    /** The long-term rate it uses comes from two sound intervals; es are its callbacks on
        unbounded counters. */
    lemma PolicerIsSound(s: Bbr, es: seq<Event>)
      requires Valid() && Fresh(s) && start == LinuxWrap.Trunc(s) && events == LinuxWrap.TruncEvents(es)
      requires LinuxPolicer.RunBounded(s, es) && LinuxWrap.RunInRange(s, es)
      ensures ltUseBw ==>
                && LinuxPolicer.Policed(View().lt, LinuxPolicer.History(s, es))
                && LinuxPolicer.AllSound(s.hz, LinuxPolicer.History(s, es).done)
    {
      hide Run, Fresh, LinuxPolicer.Policed, LinuxPolicer.AllSound, LinuxPolicer.RunBounded, LinuxWrap.RunInRange;
      if ltUseBw {
        LinuxPolicer.KernelPolicerIsSound(s, es);
      }
    }

    /** Its last callback e ended PROBE_RTT only after the time and round of the stay, and
        began it only ten seconds after the last. */
    lemma ProbeRttIsSound(s: Bbr, es: seq<Event>, e: Event)
      requires Valid() && Fresh(s) && start == LinuxWrap.Trunc(s) && events == LinuxWrap.TruncEvents(es + [e])
      requires LinuxProbeRtt.MonotoneRun(Bits32, s, es + [e])
      ensures var before := Run(Bits32, start, LinuxWrap.TruncEvents(es)).phase.mode;
              var v, v' := LinuxProbeRtt.Story(Bits32, s, es), LinuxProbeRtt.Story(Bits32, s, es + [e]);
              && (before == ProbeRtt && mode != ProbeRtt ==>
                    e.Ack? && v'.drained.At? && v'.reached &&
                    e.tp.now > v'.drained.time + LinuxProbeRtt.MinStay(s.hz))
              && (before != ProbeRtt && mode == ProbeRtt && v.exit.At? ==>
                    e.Ack? && e.tp.now > v.exit.time + 10 * s.hz)
    {
      LinuxProbeRtt.KernelProbeRtt(s, es, e);
      hide Run, Fresh, LinuxProbeRtt.MonotoneRun, LinuxProbeRtt.Story;
    }
  }

  lemma RunAppends(s: Bbr, es: seq<Event>, e: Event)
    ensures Run(Bits32, s, es + [e]) == Step(Bits32, Run(Bits32, s, es), e)
  {
    hide Step;
    assert (es + [e])[..|es|] == es;
  }
}
