/** tcp-bbr.cc in its own form: the part of BbrTcpAgent that Ns2Bbr models, as a class
    whose methods update its fields in place. */
module Ns2Agent {
  import opened BbrModes
  import opened Ns2Bbr
  import Ns2Filter
  import Ns2Modes
  import Ns2ProbeRtt

  class BbrTcpAgent {
    const initialWnd: real
    ghost const start: Agent
    ghost var events: seq<Ack>
    var mode: Mode
    var pacingGain: real
    var cwndGain: int
    var cycleIndex: nat
    var cycleStamp: real
    var btlBw: real
    var btlBwStamp: nat
    var filledPipe: bool
    var roundsWithoutBandwidthGain: nat
    var bandwidthAtLastRound: real
    var rtProp: real
    var rtPropStamp: real
    var rtPropExpired: bool
    var probeRttDoneStamp: real
    var inFlight: int
    var priorInFlight: int

    ghost function View(): Agent
      reads this
    {
      Agent(initialWnd,
            Phase(mode, pacingGain, cwndGain, cycleIndex, cycleStamp),
            Filter(btlBw, btlBwStamp),
            Pipe(filledPipe, roundsWithoutBandwidthGain, bandwidthAtLastRound),
            MinRtt(rtProp, rtPropStamp, rtPropExpired, probeRttDoneStamp),
            inFlight, priorInFlight)
    }

    /** The object has handled the ACKs, and nothing else. */
    ghost predicate Valid()
      reads this
    {
      Fresh(start) && View() == Run(start, events)
    }

    /** BbrInit. */
    constructor (initialWnd: real, now: real, srtt: int, flight: int)
      ensures View() == Init(initialWnd, now, srtt, flight)
      ensures start == View() && events == [] && (now >= 0.0 && srtt >= 0 ==> Valid())
    {
      start, events := Init(initialWnd, now, srtt, flight), [];
      this.initialWnd, inFlight, priorInFlight := initialWnd, flight, flight;
      btlBwStamp, btlBw := 0, -1.0;
      var seconds := srtt as real / 100.0;
      rtProp := if srtt != 0 then seconds else -1.0;
      rtPropStamp, rtPropExpired, probeRttDoneStamp := now, false, 0.0;
      filledPipe, bandwidthAtLastRound, roundsWithoutBandwidthGain := false, 0.0, 0;
      mode, pacingGain, cwndGain, cycleIndex, cycleStamp := Startup, HIGH_GAIN, HIGH_GAIN.Floor, 0, 0.0;
    }

    method UpdateBtlBw(bw: real)
      modifies this
      ensures View() == old(View()).(filter := Ns2Bbr.UpdateBtlBw(old(View()).filter, bw))
    {
      var expired := btlBwStamp > FILTER_LEN;
      if bw >= 0.0 && (bw >= btlBw || expired || btlBw <= 0.0) {
        btlBw, btlBwStamp := bw, 0;
      }
      btlBwStamp := btlBwStamp + 1;
    }

    method BBRInflight(gain: real, quanta: int) returns (packets: real)
      ensures packets == Inflight(View(), gain, quanta)
    {
      if rtProp == -1.0 {
        return initialWnd;
      }
      var estimatedBdp := btlBw * rtProp;
      packets := gain * estimatedBdp + quanta as real;
    }

    method AdvanceCyclePhase(now: real)
      modifies this
      ensures View() == old(View()).(phase := Ns2Bbr.AdvanceCyclePhase(old(View()).phase, now))
    {
      cycleStamp, cycleIndex := now, (cycleIndex + 1) % CYCLE_LEN;
      pacingGain := CycleGain(cycleIndex);
    }

    method IsNextCyclePhase(k: Ack) returns (next: bool)
      ensures next == Ns2Bbr.IsNextCyclePhase(View(), k)
    {
      hide Inflight;
      var isFullLength := k.now - cycleStamp > rtProp;
      if pacingGain >= 1.0 {
        return isFullLength;
      }
      var drained := BBRInflight(1.0, k.quanta);
      next := isFullLength || priorInFlight as real <= drained;
    }

    method CheckCyclePhase(k: Ack)
      modifies this
      ensures View() == Ns2Bbr.CheckCyclePhase(old(View()), k)
    {
      hide Ns2Bbr.AdvanceCyclePhase, Ns2Bbr.IsNextCyclePhase;
      if mode == ProbeBw {
        var next := IsNextCyclePhase(k);
        if next {
          AdvanceCyclePhase(k.now);
        }
      }
    }

    method CheckFullPipe()
      modifies this
      ensures View() == Ns2Bbr.CheckFullPipe(old(View()))
    {
      if filledPipe {
        return;
      }
      var target := bandwidthAtLastRound * GROWTH_TARGET;
      if btlBw >= target {
        bandwidthAtLastRound, roundsWithoutBandwidthGain := btlBw, 0;
        return;
      }
      roundsWithoutBandwidthGain := roundsWithoutBandwidthGain + 1;
      if roundsWithoutBandwidthGain >= STARTUP_ROUNDS {
        filledPipe := true;
      }
    }

    method EnterStartup()
      modifies this
      ensures View() == old(View()).(phase := Ns2Bbr.EnterStartup(old(View()).phase))
    {
      mode, pacingGain, cwndGain := Startup, HIGH_GAIN, HIGH_GAIN.Floor;
    }

    method EnterDrain()
      modifies this
      ensures View() == old(View()).(phase := Ns2Bbr.EnterDrain(old(View()).phase))
    {
      mode, pacingGain, cwndGain := Drain, DRAIN_GAIN, HIGH_GAIN.Floor;
    }

    method EnterProbeBw(now: real, draw: nat)
      modifies this
      ensures View() == old(View()).(phase := Ns2Bbr.EnterProbeBw(old(View()).phase, now, draw))
    {
      mode, pacingGain, cwndGain := ProbeBw, 1.0, 2;
      cycleIndex := CYCLE_LEN - 1 - draw % 6;
      AdvanceCyclePhase(now);
    }

    method CheckDrain(k: Ack)
      modifies this
      ensures View() == Ns2Bbr.CheckDrain(old(View()), k)
    {
      hide Inflight, Ns2Bbr.EnterProbeBw, Ns2Bbr.EnterDrain;
      if mode == Startup && filledPipe {
        EnterDrain();
      }
      if mode == Drain {
        var target := BBRInflight(1.0, k.quanta);
        if k.flight as real <= target {
          EnterProbeBw(k.now, k.draw);
        }
      }
    }

    method UpdateRTprop(k: Ack)
      modifies this
      ensures View() == old(View()).(rtt := Ns2Bbr.UpdateRTprop(old(View()).rtt, k))
    {
      rtPropExpired := k.now > rtPropStamp + RTPROP_FILTER_LEN;
      var seconds := k.rtt as real / 100.0;
      if k.rtt >= 0 && (seconds <= rtProp || rtPropExpired) {
        rtProp, rtPropStamp := seconds, k.now;
      }
    }

    method EnterProbeRtt()
      modifies this
      ensures View() == Ns2Bbr.EnterProbeRtt(old(View()))
    {
      mode, pacingGain, cwndGain := ProbeRtt, 1.0, 1;
      probeRttDoneStamp := 0.0;
    }

    method ExitProbeRtt(k: Ack)
      modifies this
      ensures View() == old(View()).(phase := Ns2Bbr.ExitProbeRtt(old(View()), k))
    {
      hide Ns2Bbr.EnterProbeBw, Ns2Bbr.EnterStartup;
      if filledPipe {
        EnterProbeBw(k.now, k.draw);
      } else {
        EnterStartup();
      }
    }

    method HandleProbeRtt(k: Ack)
      modifies this
      ensures View() == Ns2Bbr.HandleProbeRtt(old(View()), k)
    {
      if probeRttDoneStamp == 0.0 && k.flight <= MIN_PIPE_CWND {
        probeRttDoneStamp := k.now + PROBE_RTT_TIME;
      } else if probeRttDoneStamp != 0.0 {
        if k.now > probeRttDoneStamp {
          rtPropStamp := k.now;
          ExitProbeRtt(k);
        }
      }
    }

    method CheckProbeRtt(k: Ack)
      modifies this
      ensures View() == Ns2Bbr.CheckProbeRtt(old(View()), k)
    {
      hide Ns2Bbr.HandleProbeRtt, Ns2Bbr.EnterProbeRtt;
      if mode != ProbeRtt && rtPropExpired {
        EnterProbeRtt();
      }
      if mode == ProbeRtt {
        HandleProbeRtt(k);
      }
    }

    /** recv_newack_helper, up to the checks. */
    method RecvNewAckHelper(k: Ack)
      modifies this
      ensures View() == Step(old(View()), k)
    {
      ghost var a := View();
      priorInFlight := inFlight;
      inFlight := k.flight;
      UpdateBtlBw(k.bw);
      assert View() == Measure(a, k);
      hide Ns2Bbr.CheckCyclePhase, Ns2Bbr.CheckFullPipe, Ns2Bbr.CheckDrain,
           Ns2Bbr.UpdateRTprop, Ns2Bbr.CheckProbeRtt, Measure;
      CheckCyclePhase(k);
      CheckFullPipe();
      CheckDrain(k);
      UpdateRTprop(k);
      CheckProbeRtt(k);
    }

    /** The same, with the history. */
    method NewAck(k: Ack)
      requires Valid()
      modifies this
      ensures Valid() && events == old(events) + [k]
    {
      ghost var es := events;
      RecvNewAckHelper(k);
      events := es + [k];
      assert events[..|events| - 1] == es;
      hide Step, Fresh;
    }

    /** Whatever it has handled, DRAIN and PROBE_BW mean a full pipe, STARTUP one that is
        not full, the gains are those of the mode, and BtlBw is what the filter holds. */
    lemma RunIsSound()
      requires Valid()
      ensures mode == Drain || mode == ProbeBw ==> filledPipe
      ensures mode == Startup ==> !filledPipe
      ensures Ns2Modes.GainsMatch(View())
      ensures Filter(btlBw, btlBwStamp) == Ns2Filter.Feed(Ns2Filter.Rates(events))
    {
      Ns2Modes.ModesAreSound(start, events);
      Ns2Filter.AgentFilters(start, events);
      hide Run, Fresh, Ns2Modes.GainsMatch, Ns2Filter.Feed, Ns2Filter.Rates;
    }

    /** Its last ACK ended PROBE_RTT only after 200 ms, and began it only ten seconds after
        the last. */
    lemma ProbeRttIsSound(ks: seq<Ack>, k: Ack)
      requires Valid() && events == ks + [k] && Ns2ProbeRtt.MonotoneRun(start, events)
      ensures var before := Run(start, ks);
              var v := Ns2ProbeRtt.Story(start, ks);
              var v' := Ns2ProbeRtt.Follow(before, k, View(), v);
              && (before.phase.mode == ProbeRtt && mode != ProbeRtt ==>
                    v'.drained.At? && k.now > v'.drained.time + 0.2)
              && (before.phase.mode != ProbeRtt && mode == ProbeRtt && v.exit.At? ==>
                    k.now > v.exit.time + 10.0)
    {
      assert events[..|events| - 1] == ks;
      hide Step, Fresh, Ns2ProbeRtt.MonotoneRun, Ns2ProbeRtt.Story, Ns2ProbeRtt.Follow;
      if Run(start, ks).phase.mode == ProbeRtt && mode != ProbeRtt {
        Ns2ProbeRtt.StayIsLongEnough(start, ks, k);
      } else if Run(start, ks).phase.mode != ProbeRtt && mode == ProbeRtt {
        Ns2ProbeRtt.StaysAreSpaced(start, ks, k);
      }
    }
  }
}
