/** When the phases of the ns-2 agent end: the gain cycle and DRAIN, by elapsed time and by
    the flight against BtlBw, RTprop and the quanta. */
module Ns2Cycle {
  import opened BbrModes
  import opened Ns2Bbr
  import Ns2Modes

  /** What the pipe holds at gain 1: the initial window while RTprop is unknown. */
  function Pipeful(a: Agent, k: Ack, btlBw: real): real {
    if a.rtt.rtProp == -1.0 then a.initialWnd else btlBw * a.rtt.rtProp + k.quanta as real
  }

  /** An ACK in PROBE_BW ends the phase exactly when more than RTprop has passed, and with
      gain 3/4 also when the flight before it is down at what the pipe holds. */
  predicate EndsInTime(a: Agent, k: Ack, gain: real, elapsed: real, flight: int, btlBw: real, ended: bool) {
    ended <==> elapsed > a.rtt.rtProp || (gain < 1.0 && flight as real <= Pipeful(a, k, btlBw))
  }

  lemma PhaseByAck(a: Agent, k: Ack)
    requires a.phase.mode == ProbeBw && a.phase.index < CYCLE_LEN
    ensures var a' := Step(a, k);
            var ended := a'.phase.index == (a.phase.index + 1) % CYCLE_LEN;
            && EndsInTime(a, k, a.phase.pacingGain, k.now - a.phase.stamp, a.inFlight, a'.filter.bw, ended)
            && a'.inFlight == k.flight
            && (if ended then a'.phase.stamp == k.now
                else a'.phase.index == a.phase.index && a'.phase.stamp == a.phase.stamp)
  {
    hide UpdateBtlBw, CycleGain;
  }

  // ----- When the phase began -----

  predicate Begins(t: Agent, t': Agent) {
    (t.phase.mode != ProbeBw && t'.phase.mode == ProbeBw) || t'.phase.index != t.phase.index
  }

  /** The time at which the current phase began. */
  function PhaseStart(a: Agent, ks: seq<Ack>): real {
    if ks == [] then 0.0
    else
      var front, k := ks[..|ks| - 1], ks[|ks| - 1];
      if Begins(Run(a, front), Run(a, ks)) then k.now else PhaseStart(a, front)
  }

  ghost predicate Stamped(t: Agent, start: real) {
    t.phase.index < CYCLE_LEN && (t.phase.mode == ProbeBw ==> t.phase.stamp == start)
  }

  lemma StepStamps(a: Agent, k: Ack, start: real)
    requires Stamped(a, start)
    ensures Stamped(Step(a, k), if Begins(a, Step(a, k)) then k.now else start)
  {
    if a.phase.mode == ProbeBw {
      PhaseByAck(a, k);
    }
    hide UpdateBtlBw, CycleGain, IsNextCyclePhase, QueueDrained;
  }

  lemma {:induction false} RunStamps(a: Agent, ks: seq<Ack>)
    requires Fresh(a)
    ensures Stamped(Run(a, ks), PhaseStart(a, ks))
  {
    if ks != [] {
      var front := ks[..|ks| - 1];
      RunStamps(a, front);
      StepStamps(Run(a, front), ks[|ks| - 1], PhaseStart(a, front));
      hide Step, Begins, Stamped;
    }
  }

  /** The gain cycle in every run, counted from the ACK with which the phase began. */
  lemma PhasesEndInTime(a: Agent, ks: seq<Ack>, k: Ack)
    requires Fresh(a) && Run(a, ks).phase.mode == ProbeBw
    ensures var t, t' := Run(a, ks), Run(a, ks + [k]);
            EndsInTime(t, k, if t.phase.index == 0 then 1.25 else if t.phase.index == 1 then 0.75 else 1.0,
                       k.now - PhaseStart(a, ks), t.inFlight, t'.filter.bw,
                       t'.phase.index == (t.phase.index + 1) % CYCLE_LEN)
  {
    hide Step, Fresh, EndsInTime, PhaseStart, Stamped, Ns2Modes.GainsMatch;
    assert (ks + [k])[..|ks|] == ks;
    var t := Run(a, ks);
    RunStamps(a, ks);
    Ns2Modes.ModesAreSound(a, ks);
    GainOf(t, PhaseStart(a, ks));
    PhaseByAck(t, k);
  }

  lemma GainOf(t: Agent, start: real)
    requires t.phase.mode == ProbeBw && Ns2Modes.GainsMatch(t) && Stamped(t, start)
    ensures t.phase.pacingGain == (if t.phase.index == 0 then 1.25 else if t.phase.index == 1 then 0.75 else 1.0)
    ensures t.phase.index < CYCLE_LEN && t.phase.stamp == start
  {}

  // ----- The end of DRAIN -----

  /** An ACK in STARTUP or DRAIN, once the pipe is full: PROBE_BW exactly if the flight is at
      most what the pipe holds, and else DRAIN. */
  lemma DrainByAck(a: Agent, k: Ack)
    requires a.phase.mode == Startup || a.phase.mode == Drain
    requires a.phase.mode == Drain ==> a.pipe.full
    ensures var a' := Step(a, k);
            a'.phase.mode != ProbeRtt ==>
              a'.phase.mode == if !a'.pipe.full then Startup
                               else if k.flight as real <= Pipeful(a, k, a'.filter.bw) then ProbeBw
                               else Drain
  {
    hide UpdateBtlBw, CycleGain;
  }

  // ----- Where a stay begins -----

  /** The phase in which a draw lets PROBE_BW begin. */
  function Entered(draw: nat): nat {
    EnterProbeBw(Phase(Drain, DRAIN_GAIN, 2, 0, 0.0), 0.0, draw).index
  }

  /** Every phase but that of gain 3/4 and the next is entered by some draw, and different
      draws below six enter different ones. */
  lemma EveryPhaseIsEntered(p: nat)
    ensures (exists draw :: Entered(draw) == p) <==> p < CYCLE_LEN && p != 1 && p != 2
    ensures forall a, b :: Entered(a) == Entered(b) ==> a % 6 == b % 6
  {
    if p < CYCLE_LEN && p != 1 && p != 2 {
      assert Entered((8 - p) % 8) == p;
    }
  }
}
