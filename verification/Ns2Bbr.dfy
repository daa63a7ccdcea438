/** The modes, filters and gain cycle of tcp-bbr.cc as a state machine: one function for
    each method of BbrTcpAgent that the handling of a new ACK calls. Times are seconds;
    doubles and floats are reals. */
module Ns2Bbr {
  import opened BbrModes

  const HIGH_GAIN: real := 2.885
  const DRAIN_GAIN: real := 1.0 / HIGH_GAIN
  const FILTER_LEN: nat := 10
  const RTPROP_FILTER_LEN: real := 10.0
  const PROBE_RTT_TIME: real := 0.2
  const GROWTH_TARGET: real := 1.25
  const STARTUP_ROUNDS: nat := 3
  const MIN_PIPE_CWND: int := 4

  /** cwndGain is an int: assigning a gain to it truncates. */
  datatype Phase = Phase(mode: Mode, pacingGain: real, cwndGain: int, index: nat, stamp: real)

  /** The bandwidth filter; age is BtlBw_stamp, the updates since bw was taken. */
  datatype Filter = Filter(bw: real, age: nat)

  datatype Pipe = Pipe(full: bool, stalls: nat, lastBw: real)

  /** rtProp is -1 while unknown; doneStamp is 0 until the end of PROBE_RTT is known. */
  datatype MinRtt = MinRtt(rtProp: real, stamp: real, expired: bool, doneStamp: real)

  datatype Agent = Agent(initialWnd: real, phase: Phase, filter: Filter, pipe: Pipe, rtt: MinRtt,
                         inFlight: int, priorInFlight: int)

  /** A new ACK: the time, the delivery rate, t_rtt_, the packets in flight, three send
      quanta, and a random draw. */
  datatype Ack = Ack(now: real, bw: real, rtt: int, flight: int, quanta: int, draw: nat)

  predicate Expired(f: Filter) {
    f.age > FILTER_LEN
  }

  function UpdateBtlBw(f: Filter, bw: real): Filter {
    var taken := bw >= 0.0 && (bw >= f.bw || Expired(f) || f.bw <= 0.0);
    if taken then Filter(bw, 1) else f.(age := f.age + 1)
  }

  function Inflight(a: Agent, gain: real, quanta: int): real {
    if a.rtt.rtProp == -1.0 then a.initialWnd else gain * (a.filter.bw * a.rtt.rtProp) + quanta as real
  }

  predicate IsNextCyclePhase(a: Agent, k: Ack) {
    var isFullLength := k.now - a.phase.stamp > a.rtt.rtProp;
    if a.phase.pacingGain >= 1.0 then isFullLength
    else isFullLength || a.priorInFlight as real <= Inflight(a, 1.0, k.quanta)
  }

  function CycleGain(index: nat): real {
    Quarters(index) as real / 4.0
  }

  function AdvanceCyclePhase(p: Phase, now: real): Phase {
    var index := (p.index + 1) % CYCLE_LEN;
    p.(stamp := now, index := index, pacingGain := CycleGain(index))
  }

  function CheckCyclePhase(a: Agent, k: Ack): Agent {
    if a.phase.mode == ProbeBw && IsNextCyclePhase(a, k) then a.(phase := AdvanceCyclePhase(a.phase, k.now)) else a
  }

  function CheckFullPipe(a: Agent): Agent {
    var p := a.pipe;
    if p.full then a
    else if a.filter.bw >= p.lastBw * GROWTH_TARGET then a.(pipe := Pipe(false, 0, a.filter.bw))
    else a.(pipe := p.(stalls := p.stalls + 1, full := p.stalls + 1 >= STARTUP_ROUNDS))
  }

  function EnterStartup(p: Phase): Phase {
    p.(mode := Startup, pacingGain := HIGH_GAIN, cwndGain := HIGH_GAIN.Floor)
  }

  function EnterDrain(p: Phase): Phase {
    p.(mode := Drain, pacingGain := DRAIN_GAIN, cwndGain := HIGH_GAIN.Floor)
  }

  /** The phase before the first one of a stay. */
  function EntryIndex(draw: nat): nat {
    CYCLE_LEN - 1 - draw % 6
  }

  function EnterProbeBw(p: Phase, now: real, draw: nat): Phase {
    AdvanceCyclePhase(p.(mode := ProbeBw, pacingGain := 1.0, cwndGain := 2, index := EntryIndex(draw)), now)
  }

  predicate QueueDrained(a: Agent, k: Ack) {
    k.flight as real <= Inflight(a, 1.0, k.quanta)
  }

  function CheckDrain(a: Agent, k: Ack): Agent {
    var a1 := if a.phase.mode == Startup && a.pipe.full then a.(phase := EnterDrain(a.phase)) else a;
    if a1.phase.mode == Drain && QueueDrained(a1, k) then a1.(phase := EnterProbeBw(a1.phase, k.now, k.draw)) else a1
  }

  function UpdateRTprop(m: MinRtt, k: Ack): MinRtt {
    var expired := k.now > m.stamp + RTPROP_FILTER_LEN;
    var seconds := k.rtt as real / 100.0;
    if k.rtt >= 0 && (seconds <= m.rtProp || expired) then MinRtt(seconds, k.now, expired, m.doneStamp)
    else m.(expired := expired)
  }

  function EnterProbeRtt(a: Agent): Agent {
    a.(phase := a.phase.(mode := ProbeRtt, pacingGain := 1.0, cwndGain := 1), rtt := a.rtt.(doneStamp := 0.0))
  }

  function ExitProbeRtt(a: Agent, k: Ack): Phase {
    if a.pipe.full then EnterProbeBw(a.phase, k.now, k.draw) else EnterStartup(a.phase)
  }

  function HandleProbeRtt(a: Agent, k: Ack): Agent {
    if a.rtt.doneStamp == 0.0 && k.flight <= MIN_PIPE_CWND then
      a.(rtt := a.rtt.(doneStamp := k.now + PROBE_RTT_TIME))
    else if a.rtt.doneStamp != 0.0 && k.now > a.rtt.doneStamp then
      a.(rtt := a.rtt.(stamp := k.now), phase := ExitProbeRtt(a, k))
    else a
  }

  function CheckProbeRtt(a: Agent, k: Ack): Agent {
    var a1 := if a.phase.mode != ProbeRtt && a.rtt.expired then EnterProbeRtt(a) else a;
    if a1.phase.mode == ProbeRtt then HandleProbeRtt(a1, k) else a1
  }

  /** The filters and checks up to the gain cycle. */
  function Measure(a: Agent, k: Ack): Agent {
    a.(priorInFlight := a.inFlight, inFlight := k.flight, filter := UpdateBtlBw(a.filter, k.bw))
  }

  function Judge(a: Agent, k: Ack): Agent {
    CheckDrain(CheckFullPipe(CheckCyclePhase(Measure(a, k), k)), k)
  }

  function Probe(a: Agent, k: Ack): Agent {
    CheckProbeRtt(a.(rtt := UpdateRTprop(a.rtt, k)), k)
  }

  /** recv_newack_helper. */
  function Step(a: Agent, k: Ack): Agent {
    Probe(Judge(a, k), k)
  }

  function Run(a: Agent, ks: seq<Ack>): Agent {
    if ks == [] then a else Step(Run(a, ks[..|ks| - 1]), ks[|ks| - 1])
  }

  /** BbrInit at a time, with the smoothed round trip time, 0 for none. The flight
      before the first ACK is whatever the memory held. */
  function Init(initialWnd: real, now: real, srtt: int, inFlight: int): Agent {
    Agent(initialWnd,
          Phase(Startup, HIGH_GAIN, HIGH_GAIN.Floor, 0, 0.0),
          Filter(-1.0, 0),
          Pipe(false, 0, 0.0),
          MinRtt(if srtt != 0 then srtt as real / 100.0 else -1.0, now, false, 0.0),
          inFlight, inFlight)
  }

  ghost predicate Fresh(a: Agent) {
    exists wnd: real, now: real, srtt: int, flight: int :: now >= 0.0 && srtt >= 0 && a == Init(wnd, now, srtt, flight)
  }
}
