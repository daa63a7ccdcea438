/** The ns-2 agent refines the BBR state machine; its STARTUP, counted in ACKs; and what
    an unknown round trip time does to its gain cycle. */
module Ns2Modes {
  import opened BbrModes
  import opened Ns2Bbr
  import BbrMachine
  import FullPipe
  import Ns2Filter

  /** The gains of the modes; the window gain of STARTUP is truncated to 2. */
  predicate GainsMatch(a: Agent) {
    var p := a.phase;
    match p.mode
    case Startup => p.pacingGain == HIGH_GAIN && p.cwndGain == 2
    case Drain => p.pacingGain == DRAIN_GAIN && p.cwndGain == 2
    case ProbeBw => p.pacingGain == CycleGain(p.index) && p.cwndGain == 2
    case ProbeRtt => p.pacingGain == 1.0 && p.cwndGain == 1
  }

  ghost predicate Refines(a: Agent, m: BbrMachine.Machine) {
    && GainsMatch(a)
    && a.phase.mode == m.mode
    && a.pipe.full == m.full
    && (a.phase.mode == ProbeBw ==> a.phase.index == m.phase)
  }

  function FirstIndex(draw: nat): nat {
    (EntryIndex(draw) + 1) % CYCLE_LEN
  }

  lemma EntryIsLegal(draw: nat)
    ensures BbrMachine.LegalEntry(FirstIndex(draw))
  {}

  function ChoiceOf(a: Agent, k: Ack): BbrMachine.Choice {
    var a1 := Measure(a, k);
    var a3 := CheckFullPipe(CheckCyclePhase(a1, k));
    var a4 := if a3.phase.mode == Startup && a3.pipe.full then a3.(phase := EnterDrain(a3.phase)) else a3;
    BbrMachine.Choice(
      false,
      IsNextCyclePhase(a1, k),
      a3.pipe.full,
      QueueDrained(a4, k),
      UpdateRTprop(a3.rtt, k).expired,
      Step(a, k).phase.mode != ProbeRtt,
      FirstIndex(k.draw))
  }

  function Choices(a: Agent, ks: seq<Ack>): (cs: seq<BbrMachine.Choice>)
    ensures |cs| == |ks|
  {
    if ks == [] then [] else Choices(a, ks[..|ks| - 1]) + [ChoiceOf(Run(a, ks[..|ks| - 1]), ks[|ks| - 1])]
  }

  lemma JudgeRefines(a: Agent, k: Ack, m: BbrMachine.Machine)
    requires Refines(a, m) && BbrMachine.Sound(m)
    ensures Refines(Judge(a, k), BbrMachine.FillAndDrain(BbrMachine.Cycle(m, ChoiceOf(a, k)), ChoiceOf(a, k)))
    ensures Judge(a, k).rtt == a.rtt
  {}

  lemma ProbeRefines(a: Agent, k: Ack, m: BbrMachine.Machine, c: BbrMachine.Choice)
    requires Refines(a, m) && c.entry == FirstIndex(k.draw)
    requires c.dip == UpdateRTprop(a.rtt, k).expired && c.finish == (Probe(a, k).phase.mode != ProbeRtt)
    ensures Refines(Probe(a, k), BbrMachine.DipAndReturn(m, c))
  {}

  lemma StepRefines(a: Agent, k: Ack, m: BbrMachine.Machine)
    requires Refines(a, m) && BbrMachine.Sound(m)
    ensures Refines(Step(a, k), BbrMachine.Step(m, ChoiceOf(a, k)))
  {
    var c := ChoiceOf(a, k);
    EntryIsLegal(k.draw);
    JudgeRefines(a, k, m);
    assert Step(a, k) == Probe(Judge(a, k), k);
    ProbeRefines(Judge(a, k), k, BbrMachine.FillAndDrain(BbrMachine.Cycle(m, c), c), c);
  }

  /** Every run of the agent is a run of the BBR state machine. */
  lemma {:induction false} RunRefines(a: Agent, ks: seq<Ack>)
    requires Fresh(a)
    ensures BbrMachine.LegalRun(Choices(a, ks))
    ensures Refines(Run(a, ks), BbrMachine.Run(Choices(a, ks)))
  {
    if ks != [] {
      var front := ks[..|ks| - 1];
      RunRefines(a, front);
      var cs := Choices(a, ks);
      assert cs[..|cs| - 1] == Choices(a, front);
      BbrMachine.RunSound(Choices(a, front));
      EntryIsLegal(ks[|ks| - 1].draw);
      StepRefines(Run(a, front), ks[|ks| - 1], BbrMachine.Run(Choices(a, front)));
    }
  }

  /** In every reachable state DRAIN and PROBE_BW mean a full pipe, STARTUP one that is
      not full, and the gains are those of the mode. */
  lemma ModesAreSound(a: Agent, ks: seq<Ack>)
    requires Fresh(a)
    ensures var t := Run(a, ks);
            && (t.phase.mode == Drain || t.phase.mode == ProbeBw ==> t.pipe.full)
            && (t.phase.mode == Startup ==> !t.pipe.full)
            && GainsMatch(t)
  {
    RunRefines(a, ks);
    BbrMachine.RunSound(Choices(a, ks));
  }

  /** Gain cycle fairness for the ns-2 agent. */
  lemma CycleIsFair(a: Agent, ks: seq<Ack>, n: nat)
    requires Fresh(a) && Run(a, ks).phase.mode == ProbeBw
    requires n <= |BbrMachine.Run(Choices(a, ks)).paced|
    ensures var t, paced := Run(a, ks), BbrMachine.Run(Choices(a, ks)).paced;
            && |paced| > 0 && t.phase.pacingGain == paced[|paced| - 1] as real / 4.0
            && 4 * n <= BbrMachine.Sum(paced[..n]) <= 4 * n + 1
  {
    RunRefines(a, ks);
    var cs := Choices(a, ks);
    hide Run, Fresh, Choices;
    BbrMachine.CycleIsFair(cs, n);
    BbrMachine.NewestGain(cs);
  }

  /** A full pipe is never undone. */
  lemma {:induction false} FullForever(a: Agent, ks: seq<Ack>, n: nat)
    requires n <= |ks| && Run(a, ks[..n]).pipe.full
    ensures Run(a, ks).pipe == Run(a, ks[..n]).pipe
    decreases |ks|
  {
    if n == |ks| {
      assert ks[..n] == ks;
    } else {
      var front := ks[..|ks| - 1];
      assert front[..n] == ks[..n];
      FullForever(a, front, n);
      hide Inflight, UpdateBtlBw;
    }
  }

  // ----- STARTUP ends -----

  function Threshold(x: real): real {
    x * GROWTH_TARGET
  }

  /** Every ACK evaluates the pipe, with the estimate it has just updated. */
  function Trace(a: Agent, ks: seq<Ack>): (ps: seq<FullPipe.Probe>)
    ensures |ps| == |ks|
  {
    if ks == [] then []
    else
      var s, k := Run(a, ks[..|ks| - 1]), ks[|ks| - 1];
      Trace(a, ks[..|ks| - 1]) + [FullPipe.Evaluate(UpdateBtlBw(s.filter, k.bw).bw)]
  }

  function DetectorOf(p: Pipe): FullPipe.Detector {
    FullPipe.Detector(p.lastBw, p.stalls)
  }

  /** The pipe is full exactly when the detector has seen enough stalled ACKs. */
  ghost predicate Agrees(p: Pipe) {
    p.full <==> FullPipe.Full(STARTUP_ROUNDS, DetectorOf(p))
  }

  lemma StepDetects(a: Agent, k: Ack)
    requires Agrees(a.pipe)
    ensures Agrees(Step(a, k).pipe)
    ensures DetectorOf(Step(a, k).pipe) ==
            FullPipe.Step(Threshold, STARTUP_ROUNDS, DetectorOf(a.pipe),
                          FullPipe.Evaluate(UpdateBtlBw(a.filter, k.bw).bw))
  {}

  lemma {:induction false} RunDetects(a: Agent, ks: seq<Ack>)
    requires Fresh(a)
    ensures Agrees(Run(a, ks).pipe)
    ensures DetectorOf(Run(a, ks).pipe) ==
            FullPipe.Run(Threshold, STARTUP_ROUNDS, FullPipe.Detector(0.0, 0), Trace(a, ks))
    ensures FullPipe.Evaluations(Trace(a, ks)) == |ks| && FullPipe.Resets(Trace(a, ks)) == 0
  {
    if ks != [] {
      RunDetects(a, ks[..|ks| - 1]);
      StepDetects(Run(a, ks[..|ks| - 1]), ks[|ks| - 1]);
      assert Trace(a, ks)[..|ks| - 1] == Trace(a, ks[..|ks| - 1]);
    }
  }

  /** The estimates stay in the band of the delivery rates. */
  lemma {:induction false} BandIsKept(a: Agent, ks: seq<Ack>, b: real, top: real)
    requires Fresh(a) && 0.0 < b && forall i :: 0 <= i < |ks| ==> b <= ks[i].bw <= top
    ensures FullPipe.InBand(Trace(a, ks), b, top)
    ensures ks == [] || b <= Run(a, ks).filter.bw <= top
  {
    if ks != [] {
      var front := ks[..|ks| - 1];
      BandIsKept(a, front, b, top);
      Ns2Filter.OnlyRatesMatter(Run(a, front), ks[|ks| - 1]);
      assert front == [] ==> Run(a, front).filter.bw == -1.0;
    }
  }

  /** STARTUP terminates with a geometric bound, in ACKs, for this agent evaluates the
      pipe at every one: with rates in [b, top] and a top below b * 1.25^g, the pipe is
      full after 3 * g + 1 ACKs. */
  lemma StartupEnds(a: Agent, ks: seq<Ack>, b: real, top: real, g: nat)
    requires Fresh(a) && 0.0 < b && top < FullPipe.Rung(Threshold, b, g)
    requires forall i :: 0 <= i < |ks| ==> b <= ks[i].bw <= top
    requires |ks| >= 3 * g + 1
    ensures Run(a, ks).pipe.full
  {
    BandIsKept(a, ks, b, top);
    RunDetects(a, ks);
    FullPipe.FillsWithin(Threshold, STARTUP_ROUNDS, b, top, g, Trace(a, ks));
  }

  /** n ACKs fill the pipe in every run whose rates stay in [b, top]. */
  ghost predicate EndsWithin(a: Agent, b: real, top: real, n: nat) {
    forall ks :: RatesWithin(ks, b, top) && |ks| >= n ==> Run(a, ks).pipe.full
  }

  predicate RatesWithin(ks: seq<Ack>, b: real, top: real) {
    forall i :: 0 <= i < |ks| ==> b <= ks[i].bw <= top
  }

  lemma BandEnds(a: Agent, b: real, top: real) returns (n: nat)
    requires Fresh(a) && 0.0 < b <= top
    ensures EndsWithin(a, b, top, n)
  {
    var g := FullPipe.StepsExist(Threshold, b, top);
    n := 3 * g + 1;
    hide Run, Fresh, FullPipe.Rung;
    forall ks | RatesWithin(ks, b, top) && |ks| >= n
      ensures Run(a, ks).pipe.full
    {
      StartupEnds(a, ks, b, top, g);
    }
  }

  function ZeroRates(n: nat): (ks: seq<Ack>)
    ensures |ks| == n && forall i :: 0 <= i < n ==> ks[i].bw == 0.0
  {
    if n == 0 then [] else ZeroRates(n - 1) + [Ack(0.0, 0.0, 0, 0, 0, 0)]
  }

  /** A rate of 0 always looks like growth. */
  lemma {:induction false} ZeroNeverFills(a: Agent, n: nat)
    requires Fresh(a)
    ensures var t := Run(a, ZeroRates(n));
            t.pipe == Pipe(false, 0, 0.0) && t.filter.bw == if n == 0 then -1.0 else 0.0
  {
    if n > 0 {
      ZeroNeverFills(a, n - 1);
      var ks := ZeroRates(n);
      assert ks[..n - 1] == ZeroRates(n - 1);
      Ns2Filter.OnlyRatesMatter(Run(a, ZeroRates(n - 1)), ks[n - 1]);
      OnlyTheCheckMatters(Run(a, ZeroRates(n - 1)), ks[n - 1]);
      hide Step;
    }
  }

  /** STARTUP ends for sure, with rates in [b, top], exactly if they are not 0. */
  lemma StartupEndsIff(a: Agent, b: real, top: real)
    requires Fresh(a) && 0.0 <= b <= top
    ensures (exists n :: EndsWithin(a, b, top, n)) <==> 0.0 < b
  {
    if 0.0 < b {
      var n := BandEnds(a, b, top);
    } else {
      forall n ensures !EndsWithin(a, b, top, n) {
        ZeroNeverFills(a, n);
        hide Run, Fresh;
      }
    }
    hide EndsWithin;
  }

  /** A constant rate ends STARTUP at the fourth ACK, and not before. */
  lemma FourAcksFillIff(a: Agent, ks: seq<Ack>, bw: real)
    requires Fresh(a) && 0.0 < bw && forall i :: 0 <= i < |ks| ==> ks[i].bw == bw
    ensures Run(a, ks).pipe.full <==> |ks| >= 4
  {
    assert FullPipe.Rung(Threshold, bw, 1) == Threshold(FullPipe.Rung(Threshold, bw, 0));
    if |ks| >= 4 {
      StartupEnds(a, ks, bw, bw, 1);
    } else {
      ThreeAcksStall(a, ks, bw);
    }
  }

  /** The first ACK sets the baseline; each of the next two is one stall. */
  lemma {:induction false} ThreeAcksStall(a: Agent, ks: seq<Ack>, bw: real)
    requires Fresh(a) && 0.0 < bw && |ks| <= 3 && forall i :: 0 <= i < |ks| ==> ks[i].bw == bw
    ensures Run(a, ks).pipe == if ks == [] then Pipe(false, 0, 0.0) else Pipe(false, |ks| - 1, bw)
    ensures ks != [] ==> Run(a, ks).filter.bw == bw
  {
    if ks != [] {
      ThreeAcksStall(a, ks[..|ks| - 1], bw);
      Ns2Filter.OnlyRatesMatter(Run(a, ks[..|ks| - 1]), ks[|ks| - 1]);
      OnlyTheCheckMatters(Run(a, ks[..|ks| - 1]), ks[|ks| - 1]);
      assert ks[..|ks| - 1] == [] ==> Run(a, ks[..|ks| - 1]).filter.bw == -1.0;
      hide Step;
    }
  }

  lemma OnlyTheCheckMatters(a: Agent, k: Ack)
    ensures Step(a, k).pipe == CheckFullPipe(a.(filter := UpdateBtlBw(a.filter, k.bw))).pipe
  {
    hide Inflight, UpdateBtlBw;
  }

  // ----- An unknown round trip time -----

  predicate Early(a: Agent, ks: seq<Ack>) {
    forall i :: 0 <= i < |ks| ==> ks[i].now <= a.rtt.stamp + RTPROP_FILTER_LEN
  }

  /** Started without a smoothed round trip time, the agent accepts no sample in its
      first ten seconds: none is as small as -1. */
  lemma {:induction false} RTpropStaysUnknown(a: Agent, ks: seq<Ack>)
    requires Fresh(a) && a.rtt.rtProp == -1.0 && Early(a, ks)
    ensures Run(a, ks).rtt.rtProp == -1.0 && Run(a, ks).rtt.stamp == a.rtt.stamp
    ensures Run(a, ks).phase.mode != ProbeRtt
  {
    if ks != [] {
      RTpropStaysUnknown(a, ks[..|ks| - 1]);
      UnknownStep(Run(a, ks[..|ks| - 1]), ks[|ks| - 1]);
    }
  }

  lemma UnknownStep(a: Agent, k: Ack)
    requires a.rtt.rtProp == -1.0 && a.phase.mode != ProbeRtt && k.now <= a.rtt.stamp + RTPROP_FILTER_LEN
    ensures Step(a, k).rtt.rtProp == -1.0 && Step(a, k).rtt.stamp == a.rtt.stamp
    ensures Step(a, k).phase.mode != ProbeRtt
  {}

  /** The first later ACK, and so every run that holds one, has a sample accepted. */
  lemma {:induction false} RTpropUnknownIff(a: Agent, ks: seq<Ack>)
    requires Fresh(a) && a.rtt.rtProp == -1.0 && forall i :: 0 <= i < |ks| ==> ks[i].rtt >= 0
    ensures Run(a, ks).rtt.rtProp == -1.0 <==> Early(a, ks)
    ensures !Early(a, ks) ==> Run(a, ks).rtt.rtProp >= 0.0
  {
    if ks != [] {
      var front, k := ks[..|ks| - 1], ks[|ks| - 1];
      RTpropUnknownIff(a, front);
      if Early(a, front) {
        RTpropStaysUnknown(a, front);
      }
      assert Early(a, ks) <==> Early(a, front) && k.now <= a.rtt.stamp + RTPROP_FILTER_LEN by {
        assert forall i :: 0 <= i < |ks| ==> (i < |front| && ks[i] == front[i]) || i == |front|;
      }
      Ns2Filter.StepFiltersRtt(Run(a, front), k);
      hide Step, Early;
    }
  }

  /** So in PROBE_BW each of these ACKs moves the gain cycle on. */
  lemma CycleRaces(a: Agent, ks: seq<Ack>, k: Ack)
    requires Fresh(a) && a.rtt.rtProp == -1.0 && Early(a, ks + [k])
    requires Run(a, ks).phase.mode == ProbeBw && k.now >= Run(a, ks).phase.stamp
    ensures var t := Run(a, ks); Step(t, k).phase.index == (t.phase.index + 1) % CYCLE_LEN
  {
    forall i | 0 <= i < |ks| ensures ks[i].now <= a.rtt.stamp + RTPROP_FILTER_LEN {
      assert (ks + [k])[i] == ks[i];
    }
    assert (ks + [k])[|ks|] == k;
    RTpropStaysUnknown(a, ks);
    UnknownStep(Run(a, ks), k);
    hide Inflight, UpdateBtlBw, Run;
  }
}
