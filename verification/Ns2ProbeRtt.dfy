/** Length and spacing of PROBE_RTT in the ns-2 agent, over runs with a monotone clock. */
module Ns2ProbeRtt {
  import opened BbrModes
  import opened Ns2Bbr

  datatype Moment = Never | At(time: real)

  /** History. drained: when at most four packets were first in flight in the current
      stay; exit: the end of the last stay; clock: the newest time. */
  datatype Visit = Visit(drained: Moment, exit: Moment, clock: real)

  function Start(a: Agent): Visit {
    Visit(Never, Never, a.rtt.stamp)
  }

  function Look(v: Visit, k: Ack): Visit {
    if k.flight <= 4 then v.(drained := At(k.now)) else v
  }

  /** The history after an ACK that leads from a to a'. */
  function Follow(a: Agent, k: Ack, a': Agent, v: Visit): Visit {
    var v1 := v.(clock := k.now);
    if a.phase.mode != ProbeRtt then
      if a'.phase.mode == ProbeRtt then Look(v1.(drained := Never), k) else v1
    else
      var v2 := if v1.drained.Never? then Look(v1, k) else v1;
      if a'.phase.mode == ProbeRtt then v2 else v2.(exit := At(k.now))
  }

  function Story(a: Agent, ks: seq<Ack>): Visit {
    if ks == [] then Start(a)
    else
      var front, k := ks[..|ks| - 1], ks[|ks| - 1];
      Follow(Run(a, front), k, Run(a, ks), Story(a, front))
  }

  predicate MonotoneRun(a: Agent, ks: seq<Ack>) {
    ks == [] || (MonotoneRun(a, ks[..|ks| - 1]) && ks[|ks| - 1].now >= Story(a, ks[..|ks| - 1]).clock)
  }

  /** What the fields of the agent say about the history. */
  ghost predicate Tells(a: Agent, v: Visit) {
    && 0.0 <= v.clock && a.rtt.stamp <= v.clock
    && (v.exit.At? ==> v.exit.time <= a.rtt.stamp)
    && (a.phase.mode == ProbeRtt ==>
          && (a.rtt.doneStamp != 0.0 <==> v.drained.At?)
          && (v.drained.At? ==> 0.0 <= v.drained.time && a.rtt.doneStamp == v.drained.time + 0.2))
  }

  lemma StepTells(a: Agent, k: Ack, v: Visit)
    requires Tells(a, v) && k.now >= v.clock
    ensures var a' := Step(a, k);
            var v' := Follow(a, k, a', v);
            && Tells(a', v')
            && StaysAsTold(a, k, a', v, v')
  {}

  /** PROBE_RTT ends exactly more than 200 ms after its drained moment, and begins exactly
      more than ten seconds after RTprop was last confirmed. */
  predicate StaysAsTold(a: Agent, k: Ack, a': Agent, v: Visit, v': Visit) {
    && (a.phase.mode == ProbeRtt ==>
          && (a'.phase.mode != ProbeRtt <==> v.drained.At? && k.now > v.drained.time + 0.2)
          && (a'.phase.mode != ProbeRtt ==> v'.drained == v.drained))
    && (a.phase.mode != ProbeRtt ==>
          && (a'.phase.mode == ProbeRtt <==> k.now > a.rtt.stamp + 10.0)
          && (v.exit.At? ==> v.exit.time <= a.rtt.stamp))
  }

  /** So in every run. */
  lemma StaysIff(a: Agent, ks: seq<Ack>, k: Ack)
    requires Fresh(a) && MonotoneRun(a, ks + [k])
    ensures StaysAsTold(Run(a, ks), k, Run(a, ks + [k]), Story(a, ks), Story(a, ks + [k]))
  {
    assert (ks + [k])[..|ks|] == ks;
    RunTells(a, ks);
    StepTells(Run(a, ks), k, Story(a, ks));
    hide Step, Follow, StaysAsTold, Tells;
  }

  lemma {:induction false} RunTells(a: Agent, ks: seq<Ack>)
    requires Fresh(a) && MonotoneRun(a, ks)
    ensures Tells(Run(a, ks), Story(a, ks))
  {
    if ks != [] {
      var front := ks[..|ks| - 1];
      RunTells(a, front);
      StepTells(Run(a, front), ks[|ks| - 1], Story(a, front));
    }
  }

  /** PROBE_RTT ends only more than 200 ms after at most four packets were first in flight. */
  lemma StayIsLongEnough(a: Agent, ks: seq<Ack>, k: Ack)
    requires Fresh(a) && MonotoneRun(a, ks + [k])
    requires Run(a, ks).phase.mode == ProbeRtt && Step(Run(a, ks), k).phase.mode != ProbeRtt
    ensures var t := Run(a, ks);
            var v := Follow(t, k, Step(t, k), Story(a, ks));
            v.drained.At? && k.now > v.drained.time + 0.2
  {
    assert (ks + [k])[..|ks|] == ks;
    RunTells(a, ks);
    StepTells(Run(a, ks), k, Story(a, ks));
  }

  /** The next PROBE_RTT begins more than ten seconds after the last one ended. */
  lemma StaysAreSpaced(a: Agent, ks: seq<Ack>, k: Ack)
    requires Fresh(a) && MonotoneRun(a, ks + [k])
    requires Run(a, ks).phase.mode != ProbeRtt && Step(Run(a, ks), k).phase.mode == ProbeRtt
    ensures Story(a, ks).exit.At? ==> k.now > Story(a, ks).exit.time + 10.0
  {
    assert (ks + [k])[..|ks|] == ks;
    RunTells(a, ks);
    StepTells(Run(a, ks), k, Story(a, ks));
  }
}
