/** Length and spacing of PROBE_RTT in the QUIC sender, over runs with a monotone clock. */
module QuicProbeRtt {
  import opened BbrModes
  import opened QuicBbr
  import QuicModes
  import QuicPath

  datatype Moment = Never | At(time: int)

  /** History. drained: when the flight of the current stay first was small; rounds: the
      round starts seen since then; exit: the end of the last stay; clock: the newest time;
      idle: a packet was sent from idle since the last event. */
  datatype Visit = Visit(drained: Moment, rounds: nat, exit: Moment, clock: int, idle: bool)

  const START: Visit := Visit(Never, 0, Never, 0, false)

  predicate Monotone(v: Visit, e: Event) {
    e.Congestion? ==> e.feedback.now >= v.clock
  }

  predicate Small(s: Sender, f: Feedback) {
    f.inFlight < 4 * s.cfg.mss + s.cfg.maxPacketSize
  }

  function Look(v: Visit, s: Sender, f: Feedback): Visit {
    if Small(s, f) then v.(drained := At(f.now), rounds := 0) else v
  }

  /** The history after an event that leads from s to s'. */
  function Follow(s: Sender, e: Event, s': Sender, v: Visit): Visit {
    match e
    case Send(flight, _, _, _, appLimited) => if flight == 0 && appLimited then v.(idle := true) else v
    case Congestion(f) =>
      var v1 := v.(clock := f.now, idle := false);
      if s.phase.mode != ProbeRtt then
        if s'.phase.mode == ProbeRtt then Look(v1.(drained := Never, rounds := 0), s, f) else v1
      else
        var v2 := if v1.drained.Never? then Look(v1, s, f)
                  else if IsRoundStart(s, f) then v1.(rounds := v1.rounds + 1)
                  else v1;
        if s'.phase.mode == ProbeRtt then v2 else v2.(exit := At(f.now))
  }

  function Story(s: Sender, es: seq<Event>): Visit {
    if es == [] then START
    else
      var front, e := es[..|es| - 1], es[|es| - 1];
      Follow(Run(s, front), e, Run(s, es), Story(s, front))
  }

  predicate MonotoneRun(s: Sender, es: seq<Event>) {
    es == [] || (MonotoneRun(s, es[..|es| - 1]) && Monotone(Story(s, es[..|es| - 1]), es[|es| - 1]))
  }

  /** What the fields of the sender say about the history. */
  ghost predicate Tells(s: Sender, v: Visit) {
    && 0 <= v.clock && s.path.minRttStamp <= v.clock && s.probe.exitingQuiescence == v.idle
    && (v.exit.At? ==> v.exit.time <= s.path.minRttStamp)
    && (s.phase.mode == ProbeRtt ==> Pending(s, v))
  }

  ghost predicate Pending(s: Sender, v: Visit) {
    && (s.probe.exitAt != 0 <==> v.drained.At?)
    && (v.drained.At? ==>
          && 0 <= v.drained.time && s.probe.exitAt == v.drained.time + PROBE_RTT_TIME
          && (s.probe.roundPassed <==> v.rounds > 0))
  }

  /** Up to PROBE_RTT an event leaves the probe alone; only the stamp of the min RTT may
      move to now, and only there can it have been older than ten seconds. */
  lemma UpToProbe(s: Sender, f: Feedback)
    ensures var s4 := UpdateModel(s, f);
            && s4.probe == s.probe && s4.cfg == s.cfg
            && (s4.phase.mode == ProbeRtt <==> s.phase.mode == ProbeRtt)
            && (s4.path.minRttStamp == s.path.minRttStamp || s4.path.minRttStamp == f.now)
            && (ExpiresMinRtt(s, f) <==> Expires(s, f))
  {
    if f.acked != [] {
      var g := Gathered(s.path.maxBw, s.path.lastAppLimited, -1);
      QuicPath.LoopFindsSmallest(g, f.acked);
    }
    if f.acked != [] {
      QuicModes.AbsorbKeepsPhase(s, f);
      assert AbsorbAcks(s, f).path.minRttStamp == s.path.minRttStamp || AbsorbAcks(s, f).path.minRttStamp == f.now;
    }
    hide AbsorbAcks, AdvancesGainCycle, QueueDrained, GetTargetCongestionWindow, Samples, EntryOffset;
  }

  /** An acknowledgement brings a sample when the min RTT is known and more than ten seconds
      old. */
  ghost predicate Expires(s: Sender, f: Feedback) {
    && s.path.minRtt != 0 && f.now > s.path.minRttStamp + 10_000_000
    && exists p :: p in f.acked && p.rtt != 0
  }

  /** The handling of PROBE_RTT, from a state outside it. */
  lemma EntryKeepsTold(s: Sender, f: Feedback, start: bool, expired: bool, v: Visit)
    requires s.phase.mode != ProbeRtt && s.path.minRttStamp <= f.now && 0 <= f.now
    requires v.exit.At? ==> v.exit.time <= s.path.minRttStamp
    ensures var s' := MaybeEnterOrExitProbeRtt(s, f, start, expired);
            var v1 := v.(clock := f.now, idle := false);
            && Tells(s', if s'.phase.mode == ProbeRtt then Look(v1.(drained := Never, rounds := 0), s, f) else v1)
            && (s'.phase.mode == ProbeRtt <==> expired && !s.probe.exitingQuiescence)
  {}

  /** The handling of PROBE_RTT during a stay: it ends only after its time and a round. */
  lemma StayKeepsTold(s: Sender, f: Feedback, start: bool, expired: bool, v: Visit)
    requires s.phase.mode == ProbeRtt && s.path.minRttStamp <= f.now && 0 <= f.now
    requires v.exit.At? ==> v.exit.time <= s.path.minRttStamp
    requires Pending(s, v)
    ensures var s' := MaybeEnterOrExitProbeRtt(s, f, start, expired);
            var v1 := v.(clock := f.now, idle := false);
            var v2 := if v1.drained.Never? then Look(v1, s, f) else if start then v1.(rounds := v1.rounds + 1) else v1;
            && Tells(s', if s'.phase.mode == ProbeRtt then v2 else v2.(exit := At(f.now)))
            && (s'.phase.mode != ProbeRtt <==> v.drained.At? && v2.rounds > 0 && f.now >= v.drained.time + 200_000)
  {}

  /** The windows play no part in it. */
  lemma WindowsAreFree(s: Sender, f: Feedback, v: Visit)
    requires Tells(s, v)
    ensures var s' := CalculateRecoveryWindow(CalculateCongestionWindow(s, AckedBytes(f.acked), f.extra),
                                              AckedBytes(f.acked), LostBytes(f.lost), f.inFlight);
            Tells(s', v) && s'.phase == s.phase
  {}

  /** PROBE_RTT ends exactly 200 ms or more after its drained moment, once a round has begun
      since; and it begins exactly with an event at which the min RTT expires, unless a
      packet was sent from idle before. */
  ghost predicate StaysAsTold(s: Sender, e: Event, s': Sender, v: Visit, v': Visit) {
    && (s.phase.mode == ProbeRtt ==>
          && (s'.phase.mode != ProbeRtt <==>
                e.Congestion? && v.drained.At? && v'.rounds > 0 && e.feedback.now >= v.drained.time + 200_000)
          && (s'.phase.mode != ProbeRtt ==> v'.drained == v.drained))
    && (s.phase.mode != ProbeRtt ==>
          && (s'.phase.mode == ProbeRtt <==> e.Congestion? && Expires(s, e.feedback) && !v.idle)
          && (v.exit.At? ==> v.exit.time <= s.path.minRttStamp))
  }

  lemma StepTells(s: Sender, e: Event, v: Visit)
    requires Tells(s, v) && Monotone(v, e)
    ensures var s' := Step(s, e);
            var v' := Follow(s, e, s', v);
            && Tells(s', v')
            && StaysAsTold(s, e, s', v, v')
  {
    hide UpdateModel, MaybeEnterOrExitProbeRtt, ExpiresMinRtt, IsRoundStart, Expires,
         CalculateRecoveryWindow, CalculateCongestionWindow;
    match e
    case Send(_, _, _, _, _) =>
    case Congestion(f) =>
      UpToProbe(s, f);
      var s4, start, expired := UpdateModel(s, f), IsRoundStart(s, f), ExpiresMinRtt(s, f);
      var s5 := MaybeEnterOrExitProbeRtt(s4, f, start, expired);
      if s.phase.mode == ProbeRtt {
        StayKeepsTold(s4, f, start, expired, v);
      } else {
        EntryKeepsTold(s4, f, start, expired, v);
      }
      var v' := Follow(s, e, s5, v);
      assert Tells(s5, v');
      WindowsAreFree(s5, f, v');
  }

  lemma {:induction false} RunTells(cfg: Config, es: seq<Event>)
    requires MonotoneRun(Init(cfg), es)
    ensures Tells(Run(Init(cfg), es), Story(Init(cfg), es))
  {
    if es != [] {
      var front := es[..|es| - 1];
      RunTells(cfg, front);
      StepTells(Run(Init(cfg), front), es[|es| - 1], Story(Init(cfg), front));
    }
  }

  /** So in every run. */
  lemma StaysIff(cfg: Config, es: seq<Event>, e: Event)
    requires MonotoneRun(Init(cfg), es + [e])
    ensures StaysAsTold(Run(Init(cfg), es), e, Run(Init(cfg), es + [e]), Story(Init(cfg), es),
                        Story(Init(cfg), es + [e]))
  {
    assert (es + [e])[..|es|] == es;
    RunTells(cfg, es);
    StepTells(Run(Init(cfg), es), e, Story(Init(cfg), es));
    hide Step, Follow, StaysAsTold, Tells;
  }

  /** PROBE_RTT ends only 200 ms after its flight first was small, and only after a
      round start since then. */
  lemma StayIsLongEnough(cfg: Config, es: seq<Event>, e: Event)
    requires MonotoneRun(Init(cfg), es + [e])
    requires Run(Init(cfg), es).phase.mode == ProbeRtt && Step(Run(Init(cfg), es), e).phase.mode != ProbeRtt
    ensures var t := Run(Init(cfg), es);
            var v := Follow(t, e, Step(t, e), Story(Init(cfg), es));
            e.Congestion? && v.drained.At? && v.rounds > 0 && e.feedback.now >= v.drained.time + 200_000
  {
    assert (es + [e])[..|es|] == es;
    RunTells(cfg, es);
    StepTells(Run(Init(cfg), es), e, Story(Init(cfg), es));
  }

  /** The next PROBE_RTT begins more than ten seconds after the last one ended. */
  lemma StaysAreSpaced(cfg: Config, es: seq<Event>, e: Event)
    requires MonotoneRun(Init(cfg), es + [e])
    requires Run(Init(cfg), es).phase.mode != ProbeRtt && Step(Run(Init(cfg), es), e).phase.mode == ProbeRtt
    ensures e.Congestion?
    ensures Story(Init(cfg), es).exit.At? ==> e.feedback.now > Story(Init(cfg), es).exit.time + 10_000_000
  {
    assert (es + [e])[..|es|] == es;
    RunTells(cfg, es);
    StepTells(Run(Init(cfg), es), e, Story(Init(cfg), es));
  }
}
