/** What the QUIC sender knows of its path, and how its window follows. */
module QuicPath {
  import opened QuicBbr
  import QuicModes
  import MinFilter

  // ----- The minimum round trip time -----

  /** m is the smallest valid sample of the packets, -1 if there is none. */
  ghost predicate SmallestSample(ps: seq<AckedPacket>, m: int) {
    if m < 0 then forall p :: p in ps ==> p.rtt == 0
    else m > 0 && (exists p :: p in ps && p.rtt == m) && forall p :: p in ps && p.rtt != 0 ==> m <= p.rtt
  }

  /** The loop over the acknowledged packets finds their smallest sample. */
  lemma {:induction false} LoopFindsSmallest(g: Gathered, ps: seq<AckedPacket>)
    requires g.minSample == -1
    ensures SmallestSample(ps, GatherAll(g, ps).minSample) && GatherAll(g, ps).minSample >= -1
  {
    if ps != [] {
      var front, last := ps[..|ps| - 1], ps[|ps| - 1];
      LoopFindsSmallest(g, front);
      assert ps == front + [last];
      var before, m := GatherAll(g, front).minSample, GatherAll(g, ps).minSample;
      if m >= 0 {
        if m == before {
          var p :| p in front && p.rtt == m;
          assert p in ps;
        } else {
          assert last in ps && last.rtt == m;
        }
      }
    }
  }

  /** Packet i of the loop is the last whose sample the maximum filter takes: one that the
      application did not limit, or that exceeds the maximum so far. */
  ghost predicate LastTaken(g: Gathered, ps: seq<AckedPacket>, i: nat) {
    && i < |ps|
    && (!ps[i].appLimited || ps[i].bw > GatherAll(g, ps[..i]).maxBw)
    && forall j :: i < j < |ps| ==> ps[j].appLimited && ps[j].bw <= ps[i].filtered
  }

  /** The loop leaves the maximum after that packet, or the one before it if none is taken;
      and whether the last packet was application-limited. */
  lemma {:induction false} LoopFindsMaximum(g: Gathered, ps: seq<AckedPacket>)
    ensures var t := GatherAll(g, ps);
            && ((t.maxBw == g.maxBw && forall p :: p in ps ==> p.appLimited && p.bw <= g.maxBw)
                || (exists i: nat :: LastTaken(g, ps, i) && t.maxBw == ps[i].filtered))
            && t.appLimited == if ps == [] then g.appLimited else ps[|ps| - 1].appLimited
  {
    if ps != [] {
      var front, last := ps[..|ps| - 1], ps[|ps| - 1];
      LoopFindsMaximum(g, front);
      var before := GatherAll(g, front).maxBw;
      if !last.appLimited || last.bw > before {
        assert LastTaken(g, ps, |ps| - 1);
      } else if i: nat :| LastTaken(g, front, i) && before == front[i].filtered {
        assert ps[..i] == front[..i];
        assert LastTaken(g, ps, i);
      } else {
        assert forall p :: p in ps ==> p in front || p == last;
      }
    }
  }

  /** min_rtt_ as a value for the filter: an unknown one is larger than any sample. */
  function Known(minRtt: int, none: real): real {
    if minRtt == 0 then none else minRtt as real
  }

  function RttInput(s: Sender, e: Event): MinFilter.Input {
    if e.Congestion? && e.feedback.acked != [] && Samples(s, e.feedback).minSample >= 0 then
      MinFilter.Sample(Samples(s, e.feedback).minSample as real, MinRttExpired(s, e.feedback))
    else MinFilter.Nothing
  }

  function RttInputs(s: Sender, es: seq<Event>): (ins: seq<MinFilter.Input>)
    ensures |ins| == |es|
  {
    if es == [] then [] else RttInputs(s, es[..|es| - 1]) + [RttInput(Run(s, es[..|es| - 1]), es[|es| - 1])]
  }

  /** Only the acknowledgements change the path, but for the stamp that PROBE_RTT leaves. */
  lemma PathEffect(s: Sender, f: Feedback)
    ensures OnCongestionEvent(s, f).path.(minRttStamp := 0) ==
            (if f.acked != [] then UpdateBandwidthAndMinRtt(s, f) else s.path).(minRttStamp := 0)
  {
    var s1 := if f.acked != [] then AbsorbAcks(s, f) else s;
    assert s1.path == if f.acked != [] then UpdateBandwidthAndMinRtt(s, f) else s.path;
    hide AbsorbAcks, UpdateBandwidthAndMinRtt, AdvancesGainCycle, QueueDrained, GetTargetCongestionWindow, EntryOffset;
    var s4 := UpdateModel(s, f);
    assert s4.path == s1.path;
    var s5 := MaybeEnterOrExitProbeRtt(s4, f, IsRoundStart(s, f), ExpiresMinRtt(s, f));
    QuicModes.WindowsKeepPhase(s5, AckedBytes(f.acked), LostBytes(f.lost), f.extra, f.inFlight);
  }

  lemma StepFiltersRtt(s: Sender, e: Event, none: real)
    requires e.Congestion? ==> forall p :: p in e.feedback.acked ==> p.rtt as real < none
    requires s.path.minRtt >= 0 && s.path.minRtt as real < none
    ensures var m := Step(s, e).path.minRtt;
            0 <= m && m as real < none && Known(m, none) == MinFilter.Next(Known(s.path.minRtt, none), RttInput(s, e))
  {
    match e
    case Send(_, _, _, _, _) =>
    case Congestion(f) =>
      PathEffect(s, f);
      LoopFindsSmallest(Gathered(s.path.maxBw, s.path.lastAppLimited, -1), f.acked);
      hide OnCongestionEvent, GatherAll;
  }

  ghost predicate Below(es: seq<Event>, none: real) {
    forall e :: e in es && e.Congestion? ==> forall p :: p in e.feedback.acked ==> p.rtt as real < none
  }

  /** In every run min_rtt_ is an expiring minimum of the samples. */
  lemma {:induction false} MinRttIsMinimum(cfg: Config, es: seq<Event>, none: real)
    requires Below(es, none) && 0.0 < none
    ensures var m := Run(Init(cfg), es).path.minRtt;
            && 0 <= m && m as real < none
            && Known(m, none) == MinFilter.Held(none, RttInputs(Init(cfg), es))
  {
    if es != [] {
      var s, front := Init(cfg), es[..|es| - 1];
      MinRttIsMinimum(cfg, front, none);
      assert es[|es| - 1] in es;
      StepFiltersRtt(Run(s, front), es[|es| - 1], none);
      var ins := RttInputs(s, es);
      assert ins[..|ins| - 1] == RttInputs(s, front);
    }
  }

  // ----- The congestion window -----

  function TotalAcked(es: seq<Event>): nat {
    if es == [] then 0
    else TotalAcked(es[..|es| - 1]) + AckedBy(es[|es| - 1])
  }

  /** Growth is paid for with acknowledged bytes, the limits hold, and nothing is taken
      from the window before the pipe is full. */
  predicate Paid(cfg: Config, before: nat, after: nat, acked: nat, full: bool) {
    && after <= Max(MinimumCwnd(cfg), before + acked)
    && after <= Max(before, cfg.maxCwnd)
    && Min(before, Min(MinimumCwnd(cfg), cfg.maxCwnd)) <= after
    && (!full ==> Min(before, cfg.maxCwnd) <= after)
  }

  lemma CalculationIsPaid(s: Sender, acked: nat, extra: nat)
    ensures Paid(s.cfg, s.cwnd, CalculateCongestionWindow(s, acked, extra).cwnd, acked, s.pipe.full)
  {}

  function BeforeWindows(s: Sender, f: Feedback): Sender {
    MaybeEnterOrExitProbeRtt(UpdateModel(s, f), f, IsRoundStart(s, f), ExpiresMinRtt(s, f))
  }

  lemma ModelKeepsWindow(s: Sender, f: Feedback)
    ensures BeforeWindows(s, f).cwnd == s.cwnd && BeforeWindows(s, f).cfg == s.cfg
  {
    hide UpdateBandwidthAndMinRtt, GetTargetCongestionWindow, AdvancesGainCycle, QueueDrained, EntryOffset;
  }

  /** What one congestion event does to the window. */
  lemma WindowIsPaid(s: Sender, f: Feedback)
    ensures var s' := OnCongestionEvent(s, f);
            s'.cfg == s.cfg && Paid(s.cfg, s.cwnd, s'.cwnd, AckedBytes(f.acked), s'.pipe.full)
  {
    var s5 := BeforeWindows(s, f);
    ModelKeepsWindow(s, f);
    hide Paid, UpdateModel, MaybeEnterOrExitProbeRtt, CalculateCongestionWindow, IsRoundStart, ExpiresMinRtt;
    CalculationIsPaid(s5, AckedBytes(f.acked), f.extra);
    QuicModes.WindowsKeepPhase(s5, AckedBytes(f.acked), LostBytes(f.lost), f.extra, f.inFlight);
  }

  /** Within the limits that the start and the configuration set, and below the initial
      window plus what was acknowledged. */
  predicate Afforded(s: Sender, cfg: Config, total: nat) {
    && s.cfg == cfg
    && Within(cfg, s.cwnd, total)
  }

  predicate Within(cfg: Config, cwnd: nat, total: nat) {
    && Min(cfg.initialCwnd, Min(MinimumCwnd(cfg), cfg.maxCwnd)) <= cwnd <= Max(cfg.initialCwnd, cfg.maxCwnd)
    && cwnd <= Max(MinimumCwnd(cfg), cfg.initialCwnd) + total
  }

  lemma PaidInSum(cfg: Config, before: nat, after: nat, acked: nat, total: nat, full: bool)
    requires Within(cfg, before, total) && Paid(cfg, before, after, acked, full)
    ensures Within(cfg, after, total + acked)
  {
    hide MinimumCwnd;
  }

  function AckedBy(e: Event): nat {
    if e.Congestion? then AckedBytes(e.feedback.acked) else 0
  }

  lemma StepAffords(s: Sender, e: Event, cfg: Config, total: nat)
    requires Afforded(s, cfg, total)
    ensures Afforded(Step(s, e), cfg, total + AckedBy(e))
  {
    hide OnCongestionEvent, MinimumCwnd, Paid, AckedBytes, Within;
    match e
    case Send(_, _, _, _, _) =>
    case Congestion(f) =>
      WindowIsPaid(s, f);
      var s' := OnCongestionEvent(s, f);
      PaidInSum(cfg, s.cwnd, s'.cwnd, AckedBytes(f.acked), total, s'.pipe.full);
  }

  /** Over a whole run the window is the initial one plus what was acknowledged, at most;
      it keeps within its limits. */
  lemma {:induction false} WindowIsPaidFor(cfg: Config, es: seq<Event>)
    ensures Afforded(Run(Init(cfg), es), cfg, TotalAcked(es))
  {
    if es != [] {
      WindowIsPaidFor(cfg, es[..|es| - 1]);
      StepAffords(Run(Init(cfg), es[..|es| - 1]), es[|es| - 1], cfg, TotalAcked(es[..|es| - 1]));
      hide Afforded, Step;
    }
  }

  /** Over a whole run the sender counts just the bytes that were acknowledged. */
  lemma {:induction false} BytesAreCounted(cfg: Config, es: seq<Event>)
    ensures Run(Init(cfg), es).path.totalAcked == TotalAcked(es)
  {
    if es != [] {
      var front := es[..|es| - 1];
      BytesAreCounted(cfg, front);
      match es[|es| - 1]
      case Send(_, _, _, _, _) =>
      case Congestion(f) => PathEffect(Run(Init(cfg), front), f);
      hide OnCongestionEvent, GatherAll;
    }
  }

  /** Before the pipe is full no event shrinks the window, but to its maximum. */
  lemma StartupNeverShrinks(s: Sender, f: Feedback)
    requires !OnCongestionEvent(s, f).pipe.full
    ensures Min(s.cwnd, s.cfg.maxCwnd) <= OnCongestionEvent(s, f).cwnd
  {
    hide OnCongestionEvent;
    WindowIsPaid(s, f);
  }
}
