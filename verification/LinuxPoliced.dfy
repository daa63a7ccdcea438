/** Runs into the use of the long-term rate: one that the detector is made for, and one
    in which the length of its intervals in microseconds wraps. */
module LinuxPoliced {
  import opened Words
  import opened LinuxArith
  import opened LinuxBbr
  import LinuxModes
  import LinuxPolicer
  import LinuxProbeRtt

  /** The k-th of the rounds: 100 more packets are delivered and 50 more lost by the time
      `jiffies`, at 100 packets per millisecond. */
  function LossyRound(s: Bbr, k: nat, jiffies: int): Event {
    Ack(RateSample(100, 1000, 100 * (k - 1), 50, -1, 0, 0, false),
        Sock(100 * k, 50 * k, jiffies, s.rtt.stamp, 0, 0, TCP_CA_OPEN, 1500, 0, 0, 0, 100 * BW_UNIT / 1000, 0))
  }

  /** One lossy round for each of the times. */
  function Rounds(s: Bbr, js: seq<int>): (es: seq<Event>)
    ensures |es| == |js| && forall i :: 0 <= i < |es| ==> es[i].Ack?
  {
    if js == [] then [] else Rounds(s, js[..|js| - 1]) + [LossyRound(s, |js|, js[|js| - 1])]
  }

  lemma NextOrSame(w: Width, s: Bbr, rs: RateSample, tp: Sock)
    ensures var s' := UpdateMinRtt(w, s, rs, tp);
            && s'.hz == s.hz
            && (s'.model.nextRttDelivered == s.model.nextRttDelivered || s'.model.nextRttDelivered == tp.delivered)
  {
    hide MinRttExpired, MsecsToJiffies, After;
  }

  /** A round that starts: what it leaves of the detector and the round counter. */
  lemma RoundEffect(w: Width, s: Bbr, rs: RateSample, tp: Sock)
    requires ValidSample(rs) && rs.priorDelivered == s.model.nextRttDelivered && rs.ackedSacked == 0
    ensures var s', s1 := Step(w, s, Ack(rs, tp)), CountRound(w, s, rs, tp);
            && s1.lt == s.lt && s1.hz == s.hz && s1.model.roundStart
            && s'.lt == LtBwSampling(w, s1, rs.losses, rs.isAppLimited, tp).lt
            && s'.hz == s.hz && s'.model.nextRttDelivered == tp.delivered
  {
    var s4 := LinuxProbeRtt.BeforeMinRtt(w, s, rs, tp);
    LinuxProbeRtt.UpToMinRtt(w, s, rs, tp);
    NextOrSame(w, s4, rs, tp);
    LinuxProbeRtt.ControlFrame(UpdateMinRtt(w, s4, rs, tp), rs, tp);
    LinuxModes.OnlyUpdateBwTouchesLt(w, s, rs, tp);
    hide UpdateMinRtt, Control, LtBwSampling, CheckDrain, CheckFullBwReached, UpdateCyclePhase;
  }

  /** After m rounds: an interval that began at round k and the time start has counted n. */
  predicate Sampling(s: Bbr, m: nat, n: nat, k: nat, start: int, bw: nat) {
    && s.hz == 1000 && s.model.nextRttDelivered == 100 * m
    && s.lt == Lt(true, n, false, bw, 100 * k, start, 50 * k)
  }

  /** The first round opens an interval, and is counted in it. */
  lemma FirstRound(w: Width, s: Bbr, s0: Bbr, jiffies: int)
    requires Fresh(s) && s.hz == 1000
    ensures Sampling(Step(w, s, LossyRound(s0, 1, jiffies)), 1, 1, 1, jiffies, 0)
  {
    var e := LossyRound(s0, 1, jiffies);
    RoundEffect(w, s, e.rs, e.tp);
    hide Step, LtCloseInterval;
  }

  /** The next two are counted, too. */
  lemma NextRound(w: Width, s: Bbr, s0: Bbr, m: nat, n: nat, k: nat, start: int, bw: nat, jiffies: int)
    requires Sampling(s, m, n, k, start, bw) && n < 3
    ensures Sampling(Step(w, s, LossyRound(s0, m + 1, jiffies)), m + 1, n + 1, k, start, bw)
  {
    var e := LossyRound(s0, m + 1, jiffies);
    RoundEffect(w, s, e.rs, e.tp);
    hide Step, LtCloseInterval;
  }

  /** The time of an interval in microseconds, as the kernel sees it. */
  function Seen(w: Width, start: int, end: int): int {
    JiffiesToUsecs(1000, SDiff(w, end, start))
  }

  /** Rounds k to m are an interval that the detector ends, with this rate. */
  predicate Ends(w: Width, k: nat, m: nat, start: int, end: int, rate: nat) {
    && SDiff(w, end, start) >= 1 && Seen(w, start, end) > 0
    && rate == IntervalRate(100 * (m - k), Seen(w, start, end))
  }

  /** The fourth ends the interval. */
  lemma FourthRound(w: Width, s: Bbr, s0: Bbr, m: nat, k: nat, start: int, bw: nat, jiffies: int, rate: nat)
    requires Sampling(s, m, 3, k, start, bw) && k <= m < 100 && Ends(w, k, m + 1, start, jiffies, rate)
    ensures var s' := Step(w, s, LossyRound(s0, m + 1, jiffies));
            if bw != 0 && ConsistentRates(rate, bw, 1500)
            then s'.lt.useBw && s'.lt.bw == Average(rate, bw)
            else Sampling(s', m + 1, 0, m + 1, jiffies, rate)
  {
    var e := LossyRound(s0, m + 1, jiffies);
    RoundEffect(w, s, e.rs, e.tp);
    var s1 := CountRound(w, s, e.rs, e.tp);
    var s2 := s1.(lt := LtCountRound(s1, e.tp));
    assert LtBwSampling(w, s1, 50, false, e.tp) == LtCloseInterval(w, s2, e.tp);
    Counts(w, m + 1, k);
    assert LtCloseInterval(w, s2, e.tp) == LtBwIntervalDone(s2, rate, e.tp) by {
      hide SDiff, JiffiesToUsecs, IntervalRate, LtBwIntervalDone, TooFewLosses, Diff;
    }
    hide Step, ConsistentRates, Average, LtCloseInterval, LtBwSampling;
  }

  lemma Counts(w: Width, m: nat, k: nat)
    requires k < m <= 100
    ensures Diff(w, 100 * m, 100 * k) == 100 * (m - k) && Diff(w, 50 * m, 50 * k) == 50 * (m - k)
    ensures !TooFewLosses(50 * (m - k), 100 * (m - k))
  {}

  /** What the detector holds in the first interval, and in the second. */
  predicate Stage(s: Bbr, js: seq<int>, rate: nat)
    requires 1 <= |js| <= 7
  {
    if |js| <= 3 then Sampling(s, |js|, |js|, 1, js[0], 0)
    else Sampling(s, |js|, |js| - 4, 4, js[3], rate)
  }

  lemma NextStage(w: Width, t: Bbr, s: Bbr, front: seq<int>, j: int, rate: nat)
    requires 1 <= |front| <= 6 && Stage(t, front, rate)
    requires |front| >= 3 ==> Ends(w, 1, 4, (front + [j])[0], (front + [j])[3], rate)
    ensures Stage(Step(w, t, LossyRound(s, |front| + 1, j)), front + [j], rate)
  {
    hide Step, LossyRound, Ends, Sampling, ConsistentRates;
    if |front| == 3 {
      FourthRound(w, t, s, 3, 1, front[0], 0, j, rate);
    } else if |front| < 3 {
      NextRound(w, t, s, |front|, |front|, 1, front[0], 0, j);
    } else {
      NextRound(w, t, s, |front|, |front| - 4, 4, front[3], rate, j);
    }
  }

  lemma RunRounds(w: Width, s: Bbr, js: seq<int>)
    requires js != []
    ensures var front := js[..|js| - 1];
            Run(w, s, Rounds(s, js)) ==
            Step(w, Run(w, s, Rounds(s, front)), LossyRound(s, |js|, js[|js| - 1]))
  {
    hide Step, LossyRound;
    var es := Rounds(s, js);
    assert es[..|es| - 1] == Rounds(s, js[..|js| - 1]);
  }

  lemma {:induction false} Stages(w: Width, s: Bbr, js: seq<int>, rate: nat)
    requires Fresh(s) && s.hz == 1000 && 1 <= |js| <= 7
    requires |js| >= 4 ==> Ends(w, 1, 4, js[0], js[3], rate)
    ensures Stage(Run(w, s, Rounds(s, js)), js, rate)
  {
    hide Step, LossyRound, Fresh, Ends, Sampling, Stage, Run, Rounds;
    var front, j := js[..|js| - 1], js[|js| - 1];
    RunRounds(w, s, js);
    assert js == front + [j];
    if |js| == 1 {
      NoRounds(w, s);
      FirstStage(w, s, j);
    } else {
      Stages(w, s, front, rate);
      NextStage(w, Run(w, s, Rounds(s, front)), s, front, j, rate);
    }
  }

  lemma NoRounds(w: Width, s: Bbr)
    ensures Run(w, s, Rounds(s, [])) == s
  {}

  lemma FirstStage(w: Width, s: Bbr, j: int)
    requires Fresh(s) && s.hz == 1000
    ensures forall rate: nat :: Stage(Step(w, s, LossyRound(s, 1, j)), [j], rate)
  {
    FirstRound(w, s, s, j);
    hide Step, LossyRound, Sampling;
  }

  /** Eight lossy rounds, whose two intervals show consistent rates. */
  lemma TwoIntervals(w: Width, s: Bbr, js: seq<int>, earlier: nat, later: nat)
    requires Fresh(s) && s.hz == 1000 && |js| == 8
    requires Ends(w, 1, 4, js[0], js[3], earlier) && Ends(w, 4, 8, js[3], js[7], later)
    requires earlier != 0 && ConsistentRates(later, earlier, 1500)
    ensures var lt := Run(w, s, Rounds(s, js)).lt; lt.useBw && lt.bw == Average(later, earlier)
  {
    var front, es := js[..7], Rounds(s, js);
    assert es[..7] == Rounds(s, front);
    Stages(w, s, front, earlier);
    hide Step, Fresh, Ends, ConsistentRates, LossyRound;
    FourthRound(w, Run(w, s, Rounds(s, front)), s, 7, 4, js[3], earlier, js[7], later);
  }

  // ----- A policed connection -----

  const STEADY: seq<int> := [0, 1, 2, 3, 4, 5, 6, 7]
  const STEADY_RATE: nat := 1_677_721

  lemma TimeSeen(w: Width, start: int, end: int, usecs: int)
    requires start < end < start + HALF && JiffiesToUsecs(1000, end - start) == usecs > 0
    ensures SDiff(w, end, start) >= 1 && Seen(w, start, end) == usecs
  {
    hide JiffiesToUsecs;
  }

  lemma SteadyEnds(w: Width)
    ensures Ends(w, 1, 4, 0, 3, STEADY_RATE) && Ends(w, 4, 8, 3, 7, STEADY_RATE)
  {
    TimeSeen(w, 0, 3, 3000);
    TimeSeen(w, 3, 7, 4000);
    hide SDiff, Seen;
  }

  lemma SteadyIsConsistent()
    ensures ConsistentRates(STEADY_RATE, STEADY_RATE, 1500) && Average(STEADY_RATE, STEADY_RATE) == STEADY_RATE
  {
    hide RateBytesPerSec;
  }

  lemma EarlyRoundIsBounded(t: Bbr, e: Event)
    requires e.Ack? && (!t.lt.isSampling || t.lt.rttCnt < 3)
    ensures LinuxPolicer.EventBounded(t, e)
  {
    hide LinuxPolicer.RateFitsTest, LinuxPolicer.CountsFit;
  }

  lemma SteadyRoundIsBounded(t: Bbr, s: Bbr, m: nat, k: nat, start: int, bw: nat, jiffies: int)
    requires Sampling(t, m, 3, k, start, bw) && (bw == 0 || bw == STEADY_RATE)
    requires (k, m, start, jiffies) == (1, 3, 0, 3) || (k, m, start, jiffies) == (4, 7, 3, 7)
    ensures LinuxPolicer.EventBounded(t, LossyRound(s, m + 1, jiffies))
  {
    SteadyFits();
    hide LinuxPolicer.RateFitsTest;
  }

  lemma SteadyFits()
    ensures LinuxPolicer.RateOf(300, 3000) == LinuxPolicer.RateOf(400, 4000) == STEADY_RATE
    ensures LinuxPolicer.RateFitsTest(STEADY_RATE, 0, 1500)
    ensures LinuxPolicer.RateFitsTest(STEADY_RATE, STEADY_RATE, 1500)
  {}

  lemma SteadyFront(s: Bbr, i: nat)
    requires 0 < i <= 8
    ensures var es := Rounds(s, STEADY[..i]);
            es[..i - 1] == Rounds(s, STEADY[..i - 1]) && es[i - 1] == LossyRound(s, i, i - 1)
  {
    var js := STEADY[..i];
    assert js[..i - 1] == STEADY[..i - 1] && js[i - 1] == i - 1;
    hide LossyRound;
  }

  lemma SteadyStage(s: Bbr, i: nat)
    requires Fresh(s) && s.hz == 1000 && 1 <= i < 8
    ensures var t := Run(Exact, s, Rounds(s, STEADY[..i]));
            if i <= 3 then Sampling(t, i, i, 1, 0, 0) else Sampling(t, i, i - 4, 4, 3, STEADY_RATE)
  {
    hide Fresh, Ends, Sampling, Run, Rounds;
    var js := STEADY[..i];
    assert |js| == i && js[0] == 0 && (i >= 4 ==> js[3] == 3);
    SteadyEnds(Exact);
    Stages(Exact, s, js, STEADY_RATE);
  }

  /** The run so far covers the next of its rounds. */
  lemma NextIsBounded(s: Bbr, i: nat)
    requires Fresh(s) && s.hz == 1000 && i < 8
    ensures LinuxPolicer.EventBounded(Run(Exact, s, Rounds(s, STEADY[..i])), LossyRound(s, i + 1, i))
  {
    hide Run, Rounds, Fresh, LinuxPolicer.EventBounded, LossyRound;
    if i == 0 {
      FirstIsBounded(s);
    } else {
      SteadyStage(s, i);
      LaterIsBounded(Run(Exact, s, Rounds(s, STEADY[..i])), s, i);
    }
  }

  lemma FirstIsBounded(s: Bbr)
    requires Fresh(s)
    ensures LinuxPolicer.EventBounded(Run(Exact, s, Rounds(s, STEADY[..0])), LossyRound(s, 1, 0))
  {
    assert STEADY[..0] == [];
    NoRounds(Exact, s);
    EarlyRoundIsBounded(s, LossyRound(s, 1, 0));
    hide LinuxPolicer.EventBounded;
  }

  lemma LaterIsBounded(t: Bbr, s: Bbr, i: nat)
    requires 1 <= i < 8
    requires if i <= 3 then Sampling(t, i, i, 1, 0, 0) else Sampling(t, i, i - 4, 4, 3, STEADY_RATE)
    ensures LinuxPolicer.EventBounded(t, LossyRound(s, i + 1, i))
  {
    hide LinuxPolicer.EventBounded;
    if i == 3 {
      SteadyRoundIsBounded(t, s, 3, 1, 0, 0, 3);
    } else if i == 7 {
      SteadyRoundIsBounded(t, s, 7, 4, 3, STEADY_RATE, 7);
    } else {
      EarlyRoundIsBounded(t, LossyRound(s, i + 1, i));
    }
  }

  lemma {:induction false} SteadyIsBounded(s: Bbr, i: nat)
    requires Fresh(s) && s.hz == 1000 && i <= 8
    ensures LinuxPolicer.RunBounded(s, Rounds(s, STEADY[..i]))
  {
    if i > 0 {
      SteadyIsBounded(s, i - 1);
      SteadyFront(s, i);
      NextIsBounded(s, i - 1);
      hide Fresh, LossyRound, LinuxPolicer.EventBounded, Run, Rounds;
    }
  }

  /** Eight rounds of a millisecond, each with a third of its packets lost, bring the rate
      into use, and it is the delivery rate; the theorems about the detector cover it. */
  lemma SteadyIsUsed(w: Width, s: Bbr)
    requires Fresh(s) && s.hz == 1000
    ensures var lt := Run(w, s, Rounds(s, STEADY)).lt; lt.useBw && lt.bw == STEADY_RATE
    ensures STEADY_RATE == LinuxPolicer.RateOf(100, 1000)
    ensures LinuxPolicer.RunBounded(s, Rounds(s, STEADY))
  {
    SteadyEnds(w);
    SteadyIsConsistent();
    SteadyIsBounded(s, 8);
    assert STEADY[..8] == STEADY;
    hide Ends, ConsistentRates, Average, Run, Rounds, Fresh, LinuxPolicer.RunBounded;
    TwoIntervals(w, s, STEADY, STEADY_RATE, STEADY_RATE);
  }

  // ----- Intervals longer than the word for their microseconds -----

  const LONG: seq<int> := [0, 1_500_000, 3_000_000, 4_295_000, 5_000_000, 6_000_000, 7_000_000, 8_590_011]

  lemma LongEnds(w: Width)
    ensures Ends(w, 1, 4, 0, 4_295_000, 153_900) && Ends(w, 4, 8, 4_295_000, 8_590_011, 153_553)
  {
    TimeSeen(w, 0, 4_295_000, 32_704);
    TimeSeen(w, 4_295_000, 8_590_011, 43_704);
    hide SDiff, Seen;
  }

  lemma LongIsConsistent()
    ensures ConsistentRates(153_553, 153_900, 1500) && Average(153_553, 153_900) == 153_726
  {
    hide RateBytesPerSec;
  }

  /** The delivery rate between two ACKs. */
  function Measured(hz: Hz, a: Sock, b: Sock): int {
    var t := LinuxPolicer.Usecs(hz, LinuxPolicer.Now(a), LinuxPolicer.Now(b));
    if t > 0 then LinuxPolicer.RateOf(b.delivered - a.delivered, t) else 0
  }

  lemma {:induction false} RoundsAt(s: Bbr, js: seq<int>, i: nat)
    requires i < |js|
    ensures Rounds(s, js)[i] == LossyRound(s, i + 1, js[i])
  {
    if i < |js| - 1 {
      RoundsAt(s, js[..|js| - 1], i);
    }
  }

  lemma LongIsSlow(s: Bbr)
    ensures var es := Rounds(s, LONG);
            && Measured(1000, es[0].tp, es[3].tp) == 1 && Measured(1000, es[3].tp, es[7].tp) == 1
  {
    RoundsAt(s, LONG, 0);
    RoundsAt(s, LONG, 3);
    RoundsAt(s, LONG, 7);
    hide Rounds;
  }

  /** Two intervals of 72 minutes: the rate comes into use, with a value five orders of
      magnitude above the delivery rates between their ends. */
  lemma LongIsUsed(w: Width, s: Bbr)
    requires Fresh(s) && s.hz == 1000
    ensures var lt := Run(w, s, Rounds(s, LONG)).lt; lt.useBw && lt.bw == 153_726
    ensures var es := Rounds(s, LONG);
            && Measured(1000, es[0].tp, es[3].tp) == 1 && Measured(1000, es[3].tp, es[7].tp) == 1
  {
    LongEnds(w);
    LongIsConsistent();
    LongIsSlow(s);
    hide Ends, ConsistentRates, Average, Run, Rounds, Fresh, Measured;
    TwoIntervals(w, s, LONG, 153_900, 153_553);
  }
}
