/** Wrapped-counter refinement: the kernel's machine on 32-bit counters takes the
    decisions of the machine on unbounded ones, as long as compared values stay
    within half the counter range of each other. */
module LinuxWrap {
  import opened Words
  import opened BbrModes
  import opened LinuxArith
  import opened LinuxBbr

  /** The 32-bit image of a state on unbounded counters. */
  function Trunc(s: Bbr): Bbr {
    s.(model := s.model.(nextRttDelivered := s.model.nextRttDelivered % U32, rttCnt := s.model.rttCnt % U32),
       lt := TruncLt(s.lt),
       rtt := s.rtt.(stamp := s.rtt.stamp % U32, doneStamp := s.rtt.doneStamp % U32))
  }

  function TruncLt(lt: Lt): Lt {
    lt.(lastDelivered := lt.lastDelivered % U32, lastStamp := lt.lastStamp % U32, lastLost := lt.lastLost % U32)
  }

  function TruncSample(rs: RateSample): RateSample {
    rs.(priorDelivered := rs.priorDelivered % U32)
  }

  function TruncSock(tp: Sock): Sock {
    tp.(delivered := tp.delivered % U32, lost := tp.lost % U32,
        stampJiffies := tp.stampJiffies % U32, now := tp.now % U32)
  }

  function TruncEvent(e: Event): Event {
    match e
    case Ack(rs, tp) => Ack(TruncSample(rs), TruncSock(tp))
    case CaState(newState, tp) => CaState(newState, TruncSock(tp))
    case TxStart(appLimited, tp) => TxStart(appLimited, TruncSock(tp))
    case Ssthresh => Ssthresh
    case StackSetsCwnd(cwnd) => StackSetsCwnd(cwnd)
  }

  function TruncEvents(es: seq<Event>): seq<Event> {
    if es == [] then [] else TruncEvents(es[..|es| - 1]) + [TruncEvent(es[|es| - 1])]
  }

  predicate Near(a: int, b: int) {
    -HALF <= a - b < HALF
  }

  /** The open sampling interval is shorter than the counters are wide. */
  predicate LtNear(lt: Lt, tp: Sock) {
    lt.isSampling && !lt.useBw ==>
      && 0 <= tp.lost - lt.lastLost < U32
      && 0 <= tp.delivered - lt.lastDelivered < U32
      && Near(tp.stampJiffies, lt.lastStamp)
  }

  /** A pending end of PROBE_RTT is not mistaken for none: 0 is the kernel's mark for
      a stamp that is not set. */
  predicate StampVisible(s: Bbr) {
    s.rtt.doneStamp != 0 ==> s.rtt.doneStamp % U32 != 0
  }

  /** What an event compares lies within half the counter range. */
  predicate InRange(s: Bbr, e: Event) {
    match e
    case Ack(rs, tp) =>
      && (ValidSample(rs) ==> Near(rs.priorDelivered, s.model.nextRttDelivered))
      && LtNear(s.lt, tp)
      && Near(s.rtt.stamp + BBR_MIN_RTT_WIN_SEC * s.hz, tp.now)
      && (s.phase.mode == ProbeRtt && s.rtt.doneStamp != 0 ==> Near(s.rtt.doneStamp, tp.now))
      && (FullBwReached(s) || (tp.delivered < TCP_INIT_CWND <==> tp.delivered % U32 < TCP_INIT_CWND))
      && StampVisible(Step(Exact, s, e))
    case CaState(newState, tp) => newState == TCP_CA_LOSS ==> LtNear(s.lt, tp)
    case _ => true
  }

  predicate RunInRange(s: Bbr, es: seq<Event>) {
    es == [] || (RunInRange(s, es[..|es| - 1]) && InRange(Run(Exact, s, es[..|es| - 1]), es[|es| - 1]))
  }

  lemma CountRoundTruncs(s: Bbr, rs: RateSample, tp: Sock)
    requires ValidSample(rs) ==> Near(rs.priorDelivered, s.model.nextRttDelivered)
    ensures CountRound(Bits32, Trunc(s), TruncSample(rs), TruncSock(tp)) == Trunc(CountRound(Exact, s, rs, tp))
  {
    WrapSum(s.model.rttCnt, 1);
    if ValidSample(rs) {
      SDiffAgrees(rs.priorDelivered, s.model.nextRttDelivered);
    }
  }

  lemma LtCloseIntervalTruncs(s: Bbr, tp: Sock)
    requires 0 <= tp.lost - s.lt.lastLost < U32 && 0 <= tp.delivered - s.lt.lastDelivered < U32
    requires Near(tp.stampJiffies, s.lt.lastStamp)
    ensures LtCloseInterval(Bits32, Trunc(s), TruncSock(tp)) == Trunc(LtCloseInterval(Exact, s, tp))
  {
    DiffAgrees(tp.lost, s.lt.lastLost);
    DiffAgrees(tp.delivered, s.lt.lastDelivered);
    SDiffAgrees(tp.stampJiffies, s.lt.lastStamp);
    hide TooFewLosses, JiffiesToUsecs, IntervalRate, ConsistentRates, Average, Diff, SDiff;
  }

  lemma LtBwSamplingTruncs(s: Bbr, losses: nat, isAppLimited: bool, tp: Sock)
    requires LtNear(s.lt, tp)
    ensures LtBwSampling(Bits32, Trunc(s), losses, isAppLimited, TruncSock(tp)) ==
            Trunc(LtBwSampling(Exact, s, losses, isAppLimited, tp))
  {
    hide LtCloseInterval;
    var s1 := s.(lt := LtCountRound(s, tp));
    assert Trunc(s).(lt := LtCountRound(Trunc(s), TruncSock(tp))) == Trunc(s1);
    if !s.lt.useBw {
      LtCloseIntervalTruncs(s1, tp);
    }
  }

  lemma UpdateBwTruncs(s: Bbr, rs: RateSample, tp: Sock)
    requires ValidSample(rs) ==> Near(rs.priorDelivered, s.model.nextRttDelivered)
    requires LtNear(s.lt, tp)
    ensures UpdateBw(Bits32, Trunc(s), TruncSample(rs), TruncSock(tp)) == Trunc(UpdateBw(Exact, s, rs, tp))
  {
    CountRoundTruncs(s, rs, tp);
    LtBwSamplingTruncs(CountRound(Exact, s, rs, tp), rs.losses, rs.isAppLimited, tp);
  }

  lemma MiddleTruncs(s: Bbr, rs: RateSample, tp: Sock)
    ensures UpdateCyclePhase(Trunc(s), TruncSample(rs), TruncSock(tp)) == Trunc(UpdateCyclePhase(s, rs, tp))
    ensures CheckFullBwReached(Trunc(s), TruncSample(rs)) == Trunc(CheckFullBwReached(s, rs))
    ensures CheckDrain(Trunc(s), TruncSock(tp)) == Trunc(CheckDrain(s, tp))
  {
    hide TargetCwnd;
  }

  lemma DoneStampTruncs(hz: Hz, tp: Sock)
    ensures DoneStamp(Bits32, hz, TruncSock(tp)) == DoneStamp(Exact, hz, tp) % U32
  {}

  lemma StayInProbeRttTruncs(s: Bbr, tp: Sock)
    requires StampVisible(s)
    requires s.rtt.doneStamp != 0 ==> Near(s.rtt.doneStamp, tp.now)
    ensures StayInProbeRtt(Bits32, Trunc(s), TruncSock(tp)) == Trunc(StayInProbeRtt(Exact, s, tp))
  {
    DoneStampTruncs(s.hz, tp);
    if s.rtt.doneStamp != 0 {
      SDiffAgrees(s.rtt.doneStamp, tp.now);
    }
    hide DoneStamp;
  }

  /** A distance within 2^31 survives the truncation of its ends. */
  lemma DistanceTruncs(a: int, window: int, b: int)
    requires -HALF <= a + window - b < HALF
    ensures S32(a % U32 + window - b % U32) == a + window - b
  {
    var distance, k := a + window - b, b / U32 - a / U32;
    assert a % U32 + window - b % U32 == distance + U32 * k;
    ModShift(distance, k);
  }

  lemma MinRttExpiredTruncs(s: Bbr, tp: Sock)
    requires Near(s.rtt.stamp + BBR_MIN_RTT_WIN_SEC * s.hz, tp.now)
    ensures MinRttExpired(Bits32, Trunc(s), TruncSock(tp)) == MinRttExpired(Exact, s, tp)
  {
    DistanceTruncs(s.rtt.stamp, BBR_MIN_RTT_WIN_SEC * s.hz, tp.now);
    hide S32;
  }

  lemma UpdateMinRttTruncs(s: Bbr, rs: RateSample, tp: Sock)
    requires StampVisible(s)
    requires Near(s.rtt.stamp + BBR_MIN_RTT_WIN_SEC * s.hz, tp.now)
    requires s.phase.mode == ProbeRtt && s.rtt.doneStamp != 0 ==> Near(s.rtt.doneStamp, tp.now)
    ensures UpdateMinRtt(Bits32, Trunc(s), TruncSample(rs), TruncSock(tp)) == Trunc(UpdateMinRtt(Exact, s, rs, tp))
  {
    MinRttExpiredTruncs(s, tp);
    hide MinRttExpired, StayInProbeRtt;
    var s1 := TrackMinRtt(Exact, s, rs, tp);
    assert TrackMinRtt(Bits32, Trunc(s), TruncSample(rs), TruncSock(tp)) == Trunc(s1);
    assert EnterProbeRtt(Trunc(s1)) == Trunc(EnterProbeRtt(s1));
    if s1.phase.mode == ProbeRtt {
      StayInProbeRttTruncs(s1, tp);
    }
    StayInProbeRttTruncs(EnterProbeRtt(s1), tp);
  }

  lemma PacingTruncs(s: Bbr, bw: nat, gain: nat, tp: Sock)
    ensures SetPacingRate(Trunc(s), bw, gain, TruncSock(tp)) == Trunc(SetPacingRate(s, bw, gain, tp))
    ensures SetTsoSegsGoal(Trunc(s), TruncSock(tp)) == Trunc(SetTsoSegsGoal(s, tp))
  {}

  lemma SetCwndTruncs(s: Bbr, rs: RateSample, acked: nat, bw: nat, gain: nat, tp: Sock)
    requires FullBwReached(s) || (tp.delivered < TCP_INIT_CWND <==> tp.delivered % U32 < TCP_INIT_CWND)
    ensures SetCwnd(Trunc(s), TruncSample(rs), acked, bw, gain, TruncSock(tp)) ==
            Trunc(SetCwnd(s, rs, acked, bw, gain, tp))
  {
    var (s1, cwnd, conserving) := SetCwndToRecoverOrRestore(s, rs, acked, tp);
    assert SetCwndToRecoverOrRestore(Trunc(s), TruncSample(rs), acked, TruncSock(tp)) == (Trunc(s1), cwnd, conserving);
    assert Target(Trunc(s1), bw, gain) == Target(s1, bw, gain);
  }

  lemma ControlTruncs(s: Bbr, rs: RateSample, tp: Sock)
    requires FullBwReached(s) || (tp.delivered < TCP_INIT_CWND <==> tp.delivered % U32 < TCP_INIT_CWND)
    ensures Control(Trunc(s), TruncSample(rs), TruncSock(tp)) == Trunc(Control(s, rs, tp))
  {
    hide SetPacingRate, SetCwnd;
    var bw := Bandwidth(s);
    PacingTruncs(s, bw, s.phase.pacingGain, tp);
    var s1 := SetPacingRate(s, bw, s.phase.pacingGain, tp);
    PacingTruncs(s1, bw, 0, tp);
    var s2 := SetTsoSegsGoal(s1, tp);
    PacingFrame(s, bw, s.phase.pacingGain, tp);
    SetCwndTruncs(s2, rs, rs.ackedSacked, bw, s2.phase.cwndGain, tp);
  }

  lemma PacingFrame(s: Bbr, bw: nat, gain: nat, tp: Sock)
    ensures SetPacingRate(s, bw, gain, tp).model == s.model
  {}

  /** One step on wrapped counters is the image of one step on unbounded ones. */
  lemma StepTruncs(s: Bbr, e: Event)
    requires StampVisible(s) && InRange(s, e)
    ensures Step(Bits32, Trunc(s), TruncEvent(e)) == Trunc(Step(Exact, s, e))
    ensures StampVisible(Step(Exact, s, e))
  {
    match e
    case Ack(rs, tp) =>
      UpdateBwTruncs(s, rs, tp);
      var s1 := UpdateBw(Exact, s, rs, tp);
      MiddleTruncs(s1, rs, tp);
      var s2 := UpdateCyclePhase(s1, rs, tp);
      MiddleTruncs(s2, rs, tp);
      var s3 := CheckFullBwReached(s2, rs);
      MiddleTruncs(s3, rs, tp);
      var s4 := CheckDrain(s3, tp);
      FrameToMinRtt(Exact, s, rs, tp);
      MinRttKeepsFull(Exact, s4, rs, tp);
      UpdateMinRttTruncs(s4, rs, tp);
      ControlTruncs(UpdateMinRtt(Exact, s4, rs, tp), rs, tp);
    case CaState(newState, tp) =>
      if newState == TCP_CA_LOSS {
        LtBwSamplingTruncs(AtTimeout(s), 1, false, tp);
        LtFrame(Exact, AtTimeout(s), 1, false, tp);
      }
    case _ =>
  }

  lemma LtFrame(w: Width, s: Bbr, losses: nat, isAppLimited: bool, tp: Sock)
    ensures var s' := LtBwSampling(w, s, losses, isAppLimited, tp);
            && s'.rtt == s.rtt && s'.hz == s.hz && s'.model == s.model && s'.win == s.win
            && (s'.phase.mode == s.phase.mode)
  {}

  lemma UpdateBwFrame(w: Width, s: Bbr, rs: RateSample, tp: Sock)
    ensures var s' := UpdateBw(w, s, rs, tp);
            && s'.rtt == s.rtt && s'.hz == s.hz && s'.phase.mode == s.phase.mode
            && FullBwReached(s') == FullBwReached(s)
  {
    LtFrame(w, CountRound(w, s, rs, tp), rs.losses, rs.isAppLimited, tp);
    hide LtBwSampling, Before;
  }

  /** Until PROBE_RTT is looked at, an ACK leaves its stamps and mode alone, and a pipe
      found full stays full. */
  lemma FrameToMinRtt(w: Width, s: Bbr, rs: RateSample, tp: Sock)
    ensures var s1 := UpdateCyclePhase(UpdateBw(w, s, rs, tp), rs, tp);
            var s2 := CheckDrain(CheckFullBwReached(s1, rs), tp);
            && s2.rtt == s.rtt && s2.hz == s.hz
            && (s2.phase.mode == ProbeRtt <==> s.phase.mode == ProbeRtt)
            && (FullBwReached(s) ==> FullBwReached(s2))
  {
    UpdateBwFrame(w, s, rs, tp);
    hide UpdateBw, IsNextCyclePhase, FullBwThreshold, QueueDrained;
  }

  lemma MinRttKeepsFull(w: Width, s: Bbr, rs: RateSample, tp: Sock)
    ensures FullBwReached(UpdateMinRtt(w, s, rs, tp)) == FullBwReached(s)
  {}

  /** Every run on wrapped counters mirrors the run on unbounded ones: same modes,
      rounds, gains, windows, sampling intervals and expiry decisions. */
  lemma {:induction false} RunTruncs(s: Bbr, es: seq<Event>)
    requires StampVisible(s) && RunInRange(s, es)
    ensures Run(Bits32, Trunc(s), TruncEvents(es)) == Trunc(Run(Exact, s, es))
    ensures StampVisible(Run(Exact, s, es))
  {
    if es != [] {
      var front := es[..|es| - 1];
      RunTruncs(s, front);
      assert TruncEvents(es)[..|TruncEvents(es)| - 1] == TruncEvents(front);
      StepTruncs(Run(Exact, s, front), es[|es| - 1]);
    }
  }
}
