/** drafts/real_bbr.c as a state machine: one function for each C function, on the
    values of struct bbr. A Width chooses between the kernel's 32-bit wrapping
    counters and unbounded ones. */
module LinuxBbr {
  import opened Words
  import opened BbrModes
  import opened LinuxArith

  type Hz = h: int | 0 < h witness 1000
  /** TCP_CA_Open .. TCP_CA_Loss; three bits hold it. */
  type TcpState = n: nat | n <= 4

  const BBR_MIN_RTT_WIN_SEC: nat := 10
  const BBR_PROBE_RTT_MODE_MS: nat := 200
  const BBR_CYCLE_RAND: nat := 7
  const BBR_CWND_MIN_TARGET: nat := 4
  const BBR_FULL_BW_CNT: nat := 3
  const BBR_LT_INTVL_MIN_RTTS: nat := 4
  const BBR_LT_LOSS_THRESH: nat := 50
  const BBR_LT_BW_MAX_RTTS: nat := 48

  const TCP_CA_OPEN: TcpState := 0
  const TCP_CA_RECOVERY: TcpState := 3
  const TCP_CA_LOSS: TcpState := 4

  /** The mode, its gains, and the gain cycle. */
  datatype Phase = Phase(mode: Mode, pacingGain: nat, cwndGain: nat, cycleIdx: nat, cycleStamp: int)

  /** Bandwidth, rounds and the full-pipe detector. maxBw is the output of the
      windowed max filter. */
  datatype Model = Model(maxBw: nat, rttCnt: int, nextRttDelivered: int, roundStart: bool,
                         fullBw: nat, fullBwCnt: nat)

  /** The long-term ("LT") policer detector. */
  datatype Lt = Lt(isSampling: bool, rttCnt: nat, useBw: bool, bw: nat,
                   lastDelivered: int, lastStamp: int, lastLost: int)

  /** The min RTT filter and PROBE_RTT. */
  datatype MinRtt = MinRtt(minRtt: nat, stamp: int, doneStamp: int, roundDone: bool, idleRestart: bool)

  /** Window and pacing control, with the socket fields that BBR writes; appLimited is
      what it last wrote, or 0. */
  datatype Win = Win(prevCaState: TcpState, packetConservation: bool, restoreCwnd: bool, priorCwnd: nat,
                     tsoSegsGoal: nat, sndCwnd: nat, pacingRate: nat, appLimited: nat)

  /** struct bbr; hz is the tick rate of the kernel. */
  datatype Bbr = Bbr(hz: Hz, phase: Phase, model: Model, lt: Lt, rtt: MinRtt, win: Win)

  /** struct rate_sample. */
  datatype RateSample = RateSample(
    delivered: int, intervalUs: int, priorDelivered: int, losses: nat, rttUs: int,
    ackedSacked: nat, priorInFlight: nat, isAppLimited: bool)

  /** What BBR reads from the socket and its surroundings while it handles an event.
      delivered, lost, stampJiffies and now are counters; stampUs is delivered_mstamp
      in microseconds; filtered is what the max filter would yield if it took the
      sample of this event; draw is the random number of this event. */
  datatype Sock = Sock(
    delivered: int, lost: int, stampJiffies: int, now: int, stampUs: int,
    inFlight: nat, caState: TcpState, mtu: nat, autosize: nat, sndCwndClamp: nat,
    maxPacingRate: nat, filtered: nat, draw: nat)

  function Min(a: nat, b: nat): nat { if a < b then a else b }
  function Max(a: int, b: int): int { if a < b then b else a }

  function MsecsToJiffies(hz: Hz, ms: nat): nat {
    (ms * hz + 999) / 1000
  }

  function JiffiesToUsecs(hz: Hz, j: int): int {
    S32(j * (USEC_PER_SEC / hz))
  }

  function CyclePacingGain(idx: nat): nat {
    BBR_UNIT * Quarters(idx) / 4
  }

  predicate FullBwReached(s: Bbr) {
    s.model.fullBwCnt >= BBR_FULL_BW_CNT
  }

  function Bandwidth(s: Bbr): nat {
    if s.lt.useBw then s.lt.bw else s.model.maxBw
  }

  function Target(s: Bbr, bw: nat, gain: nat): nat {
    TargetCwnd(bw, s.rtt.minRtt, gain, s.win.tsoSegsGoal)
  }

  // ----- pacing -----

  function SetPacingRate(s: Bbr, bw: nat, gain: nat, tp: Sock): Bbr {
    var rate := Min(RateBytesPerSec(bw, tp.mtu, gain), tp.maxPacingRate);
    if s.phase.mode != Startup || rate > s.win.pacingRate then s.(win := s.win.(pacingRate := rate)) else s
  }

  function SetTsoSegsGoal(s: Bbr, tp: Sock): Bbr {
    s.(win := s.win.(tsoSegsGoal := Min(tp.autosize, 0x7F)))
  }

  function CwndEvent(s: Bbr, appLimited: bool, tp: Sock): Bbr {
    if !appLimited then s
    else
      var s1 := s.(rtt := s.rtt.(idleRestart := true));
      if s1.phase.mode == ProbeBw then SetPacingRate(s1, Bandwidth(s1), BBR_UNIT, tp) else s1
  }

  // ----- window -----

  function SaveCwnd(s: Bbr): Bbr {
    var prior :=
      if s.win.prevCaState < TCP_CA_RECOVERY && s.phase.mode != ProbeRtt then s.win.sndCwnd
      else Max(s.win.priorCwnd, s.win.sndCwnd);
    s.(win := s.win.(priorCwnd := prior))
  }

  /** cwnd after the deduction of losses, through a signed 32-bit comparison. */
  function DeductLosses(cwnd: nat, losses: nat): nat {
    if losses > 0 then Max(S32(cwnd - losses), 1) else cwnd
  }

  function FlightPlusAcked(tp: Sock, acked: nat): nat {
    (tp.inFlight + acked) % U32
  }

  function Grown(cwnd: nat, acked: nat): nat {
    (cwnd + acked) % U32
  }

  predicate EntersRecovery(s: Bbr, tp: Sock) {
    tp.caState == TCP_CA_RECOVERY && s.win.prevCaState != TCP_CA_RECOVERY
  }

  predicate LeavesRecovery(s: Bbr, tp: Sock) {
    s.win.prevCaState >= TCP_CA_RECOVERY && tp.caState < TCP_CA_RECOVERY
  }

  /** The state that bbr_set_cwnd_to_recover_or_restore leaves, before it restores. */
  function TrackRecovery(s: Bbr, tp: Sock): Bbr {
    var s1 :=
      if EntersRecovery(s, tp) then
        s.(win := s.win.(packetConservation := true), model := s.model.(nextRttDelivered := tp.delivered))
      else if LeavesRecovery(s, tp) then
        s.(win := s.win.(restoreCwnd := true, packetConservation := false))
      else s;
    s1.(win := s1.win.(prevCaState := tp.caState))
  }

  /** The new state, the window, and whether packet conservation fixes that window. */
  function SetCwndToRecoverOrRestore(s: Bbr, rs: RateSample, acked: nat, tp: Sock): (Bbr, nat, bool) {
    var cwnd :=
      if EntersRecovery(s, tp) then FlightPlusAcked(tp, acked) else DeductLosses(s.win.sndCwnd, rs.losses);
    var s1 := TrackRecovery(s, tp);
    var cwnd1 := if s1.win.restoreCwnd then Max(cwnd, s1.win.priorCwnd) else cwnd;
    var s2 := s1.(win := s1.win.(restoreCwnd := false));
    if s2.win.packetConservation then (s2, Max(cwnd1, FlightPlusAcked(tp, acked)), true)
    else (s2, cwnd1, false)
  }

  function SlowStart(s: Bbr, cwnd: nat, acked: nat, target: nat, tp: Sock): nat {
    var cwnd1 :=
      if FullBwReached(s) then Min(Grown(cwnd, acked), target)
      else if cwnd < target || tp.delivered < TCP_INIT_CWND then Grown(cwnd, acked)
      else cwnd;
    Max(cwnd1, BBR_CWND_MIN_TARGET)
  }

  function Capped(s: Bbr, cwnd: nat, tp: Sock): nat {
    var capped := Min(cwnd, tp.sndCwndClamp);
    if s.phase.mode == ProbeRtt then Min(capped, BBR_CWND_MIN_TARGET) else capped
  }

  function SetCwnd(s: Bbr, rs: RateSample, acked: nat, bw: nat, gain: nat, tp: Sock): Bbr {
    if acked == 0 then s
    else
      var (s1, cwnd, conserving) := SetCwndToRecoverOrRestore(s, rs, acked, tp);
      var cwnd1 := if conserving then cwnd else SlowStart(s1, cwnd, acked, Target(s1, bw, gain), tp);
      s1.(win := s1.win.(sndCwnd := Capped(s1, cwnd1, tp)))
  }

  // ----- modes and gain cycle -----

  predicate IsNextCyclePhase(s: Bbr, rs: RateSample, tp: Sock) {
    var isFullLength := tp.stampUs - s.phase.cycleStamp > s.rtt.minRtt;
    var gain := s.phase.pacingGain;
    if gain == BBR_UNIT then isFullLength
    else if gain > BBR_UNIT then
      isFullLength && (rs.losses > 0 || rs.priorInFlight >= Target(s, s.model.maxBw, gain))
    else
      isFullLength || rs.priorInFlight <= Target(s, s.model.maxBw, BBR_UNIT)
  }

  function AdvanceCyclePhase(p: Phase, tp: Sock): Phase {
    var idx := (p.cycleIdx + 1) % CYCLE_LEN;
    p.(cycleIdx := idx, cycleStamp := tp.stampUs, pacingGain := CyclePacingGain(idx))
  }

  function UpdateCyclePhase(s: Bbr, rs: RateSample, tp: Sock): Bbr {
    if s.phase.mode == ProbeBw && !s.lt.useBw && IsNextCyclePhase(s, rs, tp) then
      s.(phase := AdvanceCyclePhase(s.phase, tp))
    else s
  }

  function ResetStartupMode(p: Phase): Phase {
    p.(mode := Startup, pacingGain := HIGH_GAIN, cwndGain := HIGH_GAIN)
  }

  function ResetProbeBwMode(p: Phase, tp: Sock): Phase {
    var p1 := p.(mode := ProbeBw, pacingGain := BBR_UNIT, cwndGain := CWND_GAIN,
                 cycleIdx := CYCLE_LEN - 1 - tp.draw % BBR_CYCLE_RAND);
    AdvanceCyclePhase(p1, tp)
  }

  function ResetMode(s: Bbr, tp: Sock): Bbr {
    s.(phase := if !FullBwReached(s) then ResetStartupMode(s.phase) else ResetProbeBwMode(s.phase, tp))
  }

  // ----- long-term bandwidth sampling -----

  function ResetLtBwSamplingInterval(lt: Lt, tp: Sock): Lt {
    lt.(lastStamp := tp.stampJiffies, lastDelivered := tp.delivered, lastLost := tp.lost, rttCnt := 0)
  }

  function ResetLtBwSampling(lt: Lt, tp: Sock): Lt {
    ResetLtBwSamplingInterval(lt.(bw := 0, useBw := false, isSampling := false), tp)
  }

  function Average(a: nat, b: nat): nat {
    (a + b) % U32 / 2
  }

  function LtBwIntervalDone(s: Bbr, bw: nat, tp: Sock): Bbr {
    if s.lt.bw != 0 && ConsistentRates(bw, s.lt.bw, tp.mtu) then
      s.(lt := s.lt.(bw := Average(bw, s.lt.bw), useBw := true, rttCnt := 0),
         phase := s.phase.(pacingGain := BBR_UNIT))
    else
      s.(lt := ResetLtBwSamplingInterval(s.lt.(bw := bw), tp))
  }

  /** Is lost / delivered below 50/256, in u32? */
  predicate TooFewLosses(lost: int, delivered: int) {
    delivered == 0 || lost * BBR_UNIT % U32 < BBR_LT_LOSS_THRESH * delivered % U32
  }

  function IntervalRate(delivered: int, usecs: int): nat
    requires usecs > 0
  {
    delivered * BW_UNIT / usecs % U32
  }

  /** The last part of bbr_lt_bw_sampling: is the interval lossy and long enough? */
  function LtCloseInterval(w: Width, s: Bbr, tp: Sock): Bbr {
    var lost := Diff(w, tp.lost, s.lt.lastLost);
    var delivered := Diff(w, tp.delivered, s.lt.lastDelivered);
    if TooFewLosses(lost, delivered) then s
    else
      var jiffies := SDiff(w, tp.stampJiffies, s.lt.lastStamp);
      if jiffies < 1 then s
      else
        var t := JiffiesToUsecs(s.hz, jiffies);
        if t < 1 then s.(lt := ResetLtBwSampling(s.lt, tp))
        else LtBwIntervalDone(s, IntervalRate(delivered, t), tp)
  }

  /** While the long-term rate is in use: count PROBE_BW rounds, give it up in time. */
  function LtUseRound(s: Bbr, tp: Sock): Bbr {
    if s.phase.mode == ProbeBw && s.model.roundStart then
      var lt1 := s.lt.(rttCnt := s.lt.rttCnt + 1);
      if lt1.rttCnt >= BBR_LT_BW_MAX_RTTS then
        s.(lt := ResetLtBwSampling(lt1, tp), phase := ResetProbeBwMode(s.phase, tp))
      else s.(lt := lt1)
    else s
  }

  /** The interval with this event's round counted, opened first if need be. */
  function LtCountRound(s: Bbr, tp: Sock): Lt {
    var lt1 := if s.lt.isSampling then s.lt else ResetLtBwSamplingInterval(s.lt, tp).(isSampling := true);
    if s.model.roundStart then lt1.(rttCnt := lt1.rttCnt + 1) else lt1
  }

  function LtBwSampling(w: Width, s: Bbr, losses: nat, isAppLimited: bool, tp: Sock): Bbr {
    if s.lt.useBw then LtUseRound(s, tp)
    else if !s.lt.isSampling && losses == 0 then s
    else if isAppLimited then s.(lt := ResetLtBwSampling(s.lt, tp))
    else
      var s1 := s.(lt := LtCountRound(s, tp));
      if s1.lt.rttCnt < BBR_LT_INTVL_MIN_RTTS then s1
      else if s1.lt.rttCnt > 4 * BBR_LT_INTVL_MIN_RTTS then s1.(lt := ResetLtBwSampling(s1.lt, tp))
      else if losses == 0 then s1
      else LtCloseInterval(w, s1, tp)
  }

  // ----- the path model -----

  predicate ValidSample(rs: RateSample) {
    rs.delivered >= 0 && rs.intervalUs > 0
  }

  predicate StartsRound(w: Width, s: Bbr, rs: RateSample) {
    ValidSample(rs) && !Before(w, rs.priorDelivered, s.model.nextRttDelivered)
  }

  /** The round counting part of bbr_update_bw. */
  function CountRound(w: Width, s: Bbr, rs: RateSample, tp: Sock): Bbr {
    if StartsRound(w, s, rs) then
      s.(model := s.model.(nextRttDelivered := tp.delivered, rttCnt := Wrap(w, s.model.rttCnt + 1), roundStart := true),
         win := s.win.(packetConservation := false))
    else s.(model := s.model.(roundStart := false))
  }

  function SampleBw(rs: RateSample): int
    requires ValidSample(rs)
  {
    rs.delivered * BW_UNIT / rs.intervalUs
  }

  function FilterBw(s: Bbr, rs: RateSample, tp: Sock): Bbr
    requires ValidSample(rs)
  {
    if !rs.isAppLimited || SampleBw(rs) >= s.model.maxBw then s.(model := s.model.(maxBw := tp.filtered)) else s
  }

  function UpdateBw(w: Width, s: Bbr, rs: RateSample, tp: Sock): Bbr {
    var s1 := CountRound(w, s, rs, tp);
    if !ValidSample(rs) then s1
    else FilterBw(LtBwSampling(w, s1, rs.losses, rs.isAppLimited, tp), rs, tp)
  }

  function FullBwThreshold(fullBw: nat): nat {
    fullBw * FULL_BW_THRESH / BBR_UNIT % U32
  }

  predicate EvaluatesFullBw(s: Bbr, rs: RateSample) {
    !FullBwReached(s) && s.model.roundStart && !rs.isAppLimited
  }

  function CheckFullBwReached(s: Bbr, rs: RateSample): Bbr {
    if !EvaluatesFullBw(s, rs) then s
    else if s.model.maxBw >= FullBwThreshold(s.model.fullBw) then
      s.(model := s.model.(fullBw := s.model.maxBw, fullBwCnt := 0))
    else s.(model := s.model.(fullBwCnt := s.model.fullBwCnt + 1))
  }

  function EnterDrain(s: Bbr): Bbr {
    if s.phase.mode == Startup && FullBwReached(s) then
      s.(phase := s.phase.(mode := Drain, pacingGain := DRAIN_GAIN, cwndGain := HIGH_GAIN))
    else s
  }

  predicate QueueDrained(s: Bbr, tp: Sock) {
    tp.inFlight <= Target(s, s.model.maxBw, BBR_UNIT)
  }

  function CheckDrain(s: Bbr, tp: Sock): Bbr {
    var s1 := EnterDrain(s);
    if s1.phase.mode == Drain && QueueDrained(s1, tp) then s1.(phase := ResetProbeBwMode(s1.phase, tp)) else s1
  }

  // ----- min RTT and PROBE_RTT -----

  predicate MinRttExpired(w: Width, s: Bbr, tp: Sock) {
    After(w, tp.now, s.rtt.stamp + BBR_MIN_RTT_WIN_SEC * s.hz)
  }

  function TrackMinRtt(w: Width, s: Bbr, rs: RateSample, tp: Sock): Bbr {
    if rs.rttUs >= 0 && (rs.rttUs <= s.rtt.minRtt || MinRttExpired(w, s, tp)) then
      s.(rtt := s.rtt.(minRtt := rs.rttUs % U32, stamp := tp.now))
    else s
  }

  function EnterProbeRtt(s: Bbr): Bbr {
    var s1 := SaveCwnd(s.(phase := s.phase.(mode := ProbeRtt, pacingGain := BBR_UNIT, cwndGain := BBR_UNIT)));
    s1.(rtt := s1.rtt.(doneStamp := 0))
  }

  /** The stamp at which PROBE_RTT may end if its target is reached now. */
  function DoneStamp(w: Width, hz: Hz, tp: Sock): int {
    Wrap(w, tp.now + MsecsToJiffies(hz, BBR_PROBE_RTT_MODE_MS))
  }

  /** The mark that keeps low rate samples out of the filter: a nonzero u32. */
  function AppLimited(tp: Sock): nat {
    var mark := (tp.delivered + tp.inFlight) % U32;
    if mark == 0 then 1 else mark
  }

  function StayInProbeRtt(w: Width, s: Bbr, tp: Sock): Bbr {
    StayOrLeave(w, s.(win := s.win.(appLimited := AppLimited(tp))), tp)
  }

  function StayOrLeave(w: Width, s: Bbr, tp: Sock): Bbr {
    if s.rtt.doneStamp == 0 && tp.inFlight <= BBR_CWND_MIN_TARGET then
      s.(rtt := s.rtt.(doneStamp := DoneStamp(w, s.hz, tp), roundDone := false),
         model := s.model.(nextRttDelivered := tp.delivered))
    else if s.rtt.doneStamp != 0 then
      var rtt1 := if s.model.roundStart then s.rtt.(roundDone := true) else s.rtt;
      if rtt1.roundDone && After(w, tp.now, rtt1.doneStamp) then
        ResetMode(s.(rtt := rtt1.(stamp := tp.now), win := s.win.(restoreCwnd := true)), tp)
      else s.(rtt := rtt1)
    else s
  }

  function UpdateMinRtt(w: Width, s: Bbr, rs: RateSample, tp: Sock): Bbr {
    var s1 := TrackMinRtt(w, s, rs, tp);
    var s2 :=
      if MinRttExpired(w, s, tp) && !s1.rtt.idleRestart && s1.phase.mode != ProbeRtt then EnterProbeRtt(s1) else s1;
    var s3 := if s2.phase.mode == ProbeRtt then StayInProbeRtt(w, s2, tp) else s2;
    s3.(rtt := s3.rtt.(idleRestart := false))
  }

  // ----- the callbacks of struct tcp_congestion_ops -----

  function UpdateModel(w: Width, s: Bbr, rs: RateSample, tp: Sock): Bbr {
    var s1 := UpdateCyclePhase(UpdateBw(w, s, rs, tp), rs, tp);
    UpdateMinRtt(w, CheckDrain(CheckFullBwReached(s1, rs), tp), rs, tp)
  }

  /** The rest of bbr_main: pacing rate, segment goal and window. */
  function Control(s: Bbr, rs: RateSample, tp: Sock): Bbr {
    var bw := Bandwidth(s);
    var s1 := SetTsoSegsGoal(SetPacingRate(s, bw, s.phase.pacingGain, tp), tp);
    SetCwnd(s1, rs, rs.ackedSacked, bw, s1.phase.cwndGain, tp)
  }

  /** bbr_main: everything an ACK does. */
  function BbrMain(w: Width, s: Bbr, rs: RateSample, tp: Sock): Bbr {
    Control(UpdateModel(w, s, rs, tp), rs, tp)
  }

  function AtTimeout(s: Bbr): Bbr {
    s.(win := s.win.(prevCaState := TCP_CA_LOSS), model := s.model.(fullBw := 0, roundStart := true))
  }

  /** bbr_set_state: a retransmission timeout counts as a lossy end of a round. */
  function SetState(w: Width, s: Bbr, newState: TcpState, tp: Sock): Bbr {
    if newState != TCP_CA_LOSS then s else LtBwSampling(w, AtTimeout(s), 1, false, tp)
  }

  function Init(hz: Hz, minRtt: nat, sndCwnd: nat, srttUs: nat, tp: Sock): Bbr {
    var rtt := if srttUs / 8 == 0 then 1000 else srttUs / 8;
    var bw := sndCwnd * BW_UNIT / rtt % U32;
    var rate := Min(RateBytesPerSec(bw, tp.mtu, HIGH_GAIN), tp.maxPacingRate);
    Bbr(hz,
        Phase(Startup, HIGH_GAIN, HIGH_GAIN, 0, 0),
        Model(0, 0, 0, false, 0, 0),
        Lt(false, 0, false, 0, tp.delivered, tp.stampJiffies, tp.lost),
        MinRtt(minRtt, tp.now, 0, false, false),
        Win(TCP_CA_OPEN, false, false, 0, 0, sndCwnd, rate, 0))
  }

  /** The callbacks, and the stack writing snd_cwnd on its own. */
  datatype Event =
    | Ack(rs: RateSample, tp: Sock)
    | CaState(newState: TcpState, tp: Sock)
    | TxStart(appLimited: bool, tp: Sock)
    | Ssthresh
    | StackSetsCwnd(cwnd: nat)

  function Step(w: Width, s: Bbr, e: Event): Bbr {
    match e
    case Ack(rs, tp) => BbrMain(w, s, rs, tp)
    case CaState(newState, tp) => SetState(w, s, newState, tp)
    case TxStart(appLimited, tp) => CwndEvent(s, appLimited, tp)
    case Ssthresh => SaveCwnd(s)
    case StackSetsCwnd(cwnd) => s.(win := s.win.(sndCwnd := cwnd))
  }

  function Run(w: Width, s: Bbr, es: seq<Event>): Bbr {
    if es == [] then s else Step(w, Run(w, s, es[..|es| - 1]), es[|es| - 1])
  }

  /** What bbr_init sets, whatever the socket contributes. */
  ghost predicate Fresh(s: Bbr) {
    && s.phase.(cycleStamp := 0) == Phase(Startup, HIGH_GAIN, HIGH_GAIN, 0, 0)
    && s.model.(maxBw := 0) == Model(0, 0, 0, false, 0, 0)
    && !s.lt.isSampling && !s.lt.useBw && s.lt.bw == 0 && s.lt.rttCnt == 0
    && s.rtt.doneStamp == 0 && !s.rtt.roundDone && !s.rtt.idleRestart
    && s.win.prevCaState == TCP_CA_OPEN && !s.win.packetConservation && !s.win.restoreCwnd
    && s.win.priorCwnd == 0 && s.win.tsoSegsGoal == 0
  }
}
