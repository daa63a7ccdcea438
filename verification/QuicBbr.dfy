/** drafts/bbr_sender.cc as a state machine: one function for each method of BbrSender.
    Times are microseconds, bandwidths bytes per microsecond; floats are reals. */
module QuicBbr {
  import opened BbrModes

  const HIGH_GAIN: real := 2.885
  const DRAIN_GAIN: real := 1.0 / HIGH_GAIN
  const MIN_RTT_EXPIRY: int := 10_000_000
  const PROBE_RTT_TIME: int := 200_000
  const STARTUP_GROWTH_TARGET: real := 1.25

  type Size = n: int | 0 < n witness 1460

  /** Constants that the file takes from elsewhere (the packet sizes), flags, and what
      the constructor and SetFromConfig fix. */
  datatype Config = Config(
    mss: Size, maxPacketSize: nat, initialCwnd: nat, maxCwnd: nat, initialRtt: int,
    cwndGainConstant: real, startupRounds: nat, rateBasedRecovery: bool, fixConservation: bool)

  datatype Phase = Phase(mode: Mode, pacingGain: real, cwndGain: real, offset: nat, cycleStart: int)

  /** Packet-number rounds. */
  datatype Rounds = Rounds(count: nat, lastSent: nat, end: nat)

  /** maxBw is the best value of the windowed filter; minRtt is 0 while unknown. */
  datatype Path = Path(maxBw: real, minRtt: int, minRttStamp: int, lastAppLimited: bool, totalAcked: nat)

  datatype Pipe = Pipe(full: bool, stalls: nat, lastBw: real)

  /** exitAt is 0 until the time to leave PROBE_RTT is known. */
  datatype Probe = Probe(exitAt: int, roundPassed: bool, exitingQuiescence: bool)

  datatype RecoveryState = NotInRecovery | Conservation | Growth

  datatype Recovery = Recovery(state: RecoveryState, endAt: nat, window: nat)

  datatype Sender = Sender(cfg: Config, phase: Phase, rounds: Rounds, path: Path, pipe: Pipe,
                           probe: Probe, recovery: Recovery, cwnd: nat)

  /** An acknowledged packet with its bandwidth sample; rtt is 0 if the sample has none;
      filtered is the best value of the max filter after it takes this sample. */
  datatype AckedPacket = AckedPacket(pn: nat, bytes: nat, bw: real, rtt: nat, appLimited: bool, filtered: real)

  datatype LostPacket = LostPacket(pn: nat, bytes: nat)

  /** The arguments of OnCongestionEvent and what it reads elsewhere: the flight after
      the event, a random draw, and the optional additions to the target window. */
  datatype Feedback = Feedback(
    now: int, priorInFlight: nat, acked: seq<AckedPacket>, lost: seq<LostPacket>,
    inFlight: nat, draw: nat, extra: nat)

  datatype Event =
    | Send(flight: nat, pn: nat, bytes: nat, retransmittable: bool, appLimited: bool)
    | Congestion(feedback: Feedback)

  function Max(a: int, b: int): int { if a < b then b else a }
  function Min(a: int, b: int): int { if a < b then a else b }

  function MinimumCwnd(cfg: Config): nat {
    4 * cfg.mss
  }

  function CycleGain(offset: nat): real {
    Quarters(offset) as real / 4.0
  }

  function InRecovery(s: Sender): bool {
    s.recovery.state != NotInRecovery
  }

  function GetCongestionWindow(s: Sender): nat {
    if s.phase.mode == ProbeRtt then MinimumCwnd(s.cfg)
    else if InRecovery(s) && !s.cfg.rateBasedRecovery then Min(s.cwnd, s.recovery.window)
    else s.cwnd
  }

  /** TimeUntilSend: may a packet leave now? */
  predicate MaySend(s: Sender, flight: nat) {
    flight < GetCongestionWindow(s)
  }

  function GetMinRtt(s: Sender): int {
    if s.path.minRtt != 0 then s.path.minRtt else s.cfg.initialRtt
  }

  /** A product of a factor and an integer, truncated. */
  function Scaled(gain: real, n: int): int {
    (gain * n as real).Floor
  }

  function GetTargetCongestionWindow(s: Sender, gain: real): nat {
    var bdp := Scaled(s.path.maxBw, GetMinRtt(s));
    var window := Scaled(gain, bdp);
    var window1 := if window == 0 then Scaled(gain, s.cfg.initialCwnd) else window;
    Max(window1, MinimumCwnd(s.cfg))
  }

  function OnPacketSent(s: Sender, flight: nat, pn: nat, appLimited: bool): Sender {
    var s1 := s.(rounds := s.rounds.(lastSent := pn));
    if flight == 0 && appLimited then s1.(probe := s1.probe.(exitingQuiescence := true)) else s1
  }

  function EnterStartupMode(p: Phase): Phase {
    p.(mode := Startup, pacingGain := HIGH_GAIN, cwndGain := HIGH_GAIN)
  }

  /** A random offset out of 0, 2 .. 7. */
  function EntryOffset(draw: nat): nat {
    var offset := draw % (CYCLE_LEN - 1);
    if offset >= 1 then offset + 1 else offset
  }

  function EnterProbeBandwidthMode(s: Sender, now: int, draw: nat): Phase {
    var offset := EntryOffset(draw);
    Phase(ProbeBw, CycleGain(offset), s.cfg.cwndGainConstant, offset, now)
  }

  predicate StartsRound(s: Sender, lastAcked: nat) {
    lastAcked > s.rounds.end
  }

  function UpdateRoundTripCounter(r: Rounds, lastAcked: nat): Rounds {
    if lastAcked > r.end then r.(count := r.count + 1, end := r.lastSent) else r
  }

  /** What the loop over the acknowledged packets gathers; minSample is -1 for none. */
  datatype Gathered = Gathered(maxBw: real, appLimited: bool, minSample: int)

  function Gather(g: Gathered, p: AckedPacket): Gathered {
    Gathered(
      if !p.appLimited || p.bw > g.maxBw then p.filtered else g.maxBw,
      p.appLimited,
      if p.rtt != 0 && (g.minSample < 0 || p.rtt < g.minSample) then p.rtt else g.minSample)
  }

  function GatherAll(g: Gathered, ps: seq<AckedPacket>): Gathered {
    if ps == [] then g else Gather(GatherAll(g, ps[..|ps| - 1]), ps[|ps| - 1])
  }

  function AckedBytes(ps: seq<AckedPacket>): nat {
    if ps == [] then 0 else AckedBytes(ps[..|ps| - 1]) + ps[|ps| - 1].bytes
  }

  function LostBytes(ps: seq<LostPacket>): nat {
    if ps == [] then 0 else LostBytes(ps[..|ps| - 1]) + ps[|ps| - 1].bytes
  }

  function Samples(s: Sender, f: Feedback): Gathered {
    GatherAll(Gathered(s.path.maxBw, s.path.lastAppLimited, -1), f.acked)
  }

  /** The min RTT has gone unconfirmed for ten seconds. */
  predicate MinRttExpired(s: Sender, f: Feedback) {
    Samples(s, f).minSample >= 0 && s.path.minRtt != 0 && f.now > s.path.minRttStamp + MIN_RTT_EXPIRY
  }

  function UpdateBandwidthAndMinRtt(s: Sender, f: Feedback): Path {
    var g := Samples(s, f);
    var p := s.path.(maxBw := g.maxBw, lastAppLimited := g.appLimited,
                    totalAcked := s.path.totalAcked + AckedBytes(f.acked));
    if g.minSample >= 0 && (MinRttExpired(s, f) || g.minSample < p.minRtt || p.minRtt == 0) then
      p.(minRtt := g.minSample, minRttStamp := f.now)
    else p
  }

  /** The recovery state machine; the GROWTH case is also reached from CONSERVATION. */
  function UpdateRecoveryState(s: Sender, lastAcked: nat, hasLosses: bool, isRoundStart: bool): Sender {
    var r := if hasLosses then s.recovery.(endAt := s.rounds.lastSent) else s.recovery;
    match r.state
    case NotInRecovery =>
      if hasLosses then
        s.(recovery := r.(state := Conservation, window := if s.cfg.fixConservation then 0 else r.window),
           rounds := s.rounds.(end := s.rounds.lastSent))
      else s.(recovery := r)
    case _ =>
      var r1 := if r.state == Conservation && isRoundStart then r.(state := Growth) else r;
      s.(recovery := if !hasLosses && lastAcked > r1.endAt then r1.(state := NotInRecovery) else r1)
  }

  /** The part of OnCongestionEvent that needs acknowledged packets. */
  function AbsorbAcks(s: Sender, f: Feedback): Sender
    requires f.acked != []
  {
    var lastAcked := f.acked[|f.acked| - 1].pn;
    var s1 := s.(rounds := UpdateRoundTripCounter(s.rounds, lastAcked));
    var s2 := s1.(path := UpdateBandwidthAndMinRtt(s1, f));
    UpdateRecoveryState(s2, lastAcked, f.lost != [], StartsRound(s, lastAcked))
  }

  predicate IsRoundStart(s: Sender, f: Feedback) {
    f.acked != [] && StartsRound(s, f.acked[|f.acked| - 1].pn)
  }

  predicate AdvancesGainCycle(s: Sender, f: Feedback) {
    var gain := s.phase.pacingGain;
    var afterRtt := f.now - s.phase.cycleStart > GetMinRtt(s);
    if gain < 1.0 && f.priorInFlight <= GetTargetCongestionWindow(s, 1.0) then true
    else if gain > 1.0 && f.lost == [] && f.priorInFlight < GetTargetCongestionWindow(s, gain) then false
    else afterRtt
  }

  function UpdateGainCyclePhase(s: Sender, f: Feedback): Sender {
    if AdvancesGainCycle(s, f) then
      var offset := (s.phase.offset + 1) % CYCLE_LEN;
      s.(phase := s.phase.(offset := offset, cycleStart := f.now, pacingGain := CycleGain(offset)))
    else s
  }

  function CheckIfFullBandwidthReached(s: Sender): Pipe {
    var p := s.pipe;
    if s.path.lastAppLimited then p
    else if s.path.maxBw >= p.lastBw * STARTUP_GROWTH_TARGET then p.(lastBw := s.path.maxBw, stalls := 0)
    else p.(stalls := p.stalls + 1, full := p.full || p.stalls + 1 >= s.cfg.startupRounds)
  }

  function ExitStartup(s: Sender): Sender {
    if s.phase.mode == Startup && s.pipe.full then
      s.(phase := s.phase.(mode := Drain, pacingGain := DRAIN_GAIN, cwndGain := HIGH_GAIN))
    else s
  }

  predicate QueueDrained(s: Sender, f: Feedback) {
    f.inFlight <= GetTargetCongestionWindow(s, 1.0)
  }

  function MaybeExitStartupOrDrain(s: Sender, f: Feedback): Sender {
    var s1 := ExitStartup(s);
    if s1.phase.mode == Drain && QueueDrained(s1, f) then
      s1.(phase := EnterProbeBandwidthMode(s1, f.now, f.draw))
    else s1
  }

  function EnterProbeRtt(s: Sender): Sender {
    s.(phase := s.phase.(mode := ProbeRtt, pacingGain := 1.0), probe := s.probe.(exitAt := 0))
  }

  predicate FlightIsSmall(s: Sender, f: Feedback) {
    f.inFlight < MinimumCwnd(s.cfg) + s.cfg.maxPacketSize
  }

  function StayInProbeRtt(s: Sender, f: Feedback, isRoundStart: bool): Sender {
    if s.probe.exitAt == 0 then
      if FlightIsSmall(s, f) then s.(probe := s.probe.(exitAt := f.now + PROBE_RTT_TIME, roundPassed := false)) else s
    else
      var s1 := if isRoundStart then s.(probe := s.probe.(roundPassed := true)) else s;
      if f.now >= s1.probe.exitAt && s1.probe.roundPassed then
        s1.(path := s1.path.(minRttStamp := f.now),
            phase := if !s1.pipe.full then EnterStartupMode(s1.phase) else EnterProbeBandwidthMode(s1, f.now, f.draw))
      else s1
  }

  function MaybeEnterOrExitProbeRtt(s: Sender, f: Feedback, isRoundStart: bool, minRttExpired: bool): Sender {
    var s1 := if minRttExpired && !s.probe.exitingQuiescence && s.phase.mode != ProbeRtt then EnterProbeRtt(s) else s;
    var s2 := if s1.phase.mode == ProbeRtt then StayInProbeRtt(s1, f, isRoundStart) else s1;
    s2.(probe := s2.probe.(exitingQuiescence := false))
  }

  function CalculateCongestionWindow(s: Sender, bytesAcked: nat, extra: nat): Sender {
    if s.phase.mode == ProbeRtt then s
    else
      var target := GetTargetCongestionWindow(s, s.phase.cwndGain) + extra;
      var cwnd :=
        if s.pipe.full then Min(target, s.cwnd + bytesAcked)
        else if s.cwnd < target || s.path.totalAcked < s.cfg.initialCwnd then s.cwnd + bytesAcked
        else s.cwnd;
      s.(cwnd := Min(Max(cwnd, MinimumCwnd(s.cfg)), s.cfg.maxCwnd))
  }

  function CalculateRecoveryWindow(s: Sender, bytesAcked: nat, bytesLost: nat, inFlight: nat): Sender {
    var r := s.recovery;
    if s.cfg.rateBasedRecovery then s
    else if s.cfg.fixConservation then
      if r.state == NotInRecovery then s
      else if r.window == 0 then
        s.(recovery := r.(window := Max(MinimumCwnd(s.cfg), inFlight + bytesAcked)))
      else
        var w1 := if r.window >= bytesLost then r.window - bytesLost else s.cfg.mss;
        var w2 := if r.state == Growth then w1 + bytesAcked else w1;
        s.(recovery := r.(window := Max(MinimumCwnd(s.cfg), Max(w2, inFlight + bytesAcked))))
    else
      var w := match r.state
               case Conservation => inFlight + bytesAcked
               case Growth => inFlight + 2 * bytesAcked
               case NotInRecovery => r.window;
      s.(recovery := r.(window := Max(MinimumCwnd(s.cfg), w)))
  }

  /** The model update of OnCongestionEvent, up to the handling of PROBE_RTT. */
  function UpdateModel(s: Sender, f: Feedback): Sender {
    var s1 := if f.acked != [] then AbsorbAcks(s, f) else s;
    var s2 := if s1.phase.mode == ProbeBw then UpdateGainCyclePhase(s1, f) else s1;
    var s3 := if IsRoundStart(s, f) && !s2.pipe.full then s2.(pipe := CheckIfFullBandwidthReached(s2)) else s2;
    MaybeExitStartupOrDrain(s3, f)
  }

  predicate ExpiresMinRtt(s: Sender, f: Feedback) {
    f.acked != [] && MinRttExpired(s, f)
  }

  function OnCongestionEvent(s: Sender, f: Feedback): Sender {
    var s1 := MaybeEnterOrExitProbeRtt(UpdateModel(s, f), f, IsRoundStart(s, f), ExpiresMinRtt(s, f));
    var bytesAcked := AckedBytes(f.acked);
    CalculateRecoveryWindow(CalculateCongestionWindow(s1, bytesAcked, f.extra),
                            bytesAcked, LostBytes(f.lost), f.inFlight)
  }

  function Step(s: Sender, e: Event): Sender {
    match e
    case Send(flight, pn, bytes, retransmittable, appLimited) => OnPacketSent(s, flight, pn, appLimited)
    case Congestion(f) => OnCongestionEvent(s, f)
  }

  function Run(s: Sender, es: seq<Event>): Sender {
    if es == [] then s else Step(Run(s, es[..|es| - 1]), es[|es| - 1])
  }

  /** The constructor. */
  function Init(cfg: Config): Sender {
    Sender(cfg,
           Phase(Startup, HIGH_GAIN, HIGH_GAIN, 0, 0),
           Rounds(0, 0, 0),
           Path(0.0, 0, 0, false, 0),
           Pipe(false, 0, 0.0),
           Probe(0, false, false),
           Recovery(NotInRecovery, 0, cfg.maxCwnd),
           cfg.initialCwnd)
  }
}
