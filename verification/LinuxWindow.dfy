/** How fast the kernel sender releases its window: packet conservation and slow
    start during loss recovery. */
module LinuxWindow {
  import opened Words
  import opened LinuxArith
  import opened LinuxBbr

  /** Packets that may be sent at once. */
  function Unused(cwnd: int, flight: int): nat {
    Max(cwnd - flight, 0)
  }

  /** The state in which an ACK reaches bbr_set_cwnd. */
  function AtSetCwnd(w: Width, s: Bbr, rs: RateSample, tp: Sock): Bbr {
    var s1 := UpdateModel(w, s, rs, tp);
    SetTsoSegsGoal(SetPacingRate(s1, Bandwidth(s1), s1.phase.pacingGain, tp), tp)
  }

  /** A saved window comes back with this ACK. */
  predicate Restores(w: Width, s: Bbr, rs: RateSample, tp: Sock) {
    TrackRecovery(AtSetCwnd(w, s, rs, tp), tp).win.restoreCwnd
  }

  predicate Conserves(w: Width, s: Bbr, rs: RateSample, tp: Sock) {
    TrackRecovery(AtSetCwnd(w, s, rs, tp), tp).win.packetConservation
  }

  /** An ACK that delivers packets while `flight` packets are out, some of them lost. */
  predicate Delivers(s: Bbr, flight: nat, rs: RateSample, tp: Sock) {
    && rs.ackedSacked > 0
    && flight == tp.inFlight + rs.ackedSacked + rs.losses
    && flight < HALF && s.win.sndCwnd < HALF
  }

  /** The signed maximum makes the u32 subtraction exact. */
  lemma DeductionIsExact(cwnd: nat, losses: nat)
    requires cwnd < HALF && losses < HALF
    ensures DeductLosses(cwnd, losses) == if losses > 0 then Max(cwnd - losses, 1) else cwnd
  {}

  lemma UpdateBwKeepsWindow(w: Width, s: Bbr, rs: RateSample, tp: Sock)
    ensures UpdateBw(w, s, rs, tp).win.sndCwnd == s.win.sndCwnd
  {
    hide ConsistentRates, TooFewLosses, RateBytesPerSec, S32, Before;
  }

  lemma ModelKeepsWindow(w: Width, s: Bbr, rs: RateSample, tp: Sock)
    ensures AtSetCwnd(w, s, rs, tp).win.sndCwnd == s.win.sndCwnd
  {
    UpdateBwKeepsWindow(w, s, rs, tp);
    hide UpdateBw, TargetCwnd, MinRttExpired, RateBytesPerSec, IsNextCyclePhase,
         FullBwThreshold, QueueDrained, S32, Before;
    var s2 := CheckDrain(CheckFullBwReached(UpdateCyclePhase(UpdateBw(w, s, rs, tp), rs, tp), rs), tp);
    assert s2.win.sndCwnd == s.win.sndCwnd;
    assert UpdateMinRtt(w, s2, rs, tp).win.sndCwnd == s.win.sndCwnd;
  }

  /** The first step: the losses are taken off, or the window follows the flight. */
  lemma RecoverReleases(s: Bbr, flight: nat, rs: RateSample, tp: Sock)
    requires Delivers(s, flight, rs, tp)
    requires !TrackRecovery(s, tp).win.restoreCwnd
    ensures var P := rs.ackedSacked;
            var (s1, cwnd, conserving) := SetCwndToRecoverOrRestore(s, rs, P, tp);
            && conserving == TrackRecovery(s, tp).win.packetConservation
            && cwnd - tp.inFlight <= Unused(s.win.sndCwnd, flight) + P
            && cwnd < 2 * HALF - P
  {}

  /** The second step: slow start adds the packets acknowledged, or less. */
  lemma SlowStartReleases(s: Bbr, cwnd: nat, acked: nat, target: nat, tp: Sock)
    ensures cwnd + acked < U32 ==>
              SlowStart(s, cwnd, acked, target, tp) <= Max(cwnd + acked, BBR_CWND_MIN_TARGET)
    ensures Capped(s, cwnd, tp) <= cwnd
  {}

  lemma SetCwndReleases(s: Bbr, flight: nat, rs: RateSample, bw: nat, gain: nat, tp: Sock)
    requires Delivers(s, flight, rs, tp)
    requires !TrackRecovery(s, tp).win.restoreCwnd
    ensures var P := rs.ackedSacked;
            var cwnd' := SetCwnd(s, rs, P, bw, gain, tp).win.sndCwnd;
            && (TrackRecovery(s, tp).win.packetConservation ==>
                  cwnd' - tp.inFlight <= Unused(s.win.sndCwnd, flight) + P)
            && (cwnd' <= BBR_CWND_MIN_TARGET || cwnd' - tp.inFlight <= Unused(s.win.sndCwnd, flight) + 2 * P)
  {
    var P := rs.ackedSacked;
    RecoverReleases(s, flight, rs, tp);
    var (s1, cwnd, conserving) := SetCwndToRecoverOrRestore(s, rs, P, tp);
    var target := Target(s1, bw, gain);
    SlowStartReleases(s1, cwnd, P, target, tp);
    SlowStartReleases(s1, SlowStart(s1, cwnd, P, target, tp), 0, target, tp);
    hide TargetCwnd, SlowStart, Capped, SetCwndToRecoverOrRestore, TrackRecovery;
  }

  /** The window release bound: an ACK that delivers P packets raises the unused window
      by at most 2 P, and by at most P during packet conservation, unless the floor of
      four packets binds or a saved window is being restored. */
  lemma AckReleases(w: Width, s: Bbr, flight: nat, rs: RateSample, tp: Sock)
    requires Delivers(s, flight, rs, tp)
    requires !Restores(w, s, rs, tp)
    ensures var P := rs.ackedSacked;
            var cwnd' := BbrMain(w, s, rs, tp).win.sndCwnd;
            && (Conserves(w, s, rs, tp) ==> cwnd' - tp.inFlight <= Unused(s.win.sndCwnd, flight) + P)
            && (cwnd' <= BBR_CWND_MIN_TARGET || cwnd' - tp.inFlight <= Unused(s.win.sndCwnd, flight) + 2 * P)
  {
    ModelKeepsWindow(w, s, rs, tp);
    var s1 := AtSetCwnd(w, s, rs, tp);
    SetCwndReleases(s1, flight, rs, Bandwidth(UpdateModel(w, s, rs, tp)), s1.phase.cwndGain, tp);
    hide SetCwnd, TrackRecovery, AtSetCwnd, UpdateModel, SetPacingRate;
  }

  /** An ACK that delivers nothing does not touch the window, so the packets it reports
      lost can all be replaced at once. */
  lemma EmptyAckReleasesLosses(w: Width, s: Bbr, flight: nat, rs: RateSample, tp: Sock)
    requires rs.ackedSacked == 0 && flight == tp.inFlight + rs.losses && flight <= s.win.sndCwnd
    ensures Unused(BbrMain(w, s, rs, tp).win.sndCwnd, tp.inFlight) == Unused(s.win.sndCwnd, flight) + rs.losses
  {
    ModelKeepsWindow(w, s, rs, tp);
    hide UpdateModel, SetPacingRate;
  }

  /** The sender transmits `sent` packets and then handles an ACK. */
  datatype Turn = Turn(sent: nat, rs: RateSample, tp: Sock)

  /** Turns in which only the window gates sending, no saved window returns and the
      floor does not bind. */
  predicate Gated(w: Width, s: Bbr, flight: nat, ts: seq<Turn>, conserving: bool)
    decreases |ts|
  {
    ts != [] ==>
      var t := ts[0];
      var s' := BbrMain(w, s, t.rs, t.tp);
      && t.sent <= Unused(s.win.sndCwnd, flight)
      && Delivers(s, flight + t.sent, t.rs, t.tp)
      && !Restores(w, s, t.rs, t.tp)
      && (if conserving then Conserves(w, s, t.rs, t.tp) else s'.win.sndCwnd > BBR_CWND_MIN_TARGET)
      && Gated(w, s', t.tp.inFlight, ts[1..], conserving)
  }

  function Sent(ts: seq<Turn>): nat {
    if ts == [] then 0 else ts[0].sent + Sent(ts[1..])
  }

  function Delivered(ts: seq<Turn>): nat {
    if ts == [] then 0 else ts[0].rs.ackedSacked + Delivered(ts[1..])
  }

  /** Over any number of ACKs: at most two packets are sent for each one delivered, and
      at most one while packet conservation lasts, beyond the window first unused. */
  lemma {:induction false} RunReleases(w: Width, s: Bbr, flight: nat, ts: seq<Turn>, conserving: bool)
    requires Gated(w, s, flight, ts, conserving)
    ensures Sent(ts) <= Unused(s.win.sndCwnd, flight) + (if conserving then 1 else 2) * Delivered(ts)
    decreases |ts|
  {
    if ts != [] {
      var t := ts[0];
      AckReleases(w, s, flight + t.sent, t.rs, t.tp);
      RunReleases(w, BbrMain(w, s, t.rs, t.tp), t.tp.inFlight, ts[1..], conserving);
      hide BbrMain;
    }
  }
}
