/** The lower half of window control in the kernel sender: the window grows with what is
    delivered, up to its target, and comes back after recovery and PROBE_RTT. */
module LinuxGrowth {
  import opened Words
  import opened BbrModes
  import opened LinuxArith
  import opened LinuxBbr
  import opened LinuxControl

  /** The words of window control hold what this ACK adds up. */
  predicate WindowFits(s: Bbr, rs: RateSample, tp: Sock) {
    && s.win.sndCwnd + rs.ackedSacked < HALF && s.win.priorCwnd + rs.ackedSacked < HALF
    && rs.losses < HALF && tp.inFlight + rs.ackedSacked < HALF
  }

  /** Its target fits, too: the target is that of the state that the ACK leaves. */
  predicate TargetOf(t: Bbr, ideal: nat) {
    var bw := if t.lt.useBw then t.lt.bw else t.model.maxBw;
    && IdealFits(bw, t.rtt.minRtt, t.phase.cwndGain, t.win.tsoSegsGoal)
    && ideal == Ideal(bw, t.rtt.minRtt, t.phase.cwndGain, t.win.tsoSegsGoal)
  }

  /** No loss recovery before or after the ACK. */
  predicate Calm(s: Bbr, tp: Sock) {
    s.win.prevCaState < TCP_CA_RECOVERY && tp.caState < TCP_CA_RECOVERY
  }

  /** The window less the losses that the ACK reports. */
  function Kept(cwnd: nat, losses: nat): nat {
    if losses == 0 then cwnd else Max(cwnd - losses, 1)
  }

  /** The target as a number of packets. */
  function Rounded(t: Bbr): nat {
    TargetCwnd(if t.lt.useBw then t.lt.bw else t.model.maxBw, t.rtt.minRtt, t.phase.cwndGain, t.win.tsoSegsGoal)
  }

  lemma RoundedIsNear(t: Bbr, ideal: nat, n: nat)
    requires TargetOf(t, ideal)
    ensures var c := Rounded(t);
            && (n * U32 <= ideal ==> n <= c)
            && (n * U32 + BBR_UNIT <= ideal ==> n < c)
            && (n * U32 >= ideal + U32 ==> n >= c)
            && (n * U32 >= ideal + 2 * U32 ==> n > c)
  {
    var bw := if t.lt.useBw then t.lt.bw else t.model.maxBw;
    TargetIsNear(bw, t.rtt.minRtt, t.phase.cwndGain, t.win.tsoSegsGoal, n);
    hide TargetCwnd, Ideal, IdealFits;
  }

  /** bbr_set_cwnd outside recovery and PROBE_RTT. */
  lemma CalmSetCwnd(s: Bbr, rs: RateSample, bw: nat, gain: nat, tp: Sock)
    requires rs.ackedSacked > 0 && Calm(s, tp) && !s.win.packetConservation && s.phase.mode != ProbeRtt
    requires WindowFits(s, rs, tp)
    ensures var kept, P := Kept(s.win.sndCwnd, rs.losses), rs.ackedSacked;
            var cwnd := if s.win.restoreCwnd then Max(kept, s.win.priorCwnd) else kept;
            var target := TargetCwnd(bw, s.rtt.minRtt, gain, s.win.tsoSegsGoal);
            var grown := if FullBwReached(s) then Min(cwnd + P, target)
                         else if cwnd < target || tp.delivered < TCP_INIT_CWND then cwnd + P
                         else cwnd;
            SetCwnd(s, rs, P, bw, gain, tp).win.sndCwnd == Min(Max(grown, BBR_CWND_MIN_TARGET), tp.sndCwndClamp)
  {
    Deducted(s.win.sndCwnd, rs.losses);
    var kept, P := Kept(s.win.sndCwnd, rs.losses), rs.ackedSacked;
    var cwnd := if s.win.restoreCwnd then Max(kept, s.win.priorCwnd) else kept;
    CalmRecover(s, rs, tp);
    GrownIs(cwnd, P);
    hide SetCwndToRecoverOrRestore, Kept, Grown, TargetCwnd, DeductLosses;
  }

  lemma GrownIs(cwnd: nat, acked: nat)
    requires cwnd + acked < U32
    ensures Grown(cwnd, acked) == cwnd + acked
  {}

  /** Outside recovery the first step takes the losses off, or takes the saved window. */
  lemma CalmRecover(s: Bbr, rs: RateSample, tp: Sock)
    requires Calm(s, tp) && !s.win.packetConservation && s.win.sndCwnd < HALF && rs.losses < HALF
    ensures var kept := Kept(s.win.sndCwnd, rs.losses);
            var (s1, cwnd, conserving) := SetCwndToRecoverOrRestore(s, rs, rs.ackedSacked, tp);
            && !conserving && cwnd == (if s.win.restoreCwnd then Max(kept, s.win.priorCwnd) else kept)
            && s1.phase == s.phase && s1.rtt == s.rtt && s1.win.tsoSegsGoal == s.win.tsoSegsGoal
            && s1.model == s.model && kept <= s.win.sndCwnd + 1
  {
    Deducted(s.win.sndCwnd, rs.losses);
    hide DeductLosses, FlightPlusAcked;
  }

  lemma PacedFrame(s: Bbr, bw: nat, gain: nat, tp: Sock)
    ensures var t := SetTsoSegsGoal(SetPacingRate(s, bw, gain, tp), tp);
            t == s.(win := s.win.(pacingRate := t.win.pacingRate, tsoSegsGoal := Min(tp.autosize, 0x7F)))
  {
    hide RateBytesPerSec;
  }

  /** Window control, once the model is updated, as numbers of packets. */
  lemma CalmSteps(s: Bbr, rs: RateSample, tp: Sock)
    requires rs.ackedSacked > 0 && Calm(s, tp) && !s.win.packetConservation && s.phase.mode != ProbeRtt
    requires WindowFits(s, rs, tp)
    ensures var t := Control(s, rs, tp);
            var kept, P := Kept(s.win.sndCwnd, rs.losses), rs.ackedSacked;
            var cwnd := if s.win.restoreCwnd then Max(kept, s.win.priorCwnd) else kept;
            var grown := if FullBwReached(s) then Min(cwnd + P, Rounded(t))
                         else if cwnd < Rounded(t) || tp.delivered < TCP_INIT_CWND then cwnd + P
                         else cwnd;
            && t.win.sndCwnd == Min(Max(grown, BBR_CWND_MIN_TARGET), tp.sndCwndClamp)
            && FullBwReached(t) == FullBwReached(s) && t.phase == s.phase && t.lt == s.lt
  {
    hide TargetCwnd, SetCwnd, SetPacingRate, SetTsoSegsGoal;
    ControlPaces(s, rs, tp);
    var bw := Bandwidth(s);
    PacedFrame(s, bw, s.phase.pacingGain, tp);
    CalmSetCwnd(SetTsoSegsGoal(SetPacingRate(s, bw, s.phase.pacingGain, tp), tp), rs, bw, s.phase.cwndGain, tp);
  }

  lemma Deducted(cwnd: nat, losses: nat)
    requires cwnd < HALF && losses < HALF
    ensures DeductLosses(cwnd, losses) == Kept(cwnd, losses)
  {}

  /** Window control outside recovery and PROBE_RTT. */
  lemma CalmWindow(s: Bbr, rs: RateSample, tp: Sock, ideal: nat, n: nat)
    requires rs.ackedSacked > 0 && Calm(s, tp) && !s.win.packetConservation && s.phase.mode != ProbeRtt
    requires WindowFits(s, rs, tp)
    requires TargetOf(Control(s, rs, tp), ideal)
    ensures var cwnd, cwnd' := Kept(s.win.sndCwnd, rs.losses), Control(s, rs, tp).win.sndCwnd;
            && cwnd' <= tp.sndCwndClamp
            && (FullBwReached(s) ==>
                  && (n <= cwnd + rs.ackedSacked && n <= tp.sndCwndClamp && n * U32 <= ideal ==> n <= cwnd')
                  && (cwnd' <= BBR_CWND_MIN_TARGET || cwnd' * U32 < ideal + 2 * U32)
                  && (!s.win.restoreCwnd ==> cwnd' <= Max(cwnd + rs.ackedSacked, BBR_CWND_MIN_TARGET)))
            && (!FullBwReached(s) && !s.win.restoreCwnd ==>
                  && (cwnd * U32 + BBR_UNIT <= ideal || tp.delivered < TCP_INIT_CWND ==>
                        cwnd' == Min(Max(cwnd + rs.ackedSacked, BBR_CWND_MIN_TARGET), tp.sndCwndClamp))
                  && (cwnd * U32 >= ideal + U32 && tp.delivered >= TCP_INIT_CWND ==>
                        cwnd' == Min(Max(cwnd, BBR_CWND_MIN_TARGET), tp.sndCwndClamp)))
  {
    var t := Control(s, rs, tp);
    CalmSteps(s, rs, tp);
    RoundedIsNear(t, ideal, n);
    RoundedIsNear(t, ideal, Kept(s.win.sndCwnd, rs.losses));
    RoundedIsNear(t, ideal, t.win.sndCwnd);
    hide Control, Rounded, TargetOf, WindowFits, FullBwReached;
  }

  // ----- Runs -----

  /** Packets are conserved in recovery only. */
  ghost predicate Quiet(s: Bbr) {
    s.win.packetConservation ==> s.win.prevCaState >= TCP_CA_RECOVERY
  }

  lemma ControlKeepsQuiet(s: Bbr, rs: RateSample, tp: Sock)
    requires Quiet(s)
    ensures Quiet(Control(s, rs, tp))
  {
    hide RateBytesPerSec, TargetCwnd, DeductLosses;
  }

  lemma StepKeepsQuiet(w: Width, s: Bbr, e: Event)
    requires Quiet(s)
    ensures Quiet(Step(w, s, e))
  {
    match e
    case Ack(rs, tp) =>
      ModelKeepsRate(w, s, rs, tp);
      ControlKeepsQuiet(UpdateModel(w, s, rs, tp), rs, tp);
      hide UpdateModel, Control;
    case CaState(newState, tp) =>
      LinuxWrap.LtFrame(w, AtTimeout(s), 1, false, tp);
      hide LtBwSampling;
    case _ =>
      hide RateBytesPerSec;
  }

  lemma {:induction false} RunKeepsQuiet(w: Width, s: Bbr, es: seq<Event>)
    requires Quiet(s)
    ensures Quiet(Run(w, s, es))
  {
    if es != [] {
      RunKeepsQuiet(w, s, es[..|es| - 1]);
      StepKeepsQuiet(w, Run(w, s, es[..|es| - 1]), es[|es| - 1]);
      hide Step, Quiet;
    }
  }

  /** The words of window control hold what an ACK at the end of a run adds up, with the
      window that the model may have saved. */
  predicate AckFits(w: Width, s: Bbr, rs: RateSample, tp: Sock) {
    WindowFits(UpdateModel(w, s, rs, tp), rs, tp)
  }

  /** What an ACK of P packets makes of the window. With a full pipe it leaves every
      window n up to the old one, less its losses, plus P, up to the clamp and up to
      gain * BDP and three segment goals; and no larger one than that but for the
      rounding. Before, the window grows by exactly P below the target, and not above. */
  predicate Grew(t: Bbr, rs: RateSample, tp: Sock, t': Bbr, ideal: nat, n: nat) {
    var cwnd, cwnd', P := Kept(t.win.sndCwnd, rs.losses), t'.win.sndCwnd, rs.ackedSacked;
    && (t'.model.fullBwCnt >= BBR_FULL_BW_CNT ==>
          && (n <= cwnd + P && n <= tp.sndCwndClamp && n * U32 <= ideal ==> n <= cwnd')
          && (cwnd' <= BBR_CWND_MIN_TARGET || cwnd' * U32 < ideal + 2 * U32))
    && (t'.model.fullBwCnt < BBR_FULL_BW_CNT && !t.win.restoreCwnd && t.phase.mode != ProbeRtt ==>
          && (cwnd * U32 + BBR_UNIT <= ideal || tp.delivered < TCP_INIT_CWND ==>
                cwnd' == Min(Max(cwnd + P, BBR_CWND_MIN_TARGET), tp.sndCwndClamp))
          && (cwnd * U32 >= ideal + U32 && tp.delivered >= TCP_INIT_CWND ==>
                cwnd' == Min(Max(cwnd, BBR_CWND_MIN_TARGET), tp.sndCwndClamp)))
  }

  /** An ACK that delivers, outside recovery and, after it, PROBE_RTT; no word wraps. */
  predicate GrowingAck(w: Width, t: Bbr, rs: RateSample, tp: Sock, t': Bbr, ideal: nat) {
    && rs.ackedSacked > 0 && Calm(t, tp) && t'.phase.mode != ProbeRtt
    && AckFits(w, t, rs, tp) && TargetOf(t', ideal)
  }

  lemma StepGrows(w: Width, t: Bbr, rs: RateSample, tp: Sock, ideal: nat, n: nat)
    requires Quiet(t) && GrowingAck(w, t, rs, tp, BbrMain(w, t, rs, tp), ideal)
    ensures var t' := BbrMain(w, t, rs, tp);
            Quiet(t') && t'.win.prevCaState == tp.caState && Grew(t, rs, tp, t', ideal, n)
  {
    var s5 := UpdateModel(w, t, rs, tp);
    ModelKeepsRate(w, t, rs, tp);
    NoRestore(w, t, rs, tp);
    ControlPaces(s5, rs, tp);
    ControlKeepsQuiet(s5, rs, tp);
    ControlTracks(s5, rs, tp);
    hide UpdateModel, Control, TargetOf, WindowFits, StartsRound;
    CalmWindow(s5, rs, tp, ideal, n);
  }

  /** So in every run. */
  lemma AckGrows(w: Width, s: Bbr, es: seq<Event>, rs: RateSample, tp: Sock, ideal: nat, n: nat)
    requires Fresh(s)
    requires GrowingAck(w, Run(w, s, es), rs, tp, Run(w, s, es + [Ack(rs, tp)]), ideal)
    ensures Grew(Run(w, s, es), rs, tp, Run(w, s, es + [Ack(rs, tp)]), ideal, n)
  {
    assert Quiet(s);
    hide Fresh, GrowingAck, Grew, Quiet, BbrMain, Run;
    RunKeepsQuiet(w, s, es);
    RunAppends(w, s, es, Ack(rs, tp));
    StepGrows(w, Run(w, s, es), rs, tp, ideal, n);
  }

  lemma ControlTracks(s: Bbr, rs: RateSample, tp: Sock)
    ensures rs.ackedSacked > 0 ==> Control(s, rs, tp).win.prevCaState == tp.caState
  {
    hide RateBytesPerSec, TargetCwnd, DeductLosses;
  }

  /** Only the end of PROBE_RTT asks for a saved window while the model is updated. */
  lemma NoRestore(w: Width, t: Bbr, rs: RateSample, tp: Sock)
    ensures t.phase.mode != ProbeRtt && !t.win.restoreCwnd ==> !UpdateModel(w, t, rs, tp).win.restoreCwnd
  {
    EarlyWin(w, t, rs, tp);
    LinuxWrap.FrameToMinRtt(w, t, rs, tp);
    hide UpdateBw, UpdateCyclePhase, CheckFullBwReached, CheckDrain, UpdateMinRtt, StartsRound;
    MinRttWin(w, CheckDrain(CheckFullBwReached(UpdateCyclePhase(UpdateBw(w, t, rs, tp), rs, tp), rs), tp), rs, tp);
  }

  // ----- The window reaches its target -----

  function Delivered(es: seq<Event>): nat {
    if es == [] then 0
    else Delivered(es[..|es| - 1]) + (if es[|es| - 1].Ack? then es[|es| - 1].rs.ackedSacked else 0)
  }

  /** Such an ACK, loss-free, with a full pipe, a target and a clamp of at least n. */
  ghost predicate Fills(w: Width, s: Bbr, e: Event, s': Bbr, n: nat) {
    && e.Ack? && e.rs.losses == 0 && n <= e.tp.sndCwndClamp
    && s'.model.fullBwCnt >= BBR_FULL_BW_CNT
    && exists ideal: nat :: n * U32 <= ideal && GrowingAck(w, s, e.rs, e.tp, s', ideal)
  }

  ghost predicate Filling(w: Width, t: Bbr, es: seq<Event>, n: nat) {
    es == [] ||
    var front := es[..|es| - 1];
    Filling(w, t, front, n) && Fills(w, Run(w, t, front), es[|es| - 1], Run(w, t, es), n)
  }

  lemma OneFills(w: Width, s: Bbr, e: Event, n: nat, m: nat)
    requires Quiet(s) && Fills(w, s, e, Step(w, s, e), n)
    requires m <= n && m <= s.win.sndCwnd + e.rs.ackedSacked
    ensures m <= Step(w, s, e).win.sndCwnd
  {
    var ideal: nat :| n * U32 <= ideal && GrowingAck(w, s, e.rs, e.tp, Step(w, s, e), ideal);
    hide BbrMain, GrowingAck, Quiet;
    StepGrows(w, s, e.rs, e.tp, ideal, m);
  }

  /** Over any number of them the window grows by all that is delivered, until it has
      reached n. */
  lemma {:induction false} WindowReaches(w: Width, t: Bbr, es: seq<Event>, n: nat)
    requires Quiet(t) && Filling(w, t, es, n)
    ensures Min(n, t.win.sndCwnd + Delivered(es)) <= Run(w, t, es).win.sndCwnd
  {
    hide Step, Quiet, Fills, Run, Filling, Delivered;
    if es == [] {
      NoneFilled(w, t);
    } else {
      var front, e := es[..|es| - 1], es[|es| - 1];
      LastFills(w, t, es, n);
      WindowReaches(w, t, front, n);
      RunKeepsQuiet(w, t, front);
      OneFills(w, Run(w, t, front), e, n, Min(n, t.win.sndCwnd + Delivered(es)));
    }
  }

  lemma NoneFilled(w: Width, t: Bbr)
    ensures Run(w, t, []) == t && Delivered([]) == 0
  {}

  lemma LastFills(w: Width, t: Bbr, es: seq<Event>, n: nat)
    requires es != [] && Filling(w, t, es, n)
    ensures var front, e := es[..|es| - 1], es[|es| - 1];
            && Filling(w, t, front, n) && Run(w, t, es) == Step(w, Run(w, t, front), e)
            && Fills(w, Run(w, t, front), e, Run(w, t, es), n)
            && e.Ack? && Delivered(es) == Delivered(front) + e.rs.ackedSacked
  {
    hide Step, GrowingAck;
  }

  // ----- Recovery and PROBE_RTT -----

  /** A window comes back with this ACK: recovery is over, or a restore is pending. */
  predicate Returns(s: Bbr, tp: Sock) {
    && tp.caState < TCP_CA_RECOVERY
    && (s.win.prevCaState >= TCP_CA_RECOVERY || (s.win.restoreCwnd && !s.win.packetConservation))
  }

  lemma ReturnSetCwnd(s: Bbr, rs: RateSample, bw: nat, gain: nat, tp: Sock)
    requires rs.ackedSacked > 0 && Returns(s, tp) && s.phase.mode != ProbeRtt && WindowFits(s, rs, tp)
    ensures var cwnd' := SetCwnd(s, rs, rs.ackedSacked, bw, gain, tp).win.sndCwnd;
            var target := TargetCwnd(bw, s.rtt.minRtt, gain, s.win.tsoSegsGoal);
            cwnd' >= Min(if FullBwReached(s) then Min(s.win.priorCwnd, target) else s.win.priorCwnd, tp.sndCwndClamp)
  {
    var (s1, cwnd, conserving) := SetCwndToRecoverOrRestore(s, rs, rs.ackedSacked, tp);
    ReturnRecover(s, rs, tp);
    GrownIs(cwnd, rs.ackedSacked);
    hide SetCwndToRecoverOrRestore, Grown, TargetCwnd;
  }

  lemma ReturnRecover(s: Bbr, rs: RateSample, tp: Sock)
    requires Returns(s, tp) && WindowFits(s, rs, tp)
    ensures var (s1, cwnd, conserving) := SetCwndToRecoverOrRestore(s, rs, rs.ackedSacked, tp);
            && !conserving && s.win.priorCwnd <= cwnd && cwnd + rs.ackedSacked < U32
            && s1.phase == s.phase && s1.rtt == s.rtt && s1.win.tsoSegsGoal == s.win.tsoSegsGoal
            && s1.model == s.model
  {
    Deducted(s.win.sndCwnd, rs.losses);
    hide DeductLosses, FlightPlusAcked;
  }

  /** During recovery: packets are conserved from the first ACK in it, which leaves room
      for what it acknowledges; in PROBE_RTT at most four packets are left. */
  lemma HardSetCwnd(s: Bbr, rs: RateSample, bw: nat, gain: nat, tp: Sock)
    requires rs.ackedSacked > 0 && WindowFits(s, rs, tp)
    ensures var t := SetCwnd(s, rs, rs.ackedSacked, bw, gain, tp);
            && (s.phase.mode == ProbeRtt ==> t.win.sndCwnd <= BBR_CWND_MIN_TARGET)
            && (tp.caState == TCP_CA_RECOVERY && s.win.prevCaState != TCP_CA_RECOVERY ==>
                  && t.win.packetConservation
                  && (s.phase.mode != ProbeRtt && !s.win.restoreCwnd ==>
                        t.win.sndCwnd == Min(tp.inFlight + rs.ackedSacked, tp.sndCwndClamp)))
            && (t.win.packetConservation && s.phase.mode != ProbeRtt ==>
                  t.win.sndCwnd >= Min(tp.inFlight + rs.ackedSacked, tp.sndCwndClamp))
            && (s.win.prevCaState >= TCP_CA_RECOVERY && tp.caState < TCP_CA_RECOVERY ==> !t.win.packetConservation)
            && (t.win.packetConservation && !s.win.packetConservation ==>
                  tp.caState == TCP_CA_RECOVERY && s.win.prevCaState != TCP_CA_RECOVERY)
  {
    hide DeductLosses, TargetCwnd;
  }

  /** What an ACK that delivers makes of recovery: see HardSetCwnd. */
  lemma AckInRecovery(w: Width, t: Bbr, rs: RateSample, tp: Sock)
    requires rs.ackedSacked > 0 && AckFits(w, t, rs, tp)
    ensures var t' := BbrMain(w, t, rs, tp);
            && (t'.phase.mode == ProbeRtt ==> t'.win.sndCwnd <= BBR_CWND_MIN_TARGET)
            && (tp.caState == TCP_CA_RECOVERY && t.win.prevCaState != TCP_CA_RECOVERY ==>
                  && t'.win.packetConservation
                  && (t'.phase.mode != ProbeRtt && t.phase.mode != ProbeRtt && !t.win.restoreCwnd ==>
                        t'.win.sndCwnd == Min(tp.inFlight + rs.ackedSacked, tp.sndCwndClamp)))
            && (t'.win.packetConservation && t'.phase.mode != ProbeRtt ==>
                  t'.win.sndCwnd >= Min(tp.inFlight + rs.ackedSacked, tp.sndCwndClamp))
            && (t.win.prevCaState >= TCP_CA_RECOVERY && tp.caState < TCP_CA_RECOVERY ==> !t'.win.packetConservation)
            && (t'.win.packetConservation && !t.win.packetConservation ==>
                  tp.caState == TCP_CA_RECOVERY && t.win.prevCaState != TCP_CA_RECOVERY)
  {
    var s5 := UpdateModel(w, t, rs, tp);
    ModelKeepsRate(w, t, rs, tp);
    NoRestore(w, t, rs, tp);
    ControlPaces(s5, rs, tp);
    PacedFrame(s5, Bandwidth(s5), s5.phase.pacingGain, tp);
    hide SetCwnd, SetPacingRate, SetTsoSegsGoal, UpdateModel, StartsRound, Bandwidth, TargetCwnd;
    HardSetCwnd(SetTsoSegsGoal(SetPacingRate(s5, Bandwidth(s5), s5.phase.pacingGain, tp), tp), rs, Bandwidth(s5),
                s5.phase.cwndGain, tp);
  }

  /** Only a save outside recovery and PROBE_RTT lowers the saved window. */
  lemma StepKeepsPrior(w: Width, s: Bbr, e: Event)
    requires !e.Ssthresh?
    ensures Step(w, s, e).win.priorCwnd >= s.win.priorCwnd
  {
    match e
    case Ack(rs, tp) =>
      PriorRises(w, s, rs, tp);
      ControlKeepsPrior(UpdateModel(w, s, rs, tp), rs, tp);
      hide UpdateModel, Control;
    case CaState(newState, tp) =>
      LinuxWrap.LtFrame(w, AtTimeout(s), 1, false, tp);
      hide LtBwSampling;
    case _ =>
      hide RateBytesPerSec;
  }

  lemma ControlKeepsPrior(s: Bbr, rs: RateSample, tp: Sock)
    ensures Control(s, rs, tp).win.priorCwnd == s.win.priorCwnd
  {
    hide RateBytesPerSec, TargetCwnd, DeductLosses;
  }

  lemma PriorRises(w: Width, s: Bbr, rs: RateSample, tp: Sock)
    ensures UpdateModel(w, s, rs, tp).win.priorCwnd >= s.win.priorCwnd
  {
    EarlyWin(w, s, rs, tp);
    var s4 := CheckDrain(CheckFullBwReached(UpdateCyclePhase(UpdateBw(w, s, rs, tp), rs, tp), rs), tp);
    MinRttKeepsPrior(w, s4, rs, tp);
    hide UpdateBw, UpdateCyclePhase, CheckFullBwReached, CheckDrain, StartsRound, UpdateMinRtt;
  }

  lemma MinRttKeepsPrior(w: Width, s: Bbr, rs: RateSample, tp: Sock)
    ensures UpdateMinRtt(w, s, rs, tp).win.priorCwnd >= s.win.priorCwnd
  {
    hide MinRttExpired, StayInProbeRtt;
    StayKeepsPrior(w, TrackMinRtt(w, s, rs, tp), tp);
    StayKeepsPrior(w, EnterProbeRtt(TrackMinRtt(w, s, rs, tp)), tp);
  }

  lemma StayKeepsPrior(w: Width, s: Bbr, tp: Sock)
    ensures StayInProbeRtt(w, s, tp).win.priorCwnd == s.win.priorCwnd
  {
    hide After, MsecsToJiffies;
  }

  lemma {:induction false} RunKeepsPrior(w: Width, s: Bbr, es: seq<Event>)
    requires forall e :: e in es ==> !e.Ssthresh?
    ensures Run(w, s, es).win.priorCwnd >= s.win.priorCwnd
  {
    if es != [] {
      RunKeepsPrior(w, s, es[..|es| - 1]);
      assert es[|es| - 1] in es;
      StepKeepsPrior(w, Run(w, s, es[..|es| - 1]), es[|es| - 1]);
      hide Step;
    }
  }

  /** The window saved when recovery begins comes back with the first ACK after it, after
      any other events: up to the clamp, and with a full pipe up to the target. */
  lemma SavedWindowReturns(w: Width, s: Bbr, es: seq<Event>, rs: RateSample, tp: Sock, ideal: nat, n: nat)
    requires Calm(s, tp) && s.phase.mode != ProbeRtt && forall e :: e in es ==> !e.Ssthresh?
    requires var t := Run(w, SaveCwnd(s), es);
             var t' := Step(w, t, Ack(rs, tp));
             && rs.ackedSacked > 0 && t.win.prevCaState >= TCP_CA_RECOVERY
             && t'.phase.mode != ProbeRtt && AckFits(w, t, rs, tp) && TargetOf(t', ideal)
             && (t'.model.fullBwCnt >= BBR_FULL_BW_CNT ==> n * U32 <= ideal)
    requires n <= s.win.sndCwnd && n <= tp.sndCwndClamp
    ensures Step(w, Run(w, SaveCwnd(s), es), Ack(rs, tp)).win.sndCwnd >= n
  {
    var t := Run(w, SaveCwnd(s), es);
    RunKeepsPrior(w, SaveCwnd(s), es);
    hide Run;
    ReturnsByAck(w, t, rs, tp, ideal, n);
  }

  lemma ReturnsByAck(w: Width, t: Bbr, rs: RateSample, tp: Sock, ideal: nat, n: nat)
    requires rs.ackedSacked > 0 && t.win.prevCaState >= TCP_CA_RECOVERY && tp.caState < TCP_CA_RECOVERY
    requires AckFits(w, t, rs, tp) && n <= t.win.priorCwnd && n <= tp.sndCwndClamp
    requires var t' := BbrMain(w, t, rs, tp);
             && t'.phase.mode != ProbeRtt && TargetOf(t', ideal)
             && (t'.model.fullBwCnt >= BBR_FULL_BW_CNT ==> n * U32 <= ideal)
    ensures BbrMain(w, t, rs, tp).win.sndCwnd >= n
  {
    var s5 := UpdateModel(w, t, rs, tp);
    ModelKeepsRate(w, t, rs, tp);
    PriorRises(w, t, rs, tp);
    ControlPaces(s5, rs, tp);
    PacedFrame(s5, Bandwidth(s5), s5.phase.pacingGain, tp);
    hide SetCwnd, SetPacingRate, SetTsoSegsGoal, UpdateModel, StartsRound, TargetCwnd;
    ReturnSetCwnd(SetTsoSegsGoal(SetPacingRate(s5, Bandwidth(s5), s5.phase.pacingGain, tp), tp), rs, Bandwidth(s5),
                  s5.phase.cwndGain, tp);
    RoundedIsNear(BbrMain(w, t, rs, tp), ideal, n);
  }
}
