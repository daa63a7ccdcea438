/** Length and spacing of PROBE_RTT in the kernel sender, over runs with a monotone
    clock and a monotone delivered count. */
module LinuxProbeRtt {
  import opened Words
  import opened BbrModes
  import opened LinuxArith
  import opened LinuxBbr
  import LinuxWrap
  import MinFilter

  /** When, and at which delivered count, the flight first fitted the PROBE_RTT window. */
  datatype Moment = Never | At(time: int, delivered: int)

  /** History, on unbounded counters. drained: the moment the current stay reached its
      target; reached: an ACK since then had a prior_delivered of at least that moment's
      count; passed: and of at least next_rtt_delivered, so that a round began; exit: the
      end of the last stay; clock and delivered: the newest values seen; stamp and next:
      what min_rtt_stamp and next_rtt_delivered stand for; idle: transmission has started
      from idle since the last ACK. */
  datatype Visit = Visit(drained: Moment, reached: bool, passed: bool, exit: Moment, clock: int, delivered: int,
                         stamp: int, next: int, idle: bool)

  function Start(s: Bbr): Visit {
    Visit(Never, false, false, Never, s.rtt.stamp, s.model.nextRttDelivered, s.rtt.stamp, s.model.nextRttDelivered,
          false)
  }

  // ----- Events on unbounded counters, as a machine of either width sees them -----

  function ImageSock(w: Width, tp: Sock): Sock {
    if w.Bits32? then LinuxWrap.TruncSock(tp) else tp
  }

  function ImageSample(w: Width, rs: RateSample): RateSample {
    if w.Bits32? then LinuxWrap.TruncSample(rs) else rs
  }

  function ImageEvent(w: Width, e: Event): Event {
    if w.Bits32? then LinuxWrap.TruncEvent(e) else e
  }

  /** The state after the events, from a state on unbounded counters. */
  function Handled(w: Width, s: Bbr, es: seq<Event>): Bbr {
    if es == [] then (if w.Bits32? then LinuxWrap.Trunc(s) else s)
    else Step(w, Handled(w, s, es[..|es| - 1]), ImageEvent(w, es[|es| - 1]))
  }

  lemma {:induction false} HandledIsRun(s: Bbr, es: seq<Event>)
    ensures Handled(Exact, s, es) == Run(Exact, s, es)
    ensures Handled(Bits32, s, es) == Run(Bits32, LinuxWrap.Trunc(s), LinuxWrap.TruncEvents(es))
  {
    if es != [] {
      var front := es[..|es| - 1];
      HandledIsRun(s, front);
      var truncs := LinuxWrap.TruncEvents(es);
      assert truncs[..|truncs| - 1] == LinuxWrap.TruncEvents(front);
      hide Step;
    }
  }

  // ----- The history -----

  predicate Monotone(v: Visit, e: Event) {
    e.Ack? ==> e.tp.now >= v.clock && e.tp.delivered >= v.delivered
  }

  /** What a 32-bit machine compares lies within half the counter range. */
  predicate Comparable(w: Width, s: Bbr, v: Visit, e: Event) {
    w.Bits32? && e.Ack? ==>
      && (ValidSample(e.rs) ==> LinuxWrap.Near(e.rs.priorDelivered, v.next))
      && LinuxWrap.Near(v.stamp + BBR_MIN_RTT_WIN_SEC * s.hz, e.tp.now)
      && (s.phase.mode == ProbeRtt && v.drained.At? ==> LinuxWrap.Near(v.drained.time + MinStay(s.hz), e.tp.now))
  }

  /** The window of PROBE_RTT is drained as this ACK is handled; an ACK whose stamp would
      be the mark for none does not count. */
  function Look(w: Width, hz: Hz, v: Visit, tp: Sock): Visit {
    if tp.inFlight <= BBR_CWND_MIN_TARGET && Wrap(w, tp.now + MinStay(hz)) != 0 then
      v.(drained := At(tp.now, tp.delivered), reached := false, passed := false)
    else v
  }

  function Reaches(v: Visit, rs: RateSample): bool {
    v.drained.At? && ValidSample(rs) && rs.priorDelivered >= v.drained.delivered
  }

  predicate TakesRtt(w: Width, s: Bbr, rs: RateSample, tp: Sock) {
    rs.rttUs >= 0 && (rs.rttUs <= s.rtt.minRtt || MinRttExpired(w, s, ImageSock(w, tp)))
  }

  /** This ACK moves min_rtt_stamp, or next_rtt_delivered. */
  predicate MovesStamp(w: Width, s: Bbr, rs: RateSample, tp: Sock, s': Bbr) {
    (s.phase.mode == ProbeRtt && s'.phase.mode != ProbeRtt) || TakesRtt(w, s, rs, tp)
  }

  predicate Schedules(s: Bbr, tp: Sock, s': Bbr) {
    s'.phase.mode == ProbeRtt && (s.phase.mode == ProbeRtt ==> s.rtt.doneStamp == 0) &&
    tp.inFlight <= BBR_CWND_MIN_TARGET
  }

  predicate MovesNext(w: Width, s: Bbr, rs: RateSample, tp: Sock, s': Bbr) {
    || StartsRound(w, s, ImageSample(w, rs))
    || Schedules(s, tp, s')
    || (rs.ackedSacked > 0 && EntersRecovery(s, tp))
  }

  /** A round begins in the stay, after its moment. */
  predicate Passes(v: Visit, rs: RateSample) {
    v.drained.At? && ValidSample(rs) && rs.priorDelivered >= v.next
  }

  function Noted(v: Visit, tp: Sock, stamp: bool, next: bool): Visit {
    v.(clock := tp.now, delivered := tp.delivered, idle := false,
       stamp := if stamp then tp.now else v.stamp, next := if next then tp.delivered else v.next)
  }

  /** The stay of the history after an ACK that leads from s to s'. */
  function Visited(w: Width, s: Bbr, rs: RateSample, tp: Sock, s': Bbr, v: Visit): Visit {
    if s.phase.mode != ProbeRtt then
      if s'.phase.mode == ProbeRtt then Look(w, s.hz, v.(drained := Never, reached := false), tp) else v
    else
      var v1 := if v.drained.Never? then Look(w, s.hz, v, tp) else v.(reached := v.reached || Reaches(v, rs));
      if s'.phase.mode == ProbeRtt then v1 else v1.(exit := At(tp.now, tp.delivered))
  }

  /** The history after an event that leads from s to s'. */
  function Follow(w: Width, s: Bbr, e: Event, s': Bbr, v: Visit): Visit {
    if e.Ack? then
      var v0 := v.(passed := v.passed || Passes(v, e.rs));
      var v1 := Noted(v0, e.tp, MovesStamp(w, s, e.rs, e.tp, s'), MovesNext(w, s, e.rs, e.tp, s'));
      Visited(w, s, e.rs, e.tp, s', v1)
    else if e.TxStart? && e.appLimited then v.(idle := true)
    else v
  }

  function Story(w: Width, s: Bbr, es: seq<Event>): Visit {
    if es == [] then Start(s)
    else
      var front, e := es[..|es| - 1], es[|es| - 1];
      Follow(w, Handled(w, s, front), e, Handled(w, s, es), Story(w, s, front))
  }

  /** Clock and delivered count never go back, and compared values are near. */
  predicate MonotoneRun(w: Width, s: Bbr, es: seq<Event>) {
    es == [] ||
    var front, e := es[..|es| - 1], es[|es| - 1];
    && MonotoneRun(w, s, front)
    && Monotone(Story(w, s, front), e)
    && Comparable(w, Handled(w, s, front), Story(w, s, front), e)
  }

  /** The jiffies that PROBE_RTT must last. */
  function MinStay(hz: Hz): nat {
    MsecsToJiffies(hz, BBR_PROBE_RTT_MODE_MS)
  }

  lemma MinStayIs200Ms(hz: Hz)
    ensures MinStay(hz) * 1000 >= 200 * hz && MinStay(hz) >= 1
  {}

  // ----- What the fields say about the history -----

  /** Stamps and counts are the images of those of the history. */
  ghost predicate Shadowed(w: Width, s: Bbr, v: Visit) {
    && s.rtt.stamp == Wrap(w, v.stamp) && s.model.nextRttDelivered == Wrap(w, v.next)
    && v.stamp <= v.clock && v.next <= v.delivered
    && (v.exit.At? ==> v.exit.time <= v.stamp)
    && s.rtt.idleRestart == v.idle
  }

  ghost predicate Pending(w: Width, s: Bbr, v: Visit) {
    && (s.rtt.doneStamp != 0 <==> v.drained.At?)
    && (v.drained.At? ==>
          && s.rtt.doneStamp == Wrap(w, v.drained.time + MinStay(s.hz))
          && v.drained.delivered <= v.next
          && (s.rtt.roundDone <==> v.passed) && (v.passed ==> v.reached))
  }

  ghost predicate Tells(w: Width, s: Bbr, v: Visit) {
    Shadowed(w, s, v) && (s.phase.mode == ProbeRtt ==> Pending(w, s, v))
  }

  /** The comparisons of a machine of either width, on the history. */
  lemma ExpiresIff(w: Width, s: Bbr, tp: Sock, stamp: int)
    requires s.rtt.stamp == Wrap(w, stamp)
    requires w.Bits32? ==> LinuxWrap.Near(stamp + BBR_MIN_RTT_WIN_SEC * s.hz, tp.now)
    ensures MinRttExpired(w, s, ImageSock(w, tp)) <==> tp.now > stamp + BBR_MIN_RTT_WIN_SEC * s.hz
  {
    if w.Bits32? {
      LinuxWrap.DistanceTruncs(stamp, BBR_MIN_RTT_WIN_SEC * s.hz, tp.now);
      hide S32;
    }
  }

  lemma AfterIff(w: Width, now: int, done: int)
    requires w.Bits32? ==> LinuxWrap.Near(done, now)
    ensures After(w, Wrap(w, now), Wrap(w, done)) <==> now > done
  {
    if w.Bits32? {
      SDiffAgrees(done, now);
    }
  }

  lemma StartsRoundIff(w: Width, s: Bbr, rs: RateSample, next: int)
    requires s.model.nextRttDelivered == Wrap(w, next)
    requires w.Bits32? && ValidSample(rs) ==> LinuxWrap.Near(rs.priorDelivered, next)
    ensures StartsRound(w, s, ImageSample(w, rs)) <==> ValidSample(rs) && rs.priorDelivered >= next
  {
    if w.Bits32? && ValidSample(rs) {
      SDiffAgrees(rs.priorDelivered, next);
    }
  }

  // ----- One event -----

  /** The state in which an ACK looks at PROBE_RTT. */
  function BeforeMinRtt(w: Width, s: Bbr, rs: RateSample, tp: Sock): Bbr {
    var s1 := UpdateCyclePhase(UpdateBw(w, s, rs, tp), rs, tp);
    CheckDrain(CheckFullBwReached(s1, rs), tp)
  }

  lemma UpToMinRtt(w: Width, s: Bbr, rs: RateSample, tp: Sock)
    ensures var s4 := BeforeMinRtt(w, s, rs, tp);
            && s4.rtt == s.rtt && s4.hz == s.hz && s4.win.prevCaState == s.win.prevCaState
            && (s4.phase.mode == ProbeRtt <==> s.phase.mode == ProbeRtt)
            && s4.model.roundStart == StartsRound(w, s, rs)
            && s4.model.nextRttDelivered == if StartsRound(w, s, rs) then tp.delivered else s.model.nextRttDelivered
  {
    LinuxWrap.FrameToMinRtt(w, s, rs, tp);
    LinuxWrap.LtFrame(w, CountRound(w, s, rs, tp), rs.losses, rs.isAppLimited, tp);
    hide LtBwSampling, IsNextCyclePhase, FullBwThreshold, QueueDrained, Before;
  }

  lemma ControlFrame(s: Bbr, rs: RateSample, tp: Sock)
    ensures var s' := Control(s, rs, tp);
            && s'.rtt == s.rtt && s'.hz == s.hz && s'.phase == s.phase
            && s'.model.nextRttDelivered ==
               if rs.ackedSacked > 0 && EntersRecovery(s, tp) then tp.delivered else s.model.nextRttDelivered
  {}

  lemma MinRttFrame(w: Width, s: Bbr, rs: RateSample, tp: Sock)
    ensures var s' := UpdateMinRtt(w, s, rs, tp); s'.hz == s.hz && s'.win.prevCaState == s.win.prevCaState
  {}

  lemma DoneStampIs(w: Width, hz: Hz, tp: Sock)
    ensures DoneStamp(w, hz, ImageSock(w, tp)) == Wrap(w, tp.now + MinStay(hz))
  {
    WrapSum(tp.now, MinStay(hz));
    hide MsecsToJiffies;
  }

  /** What UpdateMinRtt does outside PROBE_RTT. */
  lemma EntryEffect(w: Width, s: Bbr, rs: RateSample, tp: Sock)
    requires s.phase.mode != ProbeRtt
    ensures var tp' := ImageSock(w, tp);
            var s', drained := UpdateMinRtt(w, s, rs, tp'), tp.inFlight <= BBR_CWND_MIN_TARGET;
            && (s'.phase.mode == ProbeRtt <==> MinRttExpired(w, s, tp') && !s.rtt.idleRestart)
            && !s'.rtt.idleRestart
            && s'.rtt.stamp == (if TakesRtt(w, s, rs, tp) then Wrap(w, tp.now) else s.rtt.stamp)
            && s'.model.nextRttDelivered ==
               (if s'.phase.mode == ProbeRtt && drained then Wrap(w, tp.delivered) else s.model.nextRttDelivered)
            && (s'.phase.mode == ProbeRtt ==>
                  && s'.rtt.doneStamp == (if drained then DoneStamp(w, s.hz, tp') else 0)
                  && (drained ==> !s'.rtt.roundDone))
  {
    hide MinRttExpired, DoneStamp;
  }

  /** What UpdateMinRtt does inside it. */
  lemma StayEffect(w: Width, s: Bbr, rs: RateSample, tp: Sock)
    requires s.phase.mode == ProbeRtt
    ensures var tp' := ImageSock(w, tp);
            var s', drained := UpdateMinRtt(w, s, rs, tp'), tp.inFlight <= BBR_CWND_MIN_TARGET;
            && s'.rtt.stamp ==
               (if s'.phase.mode != ProbeRtt || TakesRtt(w, s, rs, tp) then Wrap(w, tp.now) else s.rtt.stamp)
            && s'.model.nextRttDelivered ==
               (if s.rtt.doneStamp == 0 && drained then Wrap(w, tp.delivered) else s.model.nextRttDelivered)
            && s'.rtt.doneStamp ==
               (if s.rtt.doneStamp == 0 && drained then DoneStamp(w, s.hz, tp') else s.rtt.doneStamp)
            && (s.rtt.doneStamp == 0 && drained ==> !s'.rtt.roundDone)
            && (s.rtt.doneStamp == 0 ==> s'.phase.mode == ProbeRtt)
            && (s.rtt.doneStamp != 0 ==> (s'.rtt.roundDone <==> s.rtt.roundDone || s.model.roundStart))
            && (s.rtt.doneStamp != 0 ==>
                  (s'.phase.mode != ProbeRtt <==> s'.rtt.roundDone && After(w, tp'.now, s.rtt.doneStamp)))
            && !s'.rtt.idleRestart
  {
    hide MinRttExpired, DoneStamp, After;
  }

  /** UpdateMinRtt seen from outside PROBE_RTT: it begins a stay only if the last one
      ended more than ten seconds ago. */
  lemma EntryKeepsTold(w: Width, s: Bbr, rs: RateSample, tp: Sock, v: Visit)
    requires s.phase.mode != ProbeRtt && Shadowed(w, s, v) && v.clock <= tp.now && v.delivered <= tp.delivered
    requires w.Bits32? ==> LinuxWrap.Near(v.stamp + BBR_MIN_RTT_WIN_SEC * s.hz, tp.now)
    ensures var s' := UpdateMinRtt(w, s, rs, ImageSock(w, tp));
            var v1 := Noted(v, tp, MovesStamp(w, s, rs, tp, s'), Schedules(s, tp, s'));
            && Tells(w, s', Visited(w, s, rs, tp, s', v1))
            && (s'.phase.mode == ProbeRtt <==> tp.now > v.stamp + BBR_MIN_RTT_WIN_SEC * s.hz && !v.idle)
  {
    EntryEffect(w, s, rs, tp);
    ExpiresIff(w, s, tp, v.stamp);
    DoneStampIs(w, s.hz, tp);
    MinRttFrame(w, s, rs, ImageSock(w, tp));
    hide MinRttExpired, MsecsToJiffies, UpdateMinRtt, DoneStamp, TakesRtt, MinStay;
  }

  /** The same in the middle of an ACK, when its round is noted in the history alone. */
  ghost predicate Counting(w: Width, s: Bbr, rs: RateSample, v: Visit) {
    && Shadowed(w, s, v)
    && (s.phase.mode == ProbeRtt ==>
          && (s.rtt.doneStamp != 0 <==> v.drained.At?)
          && (v.drained.At? ==>
                && s.rtt.doneStamp == Wrap(w, v.drained.time + MinStay(s.hz))
                && v.drained.delivered <= v.next
                && (s.rtt.roundDone || s.model.roundStart <==> v.passed)
                && (v.passed ==> v.reached || Reaches(v, rs))))
  }

  /** UpdateMinRtt seen from inside: it ends the stay only after its time and round. */
  lemma StayKeepsTold(w: Width, s: Bbr, rs: RateSample, tp: Sock, v: Visit)
    requires s.phase.mode == ProbeRtt && v.clock <= tp.now && v.delivered <= tp.delivered
    requires w.Bits32? && v.drained.At? ==> LinuxWrap.Near(v.drained.time + MinStay(s.hz), tp.now)
    requires Counting(w, s, rs, v)
    ensures var s' := UpdateMinRtt(w, s, rs, ImageSock(w, tp));
            var v1 := Noted(v, tp, MovesStamp(w, s, rs, tp, s'), Schedules(s, tp, s'));
            var v2 := Visited(w, s, rs, tp, s', v1);
            && Tells(w, s', v2)
            && (s'.phase.mode != ProbeRtt <==> v.drained.At? && v.passed && tp.now > v.drained.time + MinStay(s.hz))
            && (s'.phase.mode != ProbeRtt ==> v2.drained == v.drained && v2.passed && v2.reached)
  {
    StayEffect(w, s, rs, tp);
    if v.drained.At? {
      AfterIff(w, tp.now, v.drained.time + MinStay(s.hz));
    }
    DoneStampIs(w, s.hz, tp);
    MinRttFrame(w, s, rs, ImageSock(w, tp));
    hide MinRttExpired, MsecsToJiffies, After, UpdateMinRtt, DoneStamp, TakesRtt, MinStay;
  }

  /** The history of an ACK, from the state in which it looks at PROBE_RTT. */
  function Midway(v: Visit, tp: Sock, round: bool): Visit {
    if round then v.(passed := v.passed || v.drained.At?, delivered := tp.delivered, next := tp.delivered) else v
  }

  /** States that look alike to the history. */
  predicate Alike(s: Bbr, t: Bbr) {
    && s.rtt == t.rtt && s.hz == t.hz && (s.phase.mode == ProbeRtt <==> t.phase.mode == ProbeRtt)
  }

  lemma FollowFromMidway(w: Width, s: Bbr, s4: Bbr, rs: RateSample, tp: Sock, s5: Bbr, s': Bbr, v: Visit)
    requires Alike(s4, s) && Alike(s', s5)
    requires StartsRound(w, s, ImageSample(w, rs)) <==> ValidSample(rs) && rs.priorDelivered >= v.next
    ensures var v4 := Midway(v, tp, StartsRound(w, s, ImageSample(w, rs)));
            var v5 := Noted(v4, tp, MovesStamp(w, s4, rs, tp, s5), Schedules(s4, tp, s5));
            var told := Visited(w, s4, rs, tp, s5, v5);
            Follow(w, s, Ack(rs, tp), s', v) ==
            if rs.ackedSacked > 0 && EntersRecovery(s, tp) then told.(next := tp.delivered) else told
  {
    assert MinRttExpired(w, s4, ImageSock(w, tp)) == MinRttExpired(w, s, ImageSock(w, tp));
    assert MovesStamp(w, s4, rs, tp, s5) == MovesStamp(w, s, rs, tp, s') by {
      hide MinRttExpired;
    }
    assert Schedules(s4, tp, s5) == Schedules(s, tp, s');
    hide MovesStamp, Schedules, StartsRound, EntersRecovery, Visited;
    var v5 := Noted(Midway(v, tp, StartsRound(w, s, ImageSample(w, rs))), tp, MovesStamp(w, s4, rs, tp, s5),
                    Schedules(s4, tp, s5));
    VisitedAlike(w, s, s4, rs, tp, s5, s', v5, tp.delivered);
  }

  /** The stay of the history does not depend on more than the modes, and leaves next. */
  lemma VisitedAlike(w: Width, s: Bbr, s4: Bbr, rs: RateSample, tp: Sock, s5: Bbr, s': Bbr, v: Visit, n: int)
    requires Alike(s4, s) && Alike(s', s5)
    ensures Visited(w, s, rs, tp, s', v) == Visited(w, s4, rs, tp, s5, v)
    ensures Visited(w, s, rs, tp, s', v.(next := n)) == Visited(w, s4, rs, tp, s5, v).(next := n)
  {
    hide MinStay, Wrap;
  }

  /** The end of an ACK, where recovery may begin a round. */
  lemma ControlKeepsTold(w: Width, s5: Bbr, s': Bbr, v: Visit, tp: Sock, round: bool)
    requires Tells(w, s5, v) && Alike(s', s5) && v.delivered == tp.delivered
    requires s'.model.nextRttDelivered == if round then ImageSock(w, tp).delivered else s5.model.nextRttDelivered
    ensures Tells(w, s', if round then v.(next := tp.delivered) else v)
  {
    hide MinStay;
  }

  lemma VisitedKeepsCounts(w: Width, s: Bbr, rs: RateSample, tp: Sock, s': Bbr, v: Visit)
    ensures Visited(w, s, rs, tp, s', v).delivered == v.delivered
  {
    hide MinStay;
  }

  /** PROBE_RTT ends exactly with an ACK more than its time after the drained moment, once a
      round has begun since, with a prior_delivered from that moment; and it begins exactly
      with an ACK more than ten seconds after the min RTT was last confirmed, unless the
      sender was idle. */
  predicate StaysAsTold(s: Bbr, e: Event, s': Bbr, v: Visit, v': Visit) {
    && (s.phase.mode == ProbeRtt ==>
          && (s'.phase.mode != ProbeRtt <==>
                e.Ack? && v.drained.At? && (v.passed || Passes(v, e.rs)) && e.tp.now > v.drained.time + MinStay(s.hz))
          && (s'.phase.mode != ProbeRtt ==> v'.drained == v.drained && v'.reached))
    && (s.phase.mode != ProbeRtt ==>
          (s'.phase.mode == ProbeRtt <==>
             e.Ack? && e.tp.now > v.stamp + BBR_MIN_RTT_WIN_SEC * s.hz && !v.idle))
  }

  /** The pieces of an ACK put together. */
  lemma AckTells(w: Width, s: Bbr, rs: RateSample, tp: Sock, v: Visit)
    requires Tells(w, s, v) && Monotone(v, Ack(rs, tp)) && Comparable(w, s, v, Ack(rs, tp))
    ensures var s' := BbrMain(w, s, ImageSample(w, rs), ImageSock(w, tp));
            var v' := Follow(w, s, Ack(rs, tp), s', v);
            && Tells(w, s', v') && s'.hz == s.hz
            && StaysAsTold(s, Ack(rs, tp), s', v, v')
  {
    hide Control, UpdateMinRtt, BeforeMinRtt, MinStay, StartsRound, Visited, Tells, Follow, MovesStamp,
         Schedules, BbrMain, Counting;
    var rs', tp' := ImageSample(w, rs), ImageSock(w, tp);
    var s4 := BeforeMinRtt(w, s, rs', tp');
    var v4 := Midway(v, tp, StartsRound(w, s, rs'));
    UpToMinRtt(w, s, rs', tp');
    RoundKeepsTold(w, s, s4, rs, tp, v);
    MinRttTells(w, s4, rs, tp, v4);
    InParts(w, s, rs, tp);
    var s5 := UpdateMinRtt(w, s4, rs, tp');
    var s', v5 := Control(s5, rs', tp'), Noted(v4, tp, MovesStamp(w, s4, rs, tp, s5), Schedules(s4, tp, s5));
    VisitedKeepsCounts(w, s4, rs, tp, s5, v5);
    MinRttFrame(w, s4, rs, tp');
    ControlFrame(s5, rs', tp');
    FollowFromMidway(w, s, s4, rs, tp, s5, s', v);
    ControlKeepsTold(w, s5, s', Visited(w, s4, rs, tp, s5, v5), tp, rs.ackedSacked > 0 && EntersRecovery(s, tp));
  }

  lemma InParts(w: Width, s: Bbr, rs: RateSample, tp: Sock)
    ensures var rs', tp' := ImageSample(w, rs), ImageSock(w, tp);
            BbrMain(w, s, rs', tp') == Control(UpdateMinRtt(w, BeforeMinRtt(w, s, rs', tp'), rs, tp'), rs', tp')
  {
    hide Control, StayInProbeRtt, EnterProbeRtt, MinRttExpired, CheckDrain, CheckFullBwReached, UpdateCyclePhase,
         UpdateBw;
  }

  /** A round that starts in a stay is one that reaches its moment. */
  lemma RoundKeepsTold(w: Width, s: Bbr, s4: Bbr, rs: RateSample, tp: Sock, v: Visit)
    requires Tells(w, s, v) && Monotone(v, Ack(rs, tp)) && Comparable(w, s, v, Ack(rs, tp)) && Alike(s4, s)
    requires s4.model.roundStart == StartsRound(w, s, ImageSample(w, rs))
    requires s4.model.nextRttDelivered ==
             if StartsRound(w, s, ImageSample(w, rs)) then ImageSock(w, tp).delivered else s.model.nextRttDelivered
    ensures var v4 := Midway(v, tp, StartsRound(w, s, ImageSample(w, rs)));
            && Counting(w, s4, rs, v4) && v4.clock <= tp.now && v4.delivered <= tp.delivered
            && v4.stamp == v.stamp && v4.drained == v.drained && v4.exit == v.exit && v4.idle == v.idle
            && (v4.passed <==> v.passed || Passes(v, rs))
            && (StartsRound(w, s, ImageSample(w, rs)) <==> ValidSample(rs) && rs.priorDelivered >= v.next)
  {
    StartsRoundIff(w, s, rs, v.next);
    hide StartsRound, MinStay;
  }

  lemma MinRttTells(w: Width, s: Bbr, rs: RateSample, tp: Sock, v: Visit)
    requires Counting(w, s, rs, v) && v.clock <= tp.now && v.delivered <= tp.delivered
    requires w.Bits32? ==> LinuxWrap.Near(v.stamp + BBR_MIN_RTT_WIN_SEC * s.hz, tp.now)
    requires w.Bits32? && s.phase.mode == ProbeRtt && v.drained.At? ==>
               LinuxWrap.Near(v.drained.time + MinStay(s.hz), tp.now)
    ensures var s' := UpdateMinRtt(w, s, rs, ImageSock(w, tp));
            var v1 := Noted(v, tp, MovesStamp(w, s, rs, tp, s'), Schedules(s, tp, s'));
            var v2 := Visited(w, s, rs, tp, s', v1);
            && Tells(w, s', v2)
            && (s.phase.mode == ProbeRtt ==>
                  (s'.phase.mode != ProbeRtt <==>
                     v.drained.At? && v.passed && tp.now > v.drained.time + MinStay(s.hz)))
            && (s.phase.mode == ProbeRtt && s'.phase.mode != ProbeRtt ==> v2.drained == v.drained && v2.reached)
            && (s.phase.mode != ProbeRtt ==>
                  (s'.phase.mode == ProbeRtt <==> tp.now > v.stamp + BBR_MIN_RTT_WIN_SEC * s.hz && !v.idle))
  {
    if s.phase.mode == ProbeRtt {
      StayKeepsTold(w, s, rs, tp, v);
    } else {
      EntryKeepsTold(w, s, rs, tp, v);
    }
    hide UpdateMinRtt, MinStay, MovesStamp, Schedules;
  }

  /** One event: the fields keep telling the truth, a stay ends only when it may, and a
      stay begins only ten seconds after the last. */
  lemma StepTells(w: Width, s: Bbr, e: Event, v: Visit)
    requires Tells(w, s, v) && Monotone(v, e) && Comparable(w, s, v, e)
    ensures var s' := Step(w, s, ImageEvent(w, e));
            var v' := Follow(w, s, e, s', v);
            && Tells(w, s', v') && s'.hz == s.hz
            && StaysAsTold(s, e, s', v, v')
  {
    match e
    case Ack(rs, tp) =>
      AckTells(w, s, rs, tp, v);
      hide BbrMain, Follow, Tells, StaysAsTold;
    case CaState(newState, tp) =>
      if newState == TCP_CA_LOSS {
        LinuxWrap.LtFrame(w, AtTimeout(s), 1, false, ImageSock(w, tp));
      }
      hide LtBwSampling;
    case _ =>
      hide RateBytesPerSec;
  }

  lemma {:induction false} RunTells(w: Width, s: Bbr, es: seq<Event>)
    requires Fresh(s) && MonotoneRun(w, s, es)
    ensures Tells(w, Handled(w, s, es), Story(w, s, es)) && Handled(w, s, es).hz == s.hz
  {
    if es != [] {
      var front := es[..|es| - 1];
      RunTells(w, s, front);
      StepTells(w, Handled(w, s, front), es[|es| - 1], Story(w, s, front));
      hide Step, Tells, Follow, Monotone, Comparable;
    }
  }

  // ----- Whole runs -----

  /** In every run, on counters of either width, PROBE_RTT begins and ends exactly as told. */
  lemma LastTells(w: Width, s: Bbr, es: seq<Event>, e: Event)
    requires Fresh(s) && MonotoneRun(w, s, es + [e])
    ensures var t, t' := Handled(w, s, es), Handled(w, s, es + [e]);
            var v, v' := Story(w, s, es), Story(w, s, es + [e]);
            && StaysAsTold(t, e, t', v, v') && t.hz == s.hz
            && (t.phase.mode == ProbeRtt && t'.phase.mode != ProbeRtt ==>
                  e.Ack? && v'.drained.At? && v'.reached && e.tp.now > v'.drained.time + MinStay(s.hz))
            && (t.phase.mode != ProbeRtt && t'.phase.mode == ProbeRtt ==>
                  e.Ack? && (v.exit.At? ==> e.tp.now > v.exit.time + BBR_MIN_RTT_WIN_SEC * s.hz))
  {
    assert (es + [e])[..|es|] == es;
    RunTells(w, s, es);
    StepTells(w, Handled(w, s, es), e, Story(w, s, es));
    hide Step, Follow, Monotone, Comparable, Pending;
  }

  /** PROBE_RTT ends only 200 ms after its window was first drained, and only after an
      ACK whose prior_delivered reached the delivered count of that moment. */
  lemma StayIsLongEnough(s: Bbr, es: seq<Event>, e: Event)
    requires Fresh(s) && MonotoneRun(Exact, s, es + [e])
    requires Run(Exact, s, es).phase.mode == ProbeRtt && Run(Exact, s, es + [e]).phase.mode != ProbeRtt
    ensures var v := Story(Exact, s, es + [e]);
            e.Ack? && v.drained.At? && v.reached && e.tp.now > v.drained.time + MinStay(s.hz)
  {
    HandledIsRun(s, es);
    HandledIsRun(s, es + [e]);
    LastTells(Exact, s, es, e);
    hide Handled, Run, Story, MonotoneRun;
  }

  /** The next PROBE_RTT begins more than ten seconds after the last one ended. */
  lemma StaysAreSpaced(s: Bbr, es: seq<Event>, e: Event)
    requires Fresh(s) && MonotoneRun(Exact, s, es + [e])
    requires Run(Exact, s, es).phase.mode != ProbeRtt && Run(Exact, s, es + [e]).phase.mode == ProbeRtt
    ensures e.Ack?
    ensures var v := Story(Exact, s, es); v.exit.At? ==> e.tp.now > v.exit.time + 10 * s.hz
  {
    HandledIsRun(s, es);
    HandledIsRun(s, es + [e]);
    LastTells(Exact, s, es, e);
    hide Handled, Run, Story, MonotoneRun;
  }

  /** Both, on the kernel's 32-bit counters, whatever stamps it forgets. */
  lemma KernelProbeRtt(s: Bbr, es: seq<Event>, e: Event)
    requires Fresh(s) && MonotoneRun(Bits32, s, es + [e])
    ensures var k := Run(Bits32, LinuxWrap.Trunc(s), LinuxWrap.TruncEvents(es));
            var k' := Run(Bits32, LinuxWrap.Trunc(s), LinuxWrap.TruncEvents(es + [e]));
            var v, v' := Story(Bits32, s, es), Story(Bits32, s, es + [e]);
            && (k.phase.mode == ProbeRtt && k'.phase.mode != ProbeRtt ==>
                  e.Ack? && v'.drained.At? && v'.reached && e.tp.now > v'.drained.time + MinStay(s.hz))
            && (k.phase.mode != ProbeRtt && k'.phase.mode == ProbeRtt && v.exit.At? ==>
                  e.Ack? && e.tp.now > v.exit.time + 10 * s.hz)
  {
    HandledIsRun(s, es);
    HandledIsRun(s, es + [e]);
    LastTells(Bits32, s, es, e);
    hide Handled, Run, Story, MonotoneRun;
  }

  /** The mark for an unset stamp is a stamp value, too: 32-bit counters forget that the
      window is drained exactly if the stamp to set is 0 modulo 2^32. */
  lemma DrainForgottenIff(s: Bbr, tp: Sock)
    requires s.rtt.doneStamp == 0 && tp.inFlight <= BBR_CWND_MIN_TARGET
    ensures StayInProbeRtt(Bits32, s, tp).rtt.doneStamp == 0 <==> (tp.now + MinStay(s.hz)) % U32 == 0
  {}

  /** An event that does not schedule the end of a stay: its ACK, if it is one, finds the
      window not drained, or the stamp to set is 0 modulo 2^32. */
  predicate Unscheduled(hz: Hz, e: Event) {
    e.Ack? ==> e.tp.inFlight > BBR_CWND_MIN_TARGET || (e.tp.now + MinStay(hz)) % U32 == 0
  }

  lemma UpdateSchedulesIff(s: Bbr, rs: RateSample, tp: Sock)
    requires s.phase.mode == ProbeRtt && s.rtt.doneStamp == 0
    ensures var s' := UpdateMinRtt(Bits32, s, rs, tp);
            && s'.phase.mode == ProbeRtt && s'.hz == s.hz
            && (s'.rtt.doneStamp == 0 <==> Unscheduled(s.hz, Ack(rs, tp)))
  {
    hide MinRttExpired, MsecsToJiffies;
  }

  lemma StepSchedulesIff(s: Bbr, e: Event)
    requires s.phase.mode == ProbeRtt && s.rtt.doneStamp == 0
    ensures var s' := Step(Bits32, s, e);
            && s'.phase.mode == ProbeRtt && s'.hz == s.hz
            && (s'.rtt.doneStamp == 0 <==> Unscheduled(s.hz, e))
  {
    match e
    case Ack(rs, tp) =>
      var s4 := BeforeMinRtt(Bits32, s, rs, tp);
      UpToMinRtt(Bits32, s, rs, tp);
      hide BeforeMinRtt, Control, UpdateMinRtt;
      UpdateSchedulesIff(s4, rs, tp);
      ControlFrame(UpdateMinRtt(Bits32, s4, rs, tp), rs, tp);
    case CaState(newState, tp) =>
      if newState == TCP_CA_LOSS {
        LinuxWrap.LtFrame(Bits32, AtTimeout(s), 1, false, tp);
        hide LtBwSampling;
      }
    case _ =>
      hide RateBytesPerSec;
  }

  predicate Waiting(s: Bbr, hz: Hz) {
    s.phase.mode == ProbeRtt && s.rtt.doneStamp == 0 && s.hz == hz
  }

  /** What forgetting does on 32-bit counters: a stay goes on through any events of this
      kind, however long. */
  lemma {:induction false} UnscheduledStayGoesOn(s: Bbr, es: seq<Event>)
    requires Waiting(s, s.hz) && forall e :: e in es ==> Unscheduled(s.hz, e)
    ensures Waiting(Run(Bits32, s, es), s.hz)
  {
    if es != [] {
      hide Step, Unscheduled;
      var front, last := es[..|es| - 1], es[|es| - 1];
      assert last in es;
      UnscheduledStayGoesOn(s, front);
      StepSchedulesIff(Run(Bits32, s, front), last);
    }
  }

  /** And its end is scheduled by exactly the first other event. */
  lemma StayIsScheduledIff(s: Bbr, es: seq<Event>, e: Event)
    requires Waiting(s, s.hz) && forall d :: d in es ==> Unscheduled(s.hz, d)
    ensures var t' := Step(Bits32, Run(Bits32, s, es), e);
            t'.phase.mode == ProbeRtt && (t'.rtt.doneStamp == 0 <==> Unscheduled(s.hz, e))
  {
    hide Step, Unscheduled, Run;
    UnscheduledStayGoesOn(s, es);
    StepSchedulesIff(Run(Bits32, s, es), e);
  }

  /** The window is saved after the mode has changed, and so a larger one saved before
      stays: the save differs from one made before the change exactly then. */
  lemma StaleWindowStaysIff(s: Bbr)
    requires s.phase.mode != ProbeRtt
    ensures EnterProbeRtt(s).win.priorCwnd != SaveCwnd(s).win.priorCwnd <==>
            s.win.prevCaState < TCP_CA_RECOVERY && s.win.priorCwnd > s.win.sndCwnd
  {}

  /** In PROBE_RTT an ACK leaves a mark of what was delivered and is in flight, never 0,
      which would be the mark for a sender that is not application-limited. */
  lemma AckMarks(w: Width, s: Bbr, rs: RateSample, tp: Sock)
    ensures var mark := BbrMain(w, s, rs, tp).win.appLimited;
            BbrMain(w, s, rs, tp).phase.mode == ProbeRtt ==>
              && 0 < mark < U32
              && (mark == (tp.delivered + tp.inFlight) % U32 || (mark == 1 && (tp.delivered + tp.inFlight) % U32 == 0))
  {
    var s4 := BeforeMinRtt(w, s, rs, tp);
    MinRttMarks(w, s4, rs, tp);
    ControlKeepsMark(UpdateMinRtt(w, s4, rs, tp), rs, tp);
    assert BbrMain(w, s, rs, tp) == Control(UpdateMinRtt(w, s4, rs, tp), rs, tp) by {
      hide Control, UpdateMinRtt, CheckDrain, CheckFullBwReached, UpdateCyclePhase, UpdateBw;
    }
    hide BeforeMinRtt, UpdateMinRtt, Control;
  }

  lemma MinRttMarks(w: Width, s: Bbr, rs: RateSample, tp: Sock)
    ensures UpdateMinRtt(w, s, rs, tp).phase.mode == ProbeRtt ==>
              UpdateMinRtt(w, s, rs, tp).win.appLimited == AppLimited(tp)
  {
    hide MinRttExpired, After, MsecsToJiffies, AppLimited;
  }

  lemma ControlKeepsMark(s: Bbr, rs: RateSample, tp: Sock)
    ensures Control(s, rs, tp).win.appLimited == s.win.appLimited && Control(s, rs, tp).phase == s.phase
  {
    hide RateBytesPerSec, TargetCwnd, DeductLosses;
  }

  // ----- Runs into both -----

  /** An ACK without a sample, that delivers nothing. */
  function IdleAck(inFlight: nat, now: int): Event {
    Ack(RateSample(-1, 0, 0, 0, -1, 0, 0, false),
        Sock(0, 0, 0, now, 0, inFlight, TCP_CA_OPEN, 0, 0, 0, 0, 0, 0))
  }

  /** The first tick after the min RTT has expired. */
  function Expiry(s: Bbr): int {
    s.rtt.stamp + BBR_MIN_RTT_WIN_SEC * s.hz + 1
  }

  lemma IdleAckEnters(w: Width, s: Bbr, inFlight: nat)
    requires s.phase.mode == Startup && !FullBwReached(s) && !s.rtt.idleRestart
    ensures var t := Step(w, s, IdleAck(inFlight, Expiry(s)));
            && t.phase.mode == ProbeRtt && t.hz == s.hz
            && t.win.priorCwnd == EnterProbeRtt(s).win.priorCwnd
            && (inFlight > BBR_CWND_MIN_TARGET ==> t.rtt.doneStamp == 0)
  {
    hide RateBytesPerSec, DoneStamp, TargetCwnd;
  }

  lemma TwoSteps(w: Width, s: Bbr, a: Event, b: Event)
    ensures Run(w, s, [a, b]) == Step(w, Step(w, s, a), b)
  {
    assert [a, b][..1] == [a] && [a][..0] == [];
    assert Run(w, s, [a]) == Step(w, s, a);
    hide Step;
  }

  /** A stale window: saved before the stack lowers the window, it outlives the save of
      the next PROBE_RTT. */
  lemma StaleWindowIsReached(w: Width, s: Bbr, cwnd: nat)
    requires Fresh(s) && cwnd < s.win.sndCwnd
    ensures var t := Run(w, s, [Ssthresh, StackSetsCwnd(cwnd)]);
            var t' := Step(w, t, IdleAck(0, Expiry(t)));
            && t.win.sndCwnd == cwnd == SaveCwnd(t).win.priorCwnd
            && t'.phase.mode == ProbeRtt && t'.win.priorCwnd == s.win.sndCwnd
  {
    TwoSteps(w, s, Ssthresh, StackSetsCwnd(cwnd));
    var t := Run(w, s, [Ssthresh, StackSetsCwnd(cwnd)]);
    assert t == s.(win := s.win.(priorCwnd := s.win.sndCwnd, sndCwnd := cwnd));
    IdleAckEnters(w, t, 0);
    hide Step, Run;
  }

  /** A forgotten stamp: nothing is in flight, and yet no end of the stay is set. */
  lemma ForgottenDrainIsReached(s: Bbr, now: int)
    requires Fresh(s) && (now + MinStay(s.hz)) % U32 == 0
    ensures var es := [IdleAck(BBR_CWND_MIN_TARGET + 1, Expiry(s)), IdleAck(0, now)];
            Waiting(Run(Bits32, s, es), s.hz)
  {
    hide Step, Run, MinStay, Expiry;
    var a, b := IdleAck(BBR_CWND_MIN_TARGET + 1, Expiry(s)), IdleAck(0, now);
    IdleAckEnters(Bits32, s, BBR_CWND_MIN_TARGET + 1);
    TwoSteps(Bits32, s, a, b);
    var s1 := Step(Bits32, s, a);
    assert Waiting(s1, s.hz) && Unscheduled(s.hz, b);
    hide Unscheduled, Fresh;
    StepSchedulesIff(s1, b);
  }

  // ----- The minimum round trip time -----

  function RttInput(s: Bbr, e: Event): MinFilter.Input {
    if e.Ack? && e.rs.rttUs >= 0 then MinFilter.Sample(e.rs.rttUs as real, MinRttExpired(Exact, s, e.tp))
    else MinFilter.Nothing
  }

  function RttInputs(s: Bbr, es: seq<Event>): (ins: seq<MinFilter.Input>)
    ensures |ins| == |es|
  {
    if es == [] then []
    else RttInputs(s, es[..|es| - 1]) + [RttInput(Run(Exact, s, es[..|es| - 1]), es[|es| - 1])]
  }

  lemma UpdateFilters(s: Bbr, rs: RateSample, tp: Sock)
    requires rs.rttUs < U32
    ensures UpdateMinRtt(Exact, s, rs, tp).rtt.minRtt as real ==
            MinFilter.Next(s.rtt.minRtt as real, RttInput(s, Ack(rs, tp)))
  {}

  lemma StepFiltersRtt(s: Bbr, e: Event)
    requires e.Ack? ==> e.rs.rttUs < U32
    ensures Step(Exact, s, e).rtt.minRtt as real == MinFilter.Next(s.rtt.minRtt as real, RttInput(s, e))
  {
    match e
    case Ack(rs, tp) =>
      var s4 := BeforeMinRtt(Exact, s, rs, tp);
      UpToMinRtt(Exact, s, rs, tp);
      assert MinRttExpired(Exact, s4, tp) == MinRttExpired(Exact, s, tp);
      UpdateFilters(s4, rs, tp);
      ControlFrame(UpdateMinRtt(Exact, s4, rs, tp), rs, tp);
      hide Control, UpdateMinRtt, BeforeMinRtt, MinRttExpired;
    case CaState(newState, tp) =>
      if newState == TCP_CA_LOSS {
        LinuxWrap.LtFrame(Exact, AtTimeout(s), 1, false, tp);
      }
    case _ =>
  }

  /** In every run min_rtt_us is an expiring minimum of the samples. */
  lemma {:induction false} MinRttIsMinimum(s: Bbr, es: seq<Event>)
    requires forall e :: e in es && e.Ack? ==> e.rs.rttUs < U32
    ensures Run(Exact, s, es).rtt.minRtt as real == MinFilter.Held(s.rtt.minRtt as real, RttInputs(s, es))
  {
    if es != [] {
      var front := es[..|es| - 1];
      MinRttIsMinimum(s, front);
      assert es[|es| - 1] in es;
      StepFiltersRtt(Run(Exact, s, front), es[|es| - 1]);
      var ins := RttInputs(s, es);
      assert ins[..|ins| - 1] == RttInputs(s, front);
      hide Step;
    }
  }
}
