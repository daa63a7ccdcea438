/** The integer round trip time estimator of drafts/tcp.cc, with the scaling of sections 2
    and 5 of RFC 2988: srtt is eight times the smoothed time, rttvar four times the
    deviation, both in ticks, and the difference passes through a 16-bit word. */
module RttEstimator {
  import opened Words

  type Positive = r: real | r > 0.0 witness 1.0

  /** The tick and the bounds of the timeout in seconds; the largest 16-bit sample. */
  datatype Config = Config(tick: Positive, minRto: real, maxRto: real, rfc2988: bool)

  datatype Estimator = Estimator(cfg: Config, rtt: int, srtt: int, rttvar: int, rtxcur: real, backoff: int)

  /** A timeout in seconds, or the end of the program on a negative one. */
  datatype Rto = Seconds(time: real) | Exit

  /** A round trip time in ticks; an ACK that ends the backoff; a retransmission timeout. */
  datatype Event = Sample(ticks: int) | EndBackoff | Backoff

  function ClampToOne(x: int): int {
    if x <= 0 then 1 else x
  }

  /** Smoothed time and deviation after a sample of rtt ticks. */
  function Smooth(srtt: int, rttvar: int, rtt: int): (int, int) {
    if srtt != 0 then
      var delta := S16(rtt - srtt / 8);
      var size := if delta < 0 then S16(0 - delta) else delta;
      (ClampToOne(srtt + delta), ClampToOne(rttvar + S16(size - rttvar / 4)))
    else (8 * rtt, 2 * rtt)
  }

  /** The timeout in ticks. */
  function TimeoutTicks(srtt: int, rttvar: int): int {
    (8 * rttvar + srtt) / 8
  }

  function Times(x: real, n: int): real {
    x * n as real
  }

  /** rtt_update; the shift by rttvar_exp_ is 2. */
  function Update(e: Estimator, ticks: int): Estimator {
    var rtt := if ticks < 1 then 1 else ticks;
    var (srtt, rttvar) := Smooth(e.srtt, e.rttvar, rtt);
    e.(rtt := rtt, srtt := srtt, rttvar := rttvar, rtxcur := Times(e.cfg.tick, TimeoutTicks(srtt, rttvar)))
  }

  /** The value that backing off multiplies. */
  function Base(e: Estimator): real {
    if e.cfg.rfc2988 && e.rtxcur < e.cfg.minRto then e.cfg.minRto else e.rtxcur
  }

  /** What the timer would wait for, before the bounds above. */
  function Unbounded(e: Estimator): real {
    Raised(e.cfg, Times(Base(e), e.backoff))
  }

  function Raised(cfg: Config, t: real): real {
    if !cfg.rfc2988 && t < cfg.minRto then cfg.minRto else t
  }

  /** rtt_timeout. */
  function Timeout(e: Estimator): Rto {
    var t := if Unbounded(e) > e.cfg.maxRto then e.cfg.maxRto else Unbounded(e);
    if t >= 2.0 * e.cfg.tick then Seconds(t)
    else if t < 0.0 then Exit
    else Seconds(2.0 * e.cfg.tick)
  }

  predicate Doubles(e: Estimator) {
    || e.backoff < 64
    || (e.cfg.rfc2988 && Timeout(e).Seconds? && Timeout(e).time < e.cfg.maxRto)
  }

  /** rtt_backoff: far backed off, the smoothed time moves into the deviation. */
  function BackOff(e: Estimator): Estimator {
    var e1 := if Doubles(e) then e.(backoff := S32(2 * e.backoff)) else e;
    if e1.backoff > 8 then e1.(rttvar := e1.rttvar + e1.srtt / 8, srtt := 0) else e1
  }

  function Step(e: Estimator, v: Event): Estimator {
    match v
    case Sample(ticks) => Update(e, ticks)
    case EndBackoff => e.(backoff := 1)
    case Backoff => BackOff(e)
  }

  function Run(e: Estimator, vs: seq<Event>): Estimator {
    if vs == [] then e else Step(Run(e, vs[..|vs| - 1]), vs[|vs| - 1])
  }

  /** rtt_init, without an initial smoothed time. */
  function Init(cfg: Config, rttvar: nat, rtxcur: real): Estimator {
    Estimator(cfg, 0, 0, rttvar, rtxcur, 1)
  }

  // ----- The estimates stay bounded -----

  predicate InBand(vs: seq<Event>, lo: int, hi: int) {
    forall i :: 0 <= i < |vs| && vs[i].Sample? ==> lo <= vs[i].ticks <= hi
  }

  /** The largest deviation between clobbers. */
  function Ceiling(lo: int, hi: int): int {
    if 2 * hi < 4 * (hi - lo) + 3 then 4 * (hi - lo) + 3 else 2 * hi
  }

  /** The smoothed time is in the band, and so is the deviation; or a backoff has
      clobbered them, or nothing has been sampled yet. */
  ghost predicate Bounded(e: Estimator, lo: int, hi: int, first: nat) {
    || (8 * lo <= e.srtt <= 8 * hi + 7 && 1 <= e.rttvar <= Ceiling(lo, hi))
    || (e.srtt == 0 && 0 <= e.rttvar <= (if first < Ceiling(lo, hi) + hi then Ceiling(lo, hi) + hi else first))
  }

  /** One sample: no word overflows, no clamp fires, and the estimates stay in the band. */
  lemma SmoothIsBounded(srtt: int, rttvar: int, m: int, lo: int, hi: int)
    requires 1 <= lo <= m <= hi < 0x8000
    requires 8 * lo <= srtt <= 8 * hi + 7 && 1 <= rttvar <= Ceiling(lo, hi)
    ensures var (srtt', rttvar') := Smooth(srtt, rttvar, m);
            var d := m - srtt / 8;
            && srtt' == srtt + d && rttvar' == rttvar - rttvar / 4 + (if d < 0 then 0 - d else d)
            && 8 * lo <= srtt' <= 8 * hi + 7 && 1 <= rttvar' <= Ceiling(lo, hi)
  {
    var a, b := srtt / 8, rttvar / 4;
    assert lo <= a <= hi;
    var d := m - a;
    var size := if d < 0 then 0 - d else d;
    FitsShort(d);
    FitsShort(size);
    FitsShort(size - b);
  }

  lemma FitsShort(x: int)
    requires -0x8000 < x < 0x8000
    ensures S16(x) == x
  {}

  lemma StepIsBounded(e: Estimator, v: Event, lo: int, hi: int, first: nat)
    requires 1 <= lo <= hi < 0x8000 && Bounded(e, lo, hi, first)
    requires v.Sample? ==> lo <= v.ticks <= hi
    ensures Bounded(Step(e, v), lo, hi, first)
  {
    match v
    case Sample(ticks) =>
      if e.srtt != 0 {
        SmoothIsBounded(e.srtt, e.rttvar, ticks, lo, hi);
        hide Smooth, Ceiling;
      }
    case EndBackoff =>
    case Backoff =>
      hide Doubles, S32;
  }

  /** In every run with samples in [lo, hi] the smoothed time is 0 after a clobber or in
      [lo, hi], and the deviation below its ceiling, or its ceiling and hi after a clobber. */
  lemma {:induction false} RunIsBounded(cfg: Config, first: nat, rtxcur: real, vs: seq<Event>, lo: int, hi: int)
    requires 1 <= lo <= hi < 0x8000 && InBand(vs, lo, hi)
    ensures Bounded(Run(Init(cfg, first, rtxcur), vs), lo, hi, first)
    ensures var srtt := Run(Init(cfg, first, rtxcur), vs).srtt; srtt == 0 || lo <= srtt / 8 <= hi
  {
    if vs != [] {
      RunIsBounded(cfg, first, rtxcur, vs[..|vs| - 1], lo, hi);
      StepIsBounded(Run(Init(cfg, first, rtxcur), vs[..|vs| - 1]), vs[|vs| - 1], lo, hi, first);
    }
  }

  /** The clamps to 1 never fire: a sample changes the sums by the differences alone. */
  lemma ClampsNeverFire(cfg: Config, first: nat, rtxcur: real, vs: seq<Event>, m: int, lo: int, hi: int)
    requires 1 <= lo <= m <= hi < 0x8000 && InBand(vs, lo, hi)
    requires Run(Init(cfg, first, rtxcur), vs).srtt != 0
    ensures var e := Run(Init(cfg, first, rtxcur), vs);
            var d := m - e.srtt / 8;
            && Update(e, m).srtt == e.srtt + d > 0
            && Update(e, m).rttvar == e.rttvar - e.rttvar / 4 + (if d < 0 then 0 - d else d) > 0
  {
    RunIsBounded(cfg, first, rtxcur, vs, lo, hi);
    var e := Run(Init(cfg, first, rtxcur), vs);
    SmoothIsBounded(e.srtt, e.rttvar, m, lo, hi);
    hide Smooth, Run;
  }

  /** Rounding: the sums follow the weights 7/8 and 3/4 of section 2.3 of RFC 2988, with
      an error below one unit of the last place. */
  lemma UpdateFollowsRfc2988(e: Estimator, m: int, lo: int, hi: int)
    requires 1 <= lo <= m <= hi < 0x8000
    requires 8 * lo <= e.srtt <= 8 * hi + 7 && 1 <= e.rttvar <= Ceiling(lo, hi)
    ensures var e' := Update(e, m);
            var d := m - e.srtt / 8;
            && 0 <= 8 * e'.srtt - (7 * e.srtt + 8 * m) <= 7
            && 0 <= 4 * e'.rttvar - (3 * e.rttvar + 4 * (if d < 0 then 0 - d else d)) <= 3
  {
    SmoothIsBounded(e.srtt, e.rttvar, m, lo, hi);
    var d := m - e.srtt / 8;
    Weights(e.srtt, e.rttvar, m, if d < 0 then 0 - d else d);
    hide Smooth, Ceiling;
  }

  /** The timeout is the smoothed time plus four deviations, in whole ticks. */
  lemma TimeoutFollowsRfc2988(e: Estimator, m: int)
    ensures var e' := Update(e, m);
            var ticks := TimeoutTicks(e'.srtt, e'.rttvar);
            e'.rtxcur == ticks as real * e.cfg.tick && ticks == e'.srtt / 8 + e'.rttvar
  {
    hide Smooth;
  }

  lemma Weights(srtt: int, rttvar: int, m: int, size: int)
    ensures 0 <= 8 * (srtt + (m - srtt / 8)) - (7 * srtt + 8 * m) <= 7
    ensures 0 <= 4 * (rttvar - rttvar / 4 + size) - (3 * rttvar + 4 * size) <= 3
  {}

  /** The first sample, and every one after a clobber: section 2.2 of RFC 2988. */
  lemma FirstSample(e: Estimator, m: int)
    requires e.srtt == 0 && m >= 1
    ensures Update(e, m).srtt / 8 == m && 2 * Update(e, m).rttvar == 4 * m
    ensures Update(e, m).rtxcur == (m + 2 * m) as real * e.cfg.tick
  {}

  // ----- The timeout under backoff -----

  /** No bound asks for less than two ticks. */
  predicate SaneConfig(cfg: Config) {
    2.0 * cfg.tick <= cfg.maxRto
  }

  /** The least value that backing off ever multiplies: the initial one, or that of the
      shortest timeout that samples make, one tick. */
  function LeastBase(cfg: Config, rtxcur: real): real {
    var low := if rtxcur < cfg.tick then rtxcur else cfg.tick;
    if low < cfg.minRto then cfg.minRto else low
  }

  /** The multiplier whose double leaves the int. */
  const TOP_MULTIPLIER: nat := 0x4000_0000

  /** Whatever is multiplied reaches the cap before the multiplier leaves its int; or
      the multiplier stops at 64. */
  predicate WordSuffices(cfg: Config, rtxcur: real) {
    || !cfg.rfc2988
    || cfg.maxRto == 2.0 * cfg.tick
    || cfg.maxRto <= Times(LeastBase(cfg, rtxcur), TOP_MULTIPLIER)
  }

  /** A timer that started with the timeout rtxcur. */
  ghost predicate SaneTimer(e: Estimator, rtxcur: real) {
    && e.backoff >= 1 && e.rtxcur >= 0.0
    && (e.rtxcur == rtxcur || e.rtxcur >= e.cfg.tick)
  }

  lemma TimeoutIsCapped(e: Estimator)
    requires SaneConfig(e.cfg) && e.rtxcur >= 0.0 && e.backoff >= 1
    ensures Timeout(e).Seconds? && 2.0 * e.cfg.tick <= Timeout(e).time <= e.cfg.maxRto
  {
    ProductGrows(Base(e), 0, e.backoff);
  }

  lemma ProductGrows(x: real, m: int, n: int)
    requires x >= 0.0 && m <= n
    ensures Times(x, m) <= Times(x, n)
  {}

  lemma UnboundedGrows(e: Estimator, f: Estimator)
    requires Base(e) >= 0.0 && f.cfg == e.cfg && f.rtxcur == e.rtxcur && e.backoff <= f.backoff
    ensures Unbounded(e) <= Unbounded(f)
  {
    var b := Base(e);
    assert Base(f) == b;
    ProductGrows(b, e.backoff, f.backoff);
    RaisedGrows(e.cfg, Times(b, e.backoff), Times(b, f.backoff));
    hide Base, Raised;
  }

  lemma RaisedGrows(cfg: Config, x: real, y: real)
    requires x <= y
    ensures Raised(cfg, x) <= Raised(cfg, y)
  {}

  /** A larger multiplier never shortens the timeout. */
  lemma TimeoutGrows(e: Estimator, f: Estimator)
    requires SaneConfig(e.cfg) && e.rtxcur >= 0.0 && e.backoff >= 1
    requires f.cfg == e.cfg && f.rtxcur == e.rtxcur && e.backoff <= f.backoff
    ensures Timeout(e).Seconds? && Timeout(f).Seconds? && Timeout(e).time <= Timeout(f).time
  {
    TimeoutIsCapped(e);
    TimeoutIsCapped(f);
    UnboundedGrows(e, f);
    hide Unbounded;
  }

  predicate SmallPower(n: int) {
    n == 1 || n == 2 || n == 4 || n == 8 || n == 16 || n == 32 || n == 64
  }

  /** The multiplier: a power of two up to 64, or less than twice the cap over the least
      value that it multiplies. */
  ghost predicate BackoffBounded(e: Estimator, rtxcur: real) {
    || SmallPower(e.backoff)
    || (e.backoff > 64 && e.cfg.rfc2988 && Times(LeastBase(e.cfg, rtxcur), e.backoff) < 2.0 * e.cfg.maxRto)
  }

  lemma BaseIsLeast(e: Estimator, rtxcur: real)
    requires SaneTimer(e, rtxcur) && e.cfg.rfc2988
    ensures LeastBase(e.cfg, rtxcur) <= Base(e)
  {}

  /** Beyond 64 the multiplier doubles only while the timeout is below its cap. */
  lemma DoublingIsEarly(e: Estimator)
    requires SaneConfig(e.cfg) && e.rtxcur >= 0.0 && Doubles(e) && e.backoff >= 64
    ensures e.cfg.rfc2988 && Times(Base(e), e.backoff) < e.cfg.maxRto && 2.0 * e.cfg.tick < e.cfg.maxRto
  {
    ProductGrows(Base(e), 0, e.backoff);
    hide Base;
  }

  lemma FactorGrows(x: real, y: real, n: nat)
    requires x <= y
    ensures Times(x, n) <= Times(y, n)
  {}

  /** Multipliers below 2^30. */
  lemma SmallerCount(x: real, n: nat)
    requires 0.0 <= x && Times(x, n) < Times(x, TOP_MULTIPLIER)
    ensures n < TOP_MULTIPLIER
  {}

  lemma SmallProduct(x: real, n: nat)
    requires x >= 0.0 && n <= TOP_MULTIPLIER
    ensures 0.0 <= Times(x, n) <= Times(x, TOP_MULTIPLIER)
  {}

  /** A doubling beyond 64 stays within the word. */
  lemma LateDoublingFits(e: Estimator, rtxcur: real)
    requires SaneConfig(e.cfg) && WordSuffices(e.cfg, rtxcur) && SaneTimer(e, rtxcur)
    requires Doubles(e) && e.backoff >= 64
    ensures e.cfg.rfc2988 && Times(LeastBase(e.cfg, rtxcur), e.backoff) < e.cfg.maxRto
    ensures e.backoff < TOP_MULTIPLIER
  {
    DoublingIsEarly(e);
    BaseIsLeast(e, rtxcur);
    var b := LeastBase(e.cfg, rtxcur);
    FactorGrows(b, Base(e), e.backoff);
    assert b >= 0.0;
    hide Base, LeastBase, Doubles, Times;
    SmallerCount(b, e.backoff);
  }

  lemma Twice(x: real, n: int)
    ensures Times(x, 2 * n) == 2.0 * Times(x, n)
  {}

  lemma DoublingIsBounded(e: Estimator, rtxcur: real)
    requires SaneConfig(e.cfg) && WordSuffices(e.cfg, rtxcur) && SaneTimer(e, rtxcur) && BackoffBounded(e, rtxcur)
    ensures BackoffBounded(BackOff(e), rtxcur) && SaneTimer(BackOff(e), rtxcur)
    ensures BackOff(e).cfg == e.cfg && BackOff(e).rtxcur == e.rtxcur
    ensures BackOff(e).backoff == e.backoff || BackOff(e).backoff == 2 * e.backoff
  {
    hide Doubles, LeastBase, S32, WordSuffices, Times;
    if Doubles(e) {
      if e.backoff >= 64 {
        LateDoublingFits(e, rtxcur);
        Twice(LeastBase(e.cfg, rtxcur), e.backoff);
        assert BackoffBounded(e.(backoff := 2 * e.backoff), rtxcur);
      }
      FitsInt(2 * e.backoff);
    }
  }

  lemma FitsInt(x: int)
    requires -HALF <= x < HALF
    ensures S32(x) == x
  {}

  lemma StepKeepsTimer(e: Estimator, v: Event, rtxcur: real)
    requires SaneConfig(e.cfg) && WordSuffices(e.cfg, rtxcur) && SaneTimer(e, rtxcur) && BackoffBounded(e, rtxcur)
    requires e.srtt >= 0 && e.rttvar >= 0
    ensures BackoffBounded(Step(e, v), rtxcur) && SaneTimer(Step(e, v), rtxcur) && Step(e, v).cfg == e.cfg
    ensures Step(e, v).srtt >= 0 && Step(e, v).rttvar >= 0
  {
    match v
    case Sample(ticks) =>
      SampleIsPositive(e, ticks);
      hide Update, SmallPower, LeastBase;
    case EndBackoff =>
    case Backoff =>
      DoublingIsBounded(e, rtxcur);
      hide Doubles, S32, SmallPower, LeastBase;
  }

  /** Every sample makes a timeout of at least one tick. */
  lemma SampleIsPositive(e: Estimator, ticks: int)
    ensures var e' := Update(e, ticks);
            && e'.srtt >= 1 && e'.rttvar >= 1 && e'.rtxcur >= e.cfg.tick
            && e'.backoff == e.backoff && e'.cfg == e.cfg
  {
    var rtt := if ticks < 1 then 1 else ticks;
    SmoothIsPositive(e.srtt, e.rttvar, rtt);
    hide Smooth;
    var (srtt, rttvar) := Smooth(e.srtt, e.rttvar, rtt);
    TicksArePositive(srtt, rttvar);
    hide TimeoutTicks, Times;
    AtLeastOne(e.cfg.tick, TimeoutTicks(srtt, rttvar));
  }

  lemma SmoothIsPositive(srtt: int, rttvar: int, rtt: int)
    requires rtt >= 1
    ensures Smooth(srtt, rttvar, rtt).0 >= 1 && Smooth(srtt, rttvar, rtt).1 >= 1
  {
    hide S16;
  }

  lemma TicksArePositive(srtt: int, rttvar: int)
    requires srtt >= 1 && rttvar >= 1
    ensures TimeoutTicks(srtt, rttvar) >= 1
  {}

  lemma AtLeastOne(x: Positive, n: int)
    ensures n >= 1 ==> Times(x, n) >= x
  {}

  lemma {:induction false} RunKeepsTimer(cfg: Config, first: nat, rtxcur: real, vs: seq<Event>)
    requires SaneConfig(cfg) && WordSuffices(cfg, rtxcur) && rtxcur >= 0.0
    ensures var e := Run(Init(cfg, first, rtxcur), vs);
            e.cfg == cfg && BackoffBounded(e, rtxcur) && SaneTimer(e, rtxcur) && e.srtt >= 0 && e.rttvar >= 0
  {
    if vs != [] {
      RunKeepsTimer(cfg, first, rtxcur, vs[..|vs| - 1]);
      StepKeepsTimer(Run(Init(cfg, first, rtxcur), vs[..|vs| - 1]), vs[|vs| - 1], rtxcur);
    }
  }

  function Backoffs(n: nat): (vs: seq<Event>)
    ensures |vs| == n
  {
    if n == 0 then [] else Backoffs(n - 1) + [Backoff]
  }

  lemma {:induction false} RunAppends(e: Estimator, us: seq<Event>, vs: seq<Event>)
    ensures Run(e, us + vs) == Run(Run(e, us), vs)
  {
    if vs == [] {
      assert us + vs == us;
    } else {
      assert (us + vs)[..|us + vs| - 1] == us + vs[..|vs| - 1];
      RunAppends(e, us, vs[..|vs| - 1]);
    }
  }

  /** Section 5 of RFC 2988: after vs, n and n + 1 backoffs without a new sample give
      timeouts that do not decrease and do not exceed maxrto, and never a negative one. */
  ghost predicate NeverShorten(cfg: Config, first: nat, rtxcur: real, vs: seq<Event>, n: nat) {
    var e := Run(Init(cfg, first, rtxcur), vs + Backoffs(n));
    var e' := Run(Init(cfg, first, rtxcur), vs + Backoffs(n + 1));
    && Timeout(e).Seconds? && Timeout(e').Seconds?
    && Timeout(e).time <= Timeout(e').time <= cfg.maxRto
  }

  lemma BackoffsNeverShorten(cfg: Config, first: nat, rtxcur: real, vs: seq<Event>, n: nat)
    requires SaneConfig(cfg) && WordSuffices(cfg, rtxcur) && rtxcur >= 0.0
    ensures NeverShorten(cfg, first, rtxcur, vs, n)
  {
    var s := Init(cfg, first, rtxcur);
    var us := vs + Backoffs(n);
    assert vs + Backoffs(n + 1) == us + [Backoff];
    assert (us + [Backoff])[..|us|] == us;
    RunKeepsTimer(cfg, first, rtxcur, us);
    var e := Run(s, us);
    StepKeepsTimer(e, Backoff, rtxcur);
    DoublingIsBounded(e, rtxcur);
    TimeoutGrows(e, BackOff(e));
    TimeoutIsCapped(BackOff(e));
    hide WordSuffices, BackoffBounded, Timeout;
  }

  // ----- The multiplier leaves its int -----

  function Power(k: nat): (p: nat)
    ensures p >= 1
  {
    if k == 0 then 1 else 2 * Power(k - 1)
  }

  lemma {:induction false} PowerGrows(k: nat, n: nat)
    requires k <= n
    ensures Power(k) <= Power(n)
  {
    if k < n {
      PowerGrows(k, n - 1);
    }
  }

  /** What is multiplied does not reach the cap with 2^30. */
  ghost predicate StaysBelow(e: Estimator) {
    && e.cfg.rfc2988 && e.rtxcur >= 0.0 && 2.0 * e.cfg.tick < e.cfg.maxRto
    && Times(Base(e), TOP_MULTIPLIER) < e.cfg.maxRto
  }

  lemma DoublesBelow(e: Estimator)
    requires StaysBelow(e) && 1 <= e.backoff <= TOP_MULTIPLIER
    ensures Doubles(e)
  {
    SmallProduct(Base(e), e.backoff);
    hide Base, Times;
  }

  lemma DoubleBelow(e: Estimator)
    requires StaysBelow(e) && 1 <= e.backoff <= TOP_MULTIPLIER
    ensures var f := BackOff(e);
            && f.cfg == e.cfg && f.rtxcur == e.rtxcur
            && f.backoff == if e.backoff < TOP_MULTIPLIER then 2 * e.backoff else -HALF
  {
    DoublesBelow(e);
    hide Doubles;
  }

  /** So 31 backoffs double it out of the word. */
  lemma {:induction false} BackoffsOverflow(e: Estimator, k: nat)
    requires StaysBelow(e) && e.backoff == 1 && k <= 31
    ensures var f := Run(e, Backoffs(k));
            && f.cfg == e.cfg && f.rtxcur == e.rtxcur
            && f.backoff == if k < 31 then Power(k) else -HALF
  {
    hide BackOff, Times;
    if k > 0 {
      BackoffsOverflow(e, k - 1);
      PowersBelow(k - 1);
      DoubleBelow(Run(e, Backoffs(k - 1)));
      assert Backoffs(k)[..k - 1] == Backoffs(k - 1);
    }
  }

  lemma PowersBelow(k: nat)
    requires k <= 30
    ensures Power(k) <= TOP_MULTIPLIER && (k < 30 ==> Power(k) < TOP_MULTIPLIER)
    ensures k == 30 ==> Power(k) == TOP_MULTIPLIER
  {
    PowerOfThirty();
    if k < 30 {
      PowerGrows(k + 1, 30);
    }
  }

  lemma PowerOfThirty()
    ensures Power(30) == TOP_MULTIPLIER
  {
    assert Power(10) == 1024;
    assert Power(20) == 1024 * 1024;
  }

  /** And the next sample ends the program. */
  lemma OverflowExits(e: Estimator)
    requires e.cfg.rfc2988 && e.backoff == -HALF && e.cfg.maxRto > 0.0
    ensures Timeout(Update(e, 1)) == Exit
  {
    var f := Update(e, 1);
    SampleIsPositive(e, 1);
    hide Update;
    assert Base(f) > 0.0;
    NegativeProduct(Base(f));
    hide Base;
  }

  lemma NegativeProduct(x: real)
    requires x > 0.0
    ensures Times(x, -HALF) < 0.0
  {}

  /** Two samples, the second too large for its 16-bit word, make the shortest timeout. */
  lemma ShortestTimeout(cfg: Config, first: nat, rtxcur: real)
    ensures var e := Run(Init(cfg, first, rtxcur), [Sample(1), Sample(0x8001)]);
            e.cfg == cfg && e.rtxcur == cfg.tick && e.backoff == 1
  {
    TwoEvents(Init(cfg, first, rtxcur), Sample(1), Sample(0x8001));
    hide Run, S16, TimeoutTicks;
    var e := Update(Init(cfg, first, rtxcur), 1);
    assert e.srtt == 8 && e.rttvar == 2;
    LargeSample();
    hide Smooth;
    assert TimeoutTicks(1, 1) == 1;
  }

  lemma LargeSample()
    ensures Smooth(8, 2, 0x8001) == (1, 1) && TimeoutTicks(1, 1) == 1
  {}

  lemma TwoEvents(e: Estimator, v: Event, v': Event)
    ensures Run(e, [v, v']) == Step(Step(e, v), v')
  {
    assert [v, v'][..1] == [v] && [v][..0] == [];
    assert Run(e, [v]) == Step(e, v);
    hide Step;
  }

  /** A run after which least is multiplied. */
  lemma ReachLeast(cfg: Config, first: nat, rtxcur: real) returns (vs: seq<Event>)
    requires cfg.rfc2988 && rtxcur >= 0.0
    ensures var e := Run(Init(cfg, first, rtxcur), vs);
            e.cfg == cfg && e.backoff == 1 && e.rtxcur >= 0.0 && Base(e) == LeastBase(cfg, rtxcur)
  {
    if rtxcur <= cfg.tick {
      vs := [];
    } else {
      vs := [Sample(1), Sample(0x8001)];
      ShortestTimeout(cfg, first, rtxcur);
      hide Run;
    }
  }

  lemma SomeRunExits(cfg: Config, first: nat, rtxcur: real) returns (vs: seq<Event>)
    requires SaneConfig(cfg) && !WordSuffices(cfg, rtxcur) && rtxcur >= 0.0
    ensures Timeout(Run(Init(cfg, first, rtxcur), vs)) == Exit
  {
    var s := Init(cfg, first, rtxcur);
    var us := ReachLeast(cfg, first, rtxcur);
    var e := Run(s, us);
    assert StaysBelow(e);
    BackoffsOverflow(e, 31);
    RunAppends(s, us, Backoffs(31));
    var f := Run(s, us + Backoffs(31));
    hide LeastBase, StaysBelow, Base, Power;
    vs := us + Backoffs(31) + [Sample(1)];
    assert vs[..|vs| - 1] == us + Backoffs(31);
    OverflowExits(f);
    hide Timeout, Update;
  }

  /** For every configuration: in all runs backing off never shortens the timeout, and
      never ends the program, exactly if the bounds allow two ticks and the multiplier's
      word suffices. */
  lemma BackoffsNeverShortenIff(cfg: Config, first: nat, rtxcur: real)
    requires rtxcur >= 0.0
    ensures (forall vs, n: nat :: NeverShorten(cfg, first, rtxcur, vs, n)) <==>
            SaneConfig(cfg) && WordSuffices(cfg, rtxcur)
  {
    if !SaneConfig(cfg) {
      assert Timeout(Run(Init(cfg, first, rtxcur), [] + Backoffs(1))).Seconds? ==>
               Timeout(Run(Init(cfg, first, rtxcur), [] + Backoffs(1))).time >= 2.0 * cfg.tick by {
        ConfigStays(Init(cfg, first, rtxcur), [] + Backoffs(1));
        hide Run, Unbounded;
      }
      assert !NeverShorten(cfg, first, rtxcur, [], 0);
    } else if !WordSuffices(cfg, rtxcur) {
      var vs := SomeRunExits(cfg, first, rtxcur);
      assert vs + Backoffs(0) == vs;
      hide Run, Timeout, WordSuffices;
      assert !NeverShorten(cfg, first, rtxcur, vs, 0);
    } else {
      hide NeverShorten, WordSuffices;
      forall vs, n: nat ensures NeverShorten(cfg, first, rtxcur, vs, n) {
        BackoffsNeverShorten(cfg, first, rtxcur, vs, n);
      }
    }
  }

  lemma {:induction false} ConfigStays(e: Estimator, vs: seq<Event>)
    ensures Run(e, vs).cfg == e.cfg
  {
    if vs != [] {
      ConfigStays(e, vs[..|vs| - 1]);
      hide Doubles, Smooth;
    }
  }

  // ----- The multiplier over runs -----

  /** Backoffs since the last ACK that ended one. */
  function BackoffsSince(vs: seq<Event>): nat {
    if vs == [] then 0
    else match vs[|vs| - 1]
         case Sample(_) => BackoffsSince(vs[..|vs| - 1])
         case EndBackoff => 0
         case Backoff => BackoffsSince(vs[..|vs| - 1]) + 1
  }

  /** A timeout with 2^k times its value has not reached the cap. */
  predicate BelowCap(e: Estimator, k: nat) {
    && 2.0 * e.cfg.tick < e.cfg.maxRto
    && Times(if e.rtxcur < e.cfg.minRto then e.cfg.minRto else e.rtxcur, Power(k)) < e.cfg.maxRto
  }

  /** Those of them that doubled: the first six, and with rfc2988_ those below the cap. */
  function Doublings(e: Estimator, vs: seq<Event>): nat {
    if vs == [] then 0
    else
      var front := vs[..|vs| - 1];
      var k := Doublings(e, front);
      match vs[|vs| - 1]
      case Sample(_) => k
      case EndBackoff => 0
      case Backoff => if k < 6 || (e.cfg.rfc2988 && BelowCap(Run(e, front), k)) then k + 1 else k
  }

  lemma DoublesIff(e: Estimator, k: nat)
    requires SaneConfig(e.cfg) && e.rtxcur >= 0.0 && e.backoff == Power(k)
    ensures Doubles(e) <==> k < 6 || (e.cfg.rfc2988 && BelowCap(e, k))
  {
    SixtyFour(k);
    ProductGrows(Base(e), 0, e.backoff);
    if e.backoff >= 64 && Doubles(e) {
      DoublingIsEarly(e);
    }
    hide Times, Power;
  }

  lemma SixtyFour(k: nat)
    ensures Power(k) < 64 <==> k < 6
  {
    assert Power(5) == 32 && Power(6) == 64;
    if k < 6 {
      PowerGrows(k, 5);
    } else {
      PowerGrows(6, k);
    }
  }

  lemma OneBackoff(e: Estimator, rtxcur: real, k: nat)
    requires SaneConfig(e.cfg) && WordSuffices(e.cfg, rtxcur) && SaneTimer(e, rtxcur) && BackoffBounded(e, rtxcur)
    requires e.backoff == Power(k)
    ensures BackOff(e).backoff == Power(if k < 6 || (e.cfg.rfc2988 && BelowCap(e, k)) then k + 1 else k)
  {
    DoublesIff(e, k);
    if Doubles(e) {
      if e.backoff >= 64 {
        LateDoublingFits(e, rtxcur);
      }
      FitsInt(2 * e.backoff);
    }
    hide Doubles, LeastBase, S32, WordSuffices, Times, BelowCap;
  }

  /** In every run the multiplier is a power of two: of the backoffs since the last one
      ended, up to six, and with rfc2988_ beyond them while the timeout is below its cap. */
  lemma {:induction false} MultiplierIsPower(cfg: Config, first: nat, rtxcur: real, vs: seq<Event>)
    requires SaneConfig(cfg) && WordSuffices(cfg, rtxcur) && rtxcur >= 0.0
    ensures Run(Init(cfg, first, rtxcur), vs).backoff == Power(Doublings(Init(cfg, first, rtxcur), vs))
  {
    var s := Init(cfg, first, rtxcur);
    if vs != [] {
      var front := vs[..|vs| - 1];
      MultiplierIsPower(cfg, first, rtxcur, front);
      RunKeepsTimer(cfg, first, rtxcur, front);
      var e := Run(s, front);
      match vs[|vs| - 1]
      case Sample(ticks) =>
        SampleIsPositive(e, ticks);
        hide Update;
      case EndBackoff =>
      case Backoff =>
        OneBackoff(e, rtxcur, Doublings(s, front));
        hide BackOff, BelowCap, SaneTimer, BackoffBounded, WordSuffices;
    }
  }

  lemma {:induction false} DoublingsCount(e: Estimator, vs: seq<Event>)
    ensures BackoffsSince(vs) <= 6 || !e.cfg.rfc2988 ==>
              Doublings(e, vs) == if BackoffsSince(vs) < 6 then BackoffsSince(vs) else 6
    ensures Doublings(e, vs) <= BackoffsSince(vs)
  {
    if vs != [] {
      DoublingsCount(e, vs[..|vs| - 1]);
      hide BelowCap;
    }
  }

  /** The bounds of a timeout. */
  function WithinBounds(cfg: Config, t: real): real {
    var capped := if t > cfg.maxRto then cfg.maxRto else t;
    if capped < 2.0 * cfg.tick then 2.0 * cfg.tick else capped
  }

  /** So the timeout of every reachable state: the last one computed, at least minrto_,
      times that power, within its bounds. */
  lemma TimeoutIsMultiple(cfg: Config, first: nat, rtxcur: real, vs: seq<Event>)
    requires SaneConfig(cfg) && WordSuffices(cfg, rtxcur) && rtxcur >= 0.0
    ensures var s := Init(cfg, first, rtxcur);
            var e, p := Run(s, vs), Power(Doublings(s, vs));
            var t := if cfg.rfc2988 then Times(AtLeast(e.rtxcur, cfg.minRto), p)
                     else AtLeast(Times(e.rtxcur, p), cfg.minRto);
            Timeout(e) == Seconds(WithinBounds(cfg, t))
  {
    var s := Init(cfg, first, rtxcur);
    MultiplierIsPower(cfg, first, rtxcur, vs);
    RunKeepsTimer(cfg, first, rtxcur, vs);
    var e := Run(s, vs);
    ProductGrows(Base(e), 0, e.backoff);
    hide Times, Run, Power, Doublings, WordSuffices, BackoffBounded;
  }

  function AtLeast(x: real, y: real): real {
    if x < y then y else x
  }

  /** Right after a backoff has ended with a sample, the timeout is the smoothed time plus
      four deviations, within its bounds. */
  lemma EndedTimeout(cfg: Config, first: nat, rtxcur: real, vs: seq<Event>, ticks: int)
    requires SaneConfig(cfg) && WordSuffices(cfg, rtxcur) && rtxcur >= 0.0
    ensures var e := Run(Init(cfg, first, rtxcur), vs + [Sample(ticks), EndBackoff]);
            Timeout(e) ==
            Seconds(WithinBounds(cfg, AtLeast(Times(cfg.tick, (8 * e.rttvar + e.srtt) / 8), cfg.minRto)))
  {
    var s := Init(cfg, first, rtxcur);
    RunAppends(s, vs, [Sample(ticks), EndBackoff]);
    TwoEvents(Run(s, vs), Sample(ticks), EndBackoff);
    RunKeepsTimer(cfg, first, rtxcur, vs);
    var e := Update(Run(s, vs), ticks);
    SampleIsPositive(Run(s, vs), ticks);
    assert e.rtxcur == Times(cfg.tick, (8 * e.rttvar + e.srtt) / 8);
    hide Run, Update, WordSuffices, BackoffBounded;
    assert Times(e.rtxcur, 1) == e.rtxcur;
  }

  /** A multiplier beyond 8 moves the smoothed time into the deviation, others leave both. */
  lemma BackoffClobbersIff(e: Estimator)
    ensures var f := BackOff(e);
            if f.backoff > 8 then f.srtt == 0 && f.rttvar == e.rttvar + e.srtt / 8
            else f.srtt == e.srtt && f.rttvar == e.rttvar
  {
    hide Doubles, S32;
  }
}
