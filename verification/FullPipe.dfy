/** The full-pipe detector shared by the three senders: a bandwidth estimate is
    compared with a threshold above the last baseline, and the pipe is called full
    after `limit` evaluated rounds in a row without growth. */
module FullPipe {
  datatype Detector = Detector(base: real, cnt: nat)

  /** Evaluate: a round end with a bandwidth estimate. Reset: the baseline is
      forgotten, which the kernel does on a retransmission timeout. */
  datatype Probe = Evaluate(bw: real) | Reset

  predicate Full(limit: nat, d: Detector) {
    d.cnt >= limit
  }

  /** One probe. Nothing is evaluated once the pipe is full. */
  function Step(thresh: real -> real, limit: nat, d: Detector, p: Probe): Detector {
    match p
    case Reset => d.(base := 0.0)
    case Evaluate(bw) =>
      if Full(limit, d) then d
      else if bw >= thresh(d.base) then Detector(bw, 0)
      else d.(cnt := d.cnt + 1)
  }

  function Run(thresh: real -> real, limit: nat, d: Detector, ps: seq<Probe>): Detector {
    if ps == [] then d
    else Step(thresh, limit, Run(thresh, limit, d, ps[..|ps| - 1]), ps[|ps| - 1])
  }

  function Evaluations(ps: seq<Probe>): nat {
    if ps == [] then 0
    else Evaluations(ps[..|ps| - 1]) + (if ps[|ps| - 1].Evaluate? then 1 else 0)
  }

  function Resets(ps: seq<Probe>): nat {
    if ps == [] then 0
    else Resets(ps[..|ps| - 1]) + (if ps[|ps| - 1].Reset? then 1 else 0)
  }

  /** The baseline after k smallest possible growth steps from b. */
  function Rung(thresh: real -> real, b: real, k: nat): real {
    if k == 0 then b else thresh(Rung(thresh, b, k - 1))
  }

  /** A growth threshold for estimates of at least b: monotone, and a zero baseline
      is always outgrown. */
  ghost predicate Threshold(thresh: real -> real, b: real) {
    && 0.0 < b
    && thresh(0.0) <= b
    && forall x, y :: 0.0 <= x <= y ==> thresh(x) <= thresh(y)
  }

  ghost predicate InBand(ps: seq<Probe>, b: real, top: real) {
    forall i :: 0 <= i < |ps| && ps[i].Evaluate? ==> b <= ps[i].bw <= top
  }

  /** How many of the rungs 0 .. g - 1 the baseline has certainly climbed. */
  ghost function Climbed(thresh: real -> real, b: real, base: real, g: nat): (r: nat)
    ensures r <= g
  {
    if g == 0 || base >= Rung(thresh, b, g - 1) then g
    else Climbed(thresh, b, base, g - 1)
  }

  lemma {:induction false} ClimbedTop(thresh: real -> real, b: real, base: real, g: nat)
    ensures var r := Climbed(thresh, b, base, g); r > 0 ==> base >= Rung(thresh, b, r - 1)
  {
    if g > 0 && base < Rung(thresh, b, g - 1) {
      ClimbedTop(thresh, b, base, g - 1);
    }
  }

  lemma {:induction false} ClimbedAtLeast(thresh: real -> real, b: real, base: real, g: nat, k: nat)
    requires k < g && base >= Rung(thresh, b, k)
    ensures Climbed(thresh, b, base, g) >= k + 1
  {
    if base < Rung(thresh, b, g - 1) {
      ClimbedAtLeast(thresh, b, base, g - 1, k);
    }
  }

  /** k * n, kept away from nonlinear arithmetic. */
  ghost function Times(k: nat, n: nat): nat {
    if n == 0 then 0 else k + Times(k, n - 1)
  }

  lemma {:induction false} TimesIsProduct(k: nat, n: nat)
    ensures Times(k, n) == k * n
  {
    if n > 0 {
      TimesIsProduct(k, n - 1);
      assert k * n == k * (n - 1) + k;
    }
  }

  /** limit * g + 1 evaluated rounds for each baseline. */
  function Allowance(limit: nat, g: nat, resets: nat): nat {
    (resets + 1) * (limit * g + 1)
  }

  lemma AllowanceIsProduct(limit: nat, g: nat, resets: nat)
    ensures Times(Times(limit, g) + 1, resets + 1) == Allowance(limit, g, resets)
  {
    TimesIsProduct(limit, g);
    var allowance := limit * g + 1;
    TimesIsProduct(allowance, resets + 1);
  }

  lemma {:induction false} TimesGrows(k: nat, m: nat, n: nat)
    requires m <= n
    ensures Times(k, m) <= Times(k, n)
  {
    if m < n {
      TimesGrows(k, m, n - 1);
    }
  }

  /** Evaluated rounds that can still pass before the pipe is full: lexicographic in
      (growth steps left, rounds without growth left). */
  ghost function Fuel(thresh: real -> real, limit: nat, b: real, g: nat, d: Detector): int {
    if Full(limit, d) then 0
    else if d.base == 0.0 then Times(limit, g) + 1
    else Times(limit, g - Climbed(thresh, b, d.base, g)) + limit - d.cnt
  }

  ghost predicate Sane(d: Detector, b: real, top: real) {
    d.base == 0.0 || b <= d.base <= top
  }

  /** A growth step from a baseline of at least b climbs one more rung. */
  lemma GrowthClimbs(thresh: real -> real, b: real, top: real, g: nat, base: real, bw: real)
    requires Threshold(thresh, b) && thresh(0.0) >= 0.0 && top < Rung(thresh, b, g)
    requires b <= base <= top && thresh(base) <= bw <= top
    ensures Climbed(thresh, b, base, g) < g
    ensures Climbed(thresh, b, bw, g) >= Climbed(thresh, b, base, g) + 1
  {
    var c := Climbed(thresh, b, base, g);
    FirstClimbs(thresh, b, top, g, base);
    ClimbedTop(thresh, b, base, g);
    RungPositive(thresh, b, c - 1);
    assert Rung(thresh, b, c) <= bw;
    ClimbedAtLeast(thresh, b, bw, g, c);
  }

  lemma FirstClimbs(thresh: real -> real, b: real, top: real, g: nat, bw: real)
    requires b <= bw <= top < Rung(thresh, b, g)
    ensures g > 0 && Climbed(thresh, b, bw, g) >= 1
  {
    ClimbedAtLeast(thresh, b, bw, g, 0);
  }

  lemma GrowthBurns(thresh: real -> real, limit: nat, b: real, top: real, g: nat, d: Detector, bw: real)
    requires Threshold(thresh, b) && thresh(0.0) >= 0.0 && top < Rung(thresh, b, g)
    requires Sane(d, b, top) && b <= bw <= top
    requires !Full(limit, d) && bw >= thresh(d.base)
    ensures Fuel(thresh, limit, b, g, Detector(bw, 0)) < Fuel(thresh, limit, b, g, d)
  {
    var left := g - Climbed(thresh, b, bw, g);
    if d.base == 0.0 {
      FirstClimbs(thresh, b, top, g, bw);
      TimesGrows(limit, left + 1, g);
    } else {
      GrowthClimbs(thresh, b, top, g, d.base, bw);
      TimesGrows(limit, left + 1, g - Climbed(thresh, b, d.base, g));
    }
  }

  lemma StallBurns(thresh: real -> real, limit: nat, b: real, g: nat, d: Detector)
    requires !Full(limit, d) && d.base != 0.0
    ensures Fuel(thresh, limit, b, g, d.(cnt := d.cnt + 1)) < Fuel(thresh, limit, b, g, d)
  {}

  /** An evaluated round burns fuel. */
  lemma EvaluateBurns(thresh: real -> real, limit: nat, b: real, top: real, g: nat, d: Detector, bw: real)
    requires Threshold(thresh, b) && thresh(0.0) >= 0.0 && top < Rung(thresh, b, g)
    requires Sane(d, b, top) && b <= bw <= top
    requires !Full(limit, d)
    ensures Sane(Step(thresh, limit, d, Evaluate(bw)), b, top)
    ensures Fuel(thresh, limit, b, g, Step(thresh, limit, d, Evaluate(bw))) < Fuel(thresh, limit, b, g, d)
  {
    if bw >= thresh(d.base) {
      GrowthBurns(thresh, limit, b, top, g, d, bw);
    } else {
      StallBurns(thresh, limit, b, g, d);
    }
  }

  lemma FuelSigned(thresh: real -> real, limit: nat, b: real, g: nat, d: Detector)
    requires !Full(limit, d)
    ensures Fuel(thresh, limit, b, g, d) > 0
  {}

  /** Rungs below a climbed one are not negative: each is a value of a monotone
      function that is at least thresh(0), or b itself. */
  lemma {:induction false} RungPositive(thresh: real -> real, b: real, k: nat)
    requires Threshold(thresh, b)
    requires thresh(0.0) >= 0.0
    ensures Rung(thresh, b, k) >= 0.0
  {
    if k > 0 {
      RungPositive(thresh, b, k - 1);
    }
  }

  /** Conservation of fuel over a run: rounds evaluated so far plus rounds that can
      still pass never exceed one full allowance per reset. */
  lemma {:induction false} FuelBound(thresh: real -> real, limit: nat, b: real, top: real, g: nat, ps: seq<Probe>)
    requires Threshold(thresh, b) && thresh(0.0) >= 0.0 && top < Rung(thresh, b, g)
    requires InBand(ps, b, top)
    ensures var d := Run(thresh, limit, Detector(0.0, 0), ps);
            && Sane(d, b, top)
            && (!Full(limit, d) ==>
                  Evaluations(ps) + Fuel(thresh, limit, b, g, d) <= Times(Times(limit, g) + 1, Resets(ps) + 1))
  {
    if ps != [] {
      var front, last := ps[..|ps| - 1], ps[|ps| - 1];
      FuelBound(thresh, limit, b, top, g, front);
      var d := Run(thresh, limit, Detector(0.0, 0), front);
      match last {
        case Reset =>
          assert Resets(ps) == Resets(front) + 1 && Evaluations(ps) == Evaluations(front);
          if !Full(limit, d) {
            FuelSigned(thresh, limit, b, g, d);
          }
        case Evaluate(bw) =>
          assert Resets(ps) == Resets(front) && Evaluations(ps) == Evaluations(front) + 1;
          assert b <= bw <= top;
          if !Full(limit, d) {
            EvaluateBurns(thresh, limit, b, top, g, d, bw);
          }
      }
    }
  }

  /** STARTUP ends: if the estimates stay in [b, top] and g growth steps from b lead
      above top, then limit * g + 1 evaluated rounds per baseline fill the pipe. */
  lemma FillsWithin(thresh: real -> real, limit: nat, b: real, top: real, g: nat, ps: seq<Probe>)
    requires Threshold(thresh, b) && thresh(0.0) >= 0.0 && top < Rung(thresh, b, g)
    requires InBand(ps, b, top)
    requires Evaluations(ps) >= Allowance(limit, g, Resets(ps))
    ensures Full(limit, Run(thresh, limit, Detector(0.0, 0), ps))
  {
    var d := Run(thresh, limit, Detector(0.0, 0), ps);
    if !Full(limit, d) {
      FuelBound(thresh, limit, b, top, g, ps);
      FuelSigned(thresh, limit, b, g, d);
      AllowanceIsProduct(limit, g, Resets(ps));
    }
  }

  // ----- Growth by a quarter -----

  lemma {:induction false} RungsClimb(thresh: real -> real, b: real, k: nat)
    requires 0.0 < b && forall x :: x >= b ==> thresh(x) >= x + b / 4.0
    ensures Rung(thresh, b, k) >= b + k as real * (b / 4.0)
  {
    if k > 0 {
      RungsClimb(thresh, b, k - 1);
      assert k as real * (b / 4.0) == (k - 1) as real * (b / 4.0) + b / 4.0;
      assert (k - 1) as real * (b / 4.0) >= 0.0;
    }
  }

  /** Enough of them lead above every top. */
  lemma StepsExist(thresh: real -> real, b: real, top: real) returns (g: nat)
    requires 0.0 < b <= top && forall x :: x >= b ==> thresh(x) >= x + b / 4.0
    ensures top < Rung(thresh, b, g)
  {
    var ratio := top / (b / 4.0);
    g := ratio.Floor + 1;
    RungsClimb(thresh, b, g);
    assert ratio * (b / 4.0) == top;
    Scale(ratio, g as real, b / 4.0);
  }

  lemma Scale(x: real, y: real, c: real)
    requires x <= y && 0.0 < c
    ensures x * c <= y * c
  {}
}
