/** The count-expired bandwidth filter of tcp-bbr.cc against a maximum over history. */
module Ns2Filter {
  import opened Ns2Bbr
  import MinFilter

  const EMPTY: Filter := Filter(-1.0, 0)

  function Feed(bws: seq<real>): Filter {
    if bws == [] then EMPTY else UpdateBtlBw(Feed(bws[..|bws| - 1]), bws[|bws| - 1])
  }

  ghost predicate Nonnegative(bws: seq<real>) {
    forall i :: 0 <= i < |bws| ==> bws[i] >= 0.0
  }

  /** bw is the sample of age updates ago and exceeds every later one. */
  ghost predicate Leads(f: Filter, bws: seq<real>) {
    && 1 <= f.age <= |bws| && f.age <= FILTER_LEN + 1
    && f.bw == bws[|bws| - f.age]
    && forall i :: |bws| - f.age < i < |bws| ==> bws[i] < f.bw
  }

  /** After any samples the filter holds the maximum of the last `age` of them. */
  lemma {:induction false} FilterLeads(bws: seq<real>)
    requires bws != [] && Nonnegative(bws)
    ensures Leads(Feed(bws), bws)
  {
    var front := bws[..|bws| - 1];
    if front != [] {
      FilterLeads(front);
      var f := Feed(front);
      assert f.bw == bws[|front| - f.age];
      forall i | |bws| - (f.age + 1) < i < |bws| - 1
        ensures bws[i] < f.bw
      {
        assert front[i] == bws[i];
      }
    }
  }

  /** It never exceeds the true maximum of the last eleven samples, m. */
  lemma FilterIsNoMoreThanMax(bws: seq<real>, m: real)
    requires bws != [] && Nonnegative(bws)
    requires forall i :: 0 <= i < |bws| && i >= |bws| - 11 ==> bws[i] <= m
    ensures Feed(bws).bw <= m
  {
    FilterLeads(bws);
  }

  /** The filter holds the maximum of the last eleven samples. */
  ghost predicate HoldsMaximum(bws: seq<real>) {
    forall i :: 0 <= i < |bws| && i >= |bws| - 11 ==> bws[i] <= Feed(bws).bw
  }

  /** The update that goes wrong: the held sample has expired, and the sample that takes
      its place is smaller than one of the ten before it. */
  ghost predicate ForgetsLarger(f: Filter, bws: seq<real>, x: real) {
    Expired(f) && exists i :: 0 <= i < |bws| && i >= |bws| - 10 && bws[i] > x
  }

  /** One more sample keeps the maximum exactly if it is not taken by expiry from among
      larger ones. */
  lemma UpdateKeepsMaximumIff(bws: seq<real>, x: real)
    requires Nonnegative(bws) && x >= 0.0 && HoldsMaximum(bws)
    ensures HoldsMaximum(bws + [x]) <==> !ForgetsLarger(Feed(bws), bws, x)
  {
    var bws', f := bws + [x], Feed(bws);
    assert bws'[..|bws|] == bws;
    assert Feed(bws') == UpdateBtlBw(f, x);
    if bws != [] {
      FilterLeads(bws);
    }
    if ForgetsLarger(f, bws, x) {
      var i :| 0 <= i < |bws| && i >= |bws| - 10 && bws[i] > x;
      assert bws'[i] > Feed(bws').bw;
    } else {
      forall i | 0 <= i < |bws'| && i >= |bws'| - 11 ensures bws'[i] <= Feed(bws').bw {
        if i < |bws| {
          assert bws'[i] == bws[i];
        }
      }
    }
  }

  function Repeat(x: real, n: nat): (r: seq<real>)
    ensures |r| == n && forall i :: 0 <= i < n ==> r[i] == x
  {
    if n == 0 then [] else Repeat(x, n - 1) + [x]
  }

  lemma {:induction false} Ages(a: real, b: real, c: real, n: nat)
    requires a > b > c >= 0.0 && n <= 9
    ensures Feed([a, b] + Repeat(c, n)) == Filter(a, 2 + n)
  {
    var bws := [a, b] + Repeat(c, n);
    if n == 0 {
      assert bws == [a, b] && [a, b][..1] == [a] && [a][..0] == [];
      assert Feed([a]) == Filter(a, 1);
    } else {
      Ages(a, b, c, n - 1);
      assert bws[..|bws| - 1] == [a, b] + Repeat(c, n - 1);
    }
  }

  /** And it may be less: when the held sample expires, the filter takes the sample of
      that moment and forgets a larger one that is not yet eleven samples old. */
  lemma ExpiryForgets(a: real, b: real, c: real)
    requires a > b > c >= 0.0
    ensures var bws := [a, b] + Repeat(c, 10);
            Feed(bws).bw == c && bws[|bws| - 11] == b
  {
    var bws := [a, b] + Repeat(c, 10);
    Ages(a, b, c, 9);
    assert bws[..|bws| - 1] == [a, b] + Repeat(c, 9);
  }

  function Rates(ks: seq<Ack>): (bws: seq<real>)
    ensures |bws| == |ks| && forall i :: 0 <= i < |ks| ==> bws[i] == ks[i].bw
  {
    if ks == [] then [] else Rates(ks[..|ks| - 1]) + [ks[|ks| - 1].bw]
  }

  /** Nothing but the delivery rates touches the filter. */
  lemma OnlyRatesMatter(a: Agent, k: Ack)
    ensures Step(a, k).filter == UpdateBtlBw(a.filter, k.bw)
  {}

  /** In every run BtlBw is what the filter makes of the delivery rates. */
  lemma {:induction false} AgentFilters(a: Agent, ks: seq<Ack>)
    requires Fresh(a)
    ensures Run(a, ks).filter == Feed(Rates(ks))
  {
    if ks != [] {
      AgentFilters(a, ks[..|ks| - 1]);
      OnlyRatesMatter(Run(a, ks[..|ks| - 1]), ks[|ks| - 1]);
      assert Rates(ks)[..|ks| - 1] == Rates(ks[..|ks| - 1]);
    }
  }

  /** At every ACK of the run BtlBw is the maximum of the last eleven delivery rates. */
  ghost predicate AlwaysMaximum(a: Agent, ks: seq<Ack>) {
    ks == [] ||
    (AlwaysMaximum(a, ks[..|ks| - 1]) &&
     forall i :: 0 <= i < |ks| && i >= |ks| - 11 ==> ks[i].bw <= Run(a, ks).filter.bw)
  }

  /** No ACK of the run finds BtlBw expired and brings less than one of the ten before. */
  ghost predicate NeverForgets(a: Agent, ks: seq<Ack>) {
    ks == [] ||
    (NeverForgets(a, ks[..|ks| - 1]) &&
     !ForgetsLarger(Run(a, ks[..|ks| - 1]).filter, Rates(ks[..|ks| - 1]), ks[|ks| - 1].bw))
  }

  lemma MaximumOfRates(a: Agent, ks: seq<Ack>)
    requires Fresh(a)
    ensures HoldsMaximum(Rates(ks)) <==>
            forall i :: 0 <= i < |ks| && i >= |ks| - 11 ==> ks[i].bw <= Run(a, ks).filter.bw
  {
    AgentFilters(a, ks);
    hide Feed, Run;
  }

  /** Over whole runs: BtlBw is the maximum all along exactly if no ACK goes wrong so. */
  lemma {:induction false} BtlBwIsMaximumIff(a: Agent, ks: seq<Ack>)
    requires Fresh(a) && forall i :: 0 <= i < |ks| ==> ks[i].bw >= 0.0
    ensures AlwaysMaximum(a, ks) <==> NeverForgets(a, ks)
    ensures AlwaysMaximum(a, ks) ==> HoldsMaximum(Rates(ks))
  {
    if ks != [] {
      var front := ks[..|ks| - 1];
      BtlBwIsMaximumIff(a, front);
      MaximumOfRates(a, ks);
      AgentFilters(a, front);
      if HoldsMaximum(Rates(front)) {
        UpdateKeepsMaximumIff(Rates(front), ks[|ks| - 1].bw);
      }
      hide HoldsMaximum, ForgetsLarger, Run, Feed;
    }
  }

  // ----- The round trip time -----

  function RttInput(a: Agent, k: Ack): MinFilter.Input {
    if k.rtt < 0 then MinFilter.Nothing
    else MinFilter.Sample(k.rtt as real / 100.0, k.now > a.rtt.stamp + RTPROP_FILTER_LEN)
  }

  function RttInputs(a: Agent, ks: seq<Ack>): (ins: seq<MinFilter.Input>)
    ensures |ins| == |ks|
  {
    if ks == [] then [] else RttInputs(a, ks[..|ks| - 1]) + [RttInput(Run(a, ks[..|ks| - 1]), ks[|ks| - 1])]
  }

  lemma StepFiltersRtt(a: Agent, k: Ack)
    ensures Step(a, k).rtt.rtProp == MinFilter.Next(a.rtt.rtProp, RttInput(a, k))
  {}

  /** RTprop is an expiring minimum of the samples: the one it holds is less than all
      later ones. */
  lemma {:induction false} RTpropIsMinimum(a: Agent, ks: seq<Ack>)
    ensures Run(a, ks).rtt.rtProp == MinFilter.Held(a.rtt.rtProp, RttInputs(a, ks))
    ensures var n := MinFilter.TakenAt(a.rtt.rtProp, RttInputs(a, ks));
            forall j :: n <= j < |ks| && ks[j].rtt >= 0 ==> ks[j].rtt as real / 100.0 > Run(a, ks).rtt.rtProp
  {
    var ins := RttInputs(a, ks);
    if ks != [] {
      RTpropIsMinimum(a, ks[..|ks| - 1]);
      StepFiltersRtt(Run(a, ks[..|ks| - 1]), ks[|ks| - 1]);
      assert ins[..|ins| - 1] == RttInputs(a, ks[..|ks| - 1]);
    }
    MinFilter.HeldIsMinimum(a.rtt.rtProp, ins);
    forall j | 0 <= j < |ks| ensures ins[j] == RttInput(Run(a, ks[..j]), ks[j]) {
      InputAt(a, ks, j);
    }
    hide Run, RttInputs, MinFilter.Held, MinFilter.TakenAt;
  }

  lemma {:induction false} InputAt(a: Agent, ks: seq<Ack>, j: nat)
    requires j < |ks|
    ensures RttInputs(a, ks)[j] == RttInput(Run(a, ks[..j]), ks[j])
    decreases |ks|
  {
    if j < |ks| - 1 {
      InputAt(a, ks[..|ks| - 1], j);
      assert ks[..|ks| - 1][..j] == ks[..j];
    }
  }
}
