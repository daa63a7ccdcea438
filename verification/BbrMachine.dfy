/** What the three BBR senders have in common: their modes and gain cycle. */
module BbrModes {
  datatype Mode = Startup | Drain | ProbeBw | ProbeRtt

  const CYCLE_LEN: nat := 8

  /** Pacing gain of a cycle phase, in quarters: 5/4, 3/4, then six times 1. */
  function Quarters(phase: nat): nat {
    if phase == 0 then 5 else if phase == 1 then 3 else 4
  }
}

/** The state machine of draft-cardwell-iccrg-bbr-congestion-control-00 section 4.3,
    which the three senders refine, and the gain cycle of its PROBE_BW state. */
module BbrMachine {
  import opened BbrModes

  /** full: STARTUP is over for good. phase: the gain cycle phase in PROBE_BW.
      paced: the gains of the phases of the current PROBE_BW stay, newest last. */
  datatype Machine = Machine(mode: Mode, full: bool, phase: nat, paced: seq<nat>)

  /** What one event decides, in the order in which every sender decides it.
      restart: begin a new stay in PROBE_BW; advance: next cycle phase; fills: the
      pipe is found full; drained: the STARTUP queue is gone; dip: the min RTT
      expired; finish: PROBE_RTT is over; entry: the random phase of a new stay. */
  datatype Choice = Choice(restart: bool, advance: bool, fills: bool, drained: bool,
                           dip: bool, finish: bool, entry: nat)

  const IDLE: Choice := Choice(false, false, false, false, false, false, 0)

  /** A stay never starts in the 3/4 phase. */
  predicate LegalEntry(phase: nat) {
    phase < CYCLE_LEN && phase != 1
  }

  function Initial(): Machine {
    Machine(Startup, false, 0, [])
  }

  function EnterProbeBw(m: Machine, entry: nat): Machine {
    Machine(ProbeBw, m.full, entry, [Quarters(entry)])
  }

  function Advance(m: Machine): Machine {
    var next := (m.phase + 1) % CYCLE_LEN;
    m.(phase := next, paced := m.paced + [Quarters(next)])
  }

  function Cycle(m: Machine, c: Choice): Machine {
    if m.mode != ProbeBw then m
    else if c.restart then EnterProbeBw(m, c.entry)
    else if c.advance then Advance(m)
    else m
  }

  function FillAndDrain(m: Machine, c: Choice): Machine {
    var m1 := if c.fills then m.(full := true) else m;
    var m2 := if m1.mode == Startup && m1.full then m1.(mode := Drain) else m1;
    if m2.mode == Drain && c.drained then EnterProbeBw(m2, c.entry) else m2
  }

  function DipAndReturn(m: Machine, c: Choice): Machine {
    if m.mode != ProbeRtt then
      if c.dip then m.(mode := ProbeRtt) else m
    else if !c.finish then m
    else if m.full then EnterProbeBw(m, c.entry)
    else m.(mode := Startup)
  }

  function Step(m: Machine, c: Choice): Machine {
    DipAndReturn(FillAndDrain(Cycle(m, c), c), c)
  }

  function Run(cs: seq<Choice>): Machine {
    if cs == [] then Initial() else Step(Run(cs[..|cs| - 1]), cs[|cs| - 1])
  }

  predicate LegalRun(cs: seq<Choice>) {
    forall i :: 0 <= i < |cs| ==> LegalEntry(cs[i].entry)
  }

  /** Section 4.3: DRAIN and PROBE_BW are for a full pipe, STARTUP for one that is not. */
  ghost predicate Sound(m: Machine) {
    && (m.mode == Drain || m.mode == ProbeBw ==> m.full)
    && (m.mode == Startup ==> !m.full)
    && (m.mode == ProbeBw ==> Stay(m))
  }

  /** The gains of this stay are those of consecutive phases from a legal entry. */
  ghost predicate Stay(m: Machine) {
    && m.phase < CYCLE_LEN
    && exists entry: nat :: LegalEntry(entry) && StayFrom(m, entry)
  }

  ghost predicate StayFrom(m: Machine, entry: nat) {
    && |m.paced| > 0
    && m.phase == (entry + |m.paced| - 1) % CYCLE_LEN
    && forall i :: 0 <= i < |m.paced| ==> m.paced[i] == Quarters((entry + i) % CYCLE_LEN)
  }

  lemma StayAdvances(m: Machine, entry: nat)
    requires StayFrom(m, entry)
    ensures StayFrom(Advance(m), entry)
  {}

  lemma CycleSound(m: Machine, c: Choice)
    requires Sound(m) && LegalEntry(c.entry)
    ensures Sound(Cycle(m, c)) && Cycle(m, c).full == m.full
  {
    if m.mode == ProbeBw {
      if c.restart {
        assert StayFrom(Cycle(m, c), c.entry);
      } else if c.advance {
        var entry: nat :| LegalEntry(entry) && StayFrom(m, entry);
        StayAdvances(m, entry);
      }
    }
  }

  lemma FillAndDrainSound(m: Machine, c: Choice)
    requires Sound(m) && LegalEntry(c.entry)
    ensures Sound(FillAndDrain(m, c))
    ensures m.full ==> FillAndDrain(m, c).full
  {}

  lemma DipAndReturnSound(m: Machine, c: Choice)
    requires Sound(m) && LegalEntry(c.entry)
    ensures Sound(DipAndReturn(m, c)) && DipAndReturn(m, c).full == m.full
  {}

  lemma StepSound(m: Machine, c: Choice)
    requires Sound(m) && LegalEntry(c.entry)
    ensures Sound(Step(m, c))
    ensures m.full ==> Step(m, c).full
  {
    CycleSound(m, c);
    FillAndDrainSound(Cycle(m, c), c);
    DipAndReturnSound(FillAndDrain(Cycle(m, c), c), c);
  }

  /** Every run is sound. */
  lemma {:induction false} RunSound(cs: seq<Choice>)
    requires LegalRun(cs)
    ensures Sound(Run(cs))
  {
    if cs != [] {
      RunSound(cs[..|cs| - 1]);
      StepSound(Run(cs[..|cs| - 1]), cs[|cs| - 1]);
    }
  }

  /** A full pipe is never undone: what a prefix of a run found full stays full. */
  lemma {:induction false} FullForever(cs: seq<Choice>, n: nat)
    requires LegalRun(cs) && n <= |cs|
    ensures Run(cs[..n]).full ==> Run(cs).full
    decreases |cs|
  {
    if n == |cs| {
      assert cs[..n] == cs;
    } else {
      var front := cs[..|cs| - 1];
      assert front[..n] == cs[..n];
      FullForever(front, n);
      RunSound(front);
      StepSound(Run(front), cs[|cs| - 1]);
    }
  }

  function Sum(s: seq<nat>): nat {
    if s == [] then 0 else Sum(s[..|s| - 1]) + s[|s| - 1]
  }

  lemma NextPhase(x: nat)
    ensures (x + 1) % CYCLE_LEN == if x % CYCLE_LEN == CYCLE_LEN - 1 then 0 else x % CYCLE_LEN + 1
  {}

  /** Consecutive phases from a legal entry pay back every 5/4 with a 3/4. */
  lemma {:induction false} StaySum(m: Machine, entry: nat, n: nat)
    requires LegalEntry(entry) && StayFrom(m, entry) && n <= |m.paced|
    ensures Sum(m.paced[..n]) == 4 * n + if n > 0 && (entry + n - 1) % CYCLE_LEN == 0 then 1 else 0
  {
    if n > 0 {
      StaySum(m, entry, n - 1);
      assert m.paced[..n][..n - 1] == m.paced[..n - 1];
      assert m.paced[n - 1] == Quarters((entry + (n - 1)) % CYCLE_LEN);
      if n > 1 {
        NextPhase(entry + n - 2);
      }
    }
  }

  /** Gain cycle fairness: in every PROBE_BW stay of every run, the first n phase
      gains sum to n or to n + 1/4 (here in quarters). */
  lemma CycleIsFair(cs: seq<Choice>, n: nat)
    requires LegalRun(cs) && Run(cs).mode == ProbeBw && n <= |Run(cs).paced|
    ensures 4 * n <= Sum(Run(cs).paced[..n]) <= 4 * n + 1
  {
    RunSound(cs);
    var m := Run(cs);
    var entry: nat :| LegalEntry(entry) && StayFrom(m, entry);
    StaySum(m, entry, n);
  }

  /** The newest gain of a stay is that of the current phase. */
  lemma NewestGain(cs: seq<Choice>)
    requires LegalRun(cs) && Run(cs).mode == ProbeBw
    ensures var m := Run(cs); |m.paced| > 0 && m.paced[|m.paced| - 1] == Quarters(m.phase)
  {
    RunSound(cs);
    var m := Run(cs);
    hide Run;
    var entry: nat :| LegalEntry(entry) && StayFrom(m, entry);
    assert m.paced[|m.paced| - 1] == Quarters((entry + (|m.paced| - 1)) % CYCLE_LEN);
  }
}
