/** The expiring minimum filter that all three senders keep for the round trip time. */
module MinFilter {
  /** What one event offers; expired: the held value is too old to defend its place. */
  datatype Input = Nothing | Sample(value: real, expired: bool)

  function Next(held: real, i: Input): real {
    if i.Sample? && (i.value <= held || i.expired) then i.value else held
  }

  function Held(first: real, ins: seq<Input>): real {
    if ins == [] then first else Next(Held(first, ins[..|ins| - 1]), ins[|ins| - 1])
  }

  /** How many inputs there were when the held value was taken; 0 for the first value. */
  function TakenAt(first: real, ins: seq<Input>): (n: nat)
    ensures n <= |ins|
  {
    if ins == [] then 0
    else
      var i, held := ins[|ins| - 1], Held(first, ins[..|ins| - 1]);
      if i.Sample? && (i.value <= held || i.expired) then |ins| else TakenAt(first, ins[..|ins| - 1])
  }

  /** The held value is a sample, and less than every later one; and it was not too old
      at any of them. */
  lemma {:induction false} HeldIsMinimum(first: real, ins: seq<Input>)
    ensures var n := TakenAt(first, ins);
            && (n == 0 ==> Held(first, ins) == first)
            && (n > 0 ==> ins[n - 1].Sample? && Held(first, ins) == ins[n - 1].value)
            && forall j :: n <= j < |ins| && ins[j].Sample? ==> ins[j].value > Held(first, ins) && !ins[j].expired
  {
    if ins != [] {
      HeldIsMinimum(first, ins[..|ins| - 1]);
    }
  }
}
