/** The sender of drafts/tcp.cc and drafts/tcp-reno.cc as a state machine: one function
    for each method that sends, takes ACKs or times out. F-RTO, ECN, Quick-Start, QOption,
    pacing and the random overhead are off, as they are by default. */
module TcpSender {

  type NonNeg = r: real | r >= 0.0 witness 0.0
  /** A sequence number, or -1 for none. */
  type SeqNo = n: int | -1 <= n witness 0

  const RING_SIZE: nat := 100

  datatype Config = Config(
    wnd: nat, numDupAcks: nat, maxBurst: nat, syn: bool, maxConnects: int,
    bugFix: bool, bugfixSs: bool, exitFastRetrans: bool, singleDup: bool,
    aggressiveMaxburst: bool, slowStartRestart: bool, restartBugfix: bool,
    precisionReduce: bool, decrease: NonNeg)

  datatype Seqs = Seqs(tSeqno: nat, highestAck: SeqNo, maxSeq: SeqNo, curSeq: int)

  /** The time stamps, empty until they are allocated; strayed: an access left the array. */
  datatype Ring = Ring(slots: seq<real>, strayed: bool)

  datatype Counts = Counts(data: nat, rexmit: nat, connects: nat)

  datatype Packet = Packet(seqno: nat, time: real)

  datatype Action = NoAction | DupAck | Exited | TimedOut

  datatype Control = Control(cwnd: NonNeg, ssthresh: int, dupAcks: nat, dupWnd: nat,
                             recover: int, action: Action, firstDecrease: bool)

  /** wire: the packets handed to the network so far. */
  datatype Tcp = Tcp(cfg: Config, seqs: Seqs, ring: Ring, counts: Counts, wire: seq<Packet>, control: Control)

  /** The application supplies packets; an ACK arrives, with the window that opencwnd or
      the initial window makes of it; the retransmit timer expires. */
  datatype Event =
    | Advance(delta: int, now: real)
    | Ack(ackNo: SeqNo, grown: NonNeg, now: real)
    | Timer(now: real)

  function Max(a: int, b: int): int { if a < b then b else a }

  function PacketInFlight(s: Tcp): nat {
    if s.seqs.tSeqno > s.seqs.highestAck then s.seqs.tSeqno - s.seqs.highestAck else 0
  }

  /** RenoTcpAgent::window. */
  function Window(s: Tcp): nat {
    var win := s.control.cwnd.Floor + s.control.dupWnd;
    if win > s.cfg.wnd then s.cfg.wnd else win
  }

  // ----- The ring of time stamps -----

  /** The remainder of C, which takes the sign of the dividend. */
  function CRemainder(a: int, m: int): int
    requires m > 0
  {
    if a >= 0 then a % m else 0 - (0 - a) % m
  }

  function Zeros(n: nat): (z: seq<real>)
    ensures |z| == n
  {
    seq(n, _ => 0.0)
  }

  /** One round of the copy loop, for sequence number k; an access outside is dropped. */
  function CopyEntry(slots: seq<real>, c: seq<real>, k: int): (c': seq<real>)
    requires slots != [] && |c| == 2 * |slots|
    ensures |c'| == |c|
  {
    var to, from := CRemainder(k, 2 * |slots|), CRemainder(k, |slots|);
    if 0 <= to && 0 <= from then c[to := slots[from]] else c
  }

  /** The doubled table after i rounds of the copy loop. */
  function Copied(slots: seq<real>, highestAck: SeqNo, i: nat): (c: seq<real>)
    ensures |c| == 2 * |slots|
  {
    if i == 0 || slots == [] then Zeros(2 * |slots|)
    else CopyEntry(slots, Copied(slots, highestAck, i - 1), highestAck + i - 1)
  }

  function Allocated(r: Ring): (r': Ring)
    ensures r'.slots != []
  {
    if r.slots == [] then r.(slots := Zeros(RING_SIZE)) else r
  }

  /** The table is more than nine tenths full. */
  predicate Crowded(inFlight: nat, size: nat) {
    10 * inFlight > 9 * size
  }

  function Doubled(r: Ring, highestAck: SeqNo): Ring {
    Ring(Copied(r.slots, highestAck, |r.slots|), r.strayed || highestAck < 0)
  }

  function Prepared(r: Ring, highestAck: SeqNo, inFlight: nat): (r': Ring)
    ensures r'.slots != []
  {
    var r1 := Allocated(r);
    if Crowded(inFlight, |r1.slots|) then Doubled(r1, highestAck) else r1
  }

  function Stamp(r: Ring, highestAck: SeqNo, inFlight: nat, seqno: nat, now: real): Ring {
    var r1 := Prepared(r, highestAck, inFlight);
    r1.(slots := r1.slots[seqno % |r1.slots| := now])
  }

  // ----- Sending -----

  /** The SYN has been sent more often than max_connects_ allows. */
  predicate Aborted(s: Tcp) {
    s.cfg.syn && 0 < s.cfg.maxConnects < s.counts.connects
  }

  function Transmit(s: Tcp, seqno: nat, now: real): Tcp {
    var c := s.counts.(data := s.counts.data + 1);
    var s1 := s.(wire := s.wire + [Packet(seqno, now)], counts := c);
    if seqno > s.seqs.maxSeq then s1.(seqs := s.seqs.(maxSeq := seqno))
    else s1.(counts := c.(rexmit := c.rexmit + 1))
  }

  function Output(s: Tcp, seqno: nat, now: real): Tcp {
    var s1 := s.(ring := Stamp(s.ring, s.seqs.highestAck, PacketInFlight(s), seqno, now));
    if seqno == 0 && s.cfg.syn then
      var s2 := s1.(seqs := s1.seqs.(curSeq := s1.seqs.curSeq + 1),
                    counts := s1.counts.(connects := s1.counts.connects + 1));
      if Aborted(s2) then s2.(seqs := s2.seqs.(curSeq := 0)) else Transmit(s2, seqno, now)
    else Transmit(s1, seqno, now)
  }

  function SendNext(s: Tcp, now: real): Tcp {
    var s1 := Output(s, s.seqs.tSeqno, now);
    s1.(seqs := s1.seqs.(tSeqno := s.seqs.tSeqno + 1))
  }

  predicate HasRoom(s: Tcp) {
    PacketInFlight(s) <= Window(s) && s.seqs.tSeqno < s.seqs.curSeq
  }

  /** The loop of send_much, after `sent` packets. */
  function SendBurst(s: Tcp, now: real, sent: nat): Tcp
    decreases s.seqs.highestAck + Window(s) + 1 - s.seqs.tSeqno
  {
    if !HasRoom(s) then s
    else
      var s1 := SendNext(s, now);
      if s.cfg.maxBurst != 0 && sent + 1 == s.cfg.maxBurst then s1 else SendBurst(s1, now, sent + 1)
  }

  function SendMuch(s: Tcp, now: real): Tcp {
    SendBurst(s, now, 0)
  }

  function SendOne(s: Tcp, now: real): Tcp {
    var t, a := s.seqs.tSeqno, s.seqs.highestAck;
    if t <= a + s.cfg.wnd && t < s.seqs.curSeq
       && t as real <= a as real + s.control.cwnd + s.control.dupAcks as real then
      SendNext(s, now)
    else s
  }

  // ----- The congestion window -----

  datatype Cut = HalveBoth | HalveAndRestart | RestartOnly

  function Portion(fraction: NonNeg, n: nat): NonNeg {
    fraction * n as real
  }

  /** Half of n, or another fraction of it, truncated unless precision is asked for. */
  function Share(cfg: Config, fraction: NonNeg, n: nat): NonNeg {
    var share := Portion(fraction, n);
    if cfg.precisionReduce then share else share.Floor as real
  }

  /** slowdown. */
  function Slowdown(s: Tcp, how: Cut): Control {
    var c, flight := s.control, PacketInFlight(s);
    var slowStart := c.cwnd < c.ssthresh as real;
    var half, less := Share(s.cfg, 0.5, flight), Share(s.cfg, s.cfg.decrease, flight);
    var ssthresh :=
      if how.RestartOnly? then c.ssthresh
      else if c.firstDecrease || slowStart || c.action == TimedOut then half.Floor
      else less.Floor;
    var cwnd: NonNeg :=
      if !how.HalveBoth? then 1.0
      else if c.firstDecrease || slowStart || s.cfg.decrease == 0.5 then half
      else less;
    c.(cwnd := cwnd, ssthresh := Max(2, ssthresh), firstDecrease := false)
  }

  /** reset_rtx_timer with mild == 0. */
  function ResumeAfterAck(s: Tcp): Tcp {
    s.(seqs := s.seqs.(tSeqno := s.seqs.highestAck + 1))
  }

  predicate MayCut(s: Tcp) {
    || s.seqs.highestAck > s.control.recover
    || !s.cfg.bugFix
    || s.control.action == DupAck
    || (s.cfg.bugfixSs && s.seqs.highestAck == 0)
  }

  /** The fast retransmit of dupack_action. */
  function FastRetransmit(s: Tcp, now: real): Tcp {
    var s1 := s.(control := s.control.(recover := s.seqs.maxSeq, action := DupAck));
    var s2 := s1.(control := Slowdown(s1, HalveBoth));
    var s3 := Output(s2, s2.seqs.highestAck + 1, now);
    s3.(control := s3.control.(dupWnd := s.cfg.numDupAcks))
  }

  function DupAckAction(s: Tcp, now: real): Tcp {
    if MayCut(s) then FastRetransmit(s, now) else s
  }

  // ----- Events -----

  /** newack, and the window that recv_newack_helper opens. */
  function NewAck(s: Tcp, ackNo: SeqNo, grown: NonNeg): Tcp {
    var c := s.control;
    s.(control := c.(action := if c.action == DupAck then Exited else c.action,
                      dupWnd := 0, dupAcks := 0, cwnd := grown),
       seqs := s.seqs.(highestAck := ackNo, tSeqno := Max(s.seqs.tSeqno, ackNo + 1)))
  }

  function DuplicateAck(s: Tcp, now: real): Tcp {
    var n, cfg := s.control.dupAcks + 1, s.cfg;
    var s1 := s.(control := s.control.(dupAcks := n));
    if n == cfg.numDupAcks then
      var s2 := DupAckAction(s1, now);
      if cfg.exitFastRetrans then s2 else s2.(control := s2.control.(dupWnd := cfg.numDupAcks))
    else if n > cfg.numDupAcks && (!cfg.exitFastRetrans || s.control.action == DupAck) then
      s1.(control := s1.control.(dupWnd := s.control.dupWnd + 1))
    else if n < cfg.numDupAcks && cfg.singleDup then SendOne(s1, now)
    else s1
  }

  /** RenoTcpAgent::recv. */
  function Recv(s: Tcp, ackNo: SeqNo, grown: NonNeg, now: real): Tcp {
    var s1 :=
      if ackNo > s.seqs.highestAck then NewAck(s, ackNo, grown)
      else if ackNo == s.seqs.highestAck then DuplicateAck(s, now)
      else s;
    var valid := ackNo >= s1.seqs.highestAck || s.cfg.aggressiveMaxburst;
    if valid && (s1.control.dupAcks == 0 || s1.control.dupAcks >= s.cfg.numDupAcks) then SendMuch(s1, now) else s1
  }

  /** What TcpAgent::timeout does to the window. */
  function TimeoutCut(s: Tcp): Control {
    var c := s.control.(cwnd := if s.control.cwnd < 1.0 then 1.0 else s.control.cwnd);
    var idle := s.seqs.highestAck == s.seqs.maxSeq;
    if idle && !s.cfg.slowStartRestart then c
    else
      var c1 := c.(recover := s.seqs.maxSeq);
      if idle && s.cfg.restartBugfix then Slowdown(s.(control := c1), RestartOnly)
      else Slowdown(s.(control := c1.(action := TimedOut)), HalveAndRestart)
  }

  /** RenoTcpAgent::timeout for the retransmit timer. */
  function Timeout(s: Tcp, now: real): Tcp {
    var c := s.control.(dupWnd := 0, dupAcks := 0,
                        recover := if s.cfg.bugFix then s.seqs.maxSeq else s.control.recover);
    var s1 := s.(control := c);
    var s2 := ResumeAfterAck(s1.(control := TimeoutCut(s1)));
    SendMuch(s2.(control := s2.control.(action := TimedOut)), now)
  }

  function Step(s: Tcp, e: Event): Tcp {
    match e
    case Advance(delta, now) => SendMuch(s.(seqs := s.seqs.(curSeq := s.seqs.curSeq + delta)), now)
    case Ack(ackNo, grown, now) => Recv(s, ackNo, grown, now)
    case Timer(now) => Timeout(s, now)
  }

  function Run(s: Tcp, es: seq<Event>): Tcp {
    if es == [] then s else Step(Run(s, es[..|es| - 1]), es[|es| - 1])
  }

  /** reset. */
  function Init(cfg: Config, cwnd: NonNeg, ssthresh: int): Tcp {
    Tcp(cfg, Seqs(0, -1, -1, 0), Ring([], false), Counts(0, 0, 0), [],
        Control(cwnd, ssthresh, 0, 0, 0, NoAction, true))
  }

  /** No ACK is for more than was sent. */
  predicate Legal(s: Tcp, e: Event) {
    e.Ack? ==> e.ackNo <= s.seqs.maxSeq
  }

  predicate LegalRun(s: Tcp, es: seq<Event>) {
    es == [] || (LegalRun(s, es[..|es| - 1]) && Legal(Run(s, es[..|es| - 1]), es[|es| - 1]))
  }
}
