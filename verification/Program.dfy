/** Communication graphs as data: what is recorded, what the recorded closures do when replayed,
    and what re-recording the whole graph again and again on unbounded queues would write. */
module Program {
  import opened Words

  /** The index every receive-enable starts from. */
  const RECV_BASE: int := 0x6fff

  datatype Kind = Management | Loopback | Ring | Doubling

  datatype Queue = Queue(kind: Kind, pair: nat)

  /** The queues of one graph by registration number; number 0 is the management queue. */
  type Topology = seq<Queue>

  function Pair(t: Topology, q: nat): nat {
    if q < |t| then t[q].pair else q
  }

  /** Whether local completions of the queue go to a send CQ of its own. */
  predicate HasScq(t: Topology, q: nat) {
    q < |t| && (t[q].kind.Ring? || t[q].kind.Doubling?)
  }

  predicate Wired(t: Topology) {
    && |t| > 0
    && forall q :: 0 <= q < |t| ==>
      && t[q].pair < |t|
      && t[t[q].pair].pair == q
      && t[t[q].pair].kind == t[q].kind
      && (t[q].kind.Management? <==> q == 0)
      && (!t[q].kind.Ring? ==> t[q].pair == q)
  }

  /** Queues of ring pairs among the first `n`. */
  function RingQueues(t: Topology, n: nat): nat
    requires n <= |t|
  {
    if n == 0 then 0 else RingQueues(t, n - 1) + if t[n - 1].kind.Ring? then 1 else 0
  }

  /** The two queues of a ring pair are registered one behind the other. */
  ghost predicate Adjacent(t: Topology) {
    && RingQueues(t, |t|) % 2 == 0
    && forall q :: 0 <= q < |t| && t[q].kind.Ring? ==> t[q].pair == if RingQueues(t, q) % 2 == 0 then q + 1 else q - 1
  }

  lemma {:induction false} RingQueuesStay(t: Topology, u: Topology, n: nat)
    requires t <= u && n <= |t|
    ensures RingQueues(u, n) == RingQueues(t, n)
  {
    if n > 0 {
      RingQueuesStay(t, u, n - 1);
    }
  }

  lemma {:induction false} AdjacentOwn(t: Topology, kind: Kind)
    requires Adjacent(t) && !kind.Ring?
    ensures Adjacent(t + [Queue(kind, |t|)])
  {
    var u := t + [Queue(kind, |t|)];
    forall q | 0 <= q <= |t|
      ensures RingQueues(u, q) == RingQueues(t, q)
    {
      RingQueuesStay(t, u, q);
    }
  }

  lemma {:induction false} AdjacentPair(t: Topology)
    requires Adjacent(t)
    ensures Adjacent(t + [Queue(Ring, |t| + 1), Queue(Ring, |t|)])
  {
    var n := |t|;
    var u := t + [Queue(Ring, n + 1), Queue(Ring, n)];
    forall q | 0 <= q <= n
      ensures RingQueues(u, q) == RingQueues(t, q)
    {
      RingQueuesStay(t, u, q);
    }
    assert RingQueues(u, n + 1) == RingQueues(u, n) + 1 && RingQueues(u, n + 2) == RingQueues(u, n + 1) + 1;
  }

  /** The operations; `words` are the remote-address, calculation and data segments, opaque here. */
  datatype Op =
    | SendCredit
    | Write(words: seq<Word>)
    | WriteCmpl(words: seq<Word>)
    | ReduceWrite(words: seq<Word>)
    | ReduceWriteCmpl(words: seq<Word>)
    | DoublingWriteCmpl(words: seq<Word>)
  {
    function Slots(): nat {
      if ReduceWrite? || ReduceWriteCmpl? then 2 else 1
    }

    /** The operation asks for a local completion. */
    predicate Signalled() {
      WriteCmpl? || ReduceWriteCmpl? || DoublingWriteCmpl?
    }

    /** The recording function counts that local completion; `DoublingQp::writeCmpl` does not. */
    predicate Counted() {
      Signalled() && !DoublingWriteCmpl?
    }

    predicate Legal(kind: Kind) {
      && (SendCredit? || |words| == if Slots() == 2 then 16 else 8)
      && (ReduceWriteCmpl? ==> kind.Ring?)
      && (DoublingWriteCmpl? ==> kind.Doubling?)
    }
  }

  /** One call of the graph interface made while recording. */
  datatype Call = Create(q: nat) | Post(q: nat, op: Op) | Wait(q: nat) | WaitSend(q: nat)

  predicate LegalCall(t: Topology, c: Call) {
    1 <= c.q < |t| && (c.Post? ==> c.op.Legal(t[c.q].kind))
  }

  predicate Legal(t: Topology, calls: seq<Call>) {
    forall i :: 0 <= i < |calls| ==> LegalCall(t, calls[i])
  }

  // ---- Recording: counters only ----

  datatype Tally = Tally(wqe: nat, cqe: nat, scqe: nat)

  function Note(t: Topology, q: nat, n: Tally, c: Call): Tally {
    match c
    case Post(p, op) =>
      var counted := p == q && op.Counted();
      Tally(n.wqe + (if p == q then op.Slots() else 0) + (if q == 0 then 1 else 0),
            n.cqe + (if Pair(t, p) == q then 1 else 0) + (if counted && !HasScq(t, q) then 1 else 0),
            n.scqe + (if counted && HasScq(t, q) then 1 else 0))
    case _ => n.(wqe := n.wqe + if q == 0 then 1 else 0)
  }

  function Tallied(t: Topology, q: nat, calls: seq<Call>): Tally {
    if |calls| == 0 then Tally(0, 0, 0)
    else Note(t, q, Tallied(t, q, calls[..|calls| - 1]), calls[|calls| - 1])
  }

  /** Receive-enables recorded: one for each queue constructed. */
  function Creations(calls: seq<Call>): (n: nat)
    ensures n <= |calls|
  {
    if |calls| == 0 then 0
    else Creations(calls[..|calls| - 1]) + if calls[|calls| - 1].Create? then 1 else 0
  }

  /** The doorbell rung when recording ends, for as many entries as queues were constructed, releases exactly their
      receive-enables if and only if nothing else was recorded before the last construction. */
  lemma {:induction false} FirstDoorbell(calls: seq<Call>)
    ensures (forall i :: 0 <= i < |calls| ==> (i < Creations(calls) <==> calls[i].Create?))
      <==> forall i, j :: 0 <= i < j < |calls| && calls[j].Create? ==> calls[i].Create?
  {
    if forall i, j :: 0 <= i < j < |calls| && calls[j].Create? ==> calls[i].Create? {
      CreationsFirst(calls);
    }
  }

  lemma {:induction false} CreationsFirst(calls: seq<Call>)
    requires forall i, j :: 0 <= i < j < |calls| && calls[j].Create? ==> calls[i].Create?
    ensures forall i :: 0 <= i < |calls| ==> (i < Creations(calls) <==> calls[i].Create?)
  {
    if |calls| > 0 {
      var front := calls[..|calls| - 1];
      CreationsFirst(front);
      if calls[|calls| - 1].Create? {
        assert forall i :: 0 <= i < |front| ==> front[i].Create?;
        assert Creations(front) == |front| by {
          assert |front| > 0 ==> front[|front| - 1].Create?;
        }
      }
    }
  }

  // ---- Replaying: the closures, and the low-level counters of one queue ----

  datatype Instr =
    | Emit(q: nat, op: Op)
    | RecvEnable(q: nat)
    | SendEnable(q: nat)
    | CdWait(q: nat)
    | CdWaitSend(q: nat)
    | Fin

  function ExpandCall(c: Call): seq<Instr> {
    match c
    case Create(q) => [RecvEnable(q)]
    case Post(q, op) => [Emit(q, op), SendEnable(q)]
    case Wait(q) => [CdWait(q)]
    case WaitSend(q) => [CdWaitSend(q)]
  }

  /** The closures in the instruction queue, oldest first. */
  function Expand(calls: seq<Call>): seq<Instr> {
    if |calls| == 0 then []
    else Expand(calls[..|calls| - 1]) + ExpandCall(calls[|calls| - 1])
  }

  /** Unbounded running counters of one queue: slots written, completions of its CQ and of its send CQ,
      and the first two as they were when the current round began. */
  datatype Cnt = Cnt(w: int, c: int, s: int, w0: int, c0: int)

  const ZERO := Cnt(0, 0, 0, 0, 0)

  /** One closure seen from queue `q`; `Fin` pads the block of `b` slots and starts the next round. */
  function Tick(t: Topology, b: nat, q: nat, n: Cnt, ins: Instr): Cnt {
    match ins
    case Emit(p, op) =>
      var local := p == q && op.Signalled();
      n.(w := n.w + if p == q then op.Slots() else 0,
         c := n.c + (if Pair(t, p) == q then 1 else 0) + (if local && !HasScq(t, q) then 1 else 0),
         s := n.s + if local && HasScq(t, q) then 1 else 0)
    case Fin => n.(w := n.w0 + b, w0 := n.w0 + b, c0 := n.c)
    case _ => n.(w := n.w + if q == 0 then 1 else 0)
  }

  function Run(t: Topology, b: nat, q: nat, n: Cnt, ins: seq<Instr>): Cnt {
    if |ins| == 0 then n
    else Tick(t, b, q, Run(t, b, q, n, ins[..|ins| - 1]), ins[|ins| - 1])
  }

  /** Local completions of `q` that replay counts and recording does not. */
  function Deficit(q: nat, calls: seq<Call>): nat {
    if |calls| == 0 then 0
    else
      var c := calls[|calls| - 1];
      Deficit(q, calls[..|calls| - 1]) + if c.Post? && c.q == q && c.op.DoublingWriteCmpl? then 1 else 0
  }

  /** Record/replay agreement: replaying everything recorded so far leaves each queue's low-level
      counters at the recorded ones, the send CQ being ahead by exactly the deficit. */
  lemma {:induction false} Agreement(t: Topology, b: nat, q: nat, calls: seq<Call>)
    requires Legal(t, calls)
    ensures var n, m := Run(t, b, q, ZERO, Expand(calls)), Tallied(t, q, calls);
            n == Cnt(m.wqe, m.cqe, m.scqe + Deficit(q, calls), 0, 0)
  {
    hide Run, Tallied, Expand, Deficit;
    if |calls| > 0 {
      var front, c := calls[..|calls| - 1], calls[|calls| - 1];
      assert LegalCall(t, c);
      Agreement(t, b, q, front);
      AgreesNext(t, b, q, front, c);
      assert front + [c] == calls;
    } else {
      NothingYet(t, b, q);
    }
  }

  lemma {:induction false} NothingYet(t: Topology, b: nat, q: nat)
    ensures Expand([]) == [] && Run(t, b, q, ZERO, []) == ZERO
    ensures Tallied(t, q, []) == Tally(0, 0, 0) && Deficit(q, []) == 0
  {
  }

  /** One more call keeps the agreement. */
  lemma {:induction false} AgreesNext(t: Topology, b: nat, q: nat, calls: seq<Call>, c: Call)
    requires LegalCall(t, c)
    requires var n, m := Run(t, b, q, ZERO, Expand(calls)), Tallied(t, q, calls);
             n == Cnt(m.wqe, m.cqe, m.scqe + Deficit(q, calls), 0, 0)
    ensures var more := calls + [c];
            var n, m := Run(t, b, q, ZERO, Expand(more)), Tallied(t, q, more);
            n == Cnt(m.wqe, m.cqe, m.scqe + Deficit(q, more), 0, 0)
  {
    hide Run, Tallied, Expand, Deficit;
    OneMore(t, q, calls, c);
    var n := Run(t, b, q, ZERO, Expand(calls));
    RunConcat(t, b, q, ZERO, Expand(calls), ExpandCall(c));
    RunFew(t, b, q, n, ExpandCall(c));
    if c.Post? {
      EmitAgrees(t, b, q, n, Tallied(t, q, calls), Deficit(q, calls), c);
    }
  }

  lemma {:induction false} EmitAgrees(t: Topology, b: nat, q: nat, n: Cnt, m: Tally, d: nat, c: Call)
    requires LegalCall(t, c) && c.Post? && n == Cnt(m.wqe, m.cqe, m.scqe + d, 0, 0)
    ensures var k, l := Tick(t, b, q, Tick(t, b, q, n, Emit(c.q, c.op)), SendEnable(c.q)), Note(t, q, m, c);
            k == Cnt(l.wqe, l.cqe, l.scqe + d + (if c.q == q && c.op.DoublingWriteCmpl? then 1 else 0), 0, 0)
  {
  }

  lemma {:induction false} OneMore(t: Topology, q: nat, calls: seq<Call>, c: Call)
    ensures Tallied(t, q, calls + [c]) == Note(t, q, Tallied(t, q, calls), c)
    ensures Deficit(q, calls + [c]) == Deficit(q, calls) + if c.Post? && c.q == q && c.op.DoublingWriteCmpl? then 1 else 0
    ensures Expand(calls + [c]) == Expand(calls) + ExpandCall(c)
  {
    assert (calls + [c])[..|calls|] == calls;
  }

  lemma {:induction false} RunFew(t: Topology, b: nat, q: nat, n: Cnt, ins: seq<Instr>)
    ensures |ins| == 1 ==> Run(t, b, q, n, ins) == Tick(t, b, q, n, ins[0])
    ensures |ins| == 2 ==> Run(t, b, q, n, ins) == Tick(t, b, q, Tick(t, b, q, n, ins[0]), ins[1])
  {
    if |ins| == 2 {
      var one := ins[..1];
      assert one[..0] == [] && Run(t, b, q, n, one[..0]) == n;
      assert Run(t, b, q, n, one) == Tick(t, b, q, n, ins[0]);
    }
  }

  lemma {:induction false} RunConcat(t: Topology, b: nat, q: nat, n: Cnt, x: seq<Instr>, y: seq<Instr>)
    ensures Run(t, b, q, n, x + y) == Run(t, b, q, Run(t, b, q, n, x), y)
  {
    if |y| == 0 {
      assert x + y == x;
    } else {
      assert (x + y)[..|x + y| - 1] == x + y[..|y| - 1];
      RunConcat(t, b, q, n, x, y[..|y| - 1]);
    }
  }

  // ---- Re-recording on unbounded queues ----

  /** `k` whole recordings one after the other, each padded to its block. */
  function Stream(calls: seq<Call>, k: nat): seq<Instr> {
    if k == 0 then [] else Stream(calls, k - 1) + (Expand(calls) + [Fin])
  }

  /** What one recording replays before the management WQE of call `i`. */
  function Before(calls: seq<Call>, i: nat): seq<Instr>
    requires i < |calls|
  {
    Expand(calls[..i]) + if calls[i].Post? then [Emit(calls[i].q, calls[i].op)] else []
  }

  /** The index field of the management WQE for call `c`, given the counters of the queue it names. */
  function IndexOf(t: Topology, c: Call, n: Cnt): int {
    match c
    case Create(_) => RECV_BASE + n.c0
    case Post(_, _) => n.w
    case Wait(_) => n.c - 1
    case WaitSend(q) => (if HasScq(t, q) then n.s else n.c) - 1
  }

  function Block(blk: seq<nat>, q: nat): nat {
    if q < |blk| then blk[q] else 0
  }

  /** The index that the recording of round `k` writes for call `i`. */
  function Rerecorded(t: Topology, blk: seq<nat>, calls: seq<Call>, k: nat, i: nat): int
    requires i < |calls|
  {
    var q := calls[i].q;
    IndexOf(t, calls[i], Run(t, Block(blk, q), q, ZERO, Stream(calls, k) + Before(calls, i)))
  }

  /** What each rearm adds to the index field of call `i`. */
  function Increment(t: Topology, blk: seq<nat>, calls: seq<Call>, i: nat): nat
    requires i < |calls|
  {
    Step(t, Block(blk, calls[i].q), calls, i)
  }

  /** The same, from the block size `b` of the queue the call names. */
  function Step(t: Topology, b: nat, calls: seq<Call>, i: nat): nat
    requires i < |calls|
  {
    var m := Tallied(t, calls[i].q, calls);
    match calls[i]
    case Create(_) => m.cqe
    case Post(_, _) => b
    case Wait(_) => m.cqe
    case WaitSend(q) => if HasScq(t, q) then m.scqe else m.cqe
  }

  /** What that increment lacks. */
  function Lag(t: Topology, calls: seq<Call>, i: nat): nat
    requires i < |calls|
  {
    if calls[i].WaitSend? && HasScq(t, calls[i].q) then Deficit(calls[i].q, calls) else 0
  }

  /** The index of call `i` in round `k` as the recycled ring holds it. */
  function Recycled(t: Topology, blk: seq<nat>, calls: seq<Call>, k: nat, i: nat): int
    requires i < |calls|
  {
    Rerecorded(t, blk, calls, 0, i) + k * Increment(t, blk, calls, i)
  }

  /** Within a round counters simply add up. */
  lemma {:induction false} RunShift(t: Topology, b: nat, q: nat, n: Cnt, ins: seq<Instr>)
    requires Fin !in ins
    ensures var z := Run(t, b, q, ZERO, ins);
            Run(t, b, q, n, ins) == Cnt(n.w + z.w, n.c + z.c, n.s + z.s, n.w0, n.c0) && z.w0 == z.c0 == 0
  {
    if |ins| > 0 {
      RunShift(t, b, q, n, ins[..|ins| - 1]);
      assert ins[|ins| - 1] in ins;
    }
  }

  lemma {:induction false} ExpandHasNoFin(calls: seq<Call>)
    ensures Fin !in Expand(calls)
  {
    if |calls| > 0 {
      ExpandHasNoFin(calls[..|calls| - 1]);
    }
  }

  /** One padded recording moves the counters by what was recorded. */
  lemma {:induction false} RoundRun(t: Topology, b: nat, q: nat, calls: seq<Call>, n: Cnt)
    requires Legal(t, calls)
    ensures var m := Tallied(t, q, calls);
            Run(t, b, q, n, Expand(calls) + [Fin])
            == Cnt(n.w0 + b, n.c + m.cqe, n.s + (m.scqe + Deficit(q, calls)), n.w0 + b, n.c + m.cqe)
  {
    var ins := Expand(calls);
    ExpandHasNoFin(calls);
    RunShift(t, b, q, n, ins);
    Agreement(t, b, q, calls);
    RunLast(t, b, q, n, ins, Fin);
  }

  lemma {:induction false} RunLast(t: Topology, b: nat, q: nat, n: Cnt, ins: seq<Instr>, last: Instr)
    ensures Run(t, b, q, n, ins + [last]) == Tick(t, b, q, Run(t, b, q, n, ins), last)
  {
    assert (ins + [last])[..|ins|] == ins;
  }

  /** The counters when round `k` begins. */
  lemma {:induction false} RoundStart(t: Topology, b: nat, q: nat, calls: seq<Call>, k: nat)
    requires Legal(t, calls)
    ensures var m := Tallied(t, q, calls);
            Run(t, b, q, ZERO, Stream(calls, k))
            == Cnt(k * b, k * m.cqe, k * (m.scqe + Deficit(q, calls)), k * b, k * m.cqe)
  {
    hide Run, Tallied, Expand, Deficit;
    if k == 0 {
      NothingYet(t, b, q);
    } else {
      var m, d := Tallied(t, q, calls), Deficit(q, calls);
      var n := Run(t, b, q, ZERO, Stream(calls, k - 1));
      RoundStart(t, b, q, calls, k - 1);
      assert Run(t, b, q, ZERO, Stream(calls, k))
          == Cnt(n.w0 + b, n.c + m.cqe, n.s + (m.scqe + d), n.w0 + b, n.c + m.cqe) by {
        RunConcat(t, b, q, ZERO, Stream(calls, k - 1), Expand(calls) + [Fin]);
        RoundRun(t, b, q, calls, n);
      }
      Succ(k, b);
      Succ(k, m.cqe);
      Succ(k, m.scqe + d);
    }
  }

  /** In round `k` the counters before call `i` are those of the first round, shifted. */
  lemma {:induction false} RoundShift(t: Topology, b: nat, q: nat, calls: seq<Call>, k: nat, i: nat)
    requires i < |calls|
    ensures var n, z := Run(t, b, q, ZERO, Stream(calls, k)), Run(t, b, q, ZERO, Before(calls, i));
            Run(t, b, q, ZERO, Stream(calls, k) + Before(calls, i))
            == Cnt(n.w + z.w, n.c + z.c, n.s + z.s, n.w0, n.c0) && z.w0 == z.c0 == 0
  {
    ExpandHasNoFin(calls[..i]);
    RunConcat(t, b, q, ZERO, Stream(calls, k), Before(calls, i));
    RunShift(t, b, q, Run(t, b, q, ZERO, Stream(calls, k)), Before(calls, i));
  }

  /** The index of call `i` from the counters `n` when round `k` began and `z` in a first round. */
  lemma {:induction false} RerecordedShift(t: Topology, blk: seq<nat>, calls: seq<Call>, k: nat, i: nat, n: Cnt, z: Cnt)
    requires i < |calls|
    requires var q := calls[i].q; var b := Block(blk, q);
      n == Run(t, b, q, ZERO, Stream(calls, k)) && z == Run(t, b, q, ZERO, Before(calls, i))
    ensures z.c0 == 0
    ensures Rerecorded(t, blk, calls, k, i)
            == IndexOf(t, calls[i], Cnt(n.w + z.w, n.c + z.c, n.s + z.s, n.w0, n.c0))
  {
    RoundShift(t, Block(blk, calls[i].q), calls[i].q, calls, k, i);
  }

  /** Persistent refinement on unbounded integers: adding the increment once per round to the first
      recording gives exactly what re-recording gives, except for a lagging send-CQ wait. */
  lemma {:induction false} RecyclingRerecords(t: Topology, blk: seq<nat>, calls: seq<Call>, k: nat, i: nat)
    requires Legal(t, calls) && i < |calls|
    ensures Rerecorded(t, blk, calls, k, i) == Recycled(t, blk, calls, k, i) + k * Lag(t, calls, i)
  {
    hide Run, Tallied, Deficit, Rerecorded, Expand;
    var q := calls[i].q;
    var b := Block(blk, q);
    var n, z := Run(t, b, q, ZERO, Stream(calls, k)), Run(t, b, q, ZERO, Before(calls, i));
    NothingYet(t, b, q);
    RerecordedShift(t, blk, calls, 0, i, ZERO, z);
    RerecordedShift(t, blk, calls, k, i, n, z);
    RoundStart(t, b, q, calls, k);
    IndexShift(t, b, calls, k, i, n, z);
  }

  /** Shifting the counters by `k` rounds shifts the index by `k` increments. */
  lemma {:induction false} IndexShift(t: Topology, b: nat, calls: seq<Call>, k: nat, i: nat, n: Cnt, z: Cnt)
    requires i < |calls| && z.c0 == 0
    requires var m, d := Tallied(t, calls[i].q, calls), Deficit(calls[i].q, calls);
      n == Cnt(k * b, k * m.cqe, k * (m.scqe + d), k * b, k * m.cqe)
    ensures IndexOf(t, calls[i], Cnt(n.w + z.w, n.c + z.c, n.s + z.s, n.w0, n.c0))
      == IndexOf(t, calls[i], z) + k * Step(t, b, calls, i) + k * Lag(t, calls, i)
  {
    Distribute(k, Tallied(t, calls[i].q, calls).scqe, Deficit(calls[i].q, calls));
  }

  /** A completion-signalled write of a doubling queue is among the calls. */
  predicate Uncounted(q: nat, calls: seq<Call>) {
    exists j :: 0 <= j < |calls| && calls[j].Post? && calls[j].q == q && calls[j].op.DoublingWriteCmpl?
  }

  /** Exactly when the recycled 32-bit field of call `i` is right in every round: a wait for the send CQ
      of a doubling queue goes wrong if that queue records a completion-signalled write, nothing else does.
      (No queue holds 2^32 entries.) */
  lemma {:induction false} RightForever(t: Topology, blk: seq<nat>, calls: seq<Call>, i: nat)
    requires Legal(t, calls) && i < |calls| < LIMIT
    ensures (forall k: nat :: Wrap(Recycled(t, blk, calls, k, i)) == Wrap(Rerecorded(t, blk, calls, k, i)))
            <==> !(calls[i].WaitSend? && Uncounted(calls[i].q, calls))
  {
    var lag := Lag(t, calls, i);
    LagIff(t, calls, i);
    forall k: nat | lag == 0
      ensures Wrap(Recycled(t, blk, calls, k, i)) == Wrap(Rerecorded(t, blk, calls, k, i))
    {
      RecyclingRerecords(t, blk, calls, k, i);
    }
    if lag != 0 {
      var r := Recycled(t, blk, calls, 1, i);
      RecyclingRerecords(t, blk, calls, 1, i);
      assert Rerecorded(t, blk, calls, 1, i) == r + lag;
      assert Wrap(r) != Wrap(r + lag);
    }
  }

  lemma {:induction false} LagIff(t: Topology, calls: seq<Call>, i: nat)
    requires Legal(t, calls) && i < |calls|
    ensures Lag(t, calls, i) <= |calls|
    ensures Lag(t, calls, i) > 0 <==> calls[i].WaitSend? && Uncounted(calls[i].q, calls)
  {
    var q := calls[i].q;
    DeficitBound(q, calls);
    if Uncounted(q, calls) {
      var j :| 0 <= j < |calls| && calls[j].Post? && calls[j].q == q && calls[j].op.DoublingWriteCmpl?;
      assert LegalCall(t, calls[j]);
    }
  }

  lemma {:induction false} DeficitBound(q: nat, calls: seq<Call>)
    ensures Deficit(q, calls) <= |calls|
    ensures Deficit(q, calls) > 0 <==> Uncounted(q, calls)
  {
    if |calls| > 0 {
      var front := calls[..|calls| - 1];
      DeficitBound(q, front);
      if Uncounted(q, front) {
        var j :| 0 <= j < |front| && front[j].Post? && front[j].q == q && front[j].op.DoublingWriteCmpl?;
        assert calls[j] == front[j];
      }
    }
  }
}
