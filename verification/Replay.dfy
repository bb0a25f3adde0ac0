/** Replaying the recorded closures into the queues' low-level contexts. */
module Replay {
  import opened Words
  import opened Program
  import opened Counting
  import opened WqeLayout
  import opened Recycle
  import opened QpContext

  /** What is known of a context before anything is written: device numbers, block size, number of copies,
      completions of a round. */
  datatype Info = Info(qpn: nat, cqn: nat, scqn: nat, wqes: nat, dups: nat, cqes: nat, scqes: nat)

  function InfoAt(info: seq<Info>, q: nat): Info {
    if q < |info| then info[q] else Info(0, 0, 0, 0, 0, 0, 0)
  }

  /** The running counters of queue `q` after the closures `ins`. */
  function CntOf(t: Topology, info: seq<Info>, q: nat, ins: seq<Instr>): Cnt {
    Run(t, InfoAt(info, q).wqes, q, ZERO, ins)
  }

  /** The management entry of closure `x`, executed after `ins`. */
  function MgmtWqe(t: Topology, info: seq<Info>, ins: seq<Instr>, x: Instr): Wqe
    requires !x.Fin? && !x.Emit?
  {
    var q := x.q;
    var i := InfoAt(info, q);
    var n := CntOf(t, info, q, ins);
    if x.RecvEnable? then CoreWqe(RECV_EN, Wrap(RECV_BASE), Wrap(i.qpn), i.cqes)
    else if x.SendEnable? then CoreWqe(SEND_EN, Wrap(n.w), Wrap(i.qpn), i.wqes)
    else if x.CdWaitSend? && HasScq(t, q) then CoreWqe(CQE_WAIT, Wrap(n.s - 1), Wrap(i.scqn), i.scqes)
    else CoreWqe(CQE_WAIT, Wrap(n.c - 1), Wrap(i.cqn), i.cqes)
  }

  /** What closure `x` writes into queue `q`. */
  function Entries(t: Topology, info: seq<Info>, q: nat, ins: seq<Instr>, x: Instr): seq<Wqe> {
    if x.Fin? then []
    else if x.Emit? then (if x.q == q then [OpWqe(x.op)] else [])
    else if q == 0 then [MgmtWqe(t, info, ins, x)] else []
  }

  /** What the closures write into queue `q`. */
  function LogOf(t: Topology, info: seq<Info>, q: nat, ins: seq<Instr>): seq<Wqe> {
    if |ins| == 0 then []
    else
      var front, x := ins[..|ins| - 1], ins[|ins| - 1];
      LogOf(t, info, q, front) + Entries(t, info, q, front, x)
  }

  lemma {:induction false} LogOfMore(t: Topology, info: seq<Info>, q: nat, ins: seq<Instr>, x: Instr)
    ensures LogOf(t, info, q, ins + [x]) == LogOf(t, info, q, ins) + Entries(t, info, q, ins, x)
    ensures CntOf(t, info, q, ins + [x]) == Tick(t, InfoAt(info, q).wqes, q, CntOf(t, info, q, ins), x)
  {
    assert (ins + [x])[..|ins|] == ins;
  }

  // ---- The contexts of all queues ----

  /** The queue an object belongs to: no two contexts share memory. */
  type Owner = map<object, nat>

  /** Everything context `c` uses belongs to queue `q`. */
  ghost predicate Owned(owner: Owner, c: QpCtx, q: nat)
    reads c.tasks
  {
    && c in owner && owner[c] == q && c.sq in owner && owner[c.sq] == q
    && (forall o :: o in c.tasks.Repr ==> o in owner && owner[o] == q)
    && (c.scq != null ==> c.scq in owner && owner[c.scq] == q)
  }

  /** Context `c` is the one described by `i`. */
  ghost predicate Described(c: QpCtx, i: Info) {
    && c.qpn == i.qpn && c.cqn == i.cqn && c.wqes == i.wqes && c.dups == i.dups && c.cqes == i.cqes
    && (c.scq != null ==> c.scq.cqn == i.scqn && c.scq.cqes == i.scqes)
  }

  /** Queue `q` is as the closures `ins` leave it: entries and 32-bit counters. */
  ghost predicate Written(t: Topology, info: seq<Info>, c: QpCtx, q: nat, ins: seq<Instr>)
    reads c, c.sq, c.tasks, c.tasks.Repr, c.SendCq()
  {
    && c.Recording() && c.Unrung() && Described(c, InfoAt(info, q)) && (c.scq != null <==> HasScq(t, q))
    && c.log == LogOf(t, info, q, ins)
    && Counts(c, CntOf(t, info, q, ins))
  }

  /** The 32-bit counters of `c` agree with the running counters. */
  ghost predicate Counts(c: QpCtx, n: Cnt)
    reads c, c.SendCq()
  {
    c.writeCnt == n.w && c.cmplCnt == Wrap(n.c) && (c.scq != null ==> c.scq.cmplCnt == Wrap(n.s))
  }

  ghost predicate WrittenBy(t: Topology, info: seq<Info>, owner: Owner, c: QpCtx, q: nat, ins: seq<Instr>)
    reads owner.Keys
  {
    && c.tasks in owner && Owned(owner, c, q) && Written(t, info, c, q, ins)
  }

  ghost predicate Replayed(t: Topology, info: seq<Info>, owner: Owner, ctxs: seq<QpCtx>, ins: seq<Instr>)
    reads owner.Keys
  {
    && |ctxs| == |t| == |info|
    && forall q :: 0 <= q < |ctxs| ==> WrittenBy(t, info, owner, ctxs[q], q, ins)
  }

  ghost predicate Linked(t: Topology, ctxs: seq<QpCtx>)
    requires Wired(t)
    reads ctxs
  {
    |ctxs| == |t| && forall q :: 0 <= q < |ctxs| ==> ctxs[q].pair == ctxs[t[q].pair]
  }

  lemma {:induction false} WrapWord(w: Word)
    ensures Wrap(w) == w
  {
  }

  lemma {:induction false} WrapLess(x: int)
    ensures Wrap(Wrap(x) - 1) == Wrap(x - 1)
  {
    WrapAdd(x, -1);
  }

  // ---- One operation ----

  /** The running counters of queue `i` after queue `q` has written `op`. */
  lemma {:induction false} EmitTick(t: Topology, info: seq<Info>, i: nat, ins: seq<Instr>, q: nat, op: Op)
    requires Wired(t) && 1 <= q < |t| && i < |t|
    ensures var n, m := CntOf(t, info, i, ins), CntOf(t, info, i, ins + [Emit(q, op)]);
      && LogOf(t, info, i, ins + [Emit(q, op)]) == LogOf(t, info, i, ins) + (if i == q then [OpWqe(op)] else [])
      && m.w == n.w + (if i == q then op.Slots() else 0)
      && m.s == n.s + (if i == q && op.Signalled() && HasScq(t, q) then 1 else 0)
      && m.c == n.c + (if i == q && op.Signalled() && !HasScq(t, q) then 1 else 0) + (if i == t[q].pair then 1 else 0)
  {
    LogOfMore(t, info, i, ins, Emit(q, op));
  }

  /** Context `d` of queue `i` after queue `q` has written `op` and all counters have been moved. */
  ghost predicate Posted(t: Topology, info: seq<Info>, d: QpCtx, i: nat, ins: seq<Instr>, q: nat, op: Op)
    requires Wired(t) && 1 <= q < |t| && i < |t|
    reads d, d.sq, d.tasks, d.tasks.Repr, d.SendCq()
  {
    var n := CntOf(t, info, i, ins);
    var own := i == q && op.Signalled() && d.scq == null;
    && d.Recording() && d.Unrung() && Described(d, InfoAt(info, i)) && (d.scq != null <==> HasScq(t, i))
    && d.log == LogOf(t, info, i, ins) + (if i == q then [OpWqe(op)] else [])
    && n.w == Size(LogOf(t, info, i, ins))
    && d.cmplCnt == Plus(Wrap(n.c), (if own then 1 else 0) + if i == t[q].pair then 1 else 0)
    && (d.scq != null ==> d.scq.cmplCnt == Plus(Wrap(n.s), if i == q && op.Signalled() then 1 else 0))
  }

  ghost predicate Counted(t: Topology, info: seq<Info>, d: QpCtx, i: nat, ins: seq<Instr>)
    reads d, d.sq, d.tasks, d.tasks.Repr, d.SendCq()
  {
    && Written(t, info, d, i, ins)
    && CntOf(t, info, i, ins).w == Size(LogOf(t, info, i, ins))
  }

  lemma {:induction false} PostedWritten(t: Topology, info: seq<Info>, owner: Owner, d: QpCtx, i: nat,
          ins: seq<Instr>, q: nat, op: Op)
    requires Wired(t) && 1 <= q < |t| && i < |t|
    requires op.SendCredit? || |op.words| == if op.Slots() == 2 then 16 else 8
    requires d.tasks in owner && Owned(owner, d, i) && Posted(t, info, d, i, ins, q, op)
    ensures WrittenBy(t, info, owner, d, i, ins + [Emit(q, op)])
  {
    hide LogOf, CntOf, RearmTasks.RearmTasks.Valid, Laid, Plus, Wrap, TasksOf, Size, Span;
    EmitTick(t, info, i, ins, q, op);
    OpWqeFits(op);
    SizeMore(LogOf(t, info, i, ins), OpWqe(op));
    var n := CntOf(t, info, i, ins);
    var own := i == q && op.Signalled() && d.scq == null;
    PlusWraps(n.c, (if own then 1 else 0) + if i == t[q].pair then 1 else 0);
    PlusWraps(n.s, if i == q && op.Signalled() then 1 else 0);
    assert LogOf(t, info, i, ins) + [] == LogOf(t, info, i, ins);
  }

  lemma {:induction false} OwnedParts(t: Topology, info: seq<Info>, owner: Owner, c: QpCtx, q: nat, ins: seq<Instr>)
    requires WrittenBy(t, info, owner, c, q, ins)
    ensures Owned(owner, c, q) && c.tasks in c.tasks.Repr && c !in c.tasks.Repr
    ensures CntOf(t, info, q, ins).w == Size(LogOf(t, info, q, ins))
  {
  }

  lemma {:induction false} EmitFits(t: Topology, info: seq<Info>, owner: Owner, c: QpCtx, q: nat, ins: seq<Instr>,
          op: Op)
    requires Wired(t) && 1 <= q < |t| == |info|
    requires WrittenBy(t, info, owner, c, q, ins)
    requires CntOf(t, info, q, ins + [Emit(q, op)]).w <= info[q].wqes
    ensures c.Recording() && c.tasks.Valid() && c !in c.tasks.Repr && Size(c.log) + op.Slots() <= c.wqes
  {
    EmitTick(t, info, q, ins, q, op);
  }

  /** The memory of one context is not that of another. */
  ghost predicate Disjoint(owner: Owner, ctxs: seq<QpCtx>)
    reads set i | 0 <= i < |ctxs| :: ctxs[i].tasks
  {
    forall i :: 0 <= i < |ctxs| ==>
      Owned(owner, ctxs[i], i) && ctxs[i].tasks in ctxs[i].tasks.Repr && ctxs[i] !in ctxs[i].tasks.Repr
  }

  lemma {:induction false} AllOwned(t: Topology, info: seq<Info>, owner: Owner, ctxs: seq<QpCtx>, ins: seq<Instr>)
    requires Replayed(t, info, owner, ctxs, ins)
    ensures Disjoint(owner, ctxs)
    ensures forall i :: 0 <= i < |ctxs| ==> CntOf(t, info, i, ins).w == Size(LogOf(t, info, i, ins))
  {
    forall i | 0 <= i < |ctxs|
      ensures Owned(owner, ctxs[i], i) && ctxs[i].tasks in ctxs[i].tasks.Repr && ctxs[i] !in ctxs[i].tasks.Repr
      ensures CntOf(t, info, i, ins).w == Size(LogOf(t, info, i, ins))
    {
      OwnedParts(t, info, owner, ctxs[i], i, ins);
    }
  }

  /** Write the operation: the queue itself gets the entry, its pair the completion, all others keep what they have. */
  method PostOne(ghost owner: Owner, ctxs: seq<QpCtx>, q: nat, op: Op, ghost p: nat)
    requires Disjoint(owner, ctxs) && (forall i :: 0 <= i < |ctxs| ==> ctxs[i].Recording())
    requires q < |ctxs| && p < |ctxs| && ctxs[q].pair == ctxs[p]
    requires Size(ctxs[q].log) + op.Slots() <= ctxs[q].wqes
    requires op.SendCredit? || |op.words| == if op.Slots() == 2 then 16 else 8
    modifies owner.Keys
    ensures forall i :: 0 <= i < |ctxs| ==>
      && ctxs[i].Recording() && ctxs[i].pair == old(ctxs[i].pair) && (old(ctxs[i].Unrung()) ==> ctxs[i].Unrung())
      && ctxs[i].log == old(ctxs[i].log) + (if i == q then [OpWqe(op)] else [])
      && (i == q || ctxs[i].tasks.Repr == old(ctxs[i].tasks.Repr))
    ensures fresh(ctxs[q].tasks.Repr - old(ctxs[q].tasks.Repr))
    ensures forall i :: 0 <= i < |ctxs| ==>
      && ctxs[i].cmplCnt == Plus(old(ctxs[i].cmplCnt),
                                 (if i == q && op.Signalled() && ctxs[i].scq == null then 1 else 0)
                                 + if i == p then 1 else 0)
    ensures forall i :: 0 <= i < |ctxs| && ctxs[i].scq != null ==>
      ctxs[i].scq.cmplCnt == Plus(old(ctxs[i].scq.cmplCnt), if i == q && op.Signalled() then 1 else 0)
  {
    hide OpWqe, Wrap, ValidLog, Size, QpCtx.Recording, Span, TasksOf, Laid, QpCtx.Kept, Op.Slots, Op.Signalled, Plus;
    assert q != p ==> owner[ctxs[q]] != owner[ctxs[p]];
    ctxs[q].Post(op);
    PlusTwo(0);
    forall i | 0 <= i < |ctxs|
      ensures Plus(ctxs[i].cmplCnt, 0) == ctxs[i].cmplCnt
      ensures ctxs[i].scq != null ==> Plus(ctxs[i].scq.cmplCnt, 0) == ctxs[i].scq.cmplCnt
    {
      PlusTwo(ctxs[i].cmplCnt);
      if ctxs[i].scq != null {
        PlusTwo(ctxs[i].scq.cmplCnt);
      }
    }
  }

  /** Execute a closure that writes an operation into its queue. */
  method Emitted(ghost t: Topology, ghost info: seq<Info>, ghost owner: Owner, ctxs: seq<QpCtx>, ghost ins: seq<Instr>,
                 q: nat, op: Op) returns (ghost owner': Owner)
    requires Wired(t) && Replayed(t, info, owner, ctxs, ins) && Linked(t, ctxs)
    requires 1 <= q < |t| && op.Legal(t[q].kind)
    requires CntOf(t, info, q, ins + [Emit(q, op)]).w <= info[q].wqes
    modifies owner.Keys
    ensures Replayed(t, info, owner', ctxs, ins + [Emit(q, op)]) && Linked(t, ctxs)
    ensures owner.Keys <= owner'.Keys && fresh(owner'.Keys - owner.Keys)
  {
    hide QpCtx.Recording, Described, LogOf, CntOf, OpWqe, Size, Plus, Wrap;
    AllOwned(t, info, owner, ctxs, ins);
    EmitFits(t, info, owner, ctxs[q], q, ins, op);
    forall i | 0 <= i < |ctxs|
      ensures Counted(t, info, ctxs[i], i, ins)
    {
      assert WrittenBy(t, info, owner, ctxs[i], i, ins);
    }
    PostOne(owner, ctxs, q, op, t[q].pair);
    owner' := owner + map o | o in ctxs[q].tasks.Repr :: q;
    forall i | 0 <= i < |ctxs|
      ensures WrittenBy(t, info, owner', ctxs[i], i, ins + [Emit(q, op)])
    {
      assert old(Counted(t, info, ctxs[i], i, ins));
      assert Posted(t, info, ctxs[i], i, ins, q, op);
      PostedWritten(t, info, owner', ctxs[i], i, ins, q, op);
    }
  }

  // ---- One management entry ----

  lemma {:induction false} ManagedTick(t: Topology, info: seq<Info>, i: nat, ins: seq<Instr>, x: Instr)
    requires !x.Fin? && !x.Emit?
    ensures var n, m := CntOf(t, info, i, ins), CntOf(t, info, i, ins + [x]);
      && LogOf(t, info, i, ins + [x]) == LogOf(t, info, i, ins) + (if i == 0 then [MgmtWqe(t, info, ins, x)] else [])
      && m.w == n.w + (if i == 0 then 1 else 0) && m.s == n.s && m.c == n.c
  {
    LogOfMore(t, info, i, ins, x);
  }

  /** Context `d` of queue `i` after management closure `x`. */
  ghost predicate Managed(t: Topology, info: seq<Info>, d: QpCtx, i: nat, ins: seq<Instr>, x: Instr)
    requires !x.Fin? && !x.Emit?
    reads d, d.sq, d.tasks, d.tasks.Repr, d.SendCq()
  {
    var n := CntOf(t, info, i, ins);
    && d.Recording() && d.Unrung() && Described(d, InfoAt(info, i)) && (d.scq != null <==> HasScq(t, i))
    && d.log == LogOf(t, info, i, ins) + (if i == 0 then [MgmtWqe(t, info, ins, x)] else [])
    && n.w == Size(LogOf(t, info, i, ins))
    && d.cmplCnt == Wrap(n.c)
    && (d.scq != null ==> d.scq.cmplCnt == Wrap(n.s))
  }

  lemma {:induction false} ManagedWritten(t: Topology, info: seq<Info>, owner: Owner, d: QpCtx, i: nat,
          ins: seq<Instr>, x: Instr)
    requires !x.Fin? && !x.Emit?
    requires d.tasks in owner && Owned(owner, d, i) && Managed(t, info, d, i, ins, x)
    ensures WrittenBy(t, info, owner, d, i, ins + [x])
  {
    hide LogOf, CntOf, RearmTasks.RearmTasks.Valid, Laid, Wrap, TasksOf, Size, Span;
    ManagedTick(t, info, i, ins, x);
    SizeMore(LogOf(t, info, i, ins), MgmtWqe(t, info, ins, x));
    assert LogOf(t, info, i, ins) + [] == LogOf(t, info, i, ins);
  }

  /** The management entry for `x` on behalf of the slave context `s`. */
  method Manage(ghost t: Topology, ghost info: seq<Info>, ghost ins: seq<Instr>, m: QpCtx, s: QpCtx, x: Instr)
    requires !x.Fin? && !x.Emit?
    requires m.Recording() && m != s && Size(m.log) < m.wqes
    requires Described(s, InfoAt(info, x.q)) && (s.scq != null <==> HasScq(t, x.q))
    requires Counts(s, CntOf(t, info, x.q, ins))
    modifies m`writeCnt, m`log, m.sq, m.tasks.Repr
    ensures m.Recording() && fresh(m.tasks.Repr - old(m.tasks.Repr))
    ensures m.log == old(m.log) + [MgmtWqe(t, info, ins, x)]
  {
    hide QpCtx.Recording, CntOf, Wrap, Size;
    WrapLess(CntOf(t, info, x.q, ins).c);
    WrapLess(CntOf(t, info, x.q, ins).s);
    WrapWord(s.writeCnt);
    match x
    case RecvEnable(_) => m.CdRecvEnable(s);
    case SendEnable(_) => m.CdSendEnable(s);
    case CdWait(_) => m.CdWait(s);
    case CdWaitSend(_) => m.CdWaitSend(s);
  }

  method ManageOne(ghost t: Topology, ghost info: seq<Info>, ghost owner: Owner, ctxs: seq<QpCtx>,
          ghost ins: seq<Instr>,
                   x: Instr)
    requires Wired(t) && Replayed(t, info, owner, ctxs, ins) && Linked(t, ctxs)
    requires !x.Fin? && !x.Emit? && 1 <= x.q < |t|
    requires CntOf(t, info, 0, ins + [x]).w <= info[0].wqes
    modifies owner.Keys
    ensures forall i :: 0 <= i < |ctxs| ==> Managed(t, info, ctxs[i], i, ins, x)
    ensures forall i :: 0 <= i < |ctxs| ==> i == 0 || ctxs[i].tasks.Repr == old(ctxs[i].tasks.Repr)
    ensures fresh(ctxs[0].tasks.Repr - old(ctxs[0].tasks.Repr)) && Linked(t, ctxs)
  {
    hide MgmtWqe, Wrap, ValidLog, Size, QpCtx.Recording, Span, TasksOf, Laid, QpCtx.Kept, LogOf, CntOf, Described;
    ghost var m := ctxs[0];
    AllOwned(t, info, owner, ctxs, ins);
    assert WrittenBy(t, info, owner, m, 0, ins);
    assert WrittenBy(t, info, owner, ctxs[x.q], x.q, ins);
    ManageFits(t, info, owner, m, ins, x);
    Manage(t, info, ins, ctxs[0], ctxs[x.q], x);
    assert Managed(t, info, m, 0, ins, x);
    forall i | 0 < i < |ctxs|
      ensures Managed(t, info, ctxs[i], i, ins, x)
    {
      assert old(WrittenBy(t, info, owner, ctxs[i], i, ins));
      assert ctxs[i].Recording();
    }
  }

  lemma {:induction false} ManageFits(t: Topology, info: seq<Info>, owner: Owner, c: QpCtx, ins: seq<Instr>, x: Instr)
    requires Wired(t) && |t| == |info| && !x.Fin? && !x.Emit?
    requires WrittenBy(t, info, owner, c, 0, ins)
    requires CntOf(t, info, 0, ins + [x]).w <= info[0].wqes
    ensures c.Recording() && c.tasks.Valid() && Size(c.log) < c.wqes
  {
    ManagedTick(t, info, 0, ins, x);
  }

  /** Execute a closure of the management queue. */
  method ManagedBy(ghost t: Topology, ghost info: seq<Info>, ghost owner: Owner, ctxs: seq<QpCtx>,
          ghost ins: seq<Instr>,
                   x: Instr) returns (ghost owner': Owner)
    requires Wired(t) && Replayed(t, info, owner, ctxs, ins) && Linked(t, ctxs)
    requires !x.Fin? && !x.Emit? && 1 <= x.q < |t|
    requires CntOf(t, info, 0, ins + [x]).w <= info[0].wqes
    modifies owner.Keys
    ensures Replayed(t, info, owner', ctxs, ins + [x]) && Linked(t, ctxs)
    ensures owner.Keys <= owner'.Keys && fresh(owner'.Keys - owner.Keys)
  {
    hide Managed, WrittenBy;
    AllOwned(t, info, owner, ctxs, ins);
    ManageOne(t, info, owner, ctxs, ins, x);
    owner' := owner + map o | o in ctxs[0].tasks.Repr :: 0;
    forall i | 0 <= i < |ctxs|
      ensures WrittenBy(t, info, owner', ctxs[i], i, ins + [x])
    {
      ManagedWritten(t, info, owner', ctxs[i], i, ins, x);
    }
  }

  /** Execute the closure at the head of the queue. */
  method Execute(ghost t: Topology, ghost info: seq<Info>, ghost owner: Owner, ctxs: seq<QpCtx>, ghost ins: seq<Instr>,
                 x: Instr) returns (ghost owner': Owner)
    requires Wired(t) && Replayed(t, info, owner, ctxs, ins) && Linked(t, ctxs)
    requires !x.Fin? && 1 <= x.q < |t| && (x.Emit? ==> x.op.Legal(t[x.q].kind))
    requires forall q :: 0 <= q < |info| ==> CntOf(t, info, q, ins + [x]).w <= info[q].wqes
    modifies owner.Keys
    ensures Replayed(t, info, owner', ctxs, ins + [x]) && Linked(t, ctxs)
    ensures owner.Keys <= owner'.Keys && fresh(owner'.Keys - owner.Keys)
  {
    assert |t| == |info|;
    hide Replayed, Linked, CntOf, Wired;
    if x.Emit? {
      owner' := Emitted(t, info, owner, ctxs, ins, x.q, x.op);
    } else {
      owner' := ManagedBy(t, info, owner, ctxs, ins, x);
    }
  }

  // ---- What is written, call by call ----

  /** The management closure of a call. */
  function Manages(c: Call): Instr {
    if c.Create? then RecvEnable(c.q)
    else if c.Post? then SendEnable(c.q)
    else if c.Wait? then CdWait(c.q)
    else CdWaitSend(c.q)
  }

  /** The management entry of call `i` as first written. */
  function CallWqe(t: Topology, info: seq<Info>, calls: seq<Call>, i: nat): Wqe
    requires i < |calls|
  {
    MgmtWqe(t, info, Program.Before(calls, i), Manages(calls[i]))
  }

  /** Management entry `i` is that of call `i`. */
  lemma {:induction false} MgmtEntries(t: Topology, info: seq<Info>, calls: seq<Call>)
    requires Legal(t, calls)
    ensures |LogOf(t, info, 0, Expand(calls))| == |calls|
    ensures forall i :: 0 <= i < |calls| ==> LogOf(t, info, 0, Expand(calls))[i] == CallWqe(t, info, calls, i)
  {
    hide LogOf, MgmtWqe;
    if |calls| > 0 {
      var n := |calls| - 1;
      var front, c := calls[..n], calls[n];
      MgmtEntries(t, info, front);
      assert LegalCall(t, c);
      MgmtAdded(t, info, Expand(front), c);
      forall i | 0 <= i < n
        ensures CallWqe(t, info, front, i) == CallWqe(t, info, calls, i)
      {
        EarlierCall(t, info, calls, i);
      }
    } else {
      NothingWritten(t, info);
    }
  }

  lemma {:induction false} NothingWritten(t: Topology, info: seq<Info>)
    ensures forall q :: LogOf(t, info, q, []) == [] && CntOf(t, info, q, []) == ZERO
  {
  }

  lemma {:induction false} EarlierCall(t: Topology, info: seq<Info>, calls: seq<Call>, i: nat)
    requires i < |calls| - 1
    ensures CallWqe(t, info, calls[..|calls| - 1], i) == CallWqe(t, info, calls, i)
  {
    hide MgmtWqe, Expand;
    assert calls[..|calls| - 1][..i] == calls[..i];
  }

  lemma {:induction false} MgmtAdded(t: Topology, info: seq<Info>, ins: seq<Instr>, c: Call)
    requires LegalCall(t, c)
    ensures LogOf(t, info, 0, ins + ExpandCall(c))
         == LogOf(t, info, 0, ins) + [MgmtWqe(t, info, ins + (if c.Post? then [Emit(c.q, c.op)] else []), Manages(c))]
  {
    hide MgmtWqe;
    if c.Post? {
      LogOfMore(t, info, 0, ins, Emit(c.q, c.op));
      LogOfMore(t, info, 0, ins + [Emit(c.q, c.op)], SendEnable(c.q));
      assert ins + ExpandCall(c) == ins + [Emit(c.q, c.op)] + [SendEnable(c.q)];
    } else {
      LogOfMore(t, info, 0, ins, Manages(c));
      assert ins + [] == ins;
    }
  }

  /** The operations recorded on queue `q`, oldest first. */
  function Ops(q: nat, calls: seq<Call>): seq<Op> {
    if |calls| == 0 then []
    else
      var c := calls[|calls| - 1];
      Ops(q, calls[..|calls| - 1]) + if c.Post? && c.q == q then [c.op] else []
  }

  function OpWqes(ops: seq<Op>): seq<Wqe> {
    if |ops| == 0 then [] else OpWqes(ops[..|ops| - 1]) + [OpWqe(ops[|ops| - 1])]
  }

  /** A slave queue holds its recorded operations, in order. */
  lemma {:induction false} SlaveEntries(t: Topology, info: seq<Info>, q: nat, calls: seq<Call>)
    requires q > 0
    ensures LogOf(t, info, q, Expand(calls)) == OpWqes(Ops(q, calls))
  {
    hide LogOf;
    if |calls| > 0 {
      var front, c := calls[..|calls| - 1], calls[|calls| - 1];
      SlaveEntries(t, info, q, front);
      SlaveAdded(t, info, q, Expand(front), Ops(q, front), c);
    } else {
      NothingWritten(t, info);
    }
  }

  lemma {:induction false} SlaveAdded(t: Topology, info: seq<Info>, q: nat, ins: seq<Instr>, ops: seq<Op>, c: Call)
    requires q > 0
    ensures var own := c.Post? && c.q == q;
      LogOf(t, info, q, ins + ExpandCall(c)) == LogOf(t, info, q, ins) + if own then [OpWqe(c.op)] else []
    ensures c.Post? ==> OpWqes(ops + [c.op]) == OpWqes(ops) + [OpWqe(c.op)]
    ensures ops + [] == ops
  {
    hide OpWqe, LogOf, CntOf, MgmtWqe, OpWqes;
    if c.Post? {
      LogOfMore(t, info, q, ins, Emit(c.q, c.op));
      LogOfMore(t, info, q, ins + [Emit(c.q, c.op)], SendEnable(c.q));
      assert ins + ExpandCall(c) == ins + [Emit(c.q, c.op)] + [SendEnable(c.q)];
      OpWqesMore(ops, c.op);
    } else {
      LogOfMore(t, info, q, ins, Manages(c));
    }
  }

  lemma {:induction false} OpWqesMore(ops: seq<Op>, op: Op)
    ensures OpWqes(ops + [op]) == OpWqes(ops) + [OpWqe(op)]
  {
    assert (ops + [op])[..|ops|] == ops;
  }

  /** The device numbers and sizes are those of the recorded graph. */
  ghost predicate Matches(t: Topology, info: seq<Info>, blk: seq<nat>, calls: seq<Call>) {
    && |info| == |blk| == |t|
    && forall q :: 0 <= q < |t| ==>
      && info[q].wqes == blk[q] && info[q].cqes == Tallied(t, q, calls).cqe
      && info[q].scqes == Tallied(t, q, calls).scqe
  }

  /** The entry of call `i` `k` rounds later: its 32-bit index is that of the recycled ring in round `k`. */
  lemma {:induction false} EntryInRound(t: Topology, info: seq<Info>, blk: seq<nat>, calls: seq<Call>, k: nat, i: nat)
    requires Legal(t, calls) && i < |calls| && Matches(t, info, blk, calls)
    ensures CallWqe(t, info, calls, i).body.Core?
    ensures Shifted(CallWqe(t, info, calls, i), k)
         == CallWqe(t, info, calls, i).(body := Core(Wrap(Recycled(t, blk, calls, k, i)),
                                                     CallWqe(t, info, calls, i).body.number,
                                                     Increment(t, blk, calls, i)))
  {
    hide Run, Tallied, Wrap;
    var w := CallWqe(t, info, calls, i);
    var v, inc := Rerecorded(t, blk, calls, 0, i), Increment(t, blk, calls, i);
    EntryIndex(t, info, blk, calls, i);
    WrapAdd(v, k * inc);
  }

  lemma {:induction false} EntryIndex(t: Topology, info: seq<Info>, blk: seq<nat>, calls: seq<Call>, i: nat)
    requires Legal(t, calls) && i < |calls| && Matches(t, info, blk, calls)
    ensures var b := CallWqe(t, info, calls, i).body;
      b.Core? && b.index == Wrap(Rerecorded(t, blk, calls, 0, i)) && b.inc == Increment(t, blk, calls, i)
  {
    hide Run, Tallied, Wrap, Expand;
    var q := calls[i].q;
    assert LegalCall(t, calls[i]);
    assert Stream(calls, 0) + Program.Before(calls, i) == Program.Before(calls, i);
    FirstCounters(t, blk[q], calls, i);
  }
}
