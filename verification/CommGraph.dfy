/** Recording a communication graph, and finishing it: contexts, replay, recycling, first doorbell. */
module CommGraph {
  import opened Words
  import opened Program
  import opened Counting
  import opened Rounding
  import opened WqeLayout
  import opened Recycle
  import opened QpContext
  import opened Replay

  /** A recorded queue: its number, its kind, and the counters that size its ring. */
  class PcxQp {
    const id: nat
    const kind: Kind
    var wqeCount: nat
    var cqeCount: nat
    var scqeCount: nat
    var recvEnables: nat
    var pair: PcxQp

    constructor (id: nat, kind: Kind)
      ensures this.id == id && this.kind == kind && pair == this
      ensures wqeCount == 0 && cqeCount == 0 && scqeCount == 0 && recvEnables == 0
    {
      this.id, this.kind, wqeCount, cqeCount, scqeCount, recvEnables := id, kind, 0, 0, 0, 0;
      pair := this;
    }

    predicate HasSendCq() {
      kind.Ring? || kind.Doubling?
    }
  }

  // ---- Registering more queues changes nothing recorded before ----

  lemma {:induction false} TallyExtends(t: Topology, u: Topology, q: nat, calls: seq<Call>)
    requires Wired(t) && t <= u && Legal(t, calls)
    ensures Legal(u, calls)
    ensures Tallied(u, q, calls) == if q < |t| then Tallied(t, q, calls) else Tally(0, 0, 0)
  {
    if |calls| > 0 {
      TallyExtends(t, u, q, calls[..|calls| - 1]);
      assert LegalCall(t, calls[|calls| - 1]);
    }
  }

  lemma {:induction false} MoreCalls(t: Topology, calls: seq<Call>, c: Call)
    ensures Expand(calls + [c]) == Expand(calls) + ExpandCall(c)
    ensures forall q :: Tallied(t, q, calls + [c]) == Note(t, q, Tallied(t, q, calls), c)
    ensures Creations(calls + [c]) == Creations(calls) + if c.Create? then 1 else 0
    ensures Legal(t, calls) && LegalCall(t, c) ==> Legal(t, calls + [c])
  {
    assert (calls + [c])[..|calls|] == calls;
  }

  class CommGraph {
    var qps: seq<PcxQp>    // by registration number; the management queue first
    var mqp: PcxQp         // the management queue
    var iq: seq<Instr>     // closures not yet executed
    var ctxs: seq<QpCtx>   // the low-level contexts created so far, by registration number
    ghost var t: Topology
    ghost var calls: seq<Call>
    ghost var info: seq<Info>  // once finished: what is known of the contexts, and which queue owns what
    ghost var owner: Owner

    ghost predicate Registered(i: nat)
      requires i < |qps|
      reads this`qps, this`t, this`calls, qps
    {
      && |qps| == |t| && t[i].pair < |t|
      && qps[i].id == i && qps[i].kind == t[i].kind && qps[i].pair == qps[t[i].pair]
      && Tally(qps[i].wqeCount, qps[i].cqeCount, qps[i].scqeCount) == Tallied(t, i, calls)
    }

    /** While operations are recorded: the counters are the tallies of the calls made, and the queued closures
        are those of the calls made. */
    ghost predicate Recording()
      reads this, qps
    {
      && Wired(t) && Legal(t, calls) && |qps| == |t|
      && (forall i :: 0 <= i < |qps| ==> Registered(i))
      && mqp == qps[0] && mqp.recvEnables == Creations(calls)
      && ctxs == [] && iq == Expand(calls) && Built(t, calls)
    }

    constructor ()
      ensures Recording() && calls == [] && t == [Queue(Management, 0)] && fresh(qps)
    {
      hide Built, Expand, Creations;
      mqp := new PcxQp(0, Management);
      new;
      NothingBuilt();
      qps, iq, ctxs := [mqp], [], [];
      t, calls, info, owner := [Queue(Management, 0)], [], [], map[];
    }

    lemma {:induction false} SomeQueue()
      requires Recording()
      ensures |qps| == |t| > 0 && Registered(0)
    {
    }

    method Enqueue(ins: Instr)
      modifies this`iq
      ensures iq == old(iq) + [ins]
    {
      iq := iq + [ins];
    }

    /** The management queue's part of a call: one more entry. */
    method Manage(ins: Instr)
      modifies this`iq, mqp`wqeCount
      ensures iq == old(iq) + [ins] && mqp.wqeCount == old(mqp.wqeCount) + 1
    {
      mqp.wqeCount := mqp.wqeCount + 1;
      Enqueue(ins);
    }

    /** The counters an operation bumps: slots, the completion of the pair, a local completion if it is counted. */
    method Count(qp: PcxQp, op: Op)
      modifies qp`wqeCount, qp`cqeCount, qp`scqeCount, qp.pair`cqeCount
      ensures qp.wqeCount == old(qp.wqeCount) + op.Slots()
      ensures var own := op.Counted() && !qp.HasSendCq();
        && qp.cqeCount == old(qp.cqeCount) + (if own then 1 else 0) + (if qp.pair == qp then 1 else 0)
        && qp.pair.cqeCount == old(qp.pair.cqeCount) + (if own && qp.pair == qp then 1 else 0) + 1
      ensures qp.scqeCount == old(qp.scqeCount) + if op.Counted() && qp.HasSendCq() then 1 else 0
      ensures op.Slots() == (if op.ReduceWrite? || op.ReduceWriteCmpl? then 2 else 1)
      ensures op.Counted() <==> op.WriteCmpl? || op.ReduceWriteCmpl?
    {
      qp.wqeCount := qp.wqeCount + op.Slots();
      qp.pair.cqeCount := qp.pair.cqeCount + 1;
      if op.Counted() {
        if qp.HasSendCq() {
          qp.scqeCount := qp.scqeCount + 1;
        } else {
          qp.cqeCount := qp.cqeCount + 1;
        }
      }
    }

    /** Record one operation of queue `q`. */
    method Post(q: nat, op: Op)
      requires Recording() && LegalCall(t, Call.Post(q, op))
      modifies this`iq, this`calls, qps
      ensures Recording() && calls == old(calls) + [Call.Post(q, op)]
    {
      hide Expand, Creations, Tallied, Op.Slots, Op.Counted, Built, Wired, Legal;
      SomeQueue();
      MoreCalls(t, calls, Call.Post(q, op));
      BuiltStays(t, calls, calls + [Call.Post(q, op)]);
      assert Registered(q) && Registered(t[q].pair) && Registered(0);
      Count(qps[q], op);
      Enqueue(Emit(q, op));
      Manage(SendEnable(q));
      calls := calls + [Call.Post(q, op)];
      forall i | 0 <= i < |qps|
        ensures Registered(i)
      {
        assert old(Registered(i));
      }
    }

    method Wait(q: nat)
      requires Recording() && 1 <= q < |t|
      modifies this`iq, this`calls, qps
      ensures Recording() && calls == old(calls) + [Call.Wait(q)]
    {
      hide Expand, Creations, Tallied, Built;
      MoreCalls(t, calls, Call.Wait(q));
      BuiltStays(t, calls, calls + [Call.Wait(q)]);
      Manage(CdWait(q));
      calls := calls + [Call.Wait(q)];
      forall i | 0 <= i < |qps|
        ensures Registered(i)
      {
        assert old(Registered(i) && Registered(0));
      }
    }

    method WaitSend(q: nat)
      requires Recording() && 1 <= q < |t|
      modifies this`iq, this`calls, qps
      ensures Recording() && calls == old(calls) + [Call.WaitSend(q)]
    {
      hide Expand, Creations, Tallied, Built;
      MoreCalls(t, calls, Call.WaitSend(q));
      BuiltStays(t, calls, calls + [Call.WaitSend(q)]);
      Manage(CdWaitSend(q));
      calls := calls + [Call.WaitSend(q)];
      forall i | 0 <= i < |qps|
        ensures Registered(i)
      {
        assert old(Registered(i) && Registered(0));
      }
    }

    /** Register a queue, and record its receive-enable. Its pair is still itself. */
    method Construct(kind: Kind) returns (qp: PcxQp)
      modifies this`qps, this`iq, mqp`wqeCount, mqp`recvEnables
      ensures fresh(qp) && qp.id == |old(qps)| && qp.kind == kind && qp.pair == qp && qps == old(qps) + [qp]
      ensures qp.wqeCount == qp.cqeCount == qp.scqeCount == 0
      ensures iq == old(iq) + [RecvEnable(|old(qps)|)]
      ensures mqp.wqeCount == old(mqp.wqeCount) + 1 && mqp.recvEnables == old(mqp.recvEnables) + 1
    {
      qp := new PcxQp(|qps|, kind);
      qps := qps + [qp];
      Manage(RecvEnable(qp.id));
      mqp.recvEnables := mqp.recvEnables + 1;
    }

    /** A queue that is its own pair: a loopback or a doubling queue. */
    method NewSelfPaired(kind: Kind) returns (qp: PcxQp)
      requires Recording() && (kind.Loopback? || kind.Doubling?)
      modifies this, qps
      ensures Recording() && fresh(qp) && qps == old(qps) + [qp]
      ensures t == old(t) + [Queue(kind, |old(t)|)] && calls == old(calls) + [Create(|old(t)|)]
    {
      hide Expand, Creations, Tallied, Wired, Legal, Built;
      SomeQueue();
      ghost var u := t + [Queue(kind, |t|)];
      SelfConstructed(t, u, calls, kind);
      assert Registered(0);
      qp := Construct(kind);
      t, calls := u, calls + [Create(|t|)];
      forall i | 0 <= i < |qps|
        ensures Registered(i)
      {
        SelfTally(old(t), u, old(calls), i);
        if i < |qps| - 1 {
          assert old(Registered(i));
        }
      }
    }

    /** The two queues of a ring: the one to the right is constructed first on odd ranks, second on even ranks. */
    method NewRingPair(myRank: nat) returns (right: PcxQp, left: PcxQp)
      requires Recording()
      modifies this, qps
      ensures Recording() && fresh({right, left})
      ensures qps == old(qps) + if myRank % 2 == 1 then [right, left] else [left, right]
      ensures var n := |old(t)|;
        && t == old(t) + [Queue(Ring, n + 1), Queue(Ring, n)]
        && calls == old(calls) + [Create(n)] + [Create(n + 1)]
    {
      hide CommGraph.Recording;
      var first, second := ConstructPair();
      if myRank % 2 == 1 {
        right, left := first, second;
      } else {
        left, right := first, second;
      }
    }

    /** Construct two queues and make each the other's pair. */
    method ConstructTwo() returns (first: PcxQp, second: PcxQp)
      modifies this`qps, this`iq, mqp`wqeCount, mqp`recvEnables
      ensures fresh(first) && fresh(second) && qps == old(qps) + [first, second]
      ensures first.id == |old(qps)| && first.kind == Ring && first.pair == second
      ensures second.id == |old(qps)| + 1 && second.kind == Ring && second.pair == first
      ensures first.wqeCount == first.cqeCount == first.scqeCount == 0
      ensures second.wqeCount == second.cqeCount == second.scqeCount == 0
      ensures iq == old(iq) + [RecvEnable(|old(qps)|)] + [RecvEnable(|old(qps)| + 1)]
      ensures mqp.wqeCount == old(mqp.wqeCount) + 2 && mqp.recvEnables == old(mqp.recvEnables) + 2
    {
      first := Construct(Ring);
      second := Construct(Ring);
      first.pair := second;
      second.pair := first;
    }

    method ConstructPair() returns (first: PcxQp, second: PcxQp)
      requires Recording()
      modifies this, qps
      ensures Recording() && fresh({first, second}) && qps == old(qps) + [first, second]
      ensures var n := |old(t)|;
        && t == old(t) + [Queue(Ring, n + 1), Queue(Ring, n)]
        && calls == old(calls) + [Create(n)] + [Create(n + 1)]
    {
      hide Expand, Creations, Tallied, Wired, Legal, Built;
      SomeQueue();
      ghost var n := |t|;
      ghost var u := t + [Queue(Ring, n + 1), Queue(Ring, n)];
      PairConstructed(t, u, calls);
      first, second := ConstructTwo();
      t, calls := u, calls + [Create(n)] + [Create(n + 1)];
      PairTally(old(t), u, old(calls), n);
      PairTally(old(t), u, old(calls), n + 1);
      assert Registered(n) && Registered(n + 1);
      forall i | 0 <= i < n
        ensures Registered(i)
      {
        PairTally(old(t), u, old(calls), i);
        assert old(Registered(i));
      }
    }

    // ---- Finishing ----

    /** The sizes asked of the device fit: every queue has work, and a send queue that holds it. */
    ghost predicate Sizes(devs: seq<Device>)
      reads this`qps, qps
    {
      && |devs| == |qps|
      && forall i :: 0 <= i < |qps| ==>
        IsPow2(devs[i].sqCnt) && devs[i].sqCnt <= 0x8000_0000 && 0 < qps[i].wqeCount <= devs[i].sqCnt
    }

    /** Every queue's work fills at most half of its send queue, so that there are copies to recycle. */
    ghost predicate Recyclable(devs: seq<Device>)
      requires |devs| == |qps|
      reads this`qps, qps
    {
      forall i :: 0 <= i < |qps| ==> qps[i].wqeCount <= devs[i].sqCnt / 2
    }

    /** The first contexts exist, and nothing is written. */
    ghost predicate Inited(info: seq<Info>, owner: Owner)
      reads this`ctxs, this`t, owner.Keys
    {
      && |ctxs| == |info| && this !in owner
      && forall i :: 0 <= i < |ctxs| ==> ctxs[i] in owner && Clean(t, owner, ctxs[i], i, info[i])
    }

    /** Among the first `n` queues, two contexts that belong to a pair know each other. */
    ghost predicate Introduced(n: nat)
      reads this`ctxs, this`t, ctxs
    {
      && n <= |ctxs| <= |t| && Wired(t)
      && forall i :: 0 <= i < |ctxs| ==>
        ctxs[i].pair == ctxs[if i < n && t[i].pair < n then t[i].pair else i]
    }

    /** The context of one queue, with everything it uses. */
    method NewContext(qp: PcxQp, dev: Device, ghost i: nat)
        returns (c: QpCtx, ghost own: Owner, ghost n: Info)
      requires IsPow2(dev.sqCnt) && dev.sqCnt <= 0x8000_0000 && 0 < qp.wqeCount <= dev.sqCnt
      requires qp.HasSendCq() <==> HasScq(t, i)
      ensures fresh(c) && c.pair == c && fresh(own.Keys) && Clean(t, own, c, i, n)
      ensures n == Info(dev.qpn, dev.cqn, dev.scqn, n.wqes, n.dups, qp.cqeCount, qp.scqeCount)
      ensures Divided(n, qp.wqeCount, dev.sqCnt)
    {
      var scq: CqCtx? := null;
      if qp.HasSendCq() {
        scq := new CqCtx(dev.scqn, qp.scqeCount);
      }
      c := new QpCtx(dev.qpn, dev.cqn, dev.sqCnt, qp.wqeCount, qp.cqeCount, scq);
      own := map o | o in c.Footprint() :: i;
      n := Info(dev.qpn, dev.cqn, dev.scqn, c.wqes, c.dups, qp.cqeCount, qp.scqeCount);
    }

    /** Create the context of the next queue. */
    method Append(ghost info: seq<Info>, ghost owner: Owner, dev: Device) returns (ghost n: Info, ghost owner': Owner)
      requires Inited(info, owner) && Introduced(|ctxs|) && |ctxs| < |t| == |qps| && Registered(|ctxs|)
      requires IsPow2(dev.sqCnt) && dev.sqCnt <= 0x8000_0000 && 0 < qps[|ctxs|].wqeCount <= dev.sqCnt
      modifies this`ctxs
      ensures Inited(info + [n], owner') && Introduced(|info|)
      ensures |ctxs| == |info| + 1 && ctxs[..|info|] == old(ctxs) && fresh(ctxs[|info|])
      ensures n == Info(dev.qpn, dev.cqn, dev.scqn, n.wqes, n.dups, qps[|info|].cqeCount, qps[|info|].scqeCount)
      ensures Divided(n, qps[|info|].wqeCount, dev.sqCnt)
      ensures owner.Keys <= owner'.Keys && fresh(owner'.Keys - owner.Keys)
    {
      hide Clean, IsPow2, Divided, Wired;
      ghost var i := |ctxs|;
      var c;
      ghost var own;
      c, own, n := NewContext(qps[|ctxs|], dev, i);
      owner' := owner + own;
      CleanGrows(t, own, owner', c, i, n);
      forall j | 0 <= j < i
        ensures Clean(t, owner', ctxs[j], j, info[j])
      {
        CleanGrows(t, owner, owner', ctxs[j], j, info[j]);
      }
      ctxs := ctxs + [c];
    }

    /** Introduce the context created last to its pair's, if that exists. */
    method Introduce(ghost info: seq<Info>, ghost owner: Owner)
      requires Inited(info, owner) && 0 < |ctxs| <= |qps| == |t| && Introduced(|ctxs| - 1)
      requires Registered(|ctxs| - 1) && Registered(t[|ctxs| - 1].pair)
      modifies ctxs
      ensures Inited(info, owner) && Introduced(|ctxs|)
    {
      hide Inited;
      var qp := qps[|ctxs| - 1];
      if qp.kind.Ring? && qp.pair.id < |ctxs| {
        SetPairs(info, owner, |ctxs| - 1, qp.pair.id);
      }
    }

    /** Each of the two contexts becomes the other's pair. */
    method SetPairs(ghost info: seq<Info>, ghost owner: Owner, i: nat, p: nat)
      requires Inited(info, owner) && i < |ctxs| && p < |ctxs|
      modifies ctxs
      ensures Inited(info, owner)
      ensures forall j :: 0 <= j < |ctxs| ==>
        ctxs[j].pair == if j == i then ctxs[p] else if j == p then ctxs[i] else old(ctxs[j].pair)
    {
      hide QpCtx.Recording, Described, QpCtx.Unrung;
      forall j | 0 <= j < |ctxs|
        ensures ctxs[j] in owner && owner[ctxs[j]] == j && ctxs[j] !in ctxs[j].tasks.Repr
      {
        assert Clean(t, owner, ctxs[j], j, info[j]);
      }
      ctxs[p].pair := ctxs[i];
      ctxs[i].pair := ctxs[p];
      forall j | 0 <= j < |ctxs|
        ensures Clean(t, owner, ctxs[j], j, info[j])
      {
        assert old(Clean(t, owner, ctxs[j], j, info[j]));
        assert ctxs[j].Recording();
      }
    }

    /** What is known of the first `n` contexts: device numbers, recorded counts, and the block the rounding gives. */
    ghost predicate Measured(devs: seq<Device>, info: seq<Info>, n: nat)
      requires n <= |devs| && n <= |info| && n <= |qps|
      reads this`qps, qps
    {
      forall i :: 0 <= i < n ==>
        && info[i] == Info(devs[i].qpn, devs[i].cqn, devs[i].scqn, info[i].wqes, info[i].dups,
                           qps[i].cqeCount, qps[i].scqeCount)
        && Divided(info[i], qps[i].wqeCount, devs[i].sqCnt)
    }

    /** Create the contexts of all queues, in the order of registration. */
    method InitAll(devs: seq<Device>) returns (ghost info: seq<Info>, ghost owner: Owner)
      requires Recording() && Sizes(devs)
      modifies this`ctxs
      ensures Replayed(t, info, owner, ctxs, []) && Linked(t, ctxs)
      ensures |info| == |devs| == |ctxs| && Measured(devs, info, |devs|)
      ensures this !in owner && fresh(owner.Keys)
    {
      hide Clean, Divided, IsPow2, Expand, Legal, Creations, Tallied, Registered, Built, Replayed, Linked;
      info, owner := [], map[];
      var k := 0;
      while k < |qps|
        invariant k == |ctxs| == |info| <= |qps| == |t| == |devs|
        invariant Inited(info, owner) && Introduced(k) && Measured(devs, info, k)
        invariant fresh(owner.Keys)
        invariant forall i :: 0 <= i < |qps| ==> Registered(i)
      {
        info, owner := InitOne(devs, info, owner);
        k := k + 1;
      }
      AllClean(info, owner);
    }

    lemma {:induction false} AllClean(info: seq<Info>, owner: Owner)
      requires Inited(info, owner) && Introduced(|ctxs|) && |ctxs| == |t|
      ensures Replayed(t, info, owner, ctxs, []) && Linked(t, ctxs)
    {
      hide Clean, WrittenBy;
      forall i | 0 <= i < |ctxs|
        ensures WrittenBy(t, info, owner, ctxs[i], i, [])
      {
        CleanWritten(t, info, owner, ctxs[i], i);
      }
    }

    /** Initialise the next queue. */
    method InitOne(devs: seq<Device>, ghost info: seq<Info>, ghost owner: Owner)
        returns (ghost info': seq<Info>, ghost owner': Owner)
      requires |ctxs| == |info| < |qps| == |t| == |devs| && Sizes(devs)
      requires Inited(info, owner) && Introduced(|ctxs|) && Measured(devs, info, |info|)
      requires forall i :: 0 <= i < |qps| ==> Registered(i)
      modifies this`ctxs, ctxs
      ensures |ctxs| == |info'| == |info| + 1
      ensures Inited(info', owner') && Introduced(|ctxs|) && Measured(devs, info', |info'|)
      ensures owner.Keys <= owner'.Keys && fresh(owner'.Keys - owner.Keys)
      ensures forall i :: 0 <= i < |qps| ==> Registered(i)
    {
      hide Clean, Divided, IsPow2, Tallied;
      ghost var n;
      n, owner' := Append(info, owner, devs[|ctxs|]);
      info' := info + [n];
      Introduce(info', owner');
    }

    /** Execute the queued closures, oldest first. */
    method ReplayAll(ghost info: seq<Info>, ghost owner: Owner) returns (ghost owner': Owner)
      requires Wired(t) && Legal(t, calls) && iq == Expand(calls)
      requires Replayed(t, info, owner, ctxs, []) && Linked(t, ctxs) && this !in owner
      requires forall q :: 0 <= q < |t| ==> Tallied(t, q, calls).wqe <= info[q].wqes
      modifies this`iq, owner.Keys
      ensures Replayed(t, info, owner', ctxs, Expand(calls)) && Linked(t, ctxs) && iq == []
      ensures owner.Keys <= owner'.Keys && fresh(owner'.Keys - owner.Keys)
    {
      hide Replayed, Linked, Expand, Wired, Legal, Tallied;
      owner' := owner;
      ghost var ins: seq<Instr> := [];
      while iq != []
        invariant ins + iq == Expand(calls)
        invariant Replayed(t, info, owner', ctxs, ins) && Linked(t, ctxs) && this !in owner'
        invariant owner.Keys <= owner'.Keys && fresh(owner'.Keys - owner.Keys)
        decreases |iq|
      {
        FirstThenRest(ins, iq);
        ghost var x := iq[0];
        owner' := ReplayOne(info, owner', ins);
        ins := ins + [x];
      }
      assert ins + [] == ins;
    }

    /** Execute the oldest closure. */
    method ReplayOne(ghost info: seq<Info>, ghost owner: Owner, ghost ins: seq<Instr>) returns (ghost owner': Owner)
      requires Wired(t) && Legal(t, calls) && |iq| > 0 && ins + [iq[0]] + iq[1..] == Expand(calls)
      requires Replayed(t, info, owner, ctxs, ins) && Linked(t, ctxs) && this !in owner
      requires forall q :: 0 <= q < |t| ==> Tallied(t, q, calls).wqe <= info[q].wqes
      modifies this`iq, owner.Keys
      ensures Replayed(t, info, owner', ctxs, ins + [old(iq)[0]]) && Linked(t, ctxs) && iq == old(iq)[1..]
      ensures owner.Keys <= owner'.Keys && fresh(owner'.Keys - owner.Keys)
    {
      hide *;
      var x := iq[0];
      SameNumber(t, info, owner, ctxs, ins);
      Executable(t, info, calls, ins, x, iq[1..]);
      owner' := Execute(t, info, owner, ctxs, ins, x);
      iq := iq[1..];
    }

    /** Complete every queue. */
    method FinAll(ghost info: seq<Info>, ghost owner: Owner) returns (ghost owner': Owner)
      requires Wired(t) && Legal(t, calls) && Replayed(t, info, owner, ctxs, Expand(calls)) && Linked(t, ctxs)
      requires this !in owner && forall q :: 0 <= q < |info| ==> info[q].dups >= 2
      modifies owner.Keys
      ensures Linked(t, ctxs) && forall i :: 0 <= i < |ctxs| ==> Done(t, info, owner', ctxs[i], i, calls)
      ensures owner.Keys <= owner'.Keys && fresh(owner'.Keys - owner.Keys)
    {
      owner' := owner;
      var k := 0;
      while k < |ctxs|
        invariant 0 <= k <= |ctxs| && Linked(t, ctxs) && this !in owner'
        invariant forall i :: 0 <= i < |ctxs| ==> FinTo(t, info, owner', ctxs[i], i, calls, k)
        invariant owner.Keys <= owner'.Keys && fresh(owner'.Keys - owner.Keys)
      {
        hide FinTo, Linked;
        owner' := FinOne(t, info, owner', ctxs, calls, k);
        k := k + 1;
      }
    }

    /** The management entries released: the constructions at first, then whole blocks. */
    ghost function Ahead(): nat
      requires |ctxs| > 0
      reads this`ctxs, this`calls, ctxs
    {
      if ctxs[0].bells == 0 then Creations(calls) else Span(ctxs[0].bells, ctxs[0].wqes)
    }

    /** That is what the device was told last. */
    ghost predicate Announced()
      reads this`ctxs, this`calls, ctxs
    {
      |ctxs| > 0 && ctxs[0].Told(Wrap(Ahead()))
    }

    /** The graph is finished: every queue is complete, and the receive-enables are released. */
    ghost predicate Finished()
      reads this, ctxs, owner.Keys
    {
      Completed() && Announced()
    }

    /** Every queue is complete, and knows its pair. */
    ghost predicate Completed()
      reads this, ctxs, owner.Keys
    {
      && Wired(t) && Legal(t, calls) && Built(t, calls) && iq == [] && this !in owner
      && Matches(t, info, BlockSizes(info), calls)
      && Linked(t, ctxs)
      && forall i :: 0 <= i < |ctxs| ==> Done(t, info, owner, ctxs[i], i, calls)
    }

    /** Finish the graph: create all contexts, replay all closures, complete all queues, and release the
        receive-enables. */
    method Finish(devs: seq<Device>)
      requires Recording() && Sizes(devs) && Recyclable(devs)
      modifies this
      ensures Finished() && t == old(t) && calls == old(calls) && qps == old(qps)
      ensures |ctxs| == |qps| && fresh(owner.Keys)
      ensures |info| == |devs| && Measured(devs, info, |devs|) && forall i :: 0 <= i < |qps| ==> Registered(i)
      ensures Read(ctxs[0].dbrec) == Wrap(Creations(calls))
    {
      hide Replayed, Linked, IsPow2, Expand, Legal, Wired, Creations, Tallied, Done, Matches;
      hide Registered, Built, QpCtx.Told, Divided, Padding, LogOf, QpCtx.Armed, QpCtx.Rung;
      info, owner := InitAll(devs);
      AllMeasured(devs);
      Complete(mqp.recvEnables);
      NowAnnounced();
    }

    /** Replay, complete, and release the first `k` management entries. */
    method Complete(k: nat)
      requires Wired(t) && Legal(t, calls) && Built(t, calls) && iq == Expand(calls)
      requires Replayed(t, info, owner, ctxs, []) && Linked(t, ctxs) && this !in owner
      requires forall q :: 0 <= q < |t| ==> Tallied(t, q, calls).wqe <= info[q].wqes
      requires Matches(t, info, BlockSizes(info), calls)
      requires forall q :: 0 <= q < |info| ==> info[q].dups >= 2
      modifies this`iq, this`owner, owner.Keys
      ensures Completed() && |ctxs| > 0 && ctxs[0].Told(Wrap(k))
      ensures old(owner.Keys) <= owner.Keys && fresh(owner.Keys - old(owner.Keys))
    {
      hide Replayed, Linked, Expand, Legal, Wired, Tallied, Done, Matches, Built;
      owner := ReplayAll(info, owner);
      owner := FinAll(info, owner);
      RingFirst(Wrap(k));
    }

    lemma {:induction false} NowAnnounced()
      requires Completed() && |ctxs| > 0 && ctxs[0].Told(Wrap(Creations(calls)))
      ensures Finished() && Read(ctxs[0].dbrec) == Wrap(Creations(calls))
    {
      assert Done(t, info, owner, ctxs[0], 0, calls);
    }

    lemma {:induction false} AllMeasured(devs: seq<Device>)
      requires |info| == |t| == |qps| == |devs| && Measured(devs, info, |devs|)
      requires forall i :: 0 <= i < |qps| ==> Registered(i)
      ensures Matches(t, info, BlockSizes(info), calls)
      ensures forall q :: 0 <= q < |t| ==> Tallied(t, q, calls).wqe <= info[q].wqes
      ensures Recyclable(devs) ==> forall q :: 0 <= q < |t| ==> info[q].dups >= 2
    {
      hide Tallied;
      forall q | 0 <= q < |t|
        ensures Tallied(t, q, calls).wqe <= info[q].wqes
        ensures info[q].cqes == Tallied(t, q, calls).cqe && info[q].scqes == Tallied(t, q, calls).scqe
        ensures Recyclable(devs) ==> info[q].dups >= 2
      {
        assert Registered(q);
      }
    }

    /** Release the first `k` management entries. */
    method RingFirst(k: Word)
      requires Completed()
      modifies owner.Keys
      ensures Completed() && |ctxs| > 0 && ctxs[0].Told(k)
    {
      hide QpCtx.Armed, Described, LogOf, Tallied, Expand, Deficit, Padding, Wrap, Matches, Legal, Built;
      forall i | 0 <= i < |ctxs|
        ensures Owned(owner, ctxs[i], i) && ctxs[i] !in ctxs[i].tasks.Repr
      {
        assert Done(t, info, owner, ctxs[i], i, calls);
        ArmedApart(ctxs[i]);
      }
      ctxs[0].DbFirst(k);
      forall i | 0 <= i < |ctxs|
        ensures Done(t, info, owner, ctxs[i], i, calls)
      {
        assert old(Done(t, info, owner, ctxs[i], i, calls));
        assert ctxs[i].Armed();
      }
    }

    /** What recording counted is what replay wrote: slots, completions of the receive CQ, and completions of the send
        CQ up to the writes that recording does not count. Each context's pair is the context of its queue's pair. */
    lemma {:induction false} Agrees(i: nat)
      requires Finished() && |qps| == |t| && i < |qps| && Registered(i) && Registered(t[i].pair)
      ensures |ctxs| == |qps| && qps[i].pair.id < |ctxs|
      ensures Size(LogOf(t, info, i, Expand(calls))) == qps[i].wqeCount <= ctxs[i].wqes
      ensures ctxs[i].log == LogOf(t, info, i, Expand(calls)) + Padding(ctxs[i].wqes - qps[i].wqeCount)
      ensures ctxs[i].cmplCnt == Wrap(qps[i].cqeCount)
      ensures ctxs[i].scq != null ==> ctxs[i].scq.cmplCnt == Wrap(qps[i].scqeCount + Deficit(i, calls))
      ensures ctxs[i].pair == ctxs[qps[i].pair.id]
    {
      hide Built, QpCtx.Told, Tallied, Deficit, Expand, LogOf, Padding, Size, Wrap, Matches, Legal, Done;
      DoneCounts(t, info, owner, ctxs[i], i, calls);
    }

    // ---- Running ----

    /** A finished graph in use: every queue complete, and the management queue armed, rearmed and rung any number of times. */
    ghost predicate Running()
      reads this, ctxs, owner.Keys
    {
      && Wired(t) && Legal(t, calls) && Built(t, calls) && this !in owner
      && Matches(t, info, BlockSizes(info), calls)
      && Linked(t, ctxs) && Announced()
      && Live(t, info, owner, ctxs[0], 0, calls)
      && forall i :: 1 <= i < |ctxs| ==> Done(t, info, owner, ctxs[i], i, calls)
    }

    /** Rearms done, compared with the rounds released: `fin` starts ahead, and one is owed for each round. */
    ghost predicate Owed(n: nat)
      requires |ctxs| > 0
      reads this`ctxs, ctxs
    {
      ctxs[0].rearms + n == Prearmed(ctxs[0].dups) + ctxs[0].bells
    }

    lemma {:induction false} StartsRunning()
      requires Finished()
      ensures Running() && Owed(0) && ctxs[0].bells == 0
    {
      hide QpCtx.Armed, LogOf, Tallied, Expand, Deficit, Padding, Wrap, Matches, Legal, Built;
      assert Done(t, info, owner, ctxs[0], 0, calls);
    }

    /** Release one more round. */
    method Db()
      requires Running()
      modifies owner.Keys
      ensures ctxs == old(ctxs) && owner == old(owner)
      ensures Running() && ctxs[0].rearms == old(ctxs[0].rearms) && ctxs[0].bells == old(ctxs[0].bells) + 1
      ensures ctxs[0].sq[..] == old(ctxs[0].sq[..])
      ensures ctxs[0].Told(Wrap(Span(ctxs[0].bells, ctxs[0].wqes)))
    {
      hide QpCtx.Armed, QpCtx.Rung, QpCtx.Told, QpCtx.Sized, QpCtx.Unrung, Described, LogOf, Tallied, Expand, Deficit;
      hide Padding, Wrap, Matches, Legal, Built, Span, Slot;
      RunningApart();
      ctxs[0].Db();
      forall i | 1 <= i < |ctxs|
        ensures Done(t, info, owner, ctxs[i], i, calls)
      {
        assert old(Done(t, info, owner, ctxs[i], i, calls));
        assert ctxs[i].Armed();
      }
    }

    /** Arm the next copy of the management queue. */
    method Rearm()
      requires Running()
      modifies owner.Keys
      ensures ctxs == old(ctxs) && owner == old(owner)
      ensures Running() && ctxs[0].rearms == old(ctxs[0].rearms) + 1 && ctxs[0].bells == old(ctxs[0].bells)
      ensures ctxs[0].dbrec == old(ctxs[0].dbrec)
      ensures ctxs[0].bfReg == old(ctxs[0].bfReg) && ctxs[0].bfQpn == old(ctxs[0].bfQpn)
    {
      hide QpCtx.Armed, QpCtx.Rung, QpCtx.Told, QpCtx.Unrung, Described, LogOf, Tallied, Expand, Deficit, Padding;
      hide Wrap, Matches, Legal, Built;
      RunningApart();
      ctxs[0].Rearm();
      forall i | 1 <= i < |ctxs|
        ensures Done(t, info, owner, ctxs[i], i, calls)
      {
        assert old(Done(t, info, owner, ctxs[i], i, calls));
        assert ctxs[i].Armed();
      }
    }

    lemma {:induction false} RunningApart()
      requires Running()
      ensures forall i :: 0 <= i < |ctxs| ==>
        Owned(owner, ctxs[i], i) && ctxs[i] !in ctxs[i].tasks.Repr && ctxs[i].Armed()
      ensures |ctxs| > 0 && ctxs[0].Sized() && ctxs[0].Rung()
    {
      hide QpCtx.Armed, QpCtx.Rung, QpCtx.Sized, Described, LogOf, Tallied, Expand, Deficit, Padding, Wrap, Matches, Legal;
      hide Built;
      ArmedApart(ctxs[0]);
      forall i | 1 <= i < |ctxs|
        ensures Owned(owner, ctxs[i], i) && ctxs[i] !in ctxs[i].tasks.Repr && ctxs[i].Armed()
      {
        assert Done(t, info, owner, ctxs[i], i, calls);
        ArmedApart(ctxs[i]);
      }
    }

    /** Any number of rounds, each released and then, while it runs, rearmed for. */
    method Rounds(n: nat)
      requires Running() && Owed(0)
      modifies owner.Keys
      ensures ctxs == old(ctxs) && owner == old(owner)
      ensures Running() && Owed(0) && ctxs[0].bells == old(ctxs[0].bells) + n
      ensures n > 0 ==> ctxs[0].Told(Wrap(Span(ctxs[0].bells, ctxs[0].wqes)))
    {
      hide Running, QpCtx.Told, Span, Wrap;
      RunningApart();
      var k := 0;
      while k < n
        invariant k <= n && |ctxs| > 0 && ctxs == old(ctxs) && owner == old(owner)
        invariant Running() && Owed(0) && ctxs[0].bells == old(ctxs[0].bells) + k
      {
        Db();
        Rearm();
        k := k + 1;
      }
      ToldLast();
    }

    lemma {:induction false} ToldLast()
      requires Running()
      ensures |ctxs| > 0 && (ctxs[0].bells > 0 ==> ctxs[0].Told(Wrap(Span(ctxs[0].bells, ctxs[0].wqes))))
    {
    }
  }

  /** Numbers and send-queue size the device reports for one queue. */
  datatype Device = Device(qpn: nat, cqn: nat, scqn: nat, sqCnt: nat)

  /** The block is the least divisor of the queue that holds the work; there are at least two if it fills at most half. */
  ghost predicate Divided(n: Info, num: nat, sqCnt: nat) {
    LeastDivisorFrom(n.wqes, num, sqCnt) && (n.dups >= 2 <==> num <= sqCnt / 2)
  }

  /** Context `c` of queue `i` has nothing written yet. */
  ghost predicate Clean(t: Topology, owner: Owner, c: QpCtx, i: nat, n: Info)
    reads owner.Keys
  {
    && c.tasks in owner && Owned(owner, c, i) && c !in c.tasks.Repr && c.tasks in c.tasks.Repr
    && c.Recording() && Described(c, n) && (c.scq != null <==> HasScq(t, i))
    && c.log == [] && c.cmplCnt == 0 && (c.scq != null ==> c.scq.cmplCnt == 0)
    && c.Unrung()
  }

  lemma {:induction false} CleanGrows(t: Topology, owner: Owner, owner': Owner, c: QpCtx, i: nat, n: Info)
    requires Clean(t, owner, c, i, n)
    requires forall o :: o in owner && owner[o] == i ==> o in owner' && owner'[o] == i
    ensures Clean(t, owner', c, i, n) && c in owner'
  {
  }

  lemma {:induction false} CleanWritten(t: Topology, info: seq<Info>, owner: Owner, c: QpCtx, i: nat)
    requires i < |info| && Clean(t, owner, c, i, info[i])
    ensures WrittenBy(t, info, owner, c, i, [])
  {
  }

  lemma {:induction false} SameNumber(t: Topology, info: seq<Info>, owner: Owner, ctxs: seq<QpCtx>, ins: seq<Instr>)
    requires Replayed(t, info, owner, ctxs, ins)
    ensures |info| == |t| == |ctxs|
  {
  }

  /** Every queued closure names a slave queue, and its entry fits the block of the queue it is written to. */
  lemma {:induction false} Executable(t: Topology, info: seq<Info>, calls: seq<Call>, ins: seq<Instr>, x: Instr,
          rest: seq<Instr>)
    requires Legal(t, calls) && ins + [x] + rest == Expand(calls) && |info| == |t|
    requires forall q :: 0 <= q < |t| ==> Tallied(t, q, calls).wqe <= info[q].wqes
    ensures !x.Fin? && 1 <= x.q < |t| && (x.Emit? ==> x.op.Legal(t[x.q].kind))
    ensures forall q :: 0 <= q < |info| ==> CntOf(t, info, q, ins + [x]).w <= info[q].wqes
  {
    hide Run, Tallied, Legal;
    assert x in Expand(calls) by {
      assert (ins + [x] + rest)[|ins|] == x;
    }
    ExpandLegal(t, calls, x);
    forall q | 0 <= q < |info|
      ensures CntOf(t, info, q, ins + [x]).w <= info[q].wqes
    {
      Agreement(t, info[q].wqes, q, calls);
      ExpandHasNoFin(calls);
      RunGrows(t, info[q].wqes, q, ins + [x], rest);
    }
  }

  lemma {:induction false} ExpandLegal(t: Topology, calls: seq<Call>, x: Instr)
    requires Legal(t, calls) && x in Expand(calls)
    ensures !x.Fin? && 1 <= x.q < |t| && (x.Emit? ==> x.op.Legal(t[x.q].kind))
  {
    var front, c := calls[..|calls| - 1], calls[|calls| - 1];
    assert LegalCall(t, c);
    if x in Expand(front) {
      ExpandLegal(t, front, x);
    }
  }

  lemma {:induction false} RunGrows(t: Topology, b: nat, q: nat, x: seq<Instr>, y: seq<Instr>)
    requires Fin !in x + y
    ensures Run(t, b, q, ZERO, x).w <= Run(t, b, q, ZERO, x + y).w
  {
    if |y| > 0 {
      var i := y[|y| - 1];
      assert (x + y)[|x + y| - 1] == i;
      assert (x + y)[..|x + y| - 1] == x + y[..|y| - 1];
      RunGrows(t, b, q, x, y[..|y| - 1]);
    } else {
      assert x + y == x;
    }
  }

  lemma {:induction false} FirstThenRest(ins: seq<Instr>, iq: seq<Instr>)
    requires |iq| > 0
    ensures ins + [iq[0]] + iq[1..] == ins + iq
  {
  }

  /** Queue `q` is complete: every copy armed, its entries those recorded and then padding, its counters those recorded. */
  ghost predicate Done(t: Topology, info: seq<Info>, owner: Owner, c: QpCtx, q: nat, calls: seq<Call>)
    reads owner.Keys
  {
    var m := Tallied(t, q, calls);
    && c.tasks in owner && Owned(owner, c, q) && c.Armed() && c.Rung()
    && c.bells == 0 && (q > 0 ==> c.Unrung()) && c.rearms == Prearmed(c.dups)
    && Described(c, InfoAt(info, q)) && (c.scq != null <==> HasScq(t, q))
    && m.wqe <= c.wqes && c.log == LogOf(t, info, q, Expand(calls)) + Padding(c.wqes - m.wqe)
    && c.writeCnt == c.wqes && c.cmplCnt == Wrap(m.cqe)
    && (c.scq != null ==> c.scq.cmplCnt == Wrap(m.scqe + Deficit(q, calls)))
  }

  /** Queue `q` is complete and in use: armed for whatever rounds its rearms make it, rung for any number. */
  ghost predicate Live(t: Topology, info: seq<Info>, owner: Owner, c: QpCtx, q: nat, calls: seq<Call>)
    reads owner.Keys
  {
    var m := Tallied(t, q, calls);
    && c.tasks in owner && Owned(owner, c, q) && c.Armed() && c.Rung()
    && Described(c, InfoAt(info, q)) && (c.scq != null <==> HasScq(t, q))
    && m.wqe <= c.wqes && c.log == LogOf(t, info, q, Expand(calls)) + Padding(c.wqes - m.wqe)
    && c.writeCnt == c.wqes && c.cmplCnt == Wrap(m.cqe)
  }

  /** The first `k` queues are complete, the others replayed. */
  ghost predicate FinTo(t: Topology, info: seq<Info>, owner: Owner, c: QpCtx, q: nat, calls: seq<Call>, k: nat)
    reads owner.Keys
  {
    if q < k then Done(t, info, owner, c, q, calls) else WrittenBy(t, info, owner, c, q, Expand(calls))
  }

  method FinOne(ghost t: Topology, ghost info: seq<Info>, ghost owner: Owner, ctxs: seq<QpCtx>, ghost calls: seq<Call>,
                k: nat) returns (ghost owner': Owner)
    requires Wired(t) && Legal(t, calls) && Linked(t, ctxs) && k < |ctxs| == |info| && info[k].dups >= 2
    requires forall i :: 0 <= i < |ctxs| ==> FinTo(t, info, owner, ctxs[i], i, calls, k)
    modifies owner.Keys
    ensures Linked(t, ctxs)
    ensures forall i :: 0 <= i < |ctxs| ==> FinTo(t, info, owner', ctxs[i], i, calls, k + 1)
    ensures owner.Keys <= owner'.Keys && fresh(owner'.Keys - owner.Keys)
  {
    hide QpCtx.Recording, QpCtx.Armed, QpCtx.Unrung, LogOf, CntOf, Described, Tallied, Expand, Deficit, Padding, Wrap;
    hide Legal, HasScq, Prearmed;
    forall i | 0 <= i < |ctxs|
      ensures Owned(owner, ctxs[i], i) && ctxs[i].tasks in ctxs[i].tasks.Repr && ctxs[i] !in ctxs[i].tasks.Repr
    {
      PartsOf(t, info, owner, ctxs[i], i, calls, k);
    }
    WrittenCounts(t, info, owner, ctxs[k], k, calls);
    ctxs[k].Fin();
    NoneRung(ctxs[k]);
    owner' := owner + map o | o in ctxs[k].tasks.Repr :: k;
    assert Done(t, info, owner', ctxs[k], k, calls) by {
      assert old(WrittenBy(t, info, owner, ctxs[k], k, Expand(calls)));
    }
    forall i | 0 <= i < |ctxs| && i != k
      ensures FinTo(t, info, owner', ctxs[i], i, calls, k + 1)
    {
      assert old(FinTo(t, info, owner, ctxs[i], i, calls, k));
      if i > k {
        assert ctxs[i].Recording();
      } else {
        assert ctxs[i].Armed();
      }
    }
  }

  /** Record/replay agreement: after all closures the counters are those recorded. */
  lemma {:induction false} WrittenCounts(t: Topology, info: seq<Info>, owner: Owner, c: QpCtx, q: nat, calls: seq<Call>)
    requires Legal(t, calls) && WrittenBy(t, info, owner, c, q, Expand(calls))
    ensures var m := Tallied(t, q, calls);
      && c.Recording() && c.SendCq() !! c.tasks.Repr && c.dups == InfoAt(info, q).dups
      && Size(c.log) == m.wqe <= c.wqes && c.cmplCnt == Wrap(m.cqe)
      && (c.scq != null ==> c.scq.cmplCnt == Wrap(m.scqe + Deficit(q, calls)))
  {
    hide Tallied, Expand, Deficit, Run, Wrap;
    Agreement(t, InfoAt(info, q).wqes, q, calls);
  }

  lemma {:induction false} PartsOf(t: Topology, info: seq<Info>, owner: Owner, c: QpCtx, q: nat, calls: seq<Call>,
          k: nat)
    requires FinTo(t, info, owner, c, q, calls, k)
    ensures Owned(owner, c, q) && c.tasks in c.tasks.Repr && c !in c.tasks.Repr
  {
  }

  lemma {:induction false} NoneRung(c: QpCtx)
    requires c.Unrung()
    ensures c.Rung() && c.bells == 0
  {
  }

  lemma {:induction false} ArmedApart(c: QpCtx)
    requires c.Armed()
    ensures c !in c.tasks.Repr && c.Sized()
  {
  }

  lemma {:induction false} DoneCounts(t: Topology, info: seq<Info>, owner: Owner, c: QpCtx, q: nat, calls: seq<Call>)
    requires Done(t, info, owner, c, q, calls)
    ensures var m := Tallied(t, q, calls);
      && Size(LogOf(t, info, q, Expand(calls))) == m.wqe <= c.wqes
      && c.log == LogOf(t, info, q, Expand(calls)) + Padding(c.wqes - m.wqe)
      && c.cmplCnt == Wrap(m.cqe)
      && (c.scq != null ==> c.scq.cmplCnt == Wrap(m.scqe + Deficit(q, calls)))
  {
    hide QpCtx.Armed, Tallied, Deficit, Expand, LogOf, Padding, Size, Wrap, Owned;
    RecordedSize(c, LogOf(t, info, q, Expand(calls)), c.wqes - Tallied(t, q, calls).wqe);
  }

  lemma {:induction false} DoneFits(t: Topology, info: seq<Info>, owner: Owner, c: QpCtx, q: nat, calls: seq<Call>)
    requires q < |info| && Done(t, info, owner, c, q, calls)
    ensures Tallied(t, q, calls).wqe <= info[q].wqes
  {
  }

  lemma {:induction false} RecordedSize(c: QpCtx, log: seq<Wqe>, n: nat)
    requires c.Armed() && c.log == log + Padding(n)
    ensures Size(log) == c.wqes - n
  {
    PaddingIs(log, n);
  }

  /** The blocks of all queues. */
  function BlockSizes(info: seq<Info>): (blk: seq<nat>)
    ensures |blk| == |info| && forall i :: 0 <= i < |info| ==> blk[i] == info[i].wqes
  {
    if |info| == 0 then [] else BlockSizes(info[..|info| - 1]) + [info[|info| - 1].wqes]
  }

  lemma {:induction false} SelfConstructed(t: Topology, u: Topology, calls: seq<Call>, kind: Kind)
    requires Wired(t) && Legal(t, calls) && Built(t, calls) && (kind.Loopback? || kind.Doubling?)
    requires u == t + [Queue(kind, |t|)]
    ensures var more := calls + [Create(|t|)];
      && Wired(u) && Legal(u, more) && Built(u, more) && Expand(more) == Expand(calls) + [RecvEnable(|t|)]
      && Creations(more) == Creations(calls) + 1
  {
    assert Wired(u);
    hide *;
    TallyExtends(t, u, 0, calls);
    MoreCalls(u, calls, Create(|t|));
    BuiltFirst(t, calls);
    CreatedOne(t, u, calls);
    AdjacentOwn(t, kind);
    NowBuilt(u, calls + [Create(|t|)]);
  }

  lemma {:induction false} BuiltFirst(t: Topology, calls: seq<Call>)
    requires Wired(t) && Built(t, calls)
    ensures CreatedFirst(t, calls) && Adjacent(t)
  {
  }

  lemma {:induction false} NothingBuilt()
    ensures var t := [Queue(Management, 0)];
      && Wired(t) && Built(t, []) && Legal(t, []) && Tallied(t, 0, []) == Tally(0, 0, 0)
      && Expand([]) == [] && Creations([]) == 0
  {
    assert RingQueues([Queue(Management, 0)], 1) == RingQueues([Queue(Management, 0)], 0);
  }

  lemma {:induction false} NowBuilt(t: Topology, calls: seq<Call>)
    requires Wired(t) && CreatedFirst(t, calls) && Adjacent(t)
    ensures Built(t, calls)
  {
  }

  lemma {:induction false} BuiltStays(t: Topology, calls: seq<Call>, more: seq<Call>)
    requires Wired(t) && calls <= more && Built(t, calls)
    ensures Built(t, more)
  {
    hide Adjacent;
    CreatedStill(t, t, calls, more);
  }

  /** The tally of queue `q` after `k` more constructions. */
  function Grown(t: Topology, q: nat, calls: seq<Call>, k: nat): Tally {
    if q >= |t| then Tally(0, 0, 0)
    else if q == 0 then Tallied(t, q, calls).(wqe := Tallied(t, q, calls).wqe + k)
    else Tallied(t, q, calls)
  }

  lemma {:induction false} SelfTally(t: Topology, u: Topology, calls: seq<Call>, q: nat)
    requires Wired(t) && Legal(t, calls) && |t| > 0 && t <= u
    ensures Tallied(u, q, calls + [Create(|t|)]) == Grown(t, q, calls, 1)
  {
    hide Expand, Tallied, Legal, Wired;
    TallyExtends(t, u, q, calls);
    OneMore(u, q, calls, Create(|t|));
  }

  lemma {:induction false} PairConstructed(t: Topology, u: Topology, calls: seq<Call>)
    requires Wired(t) && Legal(t, calls) && Built(t, calls)
    requires u == t + [Queue(Ring, |t| + 1), Queue(Ring, |t|)]
    ensures var n := |t|;
      var more := calls + [Create(n)] + [Create(n + 1)];
      && Wired(u) && Legal(u, more) && Built(u, more)
      && Expand(more) == Expand(calls) + [RecvEnable(n)] + [RecvEnable(n + 1)]
      && Creations(more) == Creations(calls) + 2
  {
    hide *;
    BuiltFirst(t, calls);
    CreatedTwo(t, u, calls);
    AdjacentPair(t);
    PairRecorded(t, u, calls);
    NowBuilt(u, calls + [Create(|t|)] + [Create(|t| + 1)]);
  }

  lemma {:induction false} PairRecorded(t: Topology, u: Topology, calls: seq<Call>)
    requires Wired(t) && Legal(t, calls)
    requires u == t + [Queue(Ring, |t| + 1), Queue(Ring, |t|)]
    ensures var n := |t|;
      var more := calls + [Create(n)] + [Create(n + 1)];
      && Legal(u, more) && Expand(more) == Expand(calls) + [RecvEnable(n)] + [RecvEnable(n + 1)]
      && Creations(more) == Creations(calls) + 2
  {
    hide Expand, Tallied, Creations;
    var n := |t|;
    TallyExtends(t, u, 0, calls);
    MoreCalls(u, calls, Create(n));
    MoreCalls(u, calls + [Create(n)], Create(n + 1));
  }

  lemma {:induction false} PairTally(t: Topology, u: Topology, calls: seq<Call>, q: nat)
    requires Wired(t) && Legal(t, calls) && |t| > 0
    requires u == t + [Queue(Ring, |t| + 1), Queue(Ring, |t|)]
    ensures Tallied(u, q, calls + [Create(|t|)] + [Create(|t| + 1)])
         == Grown(t, q, calls, 2)
  {
    hide Expand, Tallied, Legal, Wired;
    TallyExtends(t, u, q, calls);
    OneMore(u, q, calls, Create(|t|));
    OneMore(u, q, calls + [Create(|t|)], Create(|t| + 1));
  }

  lemma {:induction false} CreatedStill(t: Topology, u: Topology, calls: seq<Call>, more: seq<Call>)
    requires Wired(t) && Wired(u) && t <= u && calls <= more && CreatedFirst(t, calls)
    ensures forall q :: 1 <= q < |t| ==> CreatedAt(u, more, q)
    ensures |t| == |u| ==> CreatedFirst(u, more)
  {
    forall q | 1 <= q < |t|
      ensures CreatedAt(u, more, q)
    {
      CreatedStays(t, u, calls, more, q);
    }
  }

  lemma {:induction false} CreatedOne(t: Topology, u: Topology, calls: seq<Call>)
    requires Wired(t) && Wired(u) && t <= u && |u| == |t| + 1 && Legal(t, calls) && CreatedFirst(t, calls)
    ensures CreatedFirst(u, calls + [Create(|t|)])
  {
    var n := |t|;
    CreatedStill(t, u, calls, calls + [Create(n)]);
    CreatedNow(t, u, calls, n);
  }

  lemma {:induction false} CreatedTwo(t: Topology, u: Topology, calls: seq<Call>)
    requires Wired(t) && Legal(t, calls) && CreatedFirst(t, calls)
    requires u == t + [Queue(Ring, |t| + 1), Queue(Ring, |t|)]
    ensures Wired(u) && CreatedFirst(u, calls + [Create(|t|)] + [Create(|t| + 1)])
  {
    var n := |t|;
    var one := calls + [Create(n)];
    var two := one + [Create(n + 1)];
    assert Wired(u) && t <= u && calls <= two;
    CreatedStill(t, u, calls, two);
    CreatedNow(t, u, calls, n);
    CreatedStays(u, u, one, two, n);
    SecondCreated(u, calls, n);
  }

  lemma {:induction false} SecondCreated(u: Topology, calls: seq<Call>, n: nat)
    requires Wired(u) && n + 1 < |u| && u[n + 1].pair == n && Legal(u[..n], calls)
    ensures CreatedAt(u, calls + [Create(n)] + [Create(n + 1)], n + 1)
  {
    var one := calls + [Create(n)];
    var two := one + [Create(n + 1)];
    NothingPosted(u[..n], calls, n);
    NothingPosted(u[..n], calls, n + 1);
    assert one[..|calls|] == calls && two[..|one|] == one && two[|one|] == Create(n + 1);
  }
}
