/** The data operations in memory: what the slave queues of a finished graph hold, and what the send-enables release. */
module Operations {
  import opened Words
  import opened Program
  import opened Counting
  import opened WqeLayout
  import opened Recycle
  import opened QpContext
  import opened Replay
  import opened CommGraph
  import opened Persistence

  // ---- Where the operation of a call lies ----

  lemma {:induction false} OpsUpTo(q: nat, calls: seq<Call>, i: nat)
    requires i < |calls| && calls[i].Post? && calls[i].q == q
    ensures var j := |Ops(q, calls[..i])|;
      j < |Ops(q, calls)| && Ops(q, calls)[j] == calls[i].op && Ops(q, calls)[..j] == Ops(q, calls[..i])
    decreases |calls|
  {
    var n := |calls| - 1;
    if i < n {
      OpsUpTo(q, calls[..n], i);
      assert calls[..n][..i] == calls[..i];
      var j := |Ops(q, calls[..i])|;
      assert Ops(q, calls)[..j] == Ops(q, calls[..n])[..j];
    }
  }

  lemma {:induction false} OpWqesUpTo(ops: seq<Op>, j: nat)
    requires j <= |ops|
    ensures |OpWqes(ops)| == |ops| && OpWqes(ops)[..j] == OpWqes(ops[..j])
    ensures j < |ops| ==> OpWqes(ops)[j] == OpWqe(ops[j])
  {
    hide OpWqe;
    var n := |ops| - 1;
    if j <= n {
      OpWqesUpTo(ops[..n], j);
      assert ops[..n][..j] == ops[..j];
      assert OpWqes(ops)[..j] == OpWqes(ops[..n])[..j];
    } else if n >= 0 {
      OpWqesUpTo(ops[..n], n);
      assert ops[..j] == ops && ops[..n][..n] == ops[..n];
      assert OpWqes(ops)[..j] == OpWqes(ops);
    }
  }

  /** The slots of the operations recorded so far are those counted. */
  lemma {:induction false} OpSlots(t: Topology, q: nat, calls: seq<Call>)
    requires Legal(t, calls) && q > 0
    ensures Size(OpWqes(Ops(q, calls))) == Tallied(t, q, calls).wqe
  {
    hide OpWqe, OpWqes, Ops, Tallied, Size;
    if |calls| > 0 {
      var n := |calls| - 1;
      var c := calls[n];
      assert LegalCall(t, c);
      OpSlots(t, q, calls[..n]);
      OneMoreOp(t, q, calls[..n], c);
      assert calls[..n] + [c] == calls;
    } else {
      NoOps(t, q);
    }
  }

  lemma {:induction false} NoOps(t: Topology, q: nat)
    ensures Size(OpWqes(Ops(q, []))) == 0 == Tallied(t, q, []).wqe
  {
  }

  lemma {:induction false} OneMoreOp(t: Topology, q: nat, calls: seq<Call>, c: Call)
    requires LegalCall(t, c) && q > 0
    ensures Size(OpWqes(Ops(q, calls + [c]))) - Size(OpWqes(Ops(q, calls)))
         == Tallied(t, q, calls + [c]).wqe - Tallied(t, q, calls).wqe
  {
    hide OpWqe;
    var ops := Ops(q, calls);
    OneMore(t, q, calls, c);
    assert (calls + [c])[..|calls|] == calls;
    if c.Post? && c.q == q {
      OpWqesMore(ops, c.op);
      SizeMore(OpWqes(ops), OpWqe(c.op));
      OpWqeFits(c.op);
    } else {
      assert ops + [] == ops;
    }
  }

  /** The entries of queue `q`, and the place of the one for call `i` among them. */
  lemma {:induction false} EntryOfCall(t: Topology, info: seq<Info>, q: nat, calls: seq<Call>, i: nat, pad: nat)
    requires Legal(t, calls) && q > 0 && i < |calls| && calls[i].Post? && calls[i].q == q
    ensures var log, j := LogOf(t, info, q, Expand(calls)) + Padding(pad), |Ops(q, calls[..i])|;
      j < |log| && log[j] == OpWqe(calls[i].op) && Size(log[..j]) == Tallied(t, q, calls[..i]).wqe
  {
    hide LogOf, OpWqe, OpWqes, Tallied, Padding, Size, Ops;
    var ops, j := Ops(q, calls), |Ops(q, calls[..i])|;
    SlaveEntries(t, info, q, calls);
    OpsUpTo(q, calls, i);
    OpWqesUpTo(ops, j);
    OpSlots(t, q, calls[..i]);
    assert (OpWqes(ops) + Padding(pad))[..j] == OpWqes(ops)[..j];
  }

  // ---- Reading it ----

  lemma {:induction false} OpInCopy(buf: seq<Word>, start: nat, n: nat, base: nat, qpn: nat, op: Op)
    requires start + n <= |buf| && OpAt(buf[start..start + n], base, qpn, op)
    ensures OpAt(buf, start + base, qpn, op)
  {
    if !op.SendCredit? {
      SliceOfSlice(buf, start, n, base + 4, |op.words|);
    }
  }

  lemma {:induction false} SliceOfSlice(buf: seq<Word>, start: nat, n: nat, base: nat, k: nat)
    requires start + n <= |buf| && base + k <= n
    ensures buf[start..start + n][base..base + k] == buf[start + base..start + base + k]
  {
    var copy := buf[start..start + n];
    assert forall j :: base <= j < base + k ==> copy[j] == buf[start + j];
  }

  /** A copy armed for any round holds operations as they were written: nothing in them is bumped. */
  lemma {:induction false} OpInRound(copy: seq<Word>, qpn: nat, log: seq<Wqe>, k: nat, j: nat, op: Op)
    requires j < |log| && log[j] == OpWqe(op) && Laid(copy, qpn, Advanced(log, k))
    ensures OpAt(copy, 16 * Size(log[..j]), qpn, op)
  {
    hide Laid, Advanced, Size, OpAt, Head;
    AdvancedAt(log, k, j);
    AlikeFirst(log, k);
    SizeAlike(Advanced(log, k), log, j);
    LaidAt(copy, qpn, Advanced(log, k), j);
    OpReads(copy, 16 * Size(log[..j]), Size(log[..j]), qpn, op);
  }

  /** Every copy of an armed slave queue holds the operation of every call, at the slot counted when it was recorded. */
  lemma {:induction false} CopyHolds(t: Topology, info: seq<Info>, c: QpCtx, q: nat, calls: seq<Call>, pad: nat,
          copy: nat, i: nat)
    requires Legal(t, calls) && q > 0 && c.Armed() && c.log == LogOf(t, info, q, Expand(calls)) + Padding(pad)
    requires copy < c.dups && i < |calls| && calls[i].Post? && calls[i].q == q
    ensures OpAt(c.sq[..], Span(copy, c.offset) + 16 * Tallied(t, q, calls[..i]).wqe, c.qpn, calls[i].op)
  {
    hide LogOf, OpWqe, Tallied, Padding, Size, Ops, OpAt, Laid, Advanced, Span, c.Kept;
    EntryOfCall(t, info, q, calls, i, pad);
    assert Holds(c.sq[..], copy, c.dups, c.offset, c.qpn, c.log, c.rearms);
    OpInRound(CopyOf(c.sq[..], copy, c.offset), c.qpn, c.log, ArmedFor(copy, c.rearms, c.dups), |Ops(q, calls[..i])|,
              calls[i].op);
    OpInCopy(c.sq[..], Span(copy, c.offset), c.offset, 16 * Tallied(t, q, calls[..i]).wqe, c.qpn, calls[i].op);
  }

  lemma {:induction false} SlaveDone(g: CommGraph, q: nat)
    requires g.Running() && 1 <= q < |g.t|
    ensures q < |g.ctxs| && |g.ctxs| == |g.info| == |g.t| && Legal(g.t, g.calls)
    ensures var c := g.ctxs[q];
      && c.Armed() && c.Sized() && c.qpn == g.info[q].qpn && c.wqes == g.info[q].wqes
      && c.log == LogOf(g.t, g.info, q, Expand(g.calls)) + Padding(c.wqes - Tallied(g.t, q, g.calls).wqe)
      && Tallied(g.t, q, g.calls).wqe <= c.wqes
  {
    hide QpCtx.Armed, LogOf, Tallied, Expand, Padding, Owned, QpCtx.Sized;
    var c := g.ctxs[q];
    assert Done(g.t, g.info, g.owner, c, q, g.calls);
    ArmedApart(c);
  }

  /** The data path in memory. In a finished graph, used any number of times, every copy of every slave queue holds the
      operation of every call, with its opcode, modifier, queue, flags, length and segments, behind those recorded
      before it. */
  lemma {:induction false} SlaveHolds(g: CommGraph, copy: nat, i: nat)
    requires g.Running() && i < |g.calls| && g.calls[i].Post?
    ensures 1 <= g.calls[i].q < |g.ctxs| && |g.info| == |g.ctxs|
    ensures var q, c := g.calls[i].q, g.ctxs[g.calls[i].q];
      copy < c.dups ==>
        OpAt(c.sq[..], Span(copy, c.offset) + 16 * Tallied(g.t, q, g.calls[..i]).wqe, g.info[q].qpn, g.calls[i].op)
  {
    hide *;
    var q := g.calls[i].q;
    CallNamed(g, i);
    SlaveDone(g, q);
    if copy < g.ctxs[q].dups {
      CopyHolds(g.t, g.info, g.ctxs[q], q, g.calls, g.ctxs[q].wqes - Tallied(g.t, q, g.calls).wqe, copy, i);
    }
  }

  lemma {:induction false} CallNamed(g: CommGraph, i: nat)
    requires g.Running() && i < |g.calls|
    ensures 1 <= g.calls[i].q < |g.t|
  {
    assert LegalCall(g.t, g.calls[i]);
  }

  // ---- What a send-enable releases ----

  /** The slot that ends with the index of call `i` in round `k`, on a ring of `d` blocks. */
  lemma {:induction false} EnabledSlot(t: Topology, blk: seq<nat>, calls: seq<Call>, k: nat, i: nat, d: nat, n: nat)
    requires Legal(t, calls) && i < |calls| && calls[i].Post? && d > 0
    requires var b := Block(blk, calls[i].q); b > 0 && Span(d, b) == n
    requires Tallied(t, calls[i].q, calls).wqe <= Block(blk, calls[i].q)
    ensures var b, w := Block(blk, calls[i].q), Tallied(t, calls[i].q, calls[..i]).wqe;
      (Recycled(t, blk, calls, k, i) - calls[i].op.Slots()) % n == Span(k % d, b) + w
  {
    hide Tallied, Span;
    var b, w := Block(blk, calls[i].q), Tallied(t, calls[i].q, calls[..i]).wqe;
    assert LegalCall(t, calls[i]);
    FirstIndex(t, blk, calls, i);
    SendIndexInRound(t, blk, calls, i);
    SpanIs(k, b);
    SpanMod(k, d, b, w);
  }

  /** Each send-enable releases the operation it was recorded for. In every round, the entry that ends where the 32-bit
      index in the send-enable of call `i` points, modulo the ring, is the operation of call `i`, on the queue that the
      send-enable names. */
  lemma {:induction false} EnabledIsOp(g: CommGraph, k: nat, i: nat)
    requires g.Running() && i < |g.calls| && g.calls[i].Post?
    ensures 1 <= g.calls[i].q < |g.ctxs| && |g.info| == |g.ctxs|
    ensures var q, c, op := g.calls[i].q, g.ctxs[g.calls[i].q], g.calls[i].op;
      var index := Wrap(Recycled(g.t, BlockSizes(g.info), g.calls, k, i));
      && c.sqCnt > 0
      && OpAt(c.sq[..], 16 * ((index - op.Slots()) % c.sqCnt), g.info[q].qpn, op)
      && NumberOf(g.t, g.info, g.calls[i]) == g.info[q].qpn
  {
    hide *;
    var q := g.calls[i].q;
    CallNamed(g, i);
    SlaveDone(g, q);
    var c, blk := g.ctxs[q], BlockSizes(g.info);
    var w, index := Tallied(g.t, q, g.calls[..i]).wqe, Recycled(g.t, blk, g.calls, k, i);
    RingSize(c);
    assert Block(blk, q) == c.wqes by {
      BlockIs(blk, q);
    }
    EnabledSlot(g.t, blk, g.calls, k, i, c.dups, c.sqCnt);
    SameSlot(index, g.calls[i].op.Slots(), c.sqCnt);
    SlaveHolds(g, k % c.dups, i);
    SpanScale(k % c.dups, c.wqes);
    NamesQueue(g.t, g.info, g.calls[i]);
  }

  lemma {:induction false} RingSize(c: QpCtx)
    requires c.Sized()
    ensures c.dups > 0 && c.wqes > 0 && c.sqCnt > 0 && Span(c.dups, c.wqes) == c.sqCnt && c.offset == 16 * c.wqes
    ensures LIMIT % c.sqCnt == 0
  {
    assert c.dups > 0 && c.wqes > 0;
    hide Span;
    DividesLimit(c.sqCnt);
  }

  lemma {:induction false} BlockIs(blk: seq<nat>, q: nat)
    requires q < |blk|
    ensures Block(blk, q) == blk[q]
  {
  }

  lemma {:induction false} NamesQueue(t: Topology, info: seq<Info>, c: Call)
    requires c.Post? && c.q < |info|
    ensures NumberOf(t, info, c) == info[c.q].qpn
  {
  }

  /** Cutting an index to 32 bits does not move its slot. */
  lemma {:induction false} SameSlot(index: int, slots: nat, n: nat)
    requires n > 0 && LIMIT % n == 0
    ensures (Wrap(index) - slots) % n == (index - slots) % n
  {
    var q, m := index / LIMIT, LIMIT / n;
    assert Wrap(index) - slots == index - slots + -q * m * n by {
      assert index == q * LIMIT + Wrap(index);
      assert LIMIT == m * n;
      MulAssoc(-q, m, n);
    }
    ModShift(index - slots, -q * m, n);
  }

  // ---- Which entries ask for a completion ----

  /** The device reads a request for a completion in the entry at word `base`. */
  predicate Asks(buf: seq<Word>, base: nat) {
    base + 4 <= |buf| && Read(buf[base + 2]) == 8
  }

  /** How many of the operations recorded on queue `q` by `calls` do, in the copy from word `start` on. */
  function Asking(t: Topology, q: nat, buf: seq<Word>, start: nat, calls: seq<Call>): nat {
    if |calls| == 0 then 0
    else
      var front, c := calls[..|calls| - 1], calls[|calls| - 1];
      Asking(t, q, buf, start, front)
      + if c.Post? && c.q == q && Asks(buf, start + 16 * Tallied(t, q, front).wqe) then 1 else 0
  }

  /** The completions that the running graph counts on for a send CQ are those that the entries in memory ask for, up to
      any call. */
  lemma {:induction false} AskedIsCounted(g: CommGraph, q: nat, copy: nat, i: nat)
    requires g.Running() && 1 <= q < |g.ctxs| && copy < g.ctxs[q].dups && i <= |g.calls|
    ensures var c := g.ctxs[q];
      Asking(g.t, q, c.sq[..], Span(copy, c.offset), g.calls[..i]) == Num(SignalsOn(q), g.calls[..i])
  {
    hide *;
    if i > 0 {
      AskedIsCounted(g, q, copy, i - 1);
      var front, c := g.calls[..i - 1], g.calls[i - 1];
      if c.Post? && c.q == q {
        SlaveHolds(g, copy, i - 1);
        AsksIff(g.ctxs[q].sq[..], Span(copy, g.ctxs[q].offset) + 16 * Tallied(g.t, q, front).wqe, g.info[q].qpn, c.op);
      }
      OneMoreAsks(g.t, q, g.ctxs[q].sq[..], Span(copy, g.ctxs[q].offset), front, c);
      assert g.calls[..i] == front + [c];
    } else {
      NoneAsks(g.t, q, g.ctxs[q].sq[..], Span(copy, g.ctxs[q].offset));
    }
  }

  lemma {:induction false} AsksIff(buf: seq<Word>, base: nat, qpn: nat, op: Op)
    requires OpAt(buf, base, qpn, op)
    ensures Asks(buf, base) <==> op.Signalled()
  {
  }

  lemma {:induction false} OneMoreAsks(t: Topology, q: nat, buf: seq<Word>, start: nat, calls: seq<Call>, c: Call)
    ensures Asking(t, q, buf, start, calls + [c]) == Asking(t, q, buf, start, calls)
      + if c.Post? && c.q == q && Asks(buf, start + 16 * Tallied(t, q, calls).wqe) then 1 else 0
    ensures Num(SignalsOn(q), calls + [c]) == Num(SignalsOn(q), calls)
      + if c.Post? && c.q == q && c.op.Signalled() then 1 else 0
  {
    assert (calls + [c])[..|calls|] == calls;
  }

  lemma {:induction false} NoneAsks(t: Topology, q: nat, buf: seq<Word>, start: nat)
    ensures Asking(t, q, buf, start, []) == 0 && Num(SignalsOn(q), []) == 0
  {
  }
}
