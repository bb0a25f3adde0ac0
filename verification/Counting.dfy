/** Counting calls in one recording and along the endless stream of its repetitions. */
module Counting {
  import opened Words
  import opened Program

  /** Which calls are counted: operations of a queue, those with a local completion, those recording misses. */
  datatype Pick = PostsOn(q: nat) | SignalsOn(q: nat) | UncountedOn(q: nat) {
    predicate Takes(c: Call) {
      && c.Post? && c.q == q
      && (SignalsOn? ==> c.op.Signalled())
      && (UncountedOn? ==> c.op.DoublingWriteCmpl?)
    }
  }

  function Num(f: Pick, calls: seq<Call>): nat {
    if |calls| == 0 then 0
    else Num(f, calls[..|calls| - 1]) + if f.Takes(calls[|calls| - 1]) then 1 else 0
  }

  /** Every queue is constructed, before anything is posted on it or on its pair. */
  ghost predicate CreatedFirst(t: Topology, calls: seq<Call>)
    requires Wired(t)
  {
    forall q :: 1 <= q < |t| ==> CreatedAt(t, calls, q)
  }

  /** The graph is put together in order: every queue is constructed before it is used, ring pairs side by side. */
  ghost predicate Built(t: Topology, calls: seq<Call>)
    requires Wired(t)
  {
    CreatedFirst(t, calls) && Adjacent(t)
  }

  ghost predicate CreatedAt(t: Topology, calls: seq<Call>, q: nat)
    requires Wired(t) && q < |t|
  {
    exists i :: 0 <= i < |calls| && calls[i] == Create(q)
      && Num(PostsOn(q), calls[..i]) == 0 && Num(PostsOn(t[q].pair), calls[..i]) == 0
  }

  lemma {:induction false} NothingPosted(t: Topology, calls: seq<Call>, q: nat)
    requires Legal(t, calls) && q >= |t|
    ensures Num(PostsOn(q), calls) == 0
  {
    if |calls| > 0 {
      NothingPosted(t, calls[..|calls| - 1], q);
      assert LegalCall(t, calls[|calls| - 1]);
    }
  }

  /** A queue once constructed stays so, whatever is registered and recorded later. */
  lemma {:induction false} CreatedStays(t: Topology, u: Topology, calls: seq<Call>, more: seq<Call>, q: nat)
    requires Wired(t) && Wired(u) && q < |t| <= |u| && u[..|t|] == t && calls <= more && CreatedAt(t, calls, q)
    ensures CreatedAt(u, more, q)
  {
    var i :| 0 <= i < |calls| && calls[i] == Create(q)
      && Num(PostsOn(q), calls[..i]) == 0 && Num(PostsOn(t[q].pair), calls[..i]) == 0;
    assert more[..i] == calls[..i] && more[i] == Create(q) && u[q] == t[q];
  }

  /** The queue registered and constructed last. */
  lemma {:induction false} CreatedNow(t: Topology, u: Topology, calls: seq<Call>, q: nat)
    requires Wired(u) && Legal(t, calls) && |t| <= q < |u| && u[q].pair >= |t|
    ensures CreatedAt(u, calls + [Create(q)], q)
  {
    var more := calls + [Create(q)];
    assert more[..|calls|] == calls;
    NothingPosted(t, calls, q);
    NothingPosted(t, calls, u[q].pair);
    assert more[|calls|] == Create(q);
  }

  /** The round that position `x` of the stream lies in. */
  function Round(calls: seq<Call>, x: nat): nat
    requires |calls| > 0
  {
    if x < |calls| then 0 else 1 + Round(calls, x - |calls|)
  }

  /** Where in that round it lies. */
  function Offset(calls: seq<Call>, x: nat): (i: nat)
    requires |calls| > 0
    ensures i < |calls|
  {
    if x < |calls| then x else Offset(calls, x - |calls|)
  }

  lemma {:induction false} PositionAt(calls: seq<Call>, k: nat, i: nat)
    requires i < |calls|
    ensures var x := k * |calls| + i; x >= 0 && Round(calls, x) == k && Offset(calls, x) == i
  {
    if k > 0 {
      PositionAt(calls, k - 1, i);
      Succ(k, |calls|);
    }
  }

  lemma {:induction false} Position(calls: seq<Call>, x: nat)
    requires |calls| > 0
    ensures x == Round(calls, x) * |calls| + Offset(calls, x)
  {
    if x >= |calls| {
      Position(calls, x - |calls|);
      Succ(Round(calls, x), |calls|);
    }
  }

  lemma {:induction false} RoundsOrdered(calls: seq<Call>, x: nat, y: nat)
    requires |calls| > 0 && x < y
    ensures Round(calls, x) < Round(calls, y)
      || (Round(calls, x) == Round(calls, y) && Offset(calls, x) < Offset(calls, y))
  {
    if x >= |calls| {
      RoundsOrdered(calls, x - |calls|, y - |calls|);
    }
  }

  /** The call at position `x` of the stream. */
  function At(calls: seq<Call>, x: nat): Call
    requires |calls| > 0
  {
    calls[Offset(calls, x)]
  }

  /** Calls satisfying `f` at positions below `x` of the stream. */
  function Along(f: Pick, calls: seq<Call>, x: nat): nat
    requires |calls| > 0
  {
    if x == 0 then 0 else Along(f, calls, x - 1) + if f.Takes(At(calls, x - 1)) then 1 else 0
  }

  lemma {:induction false} AlongNext(f: Pick, calls: seq<Call>, x: nat)
    requires |calls| > 0
    ensures Along(f, calls, x + 1) == Along(f, calls, x) + if f.Takes(At(calls, x)) then 1 else 0
  {
  }

  /** No call that `f` takes lies between `from` and `to`. */
  ghost predicate NoneFrom(f: Pick, calls: seq<Call>, from: nat, to: nat)
    requires |calls| > 0
  {
    forall p :: from <= p < to ==> !f.Takes(At(calls, p))
  }

  lemma {:induction false} AlongUpTo(f: Pick, calls: seq<Call>, x: nat, y: nat)
    requires |calls| > 0 && x <= y
    ensures Along(f, calls, x) <= Along(f, calls, y)
    ensures Along(f, calls, x) == Along(f, calls, y) ==> forall p :: x <= p < y ==> !f.Takes(At(calls, p))
    ensures forall p :: x <= p < y && f.Takes(At(calls, p)) ==> Along(f, calls, p) < Along(f, calls, y)
    decreases y
  {
    if x < y {
      AlongUpTo(f, calls, x, y - 1);
    }
  }

  /** The stream count in round `k` at offset `i`. */
  lemma {:induction false} AlongSplits(f: Pick, calls: seq<Call>, k: nat, i: nat)
    requires |calls| > 0 && i <= |calls|
    ensures Along(f, calls, k * |calls| + i) == k * Num(f, calls) + Num(f, calls[..i])
    decreases k, i
  {
    var n := |calls|;
    if i > 0 {
      AlongSplits(f, calls, k, i - 1);
      PositionAt(calls, k, i - 1);
      assert calls[..i][..i - 1] == calls[..i - 1];
    } else if k > 0 {
      AlongSplits(f, calls, k - 1, n);
      assert calls[..n] == calls;
      Succ(k, n);
      Succ(k, Num(f, calls));
    }
  }

  lemma {:induction false} AlongAt(f: Pick, calls: seq<Call>, x: nat)
    requires |calls| > 0
    ensures Along(f, calls, x) == Upto(f, calls, Round(calls, x), Offset(calls, x))
  {
    var k, i := Round(calls, x), Offset(calls, x);
    Position(calls, x);
    AlongSplits(f, calls, k, i);
  }

  /** The same count from whole recordings and a part of one. */
  function Upto(f: Pick, calls: seq<Call>, k: nat, i: nat): int
    requires i <= |calls|
  {
    k * Num(f, calls) + Num(f, calls[..i])
  }

  lemma {:induction false} AlongOnce(f: Pick, calls: seq<Call>)
    requires |calls| > 0
    ensures Along(f, calls, |calls|) == Num(f, calls)
  {
    AlongSplits(f, calls, 0, |calls|);
    assert calls[..|calls|] == calls;
  }

  /** The recorded tallies of a queue are counts of calls. */
  lemma {:induction false} TallyCounts(t: Topology, q: nat, calls: seq<Call>)
    requires Wired(t) && Legal(t, calls) && q < |t|
    ensures var m := Tallied(t, q, calls);
      && m.cqe == Num(PostsOn(Pair(t, q)), calls) + (if HasScq(t, q) then 0 else Num(SignalsOn(q), calls))
      && (HasScq(t, q) ==> m.scqe + Deficit(q, calls) == Num(SignalsOn(q), calls))
      && Deficit(q, calls) == Num(UncountedOn(q), calls)
  {
    if |calls| > 0 {
      var c := calls[|calls| - 1];
      TallyCounts(t, q, calls[..|calls| - 1]);
      assert LegalCall(t, c);
    }
  }

  /** The index a call's management WQE carries when first recorded, from the tallies before it. */
  function RecordedIndex(t: Topology, calls: seq<Call>, i: nat): int
    requires i < |calls|
  {
    var q := calls[i].q;
    var m := Tallied(t, q, calls[..i]);
    if calls[i].Create? then RECV_BASE
    else if calls[i].Post? then m.wqe + calls[i].op.Slots()
    else if calls[i].WaitSend? && HasScq(t, q) then m.scqe + Deficit(q, calls[..i]) - 1
    else m.cqe - 1
  }

  lemma {:induction false} FirstIndex(t: Topology, blk: seq<nat>, calls: seq<Call>, i: nat)
    requires Legal(t, calls) && i < |calls|
    ensures Rerecorded(t, blk, calls, 0, i) == RecordedIndex(t, calls, i)
  {
    hide Run, Expand, Tallied, Deficit, Pair;
    var c := calls[i];
    assert Stream(calls, 0) + Before(calls, i) == Before(calls, i);
    assert LegalCall(t, c);
    FirstCounters(t, Block(blk, c.q), calls, i);
  }

  /** The counters in the first round before the management WQE of call `i`. */
  lemma {:induction false} FirstCounters(t: Topology, b: nat, calls: seq<Call>, i: nat)
    requires Legal(t, calls) && i < |calls|
    ensures var c := calls[i];
      var n, m := Run(t, b, c.q, ZERO, Before(calls, i)), Tallied(t, c.q, calls[..i]);
      && n.c0 == 0
      && (!c.Post? ==> n == Cnt(m.wqe, m.cqe, m.scqe + Deficit(c.q, calls[..i]), 0, 0))
      && (c.Post? && c.q > 0 ==> n.w == m.wqe + c.op.Slots())
  {
    hide Run, Expand, Tallied, Deficit;
    var c := calls[i];
    Agreement(t, b, c.q, calls[..i]);
    if c.Post? {
      RunConcat(t, b, c.q, ZERO, Expand(calls[..i]), [Emit(c.q, c.op)]);
      RunFew(t, b, c.q, Run(t, b, c.q, ZERO, Expand(calls[..i])), [Emit(c.q, c.op)]);
    } else {
      assert Before(calls, i) == Expand(calls[..i]);
    }
  }

  /** The index the recycled ring holds at position `x` of the stream. */
  function IndexAt(t: Topology, blk: seq<nat>, calls: seq<Call>, x: nat): int
    requires |calls| > 0
  {
    Recycled(t, blk, calls, Round(calls, x), Offset(calls, x))
  }

  /** The call waits for the receive CQ of its queue. */
  predicate WaitsRecv(t: Topology, c: Call) {
    c.Wait? || (c.WaitSend? && !HasScq(t, c.q))
  }

  /** The call waits for the send CQ of its queue. */
  predicate WaitsSend(t: Topology, c: Call) {
    c.WaitSend? && HasScq(t, c.q)
  }

  lemma {:induction false} WaitInRound(t: Topology, blk: seq<nat>, calls: seq<Call>, k: nat, i: nat)
    requires Wired(t) && Legal(t, calls) && i < |calls| && WaitsRecv(t, calls[i])
    ensures var q := calls[i].q;
      Recycled(t, blk, calls, k, i) + 1
      == Upto(PostsOn(Pair(t, q)), calls, k, i) + if HasScq(t, q) then 0 else Upto(SignalsOn(q), calls, k, i)
  {
    var q := calls[i].q;
    assert LegalCall(t, calls[i]);
    FirstIndex(t, blk, calls, i);
    TallyCounts(t, q, calls);
    TallyCounts(t, q, calls[..i]);
    Spread(k, Tallied(t, q, calls).cqe, Num(PostsOn(Pair(t, q)), calls), Num(SignalsOn(q), calls));
  }

  lemma {:induction false} Spread(k: int, n: int, a: int, b: int)
    ensures n == a + b ==> k * n == k * a + k * b
    ensures n == a ==> k * n == k * a
  {
    Distribute(k, a, b);
  }

  /** A send-CQ wait is behind by the deficit of every earlier round. */
  lemma {:induction false} SendInRound(t: Topology, blk: seq<nat>, calls: seq<Call>, k: nat, i: nat)
    requires Wired(t) && Legal(t, calls) && i < |calls| && WaitsSend(t, calls[i])
    ensures var q := calls[i].q;
      Recycled(t, blk, calls, k, i) + 1 + k * Deficit(q, calls) == Upto(SignalsOn(q), calls, k, i)
  {
    var q := calls[i].q;
    assert LegalCall(t, calls[i]);
    FirstIndex(t, blk, calls, i);
    TallyCounts(t, q, calls);
    TallyCounts(t, q, calls[..i]);
    Spread(k, Num(SignalsOn(q), calls), Tallied(t, q, calls).scqe, Deficit(q, calls));
  }

  /** A wait names the last completion recorded before it, counted along the whole stream. */
  lemma {:induction false} WaitThreshold(t: Topology, blk: seq<nat>, calls: seq<Call>, x: nat)
    requires Wired(t) && Legal(t, calls) && |calls| > 0
    requires WaitsRecv(t, At(calls, x))
    ensures var q := At(calls, x).q;
      IndexAt(t, blk, calls, x) + 1
      == Along(PostsOn(Pair(t, q)), calls, x) + if HasScq(t, q) then 0 else Along(SignalsOn(q), calls, x)
  {
    var q := At(calls, x).q;
    WaitInRound(t, blk, calls, Round(calls, x), Offset(calls, x));
    AlongAt(PostsOn(Pair(t, q)), calls, x);
    AlongAt(SignalsOn(q), calls, x);
  }

  /** A send-CQ wait names exactly as many completions fewer than were recorded as recording missed in earlier rounds. */
  lemma {:induction false} SendShort(t: Topology, blk: seq<nat>, calls: seq<Call>, x: nat)
    requires Wired(t) && Legal(t, calls) && |calls| > 0
    requires WaitsSend(t, At(calls, x))
    ensures var q := At(calls, x).q;
      IndexAt(t, blk, calls, x) + 1 + Span(Round(calls, x), Deficit(q, calls)) == Along(SignalsOn(q), calls, x)
  {
    hide *;
    var q := At(calls, x).q;
    CallAt(calls, x);
    SendInRound(t, blk, calls, Round(calls, x), Offset(calls, x));
    IndexIs(t, blk, calls, x);
    SpanIs(Round(calls, x), Deficit(q, calls));
    AlongAt(SignalsOn(q), calls, x);
  }

  lemma {:induction false} CallAt(calls: seq<Call>, x: nat)
    requires |calls| > 0
    ensures At(calls, x) == calls[Offset(calls, x)]
  {
  }

  lemma {:induction false} IndexIs(t: Topology, blk: seq<nat>, calls: seq<Call>, x: nat)
    requires |calls| > 0
    ensures IndexAt(t, blk, calls, x) == Recycled(t, blk, calls, Round(calls, x), Offset(calls, x))
  {
  }

  /** A send-CQ wait never names more than was recorded, and exactly that unless its queue has uncounted writes. */
  lemma {:induction false} SendThreshold(t: Topology, blk: seq<nat>, calls: seq<Call>, x: nat)
    requires Wired(t) && Legal(t, calls) && |calls| > 0
    requires WaitsSend(t, At(calls, x))
    ensures var q := At(calls, x).q;
      && IndexAt(t, blk, calls, x) + 1 <= Along(SignalsOn(q), calls, x)
      && (!Uncounted(q, calls) ==> IndexAt(t, blk, calls, x) + 1 == Along(SignalsOn(q), calls, x))
  {
    hide *;
    var q, k := At(calls, x).q, Round(calls, x);
    SendShort(t, blk, calls, x);
    SpanIs(k, Deficit(q, calls));
    BlocksOrdered(k, k, Deficit(q, calls));
    DeficitBound(q, calls);
  }

  /** Waits for the receive CQ of one queue name completions in order, within a round and from round to round. */
  lemma {:induction false} WaitIndexGrows(t: Topology, blk: seq<nat>, calls: seq<Call>, x: nat, y: nat)
    requires Wired(t) && Legal(t, calls) && |calls| > 0 && x < y
    requires WaitsRecv(t, At(calls, x)) && WaitsRecv(t, At(calls, y)) && At(calls, x).q == At(calls, y).q
    ensures IndexAt(t, blk, calls, x) <= IndexAt(t, blk, calls, y)
  {
    hide IndexAt, Along;
    var q := At(calls, x).q;
    WaitThreshold(t, blk, calls, x);
    WaitThreshold(t, blk, calls, y);
    AlongUpTo(PostsOn(Pair(t, q)), calls, x, y);
    AlongUpTo(SignalsOn(q), calls, x, y);
  }

  /** Two waits of one recording for the send CQ of `q` are closer than the completions that one round adds. */
  ghost predicate WaitsClose(t: Topology, calls: seq<Call>, q: nat) {
    forall i, j :: 0 <= i <= j < |calls| && SendWaitOn(t, calls, q, i) && SendWaitOn(t, calls, q, j) ==>
      RecordedIndex(t, calls, j) <= RecordedIndex(t, calls, i) + Tallied(t, q, calls).scqe
  }

  predicate SendWaitOn(t: Topology, calls: seq<Call>, q: nat, i: nat)
    requires i < |calls|
  {
    WaitsSend(t, calls[i]) && calls[i].q == q
  }

  /** The same along the stream. */
  predicate SendWaitAt(t: Topology, calls: seq<Call>, q: nat, x: nat)
    requires |calls| > 0
  {
    SendWaitOn(t, calls, q, Offset(calls, x))
  }

  /** Waits for the send CQ of one queue name completions in order in every round if and only if no two waits of one
      recording are further apart than what recording counts for a round. (They can be only when the queue has
      writes that recording does not count.) */
  lemma {:induction false} SendWaitsOrdered(t: Topology, blk: seq<nat>, calls: seq<Call>, q: nat)
    requires Wired(t) && Legal(t, calls) && |calls| > 0
    ensures (forall x: nat, y: nat :: x < y && SendWaitAt(t, calls, q, x) && SendWaitAt(t, calls, q, y) ==>
               IndexAt(t, blk, calls, x) <= IndexAt(t, blk, calls, y))
      <==> WaitsClose(t, calls, q)
  {
    hide RecordedIndex, IndexAt, Recycled;
    var n := |calls|;
    if WaitsClose(t, calls, q) {
      forall x: nat, y: nat | x < y && SendWaitAt(t, calls, q, x) && SendWaitAt(t, calls, q, y)
        ensures IndexAt(t, blk, calls, x) <= IndexAt(t, blk, calls, y)
      {
        CloseOrdered(t, blk, calls, q, x, y);
      }
    } else {
      var i, j :| 0 <= i <= j < n && SendWaitOn(t, calls, q, i) && SendWaitOn(t, calls, q, j)
        && RecordedIndex(t, calls, j) > RecordedIndex(t, calls, i) + Tallied(t, q, calls).scqe;
      FarUnordered(t, blk, calls, q, i, j);
    }
  }

  lemma {:induction false} FarUnordered(t: Topology, blk: seq<nat>, calls: seq<Call>, q: nat, i: nat, j: nat)
    requires Legal(t, calls) && i <= j < |calls| && SendWaitOn(t, calls, q, i) && SendWaitOn(t, calls, q, j)
    requires RecordedIndex(t, calls, j) > RecordedIndex(t, calls, i) + Tallied(t, q, calls).scqe
    ensures var n := |calls|;
      && j < n + i && SendWaitAt(t, calls, q, j) && SendWaitAt(t, calls, q, n + i)
      && IndexAt(t, blk, calls, j) > IndexAt(t, blk, calls, n + i)
  {
    hide RecordedIndex, IndexAt, Tallied;
    assert Round(calls, j) == 0 && Offset(calls, j) == j;
    assert Round(calls, |calls| + i) == 1 + Round(calls, i) && Offset(calls, |calls| + i) == Offset(calls, i) == i;
    SendWaitIndex(t, blk, calls, q, j);
    SendWaitIndex(t, blk, calls, q, |calls| + i);
  }

  lemma {:induction false} SendWaitIndex(t: Topology, blk: seq<nat>, calls: seq<Call>, q: nat, x: nat)
    requires Legal(t, calls) && |calls| > 0 && SendWaitAt(t, calls, q, x)
    ensures IndexAt(t, blk, calls, x)
         == RecordedIndex(t, calls, Offset(calls, x)) + Round(calls, x) * Tallied(t, q, calls).scqe
  {
    hide RecordedIndex, Tallied;
    FirstIndex(t, blk, calls, Offset(calls, x));
  }

  lemma {:induction false} CloseOrdered(t: Topology, blk: seq<nat>, calls: seq<Call>, q: nat, x: nat, y: nat)
    requires Wired(t) && Legal(t, calls) && |calls| > 0 && WaitsClose(t, calls, q)
    requires x < y && SendWaitAt(t, calls, q, x) && SendWaitAt(t, calls, q, y)
    ensures IndexAt(t, blk, calls, x) <= IndexAt(t, blk, calls, y)
  {
    hide RecordedIndex, IndexAt, Tallied;
    var i, j := Offset(calls, x), Offset(calls, y);
    RoundsOrdered(calls, x, y);
    SendWaitIndex(t, blk, calls, q, x);
    SendWaitIndex(t, blk, calls, q, y);
    if i <= j {
      RecordedWaitsOrdered(t, calls, q, i, j);
    }
    BlocksOrdered(Round(calls, x), Round(calls, y), Tallied(t, q, calls).scqe);
  }

  lemma {:induction false} RecordedWaitsOrdered(t: Topology, calls: seq<Call>, q: nat, i: nat, j: nat)
    requires i <= j < |calls| && SendWaitOn(t, calls, q, i) && SendWaitOn(t, calls, q, j)
    ensures RecordedIndex(t, calls, i) <= RecordedIndex(t, calls, j)
  {
    hide Tallied, Deficit;
    SignalsGrow(t, q, calls[..j], i);
    assert calls[..j][..i] == calls[..i];
  }

  lemma {:induction false} SignalsGrow(t: Topology, q: nat, calls: seq<Call>, i: nat)
    requires i <= |calls|
    ensures Tallied(t, q, calls[..i]).scqe + Deficit(q, calls[..i]) <= Tallied(t, q, calls).scqe + Deficit(q, calls)
    decreases |calls|
  {
    if i < |calls| {
      SignalsGrow(t, q, calls[..|calls| - 1], i);
      assert calls[..|calls| - 1][..i] == calls[..i];
    } else {
      assert calls[..i] == calls;
    }
  }

  /** Without such writes they always are in order. */
  lemma {:induction false} CountedWaitsClose(t: Topology, calls: seq<Call>, q: nat)
    requires Legal(t, calls) && !Uncounted(q, calls)
    ensures WaitsClose(t, calls, q)
  {
    forall i, j | 0 <= i <= j < |calls| && SendWaitOn(t, calls, q, i) && SendWaitOn(t, calls, q, j)
      ensures RecordedIndex(t, calls, j) <= RecordedIndex(t, calls, i) + Tallied(t, q, calls).scqe
    {
      hide Tallied, Deficit;
      SignalsGrow(t, q, calls, j);
      DeficitBound(q, calls);
    }
  }

  // ---- A graph for which recycling goes wrong ----

  /** One doubling queue, constructed; `n` times its completion-signalled write and a wait for the send CQ. */
  function Doublings(n: nat): seq<Call> {
    if n == 0 then [Create(1)] else Doublings(n - 1) + [DoublingPost()] + [WaitSend(1)]
  }

  function DoublingPost(): Call {
    Call.Post(1, DoublingWriteCmpl([0, 0, 0, 0, 0, 0, 0, 0]))
  }

  const OneDoubling: Topology := [Queue(Management, 0), Queue(Doubling, 1)]

  /** Its recording is one the graph interface makes: legal, constructed first. No write is counted. */
  lemma {:induction false} DoublingsAre(n: nat)
    ensures |Doublings(n)| == 2 * n + 1 && Doublings(n)[0] == Create(1)
    ensures Wired(OneDoubling) && Legal(OneDoubling, Doublings(n))
    ensures Tallied(OneDoubling, 1, Doublings(n)).scqe == 0 && Deficit(1, Doublings(n)) == n
  {
    hide Tallied, Deficit, Wired, Expand;
    DoublingWired();
    if n == 0 {
      NothingYet(OneDoubling, 0, 1);
      assert [Create(1)] == [] + [Create(1)];
      OneMore(OneDoubling, 1, [], Create(1));
    } else {
      DoublingsAre(n - 1);
      OneMore(OneDoubling, 1, Doublings(n - 1), DoublingPost());
      OneMore(OneDoubling, 1, Doublings(n - 1) + [DoublingPost()], WaitSend(1));
    }
  }

  lemma {:induction false} DoublingWired()
    ensures Wired(OneDoubling) && LegalCall(OneDoubling, DoublingPost()) && LegalCall(OneDoubling, WaitSend(1))
  {
  }

  lemma {:induction false} DoublingsCreated(n: nat)
    ensures Wired(OneDoubling) && CreatedFirst(OneDoubling, Doublings(n))
  {
    DoublingsAre(n);
    var calls := Doublings(n);
    assert calls[..0] == [];
    assert CreatedAt(OneDoubling, calls, 1);
  }

  /** Its wait number `i` names completion `i` when recorded, and so is never early. */
  lemma {:induction false} DoublingWaits(n: nat, i: nat)
    requires i < n
    ensures |Doublings(n)| == 2 * n + 1 && SendWaitOn(OneDoubling, Doublings(n), 1, 2 * i + 2)
    ensures RecordedIndex(OneDoubling, Doublings(n), 2 * i + 2) == i
  {
    hide Tallied, Deficit, Wired, Legal;
    DoublingsAre(n);
    DoublingsAre(n - 1);
    var calls, front := Doublings(n), Doublings(n - 1);
    if i < n - 1 {
      DoublingWaits(n - 1, i);
      assert calls[..2 * i + 2] == front[..2 * i + 2] && calls[2 * i + 2] == front[2 * i + 2];
    } else {
      assert calls[..2 * i + 2] == front + [DoublingPost()];
      OneMore(OneDoubling, 1, front, DoublingPost());
    }
  }

  /** With such writes waits need not be in order: of two waits, the second names completion 1 in the first round, and
      the first names completion 0 in the second round again. */
  lemma {:induction false} WaitsFarApart()
    ensures Wired(OneDoubling) && Legal(OneDoubling, Doublings(2)) && CreatedFirst(OneDoubling, Doublings(2))
    ensures !WaitsClose(OneDoubling, Doublings(2), 1)
  {
    DoublingsAre(2);
    DoublingsCreated(2);
    DoublingWaits(2, 0);
    DoublingWaits(2, 1);
  }

  /** The recycled index of its wait is wrong from the second round on: it stays where re-recording moves on by one. */
  lemma {:induction false} RecycledStays(blk: seq<nat>, k: nat)
    ensures Wired(OneDoubling) && Legal(OneDoubling, Doublings(1)) && CreatedFirst(OneDoubling, Doublings(1))
    ensures |Doublings(1)| == 3
    ensures Recycled(OneDoubling, blk, Doublings(1), k, 2) == 0 && Rerecorded(OneDoubling, blk, Doublings(1), k, 2) == k
  {
    hide Rerecorded, Doublings, RecordedIndex, Deficit, Tallied;
    DoublingsAre(1);
    DoublingsCreated(1);
    DoublingWaits(1, 0);
    FirstIndex(OneDoubling, blk, Doublings(1), 2);
    RecyclingRerecords(OneDoubling, blk, Doublings(1), k, 2);
  }

  // ---- Send-enable indices ----

  lemma {:induction false} TallyGrows(t: Topology, q: nat, calls: seq<Call>, i: nat)
    requires i <= |calls|
    ensures Tallied(t, q, calls[..i]).wqe <= Tallied(t, q, calls).wqe
    decreases |calls|
  {
    if i < |calls| {
      TallyGrows(t, q, calls[..|calls| - 1], i);
      assert calls[..|calls| - 1][..i] == calls[..i];
    } else {
      assert calls[..i] == calls;
    }
  }

  /** Enable monotonicity: send-enable indices of one queue strictly increase along the stream,
      within a round and from round to round. */
  lemma {:induction false} SendIndexGrows(t: Topology, blk: seq<nat>, calls: seq<Call>, x: nat, y: nat)
    requires Legal(t, calls) && |calls| > 0 && x < y
    requires At(calls, x).Post? && At(calls, y).Post? && At(calls, x).q == At(calls, y).q
    requires Tallied(t, At(calls, x).q, calls).wqe <= Block(blk, At(calls, x).q)
    ensures 0 < IndexAt(t, blk, calls, x) < IndexAt(t, blk, calls, y)
  {
    RoundsOrdered(calls, x, y);
    RoundIndexGrows(t, blk, calls, Round(calls, x), Offset(calls, x), Round(calls, y), Offset(calls, y));
  }

  lemma {:induction false} RoundIndexGrows(t: Topology, blk: seq<nat>, calls: seq<Call>, k: nat, i: nat, l: nat, j: nat)
    requires Legal(t, calls) && i < |calls| && j < |calls| && (k < l || (k == l && i < j))
    requires calls[i].Post? && calls[j].Post? && calls[i].q == calls[j].q
    requires Tallied(t, calls[i].q, calls).wqe <= Block(blk, calls[i].q)
    ensures 0 < Recycled(t, blk, calls, k, i) < Recycled(t, blk, calls, l, j)
  {
    SendIndexInRound(t, blk, calls, i);
    SendIndexInRound(t, blk, calls, j);
    if k == l {
      SendIndexOrdered(t, blk, calls, i, j);
    }
    BlocksOrdered(k, l, Block(blk, calls[i].q));
  }

  lemma {:induction false} SendIndexInRound(t: Topology, blk: seq<nat>, calls: seq<Call>, i: nat)
    requires Legal(t, calls) && i < |calls| && calls[i].Post?
    ensures var q := calls[i].q;
      0 < Rerecorded(t, blk, calls, 0, i) == Tallied(t, q, calls[..i + 1]).wqe <= Tallied(t, q, calls).wqe
  {
    FirstIndex(t, blk, calls, i);
    assert LegalCall(t, calls[i]);
    assert calls[..i + 1][..i] == calls[..i];
    TallyGrows(t, calls[i].q, calls, i + 1);
  }

  lemma {:induction false} SendIndexOrdered(t: Topology, blk: seq<nat>, calls: seq<Call>, i: nat, j: nat)
    requires Legal(t, calls) && i < j < |calls| && calls[i].Post? && calls[j].Post? && calls[i].q == calls[j].q
    ensures Rerecorded(t, blk, calls, 0, i) < Rerecorded(t, blk, calls, 0, j)
  {
    SendIndexInRound(t, blk, calls, i);
    FirstIndex(t, blk, calls, j);
    TallyGrows(t, calls[i].q, calls[..j], i + 1);
    assert calls[..j][..i + 1] == calls[..i + 1];
  }

  /** The producer index of slave queue `q` after the first `x` management WQEs. */
  function SendReg(t: Topology, blk: seq<nat>, calls: seq<Call>, q: nat, x: nat): int
    requires |calls| > 0
  {
    if x == 0 then 0
    else if PostsOn(q).Takes(At(calls, x - 1)) then IndexAt(t, blk, calls, x - 1)
    else SendReg(t, blk, calls, q, x - 1)
  }

  lemma {:induction false} SendIndexPositive(t: Topology, blk: seq<nat>, calls: seq<Call>, k: nat, i: nat)
    requires Legal(t, calls) && i < |calls| && calls[i].Post?
    ensures 0 < Recycled(t, blk, calls, k, i)
  {
    SendIndexInRound(t, blk, calls, i);
    BlocksOrdered(k, k, Increment(t, blk, calls, i));
  }

  lemma {:induction false} SendIndexOrder(t: Topology, blk: seq<nat>, calls: seq<Call>, q: nat, y: nat, z: nat)
    requires Legal(t, calls) && |calls| > 0 && PostsOn(q).Takes(At(calls, y)) && PostsOn(q).Takes(At(calls, z))
    requires Tallied(t, q, calls).wqe <= Block(blk, q)
    ensures IndexAt(t, blk, calls, y) <= IndexAt(t, blk, calls, z) <==> y <= z
  {
    if y < z {
      SendIndexGrows(t, blk, calls, y, z);
    } else if y > z {
      SendIndexGrows(t, blk, calls, z, y);
    }
  }

  /** The producer index is that of the last send-enable executed. */
  lemma {:induction false} SendRegIsLast(t: Topology, blk: seq<nat>, calls: seq<Call>, q: nat, x: nat) returns (z: nat)
    requires |calls| > 0
    ensures z <= x && NoneFrom(PostsOn(q), calls, z, x)
    ensures z == 0 ==> SendReg(t, blk, calls, q, x) == 0
    ensures z > 0 ==> PostsOn(q).Takes(At(calls, z - 1)) && SendReg(t, blk, calls, q, x) == IndexAt(t, blk, calls, z - 1)
  {
    if x == 0 || PostsOn(q).Takes(At(calls, x - 1)) {
      z := x;
    } else {
      z := SendRegIsLast(t, blk, calls, q, x - 1);
    }
  }

  /** The producer index releases exactly the operations whose send-enable has been executed. */
  lemma {:induction false} SendRegReleases(t: Topology, blk: seq<nat>, calls: seq<Call>, q: nat, x: nat, y: nat)
    requires Legal(t, calls) && |calls| > 0 && PostsOn(q).Takes(At(calls, y))
    requires Tallied(t, q, calls).wqe <= Block(blk, q)
    ensures IndexAt(t, blk, calls, y) <= SendReg(t, blk, calls, q, x) <==> y < x
  {
    var z := SendRegIsLast(t, blk, calls, q, x);
    if z == 0 {
      SendIndexPositive(t, blk, calls, Round(calls, y), Offset(calls, y));
    } else {
      SendIndexOrder(t, blk, calls, q, y, z - 1);
    }
  }
}
