/** Waits on 32-bit indices: how far an awaited completion and those produced can be apart, and why comparing the two
    serially, modulo 2^32, decides as comparing unbounded numbers does. */
module Serial {
  import opened Words
  import opened Program
  import opened Counting
  import opened Fabric
  import opened Dependency

  /** Completion `index` is among the `produced` first, as far as 32 bits can tell. */
  predicate Came(index: Word, produced: Word) {
    0 < Wrap(produced - index) < 0x8000_0000
  }

  /** Numbers less than 2^31 apart compare serially as they do unbounded; from there to 2^32, completions that have come
      look as if they had not. */
  lemma {:induction false} CameIff(index: int, produced: int)
    requires -0x8000_0000 < produced - index <= LIMIT
    ensures Came(Wrap(index), Wrap(produced)) <==> index < produced < index + 0x8000_0000
  {
    hide Wrap;
    WrapDifference(produced, index);
    WrapSmall(produced - index);
  }

  lemma {:induction false} WrapDifference(a: int, b: int)
    ensures Wrap(Wrap(a) - Wrap(b)) == Wrap(a - b)
  {
    var p, q := a / LIMIT, b / LIMIT;
    assert a == p * LIMIT + Wrap(a) && b == q * LIMIT + Wrap(b);
    assert a - b + (q - p) * LIMIT == Wrap(a) - Wrap(b);
    ModShift(a - b, q - p, LIMIT);
  }

  lemma {:induction false} WrapSmall(d: int)
    requires -0x8000_0000 < d <= LIMIT
    ensures Wrap(d) == if d < 0 then d + LIMIT else if d < LIMIT then d else 0
  {
    var q := if d < 0 then -1 else if d < LIMIT then 0 else 1;
    ModUnique(d, LIMIT, q, d - q * LIMIT);
  }

  /** If nothing is left in between, nothing is missing. */
  lemma {:induction false} NothingMissing(f: Pick, calls: seq<Call>, from: nat, x: nat)
    requires |calls| > 0 && NoneFrom(f, calls, from, x)
    ensures Along(f, calls, x) <= Along(f, calls, from)
    decreases x
  {
    if from < x {
      assert !f.Takes(At(calls, x - 1));
      NothingMissing(f, calls, from, x - 1);
    } else {
      AlongUpTo(f, calls, x, from);
    }
  }

  /** Positions one round apart. */
  lemma {:induction false} RoundBefore(t: Topology, blk: seq<nat>, calls: seq<Call>, x: nat)
    requires |calls| > 0 && x >= |calls|
    ensures var before := x - |calls|;
      && At(calls, before) == At(calls, x) && Round(calls, x) == Round(calls, before) + 1
      && IndexAt(t, blk, calls, x) == IndexAt(t, blk, calls, before) + Increment(t, blk, calls, Offset(calls, x))
  {
    hide Rerecorded, Increment;
    var i := Offset(calls, x);
    Succ(Round(calls, x), Increment(t, blk, calls, i));
  }

  lemma {:induction false} FirstRound(f: Pick, calls: seq<Call>, x: nat)
    requires |calls| > 0 && x < |calls|
    ensures Along(f, calls, x) <= Num(f, calls)
  {
    AlongUpTo(f, calls, x, |calls|);
    AlongOnce(f, calls);
  }

  /** No wait is more than one round of completions ahead of those produced. */
  lemma {:induction false} RecvBehind(y: Sys, s: State, r: nat)
    requires Sound(y) && Shaped(y, s) && Inv(y, s) && r < y.Ranks() && WaitsRecv(y.t, At(y.calls, s.pc[r]))
    ensures var x := s.pc[r]; var q := At(y.calls, x).q;
      q < |y.t| && IndexAt(y.t, y.blk, y.calls, x) + 1 <= Produced(y, s, r, q) + Tallied(y.t, q, y.calls).cqe
  {
    hide IndexAt, Along, Num, Tallied, RecvReg, Deficit;
    var x, n := s.pc[r], |y.calls|;
    var q := At(y.calls, x).q;
    assert LegalCall(y.t, y.calls[Offset(y.calls, x)]);
    var p := Pair(y.t, q);
    WaitThreshold(y.t, y.blk, y.calls, x);
    TallyCounts(y.t, q, y.calls);
    if x < n {
      FirstRound(PostsOn(p), y.calls, x);
      FirstRound(SignalsOn(q), y.calls, x);
    } else {
      RecvRoundBefore(y.t, y.blk, y.calls, x);
      assert Met(y, s, r, x - n);
      NothingMissing(PostsOn(p), y.calls, s.cur[y.nbr[r][q]][p].dl, x - n);
      if !HasScq(y.t, q) {
        NothingMissing(SignalsOn(q), y.calls, s.cur[r][q].ak, x - n);
      }
    }
  }

  lemma {:induction false} RecvRoundBefore(t: Topology, blk: seq<nat>, calls: seq<Call>, x: nat)
    requires Wired(t) && Legal(t, calls) && |calls| > 0 && x >= |calls| && WaitsRecv(t, At(calls, x))
    ensures var before, q := x - |calls|, At(calls, x).q;
      && At(calls, before) == At(calls, x)
      && IndexAt(t, blk, calls, x) == IndexAt(t, blk, calls, before) + Tallied(t, q, calls).cqe
      && IndexAt(t, blk, calls, before) + 1
         == Along(PostsOn(Pair(t, q)), calls, before) + if HasScq(t, q) then 0 else Along(SignalsOn(q), calls, before)
  {
    hide IndexAt, Along, Num, Tallied, Deficit;
    RoundBefore(t, blk, calls, x);
    WaitThreshold(t, blk, calls, x - |calls|);
  }

  /** No CQ is more than the first credit ahead of the wait for it. */
  lemma {:induction false} RecvAhead(y: Sys, s: State, r: nat)
    requires Sound(y) && Shaped(y, s) && Inv(y, s) && r < y.Ranks() && WaitsRecv(y.t, At(y.calls, s.pc[r]))
    ensures var x := s.pc[r]; var q := At(y.calls, x).q;
      q < |y.t| && Produced(y, s, r, q) <= IndexAt(y.t, y.blk, y.calls, x) + 1 + RECV_BASE
  {
    var x := s.pc[r];
    var q := At(y.calls, x).q;
    assert LegalCall(y.t, y.calls[Offset(y.calls, x)]);
    var p := Pair(y.t, q);
    WaitThreshold(y.t, y.blk, y.calls, x);
    if HasScq(y.t, q) {
      var far := y.nbr[r][q];
      assert Ordered(y, s, far, p);
      RecvRegBound(y, r, q, x);
      TallyCounts(y.t, q, y.calls);
      AlongAt(PostsOn(p), y.calls, x);
    } else {
      assert Ordered(y, s, r, q);
      AlongUpTo(PostsOn(q), y.calls, s.cur[r][q].dl, x);
      AlongUpTo(SignalsOn(q), y.calls, s.cur[r][q].ak, x);
    }
  }

  /** The same for a send CQ: one round behind, and ahead by exactly what recording missed at most. */
  lemma {:induction false} SendBetween(y: Sys, s: State, r: nat)
    requires Sound(y) && Shaped(y, s) && Inv(y, s) && r < y.Ranks() && WaitsSend(y.t, At(y.calls, s.pc[r]))
    ensures var x := s.pc[r]; var q := At(y.calls, x).q;
      && q < |y.t|
      && IndexAt(y.t, y.blk, y.calls, x) + 1 <= SendProduced(y, s, r, q) + Num(SignalsOn(q), y.calls)
      && SendProduced(y, s, r, q) <= IndexAt(y.t, y.blk, y.calls, x) + 1 + Shortfall(y, q, x)
  {
    hide IndexAt, Along, Num, Tallied, RecvReg, Deficit;
    var x := s.pc[r];
    var q := At(y.calls, x).q;
    assert LegalCall(y.t, y.calls[Offset(y.calls, x)]);
    SendShort(y.t, y.blk, y.calls, x);
    assert Ordered(y, s, r, q);
    AlongUpTo(SignalsOn(q), y.calls, s.cur[r][q].ak, x);
    if x < |y.calls| {
      FirstRound(SignalsOn(q), y.calls, x);
    } else {
      SendRoundBefore(y.t, y.blk, y.calls, x);
      assert Met(y, s, r, x - |y.calls|);
    }
  }

  lemma {:induction false} SendRoundBefore(t: Topology, blk: seq<nat>, calls: seq<Call>, x: nat)
    requires Wired(t) && Legal(t, calls) && |calls| > 0 && x >= |calls| && WaitsSend(t, At(calls, x))
    ensures var before, q := x - |calls|, At(calls, x).q;
      && At(calls, before) == At(calls, x)
      && IndexAt(t, blk, calls, x) <= IndexAt(t, blk, calls, before) + Num(SignalsOn(q), calls)
      && IndexAt(t, blk, calls, before) + 1 + Span(Round(calls, before), Deficit(q, calls)) == Along(SignalsOn(q), calls, before)
  {
    hide IndexAt, Along, Num, Tallied, Deficit;
    var q := At(calls, x).q;
    assert LegalCall(t, calls[Offset(calls, x)]);
    RoundBefore(t, blk, calls, x);
    SendShort(t, blk, calls, x - |calls|);
    TallyCounts(t, q, calls);
  }

  /** Completions produced on the CQ that the next management entry of rank `r` waits for. */
  function Count(y: Sys, s: State, r: nat): nat
    requires Sound(y) && Shaped(y, s) && r < y.Ranks() && At(y.calls, s.pc[r]).q < |y.t|
  {
    var c := At(y.calls, s.pc[r]);
    if WaitsSend(y.t, c) then SendProduced(y, s, r, c.q) else Produced(y, s, r, c.q)
  }

  /** In every reachable state, comparing the 32-bit index in memory serially with a 32-bit count of completions lets the
      next wait of a rank pass exactly when the model of the running graph does, as long as the count is less than 2^31
      ahead. It always is, if one round and the first credit complete less than 2^31, except for the send CQ of a queue
      with uncounted writes, where the count runs away from the index; once it is 2^31 ahead, the wait that should pass
      does not. */
  lemma {:induction false} SerialDecides(y: Sys, steps: seq<Step>, s: State, r: nat)
    requires Sound(y) && Shaped(y, Start(y)) && Reaches(y, Start(y), steps, s) && Shaped(y, s) && r < y.Ranks()
    requires var q := At(y.calls, s.pc[r]).q;
      q < |y.t| && Tallied(y.t, q, y.calls).cqe + Num(SignalsOn(q), y.calls) < 0x8000_0000 - RECV_BASE - 1
    requires WaitsRecv(y.t, At(y.calls, s.pc[r])) || WaitsSend(y.t, At(y.calls, s.pc[r]))
    ensures var c, index := At(y.calls, s.pc[r]), IndexAt(y.t, y.blk, y.calls, s.pc[r]);
      var ahead, came := Count(y, s, r) - index, Came(Wrap(index), Wrap(Count(y, s, r)));
      && (WaitsRecv(y.t, c) || !Uncounted(c.q, y.calls) ==> ahead < 0x8000_0000)
      && (ahead < 0x8000_0000 ==> (Passes(y, s, r, s.pc[r]) <==> came && (y.cmp.Unsigned? ==> 0 <= index)))
      && (0x8000_0000 <= ahead <= LIMIT && (y.cmp.Unsigned? ==> 0 <= index) ==> Passes(y, s, r, s.pc[r]) && !came)
  {
    hide Came, Wrap, IndexAt, Produced, SendProduced, Tallied, Along, RecvReg, Shortfall, Uncounted;
    StartInv(y);
    RunInv(y, Start(y), steps, s);
    var x := s.pc[r];
    var q, index := At(y.calls, x).q, IndexAt(y.t, y.blk, y.calls, x);
    if WaitsRecv(y.t, At(y.calls, x)) {
      RecvBehind(y, s, r);
      RecvAhead(y, s, r);
    } else {
      SendBetween(y, s, r);
      if !Uncounted(q, y.calls) {
        NoShortfall(y, q, x);
      }
    }
    if Count(y, s, r) - index <= LIMIT {
      CameIff(index, Count(y, s, r));
    }
  }

  lemma {:induction false} NoShortfall(y: Sys, q: nat, x: nat)
    requires |y.calls| > 0 && !Uncounted(q, y.calls)
    ensures Shortfall(y, q, x) == 0
  {
    DeficitBound(q, y.calls);
    SpanIs(Round(y.calls, x), 0);
  }

  // ---- Producer indices ----

  /** An operation that is not enabled yet is no more than one block ahead of the producer index: its send-enable is the
      next of its queue. */
  lemma {:induction false} EnableNear(y: Sys, q: nat, x: nat, z: nat)
    requires Sound(y) && q < |y.t| && x <= z && PostsOn(q).Takes(At(y.calls, z))
    requires NoneFrom(PostsOn(q), y.calls, x, z)
    ensures SendReg(y.t, y.blk, y.calls, q, x) < IndexAt(y.t, y.blk, y.calls, z)
         <= SendReg(y.t, y.blk, y.calls, q, x) + y.blk[q]
  {
    hide IndexAt, Wired, Connected, Tallied;
    var n := |y.calls|;
    var l := SendRegIsLast(y.t, y.blk, y.calls, q, x);
    SendRegReleases(y.t, y.blk, y.calls, q, x, z);
    if l == 0 {
      OneRound(y.t, y.blk, y.calls, q, z);
      SendIndexBelow(y.t, y.blk, y.calls, z);
    } else {
      NextWithin(y.calls, PostsOn(q), l - 1, x, z);
      SendIndexNear(y.t, y.blk, y.calls, l - 1, z);
    }
  }

  /** A call that is taken is taken again a round later, so the next is no further than that. */
  lemma {:induction false} NextWithin(calls: seq<Call>, f: Pick, last: nat, x: nat, z: nat)
    requires |calls| > 0 && last < x <= z && f.Takes(At(calls, last))
    requires NoneFrom(f, calls, last + 1, x) && NoneFrom(f, calls, x, z)
    ensures z <= last + |calls|
  {
    var again := last + |calls|;
    assert At(calls, again) == At(calls, last);
    assert f.Takes(At(calls, again));
  }

  lemma {:induction false} OneRound(t: Topology, blk: seq<nat>, calls: seq<Call>, q: nat, z: nat)
    requires |calls| > 0 && PostsOn(q).Takes(At(calls, z)) && NoneFrom(PostsOn(q), calls, 0, z)
    ensures z < |calls|
  {
    var before := if z < |calls| then z else z - |calls|;
    assert At(calls, before) == At(calls, z);
    assert PostsOn(q).Takes(At(calls, before));
  }

  lemma {:induction false} SendIndexBelow(t: Topology, blk: seq<nat>, calls: seq<Call>, z: nat)
    requires Legal(t, calls) && z < |calls| && calls[z].Post?
    requires Tallied(t, calls[z].q, calls).wqe <= Block(blk, calls[z].q)
    ensures IndexAt(t, blk, calls, z) <= Block(blk, calls[z].q)
  {
    SendIndexInRound(t, blk, calls, z);
  }

  lemma {:induction false} SendIndexNear(t: Topology, blk: seq<nat>, calls: seq<Call>, x: nat, z: nat)
    requires Legal(t, calls) && |calls| > 0 && x < z <= x + |calls|
    requires At(calls, x).Post? && At(calls, z).Post? && At(calls, x).q == At(calls, z).q
    requires Tallied(t, At(calls, x).q, calls).wqe <= Block(blk, At(calls, x).q)
    ensures IndexAt(t, blk, calls, z) <= IndexAt(t, blk, calls, x) + Block(blk, At(calls, x).q)
  {
    hide Tallied, Rerecorded;
    var i, j, b := Offset(calls, x), Offset(calls, z), Block(blk, At(calls, x).q);
    var k, l := Round(calls, x), Round(calls, z);
    Position(calls, x);
    Position(calls, z);
    RoundsOrdered(calls, x, z);
    SendIndexInRound(t, blk, calls, i);
    SendIndexInRound(t, blk, calls, j);
    WithinRound(|calls|, k, l, i, j);
    if l == k + 1 {
      Succ(l, b);
      if j < i {
        SendIndexOrdered(t, blk, calls, j, i);
      }
    }
  }

  lemma {:induction false} WithinRound(n: nat, k: nat, l: nat, i: nat, j: nat)
    requires i < n && j < n && l * n + j <= k * n + i + n && k <= l
    ensures l <= k + 1 && (l == k + 1 ==> j <= i)
  {
    assert (k + 1) * n == k * n + n;
    if l > k + 1 {
      BlocksOrdered(k + 1, l, n);
    }
  }
}
