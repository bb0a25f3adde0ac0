/** Exactly when the dependency order holds: in every run, if and only if no wait for a send CQ is recorded on a queue
    with writes that recording does not count. */
module Ordering {
  import opened Words
  import opened Program
  import opened Counting
  import opened Fabric
  import opened Dependency
  import opened Progress
  import opened Completion

  /** Everything recorded before the wait at position `x` that completes on the CQ it names, in this round and in all
      earlier ones, has completed. */
  ghost predicate Behind(y: Sys, s: State, r: nat, x: nat)
    requires Sound(y) && Shaped(y, s) && r < y.Ranks()
  {
    var c := At(y.calls, x);
    assert LegalCall(y.t, y.calls[Offset(y.calls, x)]);
    var p := Pair(y.t, c.q);
    && (c.Wait? || (c.WaitSend? && !HasScq(y.t, c.q)) ==>
          && NoneFrom(PostsOn(p), y.calls, s.cur[y.nbr[r][c.q]][p].dl, x)
          && (!HasScq(y.t, c.q) ==> NoneFrom(SignalsOn(c.q), y.calls, s.cur[r][c.q].ak, x)))
    && (c.WaitSend? && HasScq(y.t, c.q) ==> NoneFrom(SignalsOn(c.q), y.calls, s.cur[r][c.q].ak, x))
  }

  /** Every operation that has left was recorded only behind waits that stand for what they were recorded for. */
  ghost predicate Strict(y: Sys, s: State)
    requires Sound(y) && Shaped(y, s)
  {
    forall r, p, x, z ::
      (0 <= r < y.Ranks() && 0 <= p < |y.t| && 0 <= x < z < s.cur[r][p].ex && PostsOn(p).Takes(At(y.calls, z)))
      ==> Behind(y, s, r, x)
  }

  /** The dependency order holds in every reachable state. */
  ghost predicate OrderKept(y: Sys)
    requires Sound(y)
  {
    forall steps, s :: Shaped(y, Start(y)) && Shaped(y, s) && Reaches(y, Start(y), steps, s) ==> Strict(y, s)
  }

  /** No wait for the send CQ of a queue with uncounted writes. */
  ghost predicate AllCounted(y: Sys) {
    forall i :: 0 <= i < |y.calls| && WaitsSend(y.t, y.calls[i]) ==> !Uncounted(y.calls[i].q, y.calls)
  }

  lemma {:induction false} MetIsBehind(y: Sys, s: State, r: nat, x: nat)
    requires Sound(y) && Shaped(y, s) && r < y.Ranks() && AllCounted(y) && Met(y, s, r, x)
    ensures Behind(y, s, r, x)
  {
    assert At(y.calls, x) == y.calls[Offset(y.calls, x)];
  }

  lemma {:induction false} CountedKeepsOrder(y: Sys, steps: seq<Step>, s: State)
    requires Sound(y) && AllCounted(y) && Shaped(y, Start(y)) && Shaped(y, s) && Reaches(y, Start(y), steps, s)
    ensures Strict(y, s)
  {
    hide Met, Behind, AllCounted, Wired, Legal, Connected;
    DependencyOrder(y, steps, s);
    forall r, p, x, z | 0 <= r < y.Ranks() && 0 <= p < |y.t| && 0 <= x < z < s.cur[r][p].ex
      && PostsOn(p).Takes(At(y.calls, z))
      ensures Behind(y, s, r, x)
    {
      MetIsBehind(y, s, r, x);
    }
  }

  // ---- A run that withholds acknowledgements ----

  /** A lagging wait falls behind by a completion or more every round. After three rounds for every completion of a round
      it is three rounds behind. */
  lemma {:induction false} FarBehind(m: nat, d: nat, k: nat, l: nat, part: nat)
    requires k == 3 * m && d >= 1 && part <= m && l <= k + 2
    ensures l * m + part - l * d <= k * m
  {
    if l < k {
      BlocksOrdered(l, k, m);
      BlocksOrdered(l, l, d);
    } else {
      var e := l - k;
      assert l * m == k * m + e * m by {
        Distribute(m, k, e);
      }
      assert e * m <= 2 * m;
      MulGrowsBy(l, d);
    }
  }

  lemma {:induction false} MulGrowsBy(l: nat, d: nat)
    requires d >= 1
    ensures l * d >= l
  {
    if d > 1 {
      Distribute(l, 1, d - 1);
      BlocksOrdered(l, l, d - 1);
    }
  }

  /** Before round `k + 3` such a wait names a completion of an earlier round than `k`. */
  lemma {:induction false} LagsBehind(t: Topology, blk: seq<nat>, calls: seq<Call>, q: nat, k: nat, x: nat)
    requires Wired(t) && Legal(t, calls) && |calls| > 0 && WaitsSend(t, At(calls, x)) && At(calls, x).q == q
    requires Deficit(q, calls) >= 1 && k == 3 * Num(SignalsOn(q), calls) && Round(calls, x) <= k + 2
    ensures k * |calls| >= 0 && IndexAt(t, blk, calls, x) < Along(SignalsOn(q), calls, k * |calls|)
  {
    hide IndexAt, Along, Num, Deficit;
    var f, l, i := SignalsOn(q), Round(calls, x), Offset(calls, x);
    SendShort(t, blk, calls, x);
    SpanIs(l, Deficit(q, calls));
    AlongAt(f, calls, x);
    NumUpTo(f, calls, i);
    FarBehind(Num(f, calls), Deficit(q, calls), k, l, Num(f, calls[..i]));
    BlocksOrdered(k, k, |calls|);
    AlongSplits(f, calls, k, 0);
    NoneYet(f);
    assert calls[..0] == [];
  }

  lemma {:induction false} NoneYet(f: Pick)
    ensures Num(f, []) == 0
  {
  }

  lemma {:induction false} RoundBelow(calls: seq<Call>, x: nat, k: nat)
    requires |calls| > 0 && x < k * |calls|
    ensures Round(calls, x) < k
  {
    Position(calls, x);
    if Round(calls, x) >= k {
      BlocksOrdered(k, Round(calls, x), |calls|);
    }
  }

  /** Rank 0's queue `q` has a lagging wait. From position `from`, the start of round `k`, its acknowledgements are
      withheld. */
  ghost predicate Holding(y: Sys, q: nat, k: nat, from: nat) {
    && Sound(y) && MadeFirst(y) && Light(y) && Answered(y) && y.Ranks() > 0
    && 1 <= q < |y.t| && HasScq(y.t, q) && Deficit(q, y.calls) >= 1
    && k == 3 * Num(SignalsOn(q), y.calls) && from == k * |y.calls|
  }

  /** A wait of rank 0 on that queue passes all the same. */
  lemma {:induction false} HeldPasses(y: Sys, s: State, q: nat, k: nat, from: nat, x: nat)
    requires Holding(y, q, k, from) && Shaped(y, s) && Inv(y, s)
    requires At(y.calls, x).q == q && Round(y.calls, x) <= k + 2
    requires s.cur[0][q].ak >= from && s.cur[y.nbr[0][q]][Pair(y.t, q)].dl >= x
    ensures Passes(y, s, 0, x)
  {
    hide IndexAt, Along, Num, Deficit, RecordedIndex, Light, MadeFirst, Inv;
    var c, p := At(y.calls, x), Pair(y.t, q);
    assert c == y.calls[Offset(y.calls, x)];
    IndexSign(y.t, y.blk, y.calls, x);
    if WaitsRecv(y.t, c) {
      WaitThreshold(y.t, y.blk, y.calls, x);
      AlongUpTo(PostsOn(p), y.calls, x, s.cur[y.nbr[0][q]][p].dl);
    } else if WaitsSend(y.t, c) {
      LagsBehind(y.t, y.blk, y.calls, q, k, x);
      AlongUpTo(SignalsOn(q), y.calls, from, s.cur[0][q].ak);
    }
  }

  /** The slowest rank, or a queue it waits for, has a step that is not withheld. */
  lemma {:induction false} HeldSlowest(y: Sys, s: State, r: nat, q: nat, k: nat, from: nat) returns (a: Step)
    requires Holding(y, q, k, from) && Shaped(y, s) && Inv(y, s) && r < y.Ranks()
    requires forall i :: 0 <= i < y.Ranks() ==> s.pc[r] <= s.pc[i]
    requires s.pc[r] < Released(y, s, r) && Round(y.calls, s.pc[r]) <= k + 2
    ensures Enabled(y, s, a) && !a.Doorbell? && !Withheld(s, a, q, from)
  {
    hide Light, MadeFirst, Answered, Inv, Passes, Released, RecvReg, SendReg, IndexAt, Along, Num, Deficit;
    var x := s.pc[r];
    var o := At(y.calls, x).q;
    assert LegalCall(y.t, y.calls[Offset(y.calls, x)]);
    var far, p := y.nbr[r][o], Pair(y.t, o);
    if s.cur[r][o].dl < x {
      a := Chase(y, s, r, o, x);
    } else if s.cur[r][o].ak < x && !(r == 0 && o == q && s.cur[0][q].ak >= from) {
      a := Chase(y, s, r, o, x);
    } else if s.cur[far][p].dl < x {
      a := Chase(y, s, far, p, x);
    } else {
      if s.cur[r][o].ak < x {
        HeldPasses(y, s, q, k, from, x);
      } else {
        ReadyPasses(y, s, r, x);
      }
      a := Manage(r);
    }
  }

  /** So all ranks come to the end of round `k + 2`, and the held queue delivers everything up to there. */
  lemma {:induction false} HeldMoves(y: Sys, s: State, q: nat, k: nat, from: nat, end: nat) returns (a: Step)
    requires Holding(y, q, k, from) && Shaped(y, s) && Inv(y, s) && end == (k + 3) * |y.calls|
    requires forall r :: 0 <= r < y.Ranks() ==> s.rounds[r] == k + 3
    requires s.cur[0][q].dl < end
    ensures Enabled(y, s, a) && !a.Doorbell? && !Withheld(s, a, q, from)
  {
    hide Light, MadeFirst, Answered, Inv, RecvReg, SendReg, IndexAt, Along, Num, Deficit, Enabled;
    var r := Slowest(s.pc);
    if s.pc[r] < end {
      RoundBelow(y.calls, s.pc[r], k + 3);
      a := HeldSlowest(y, s, r, q, k, from);
    } else {
      a := Chase(y, s, 0, q, end);
    }
  }

  /** A write that recording does not count is signalled. */
  lemma {:induction false} UncountedWrite(y: Sys, q: nat) returns (j: nat)
    requires Sound(y) && Uncounted(q, y.calls)
    ensures j < |y.calls| && PostsOn(q).Takes(y.calls[j]) && SignalsOn(q).Takes(y.calls[j])
    ensures Deficit(q, y.calls) >= 1
  {
    DeficitBound(q, y.calls);
    j :| 0 <= j < |y.calls| && y.calls[j].Post? && y.calls[j].q == q && y.calls[j].op.DoublingWriteCmpl?;
  }

  /** In the state where such a run ends, the write of round `k + 2` has left behind the wait of round `k + 1`, and the
      write of round `k` is not acknowledged. */
  lemma {:induction false} HeldIsLate(y: Sys, s: State, q: nat, k: nat, i: nat, j: nat)
    requires Sound(y) && Shaped(y, s) && y.Ranks() > 0 && q < |y.t| && i < |y.calls| && j < |y.calls|
    requires WaitsSend(y.t, y.calls[i]) && y.calls[i].q == q
    requires PostsOn(q).Takes(y.calls[j]) && SignalsOn(q).Takes(y.calls[j])
    requires s.cur[0][q].ak <= k * |y.calls| && s.cur[0][q].ex >= (k + 3) * |y.calls|
    ensures !Strict(y, s)
  {
    hide Wired, Legal, Connected;
    var n := |y.calls|;
    var u, x, z := k * n + j, (k + 1) * n + i, (k + 2) * n + j;
    assert (k + 1) * n == k * n + n && (k + 2) * n == k * n + 2 * n && (k + 3) * n == k * n + 3 * n by {
      Succ(k + 1, n);
      Succ(k + 2, n);
      Succ(k + 3, n);
    }
    PositionAt(y.calls, k, j);
    PositionAt(y.calls, k + 1, i);
    PositionAt(y.calls, k + 2, j);
    LateAt(y, s, q, u, x, z);
  }

  lemma {:induction false} LateAt(y: Sys, s: State, q: nat, u: nat, x: nat, z: nat)
    requires Sound(y) && Shaped(y, s) && y.Ranks() > 0 && q < |y.t| && s.cur[0][q].ak <= u < x < z < s.cur[0][q].ex
    requires SignalsOn(q).Takes(At(y.calls, u)) && PostsOn(q).Takes(At(y.calls, z))
    requires WaitsSend(y.t, At(y.calls, x)) && At(y.calls, x).q == q
    ensures !Strict(y, s)
  {
    hide Wired, Legal, Connected;
    assert !NoneFrom(SignalsOn(q), y.calls, s.cur[0][q].ak, x);
    assert !Behind(y, s, 0, x);
  }

  /** With a lagging wait there is a run in which an operation overtakes what it was recorded behind. */
  lemma {:induction false} OrderBreaks(y: Sys, i: nat) returns (steps: seq<Step>, s: State)
    requires Sound(y) && MadeFirst(y) && Light(y) && Answered(y) && y.Ranks() > 0
    requires i < |y.calls| && WaitsSend(y.t, y.calls[i]) && Uncounted(y.calls[i].q, y.calls)
    ensures Shaped(y, Start(y)) && Shaped(y, s) && Reaches(y, Start(y), steps, s) && !Strict(y, s)
  {
    hide Light, MadeFirst, Answered, Inv, Reaches, Enabled, Strict, Num, Deficit, Uncounted, Withheld;
    assert LegalCall(y.t, y.calls[i]);
    var q := y.calls[i].q;
    var j := UncountedWrite(y, q);
    var k := 3 * Num(SignalsOn(q), y.calls);
    var n := |y.calls|;
    BlocksOrdered(k, k, n);
    BlocksOrdered(k + 3, k + 3, n);
    var from, end := k * n, (k + 3) * n;
    StartInv(y);
    var past, s0 := RingAll(y, y.Ranks(), k + 3);
    RunInv(y, Start(y), past, s0);
    steps, s := Exhaust(y, past, s0, k + 3, q, from);
    assert Holding(y, q, k, from);
    if s.cur[0][q].dl < end {
      var a := HeldMoves(y, s, q, k, from, end);
    }
    InOrder0(y, s, q);
    HeldIsLate(y, s, q, k, i, j);
  }

  lemma {:induction false} InOrder0(y: Sys, s: State, q: nat)
    requires Sound(y) && Shaped(y, s) && Inv(y, s) && y.Ranks() > 0 && q < |y.t|
    ensures s.cur[0][q].dl <= s.cur[0][q].ex
  {
    assert Ordered(y, s, 0, q);
  }

  /** Dependency order, exactly: in every interleaving, of any number of ranks and rounds, operations leave only behind
      everything the waits before them were recorded for, if and only if no wait is for the send CQ of a queue with writes
      that recording does not count. */
  lemma {:induction false} OrderKeptIff(y: Sys)
    requires Sound(y) && MadeFirst(y) && Light(y) && Answered(y) && y.Ranks() > 0
    ensures OrderKept(y) <==> AllCounted(y)
  {
    hide Light, MadeFirst, Answered, Strict, Sound, Uncounted;
    if AllCounted(y) {
      forall steps, s | Shaped(y, Start(y)) && Shaped(y, s) && Reaches(y, Start(y), steps, s)
        ensures Strict(y, s)
      {
        CountedKeepsOrder(y, steps, s);
      }
    } else {
      var i :| 0 <= i < |y.calls| && WaitsSend(y.t, y.calls[i]) && Uncounted(y.calls[i].q, y.calls);
      var steps, s := OrderBreaks(y, i);
    }
  }
}
