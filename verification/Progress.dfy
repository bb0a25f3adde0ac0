/** Deadlock freedom of the running graph on any number of ranks and rounds, and exactly when it holds. */
module Progress {
  import opened Words
  import opened Program
  import opened Counting
  import opened Fabric

  /** No queue posts more operations in one recording than the first receive-enable allows. */
  ghost predicate Light(y: Sys) {
    forall q :: 0 <= q < |y.t| ==> Num(PostsOn(q), y.calls) <= 0x6fff
  }

  /** Every wait is recorded after a completion of the CQ it waits for. */
  ghost predicate Timely(y: Sys) {
    forall i :: 0 <= i < |y.calls| && (WaitsRecv(y.t, y.calls[i]) || WaitsSend(y.t, y.calls[i])) ==>
      RecordedIndex(y.t, y.calls, i) >= 0
  }

  /** No wait names a completion that the device takes never to come. */
  ghost predicate Answered(y: Sys) {
    y.cmp.Unsigned? ==> Timely(y)
  }

  ghost predicate Complete(y: Sys, s: State, rounds: nat)
    requires Sound(y) && Shaped(y, s)
  {
    forall r :: 0 <= r < y.Ranks() ==>
      && s.pc[r] >= rounds * |y.calls|
      && forall q :: 0 <= q < |y.t| ==> s.cur[r][q].ak >= rounds * |y.calls|
  }

  ghost predicate Stuck(y: Sys, s: State)
    requires Sound(y) && Shaped(y, s)
  {
    forall a: Step :: Enabled(y, s, a) ==> a.Doorbell?
  }

  /** A receive is always available for an operation that the receiving rank has itself recorded far enough. */
  lemma {:induction false} CreditSuffices(y: Sys, r: nat, q: nat, x: nat)
    requires Sound(y) && MadeFirst(y) && Light(y) && r < y.Ranks() && 1 <= q < |y.t|
    ensures Along(PostsOn(Pair(y.t, q)), y.calls, x) <= RecvReg(y, r, q, x)
  {
    var k, i := Round(y.calls, x), Offset(y.calls, x);
    Position(y.calls, x);
    CreditInRound(y, r, q, k, i, x);
  }

  lemma {:induction false} CreditInRound(y: Sys, r: nat, q: nat, k: nat, i: nat, x: nat)
    requires Sound(y) && MadeFirst(y) && Light(y) && r < y.Ranks() && 1 <= q < |y.t|
    requires i < |y.calls| && x == k * |y.calls| + i
    ensures Along(PostsOn(Pair(y.t, q)), y.calls, x) <= RecvReg(y, r, q, x)
  {
    var f := PostsOn(Pair(y.t, q));
    var now, part := CreditThere(y, r, q, k, i, x);
    AlongSplits(f, y.calls, k, i);
    TallyCounts(y.t, q, y.calls);
    NumUpTo(f, y.calls, i);
    Covered(y, q, k, Num(f, y.calls), part, RecvReg(y, r, q, x), now);
  }

  /** Either the credit of round `k` has been given, or nothing was posted in round `k` yet. */
  lemma {:induction false} CreditThere(y: Sys, r: nat, q: nat, k: nat, i: nat, x: nat) returns (now: bool, part: nat)
    requires Sound(y) && MadeFirst(y) && r < y.Ranks() && 1 <= q < |y.t|
    requires i < |y.calls| && x == k * |y.calls| + i
    ensures part == Num(PostsOn(Pair(y.t, q)), y.calls[..i])
    ensures now ==> Credit(y, q, k) <= RecvReg(y, r, q, x)
    ensures !now ==> part == 0 && (k > 0 ==> Credit(y, q, k - 1) <= RecvReg(y, r, q, x))
  {
    var f := PostsOn(Pair(y.t, q));
    assert Constructs(y, r, q);
    var made :| 0 <= made < |y.calls| && MadeAt(y, r, q, made) && Num(f, y.calls[..made]) == 0;
    now, part := made < i, Num(f, y.calls[..i]);
    if now {
      CreditAfter(y, r, q, k, made, x);
    } else {
      NumUpTo(f, y.calls[..made], i);
      assert y.calls[..made][..i] == y.calls[..i];
      if k > 0 {
        EarlierPosition(k, |y.calls|, made, i);
        CreditAfter(y, r, q, k - 1, made, x);
      }
    }
  }

  lemma {:induction false} Covered(y: Sys, q: nat, k: nat, m: nat, part: nat, reg: nat, now: bool)
    requires part <= m <= RECV_BASE && m <= Tallied(y.t, q, y.calls).cqe
    requires now ==> Credit(y, q, k) <= reg
    requires !now ==> part == 0 && (k > 0 ==> Credit(y, q, k - 1) <= reg)
    ensures k * m + part <= reg
  {
    var c := Tallied(y.t, q, y.calls).cqe;
    if now {
      Scale(k, m, c);
    } else if k > 0 {
      Scale(k - 1, m, c);
      Succ(k, m);
    }
  }

  lemma {:induction false} EarlierPosition(k: nat, n: nat, made: nat, i: nat)
    requires k > 0 && made < n
    ensures (k - 1) * n + made < k * n + i
  {
    Succ(k, n);
  }

  /** Once round `k` has passed the construction, its credit is there. */
  lemma {:induction false} CreditAfter(y: Sys, r: nat, q: nat, k: nat, made: nat, x: nat)
    requires Sound(y) && r < y.Ranks() && made < |y.calls| && MadeAt(y, r, q, made)
    requires k * |y.calls| + made < x
    ensures Credit(y, q, k) <= RecvReg(y, r, q, x)
  {
    PositionAt(y.calls, k, made);
    var p: nat := k * |y.calls| + made;
    RecvRegGrows(y, r, q, p + 1, x);
  }

  lemma {:induction false} Scale(k: nat, a: nat, b: nat)
    requires a <= b
    ensures k * a <= k * b
  {
    BlocksOrdered(0, b - a, k);
    Distribute(k, a, b - a);
    assert k * (b - a) == (b - a) * k;
    assert (b - a) * k >= 0;
  }

  lemma {:induction false} NumUpTo(f: Pick, calls: seq<Call>, i: nat)
    requires i <= |calls|
    ensures Num(f, calls[..i]) <= Num(f, calls)
    decreases |calls|
  {
    if i < |calls| {
      NumUpTo(f, calls[..|calls| - 1], i);
      assert calls[..|calls| - 1][..i] == calls[..i];
    } else {
      assert calls[..i] == calls;
    }
  }

  /** If a queue lags behind `x`, and both its ranks have come to `x`, then it has a step to take. */
  lemma {:induction false} Chase(y: Sys, s: State, r: nat, q: nat, x: nat) returns (a: Step)
    requires Sound(y) && MadeFirst(y) && Light(y) && Shaped(y, s) && Inv(y, s)
    requires r < y.Ranks() && q < |y.t|
    requires x <= s.pc[r] && x <= s.pc[y.nbr[r][q]]
    requires s.cur[r][q].dl < x || s.cur[r][q].ak < x
    ensures Enabled(y, s, a) && !a.Doorbell?
    ensures a == Execute(r, q) || a == Deliver(r, q) || (a == Acknowledge(r, q) && s.cur[r][q].dl >= x)
  {
    var c := s.cur[r][q];
    var far, p := y.nbr[r][q], Pair(y.t, q);
    assert Ordered(y, s, r, q);
    if c.ex < x {
      a := Execute(r, q);
      if PostsOn(q).Takes(At(y.calls, c.ex)) {
        SendRegReleases(y.t, y.blk, y.calls, q, s.pc[r], c.ex);
      }
    } else if c.dl < x {
      a := Deliver(r, q);
      if PostsOn(q).Takes(At(y.calls, c.dl)) {
        assert LegalCall(y.t, y.calls[Offset(y.calls, c.dl)]);
        CreditSuffices(y, far, p, s.pc[far]);
        AlongUpTo(PostsOn(q), y.calls, c.dl, s.pc[far]);
      }
    } else {
      a := Acknowledge(r, q);
    }
  }

  /** A wait whose queues have come to its position finds its completion. */
  lemma {:induction false} ReadyPasses(y: Sys, s: State, r: nat, x: nat)
    requires Sound(y) && Answered(y) && Shaped(y, s) && r < y.Ranks()
    requires var q := At(y.calls, x).q;
      q < |y.t| && s.cur[r][q].ak >= x && s.cur[y.nbr[r][q]][Pair(y.t, q)].dl >= x
    ensures Passes(y, s, r, x)
  {
    var c := At(y.calls, x);
    IndexSign(y.t, y.blk, y.calls, x);
    if WaitsRecv(y.t, c) {
      ReadyRecv(y, s, r, c.q, x);
    } else if WaitsSend(y.t, c) {
      ReadySend(y, s, r, c.q, x);
    }
  }

  /** Later rounds name later completions. */
  lemma {:induction false} IndexSign(t: Topology, blk: seq<nat>, calls: seq<Call>, x: nat)
    requires Legal(t, calls) && |calls| > 0
    ensures RecordedIndex(t, calls, Offset(calls, x)) <= IndexAt(t, blk, calls, x)
  {
    FirstIndex(t, blk, calls, Offset(calls, x));
    BlocksOrdered(Round(calls, x), Round(calls, x), Increment(t, blk, calls, Offset(calls, x)));
  }

  lemma {:induction false} ReadySend(y: Sys, s: State, r: nat, q: nat, x: nat)
    requires Sound(y) && Shaped(y, s) && r < y.Ranks() && q < |y.t|
    requires q == At(y.calls, x).q && WaitsSend(y.t, At(y.calls, x))
    requires s.cur[r][q].ak >= x
    ensures IndexAt(y.t, y.blk, y.calls, x) < SendProduced(y, s, r, q)
  {
    SendThreshold(y.t, y.blk, y.calls, x);
    AlongUpTo(SignalsOn(q), y.calls, x, s.cur[r][q].ak);
  }

  lemma {:induction false} ReadyRecv(y: Sys, s: State, r: nat, q: nat, x: nat)
    requires Sound(y) && Shaped(y, s) && r < y.Ranks() && q < |y.t|
    requires q == At(y.calls, x).q && WaitsRecv(y.t, At(y.calls, x))
    requires s.cur[r][q].ak >= x && s.cur[y.nbr[r][q]][Pair(y.t, q)].dl >= x
    ensures IndexAt(y.t, y.blk, y.calls, x) < Produced(y, s, r, q)
  {
    var p := Pair(y.t, q);
    WaitThreshold(y.t, y.blk, y.calls, x);
    AlongUpTo(PostsOn(p), y.calls, x, s.cur[y.nbr[r][q]][p].dl);
    AlongUpTo(SignalsOn(q), y.calls, x, s.cur[r][q].ak);
  }

  lemma {:induction false} Slowest(pc: seq<nat>) returns (r: nat)
    requires |pc| > 0
    ensures r < |pc| && forall i :: 0 <= i < |pc| ==> pc[r] <= pc[i]
  {
    r := 0;
    for i := 1 to |pc|
      invariant r < |pc| && forall j :: 0 <= j < i ==> pc[r] <= pc[j]
    {
      if pc[i] < pc[r] {
        r := i;
      }
    }
  }

  /** SPMD progress: while some rank has not completed the rounds every rank was asked for, the rank whose
      management queue is furthest behind, or a queue it waits for, has a step to take. */
  lemma {:induction false} Moves(y: Sys, s: State, rounds: nat) returns (a: Step)
    requires Sound(y) && MadeFirst(y) && Light(y) && Answered(y) && Shaped(y, s) && Inv(y, s)
    requires forall r :: 0 <= r < y.Ranks() ==> s.rounds[r] >= rounds
    requires !Complete(y, s, rounds)
    ensures Enabled(y, s, a) && !a.Doorbell?
  {
    var target := rounds * |y.calls|;
    var r := Slowest(s.pc);
    if s.pc[r] < target {
      BlocksOrdered(rounds, s.rounds[r], |y.calls|);
      a := MovesSlowest(y, s, r);
    } else {
      var m, q :| 0 <= m < y.Ranks() && 0 <= q < |y.t| && s.cur[m][q].ak < target;
      a := Chase(y, s, m, q, target);
    }
  }

  lemma {:induction false} MovesSlowest(y: Sys, s: State, r: nat) returns (a: Step)
    requires Sound(y) && MadeFirst(y) && Light(y) && Answered(y) && Shaped(y, s) && Inv(y, s) && r < y.Ranks()
    requires forall i :: 0 <= i < y.Ranks() ==> s.pc[r] <= s.pc[i]
    requires s.pc[r] < Released(y, s, r)
    ensures Enabled(y, s, a) && !a.Doorbell?
  {
    var x := s.pc[r];
    var q := At(y.calls, x).q;
    assert LegalCall(y.t, y.calls[Offset(y.calls, x)]);
    var far, p := y.nbr[r][q], Pair(y.t, q);
    if s.cur[r][q].ak < x {
      a := Chase(y, s, r, q, x);
    } else if s.cur[far][p].dl < x {
      a := Chase(y, s, far, p, x);
    } else {
      ReadyPasses(y, s, r, x);
      a := Manage(r);
    }
  }
}
