/** Safety of the running graph: what a passed wait guarantees, in every interleaving. */
module Dependency {
  import opened Words
  import opened Program
  import opened Counting
  import opened Fabric

  /** Positions only move forward. */
  ghost predicate Grown(y: Sys, s: State, s': State)
    requires Sound(y) && Shaped(y, s) && Shaped(y, s')
  {
    forall r, q :: 0 <= r < y.Ranks() && 0 <= q < |y.t| ==>
      && s.cur[r][q].ex <= s'.cur[r][q].ex && s.cur[r][q].dl <= s'.cur[r][q].dl && s.cur[r][q].ak <= s'.cur[r][q].ak
  }

  lemma {:induction false} MetStays(y: Sys, s: State, s': State, r: nat, x: nat)
    requires Sound(y) && Shaped(y, s) && Shaped(y, s') && Grown(y, s, s') && r < y.Ranks()
    requires Met(y, s, r, x)
    ensures Met(y, s', r, x)
  {
    var q := At(y.calls, x).q;
    assert LegalCall(y.t, y.calls[Offset(y.calls, x)]);
    AlongUpTo(SignalsOn(q), y.calls, s.cur[r][q].ak, s'.cur[r][q].ak);
  }

  /** What was counted up to `x` from a position below `x` leaves nothing in between. */
  lemma {:induction false} CountedAll(f: Pick, calls: seq<Call>, from: nat, x: nat)
    requires |calls| > 0 && Along(f, calls, x) <= Along(f, calls, from)
    ensures NoneFrom(f, calls, from, x)
  {
    if from < x {
      AlongUpTo(f, calls, from, x);
    }
  }

  lemma {:induction false} PassingRecv(y: Sys, s: State, r: nat, q: nat)
    requires Sound(y) && Shaped(y, s) && Inv(y, s) && r < y.Ranks() && q < |y.t|
    requires Passes(y, s, r, s.pc[r])
    requires At(y.calls, s.pc[r]).q == q && WaitsRecv(y.t, At(y.calls, s.pc[r]))
    ensures NoneFrom(PostsOn(Pair(y.t, q)), y.calls, s.cur[y.nbr[r][q]][Pair(y.t, q)].dl, s.pc[r])
    ensures !HasScq(y.t, q) ==> NoneFrom(SignalsOn(q), y.calls, s.cur[r][q].ak, s.pc[r])
  {
    var x := s.pc[r];
    var p := Pair(y.t, q);
    assert LegalCall(y.t, y.calls[Offset(y.calls, x)]);
    WaitThreshold(y.t, y.blk, y.calls, x);
    if !HasScq(y.t, q) {
      assert Ordered(y, s, r, q);
      AlongUpTo(PostsOn(p), y.calls, s.cur[r][q].dl, x);
      AlongUpTo(SignalsOn(q), y.calls, s.cur[r][q].ak, x);
      CountedAll(SignalsOn(q), y.calls, s.cur[r][q].ak, x);
    }
    CountedAll(PostsOn(p), y.calls, s.cur[y.nbr[r][q]][p].dl, x);
  }

  lemma {:induction false} PassingSend(y: Sys, s: State, r: nat, q: nat)
    requires Sound(y) && Shaped(y, s) && r < y.Ranks() && q < |y.t|
    requires Passes(y, s, r, s.pc[r])
    requires At(y.calls, s.pc[r]).q == q && WaitsSend(y.t, At(y.calls, s.pc[r]))
    ensures Along(SignalsOn(q), y.calls, s.pc[r]) <= SendProduced(y, s, r, q) + Shortfall(y, q, s.pc[r])
    ensures !Uncounted(q, y.calls) ==> NoneFrom(SignalsOn(q), y.calls, s.cur[r][q].ak, s.pc[r])
  {
    var x := s.pc[r];
    SendShort(y.t, y.blk, y.calls, x);
    if !Uncounted(q, y.calls) {
      SendThreshold(y.t, y.blk, y.calls, x);
      CountedAll(SignalsOn(q), y.calls, s.cur[r][q].ak, x);
    }
  }

  /** A passed wait has all its completions, not just as many as were counted. */
  lemma {:induction false} PassingMeets(y: Sys, s: State, r: nat)
    requires Sound(y) && Shaped(y, s) && Inv(y, s) && r < y.Ranks()
    requires Passes(y, s, r, s.pc[r])
    ensures Met(y, s, r, s.pc[r])
  {
    var c := At(y.calls, s.pc[r]);
    assert LegalCall(y.t, y.calls[Offset(y.calls, s.pc[r])]);
    if WaitsRecv(y.t, c) {
      PassingRecv(y, s, r, c.q);
    } else if WaitsSend(y.t, c) {
      PassingSend(y, s, r, c.q);
    }
  }

  /** A slave queue executes an operation only after its send-enable. */
  lemma {:induction false} ExecutesEnabled(y: Sys, s: State, r: nat, q: nat)
    requires Sound(y) && Shaped(y, s) && Enabled(y, s, Execute(r, q))
    ensures s.cur[r][q].ex < s.pc[r]
  {
    var x := s.cur[r][q].ex;
    if PostsOn(q).Takes(At(y.calls, x)) {
      SendRegReleases(y.t, y.blk, y.calls, q, s.pc[r], x);
    }
  }

  lemma {:induction false} OrderedStays(y: Sys, s: State, a: Step, r: nat, q: nat)
    requires Sound(y) && Shaped(y, s) && Inv(y, s) && Enabled(y, s, a) && r < y.Ranks() && q < |y.t|
    ensures Ordered(y, After(y, s, a), r, q)
  {
    hide Along, RecvReg, IndexAt, SendReg, Passes, Met, Wired, Legal, Connected;
    assert Ordered(y, s, r, q);
    if a.Manage? {
      CreditStays(y, s, a.r, r, q);
    } else if a == Execute(r, q) {
      ExecutesEnabled(y, s, r, q);
    } else if a == Deliver(r, q) {
      AlongNext(PostsOn(q), y.calls, s.cur[r][q].dl);
    }
  }

  lemma {:induction false} CreditStays(y: Sys, s: State, m: nat, r: nat, q: nat)
    requires Sound(y) && Shaped(y, s) && Enabled(y, s, Manage(m)) && r < y.Ranks() && q < |y.t|
    requires Ordered(y, s, r, q)
    ensures Ordered(y, After(y, s, Manage(m)), r, q)
  {
    var far := y.nbr[r][q];
    var s' := After(y, s, Manage(m));
    assert s'.pc[far] >= s.pc[far] && s'.pc[r] >= s.pc[r] && s'.cur == s.cur;
    RecvRegGrows(y, far, Pair(y.t, q), s.pc[far], s'.pc[far]);
  }

  lemma {:induction false} InvStays(y: Sys, s: State, a: Step)
    requires Sound(y) && Shaped(y, s) && Inv(y, s) && Enabled(y, s, a)
    ensures Inv(y, After(y, s, a))
  {
    hide Along, RecvReg, IndexAt, SendReg, Passes, Met, Ordered, Wired, Legal, Connected;
    var s' := After(y, s, a);
    forall r, q | 0 <= r < y.Ranks() && 0 <= q < |y.t|
      ensures Ordered(y, s', r, q)
    {
      OrderedStays(y, s, a, r, q);
    }
    assert Grown(y, s, s');
    forall r, x | 0 <= r < y.Ranks() && 0 <= x < s'.pc[r]
      ensures Met(y, s', r, x)
    {
      if x == s.pc[r] {
        PassingMeets(y, s, r);
      }
      MetStays(y, s, s', r, x);
    }
    forall r | 0 <= r < y.Ranks()
      ensures s'.pc[r] <= Released(y, s', r)
    {
      if a == Doorbell(r) {
        BlocksOrdered(0, s.rounds[r], |y.calls|);
        BlocksOrdered(s.rounds[r], s.rounds[r] + 1, |y.calls|);
      }
    }
  }

  lemma {:induction false} StartInv(y: Sys)
    requires Sound(y)
    ensures Shaped(y, Start(y)) && Inv(y, Start(y))
  {
  }

  lemma {:induction false} RunInv(y: Sys, s0: State, steps: seq<Step>, s: State)
    requires Sound(y) && Shaped(y, s0) && Inv(y, s0) && Reaches(y, s0, steps, s)
    ensures Shaped(y, s) && Inv(y, s)
    decreases |steps|
  {
    if |steps| > 0 {
      InvStays(y, s0, steps[0]);
      RunInv(y, After(y, s0, steps[0]), steps[1..], s);
    }
  }

  /** Dependency order: whatever the interleaving and however many rounds have run, an operation recorded after a
      wait has left its queue only if everything recorded before the wait that completes on the awaited CQ has
      been completed, by this rank and by the rank at the far end; for a send CQ, all but the shortfall. */
  lemma {:induction false} DependencyOrder(y: Sys, steps: seq<Step>, s: State)
    requires Sound(y) && Reaches(y, Start(y), steps, s)
    ensures Shaped(y, s)
    ensures forall r, q, x, z | 0 <= r < y.Ranks() && 0 <= q < |y.t| && 0 <= x < z < s.cur[r][q].ex
              && PostsOn(q).Takes(At(y.calls, z)) :: Met(y, s, r, x)
  {
    StartInv(y);
    RunInv(y, Start(y), steps, s);
    forall r, q, x, z | 0 <= r < y.Ranks() && 0 <= q < |y.t| && 0 <= x < z < s.cur[r][q].ex
              && PostsOn(q).Takes(At(y.calls, z))
      ensures Met(y, s, r, x)
    {
      assert Ordered(y, s, r, q);
    }
  }
}
