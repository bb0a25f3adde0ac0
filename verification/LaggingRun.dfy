/** Where the dependency order breaks: a reachable state in which a wait has passed without its completion. */
module LaggingRun {
  import opened Program
  import opened Counting
  import opened Fabric
  import opened Completion

  /** Two ranks, joined by a doubling queue on which each records its construction, a completion-signalled write, and a
      wait for the send CQ. */
  function Sys2(cmp: Compare): Sys {
    Sys(OneDoubling, [4, 1], Doublings(1), [[1, 0, 0], [1, 0, 0]], [[0, 1], [1, 0]], cmp)
  }

  lemma {:induction false} Program3()
    ensures Doublings(1) == [Create(1), DoublingPost(), WaitSend(1)]
  {
    assert Doublings(0) == [Create(1)];
  }

  lemma {:induction false} Sound2(cmp: Compare)
    ensures Sound(Sys2(cmp))
  {
    hide Tallied, Wired, Legal, Connected, Doublings;
    DoublingsAre(1);
    Sizes2(0);
    Sizes2(1);
    Connected2(cmp);
  }

  lemma {:induction false} Sizes2(q: nat)
    requires q < 2
    ensures Tallied(OneDoubling, q, Doublings(1)).wqe <= [4, 1][q]
  {
    hide Tallied;
    Program3();
    assert Doublings(1) == [Create(1)] + [DoublingPost()] + [WaitSend(1)] && [] + [Create(1)] == [Create(1)];
    NothingYet(OneDoubling, 0, q);
    OneMore(OneDoubling, q, [], Create(1));
    OneMore(OneDoubling, q, [Create(1)], DoublingPost());
    OneMore(OneDoubling, q, [Create(1)] + [DoublingPost()], WaitSend(1));
  }

  lemma {:induction false} Connected2(cmp: Compare)
    ensures Wired(OneDoubling) && Connected(Sys2(cmp))
  {
    hide Doublings;
    Program3();
  }

  /** Rank 0 has `pc` management entries executed, and its queue stands at `c`; rank 1 has constructed its queue. */
  function At0(rounds: nat, pc: nat, pc1: nat, c: Cursor): State {
    State([rounds, 0], [pc, pc1], [[Cursor(0, 0, 0), c], [Cursor(0, 0, 0), Cursor(0, 0, 0)]])
  }

  ghost predicate Reachable(y: Sys, s: State)
    requires Sound(y)
  {
    Shaped(y, s) && exists steps :: Reaches(y, Start(y), steps, s)
  }

  lemma {:induction false} Further(y: Sys, s: State, a: Step)
    requires Sound(y) && Reachable(y, s) && Enabled(y, s, a)
    ensures Reachable(y, After(y, s, a))
  {
    var steps :| Reaches(y, Start(y), steps, s);
    ReachesFurther(y, Start(y), steps, s, a);
  }

  /** Call number `x` of the stream. */
  lemma {:induction false} Stream3(x: nat)
    requires x < 8
    ensures |Doublings(1)| == 3
    ensures At(Doublings(1), x) == if x == 0 || x == 3 || x == 6 then Create(1)
                                   else if x == 1 || x == 4 || x == 7 then DoublingPost() else WaitSend(1)
    ensures x == 2 || x == 5 ==> Round(Doublings(1), x) <= 1 && Offset(Doublings(1), x) == 2
  {
    Program3();
    var calls := Doublings(1);
    if x >= 6 {
      assert Offset(calls, x) == Offset(calls, x - 3) == Offset(calls, x - 6) == x - 6;
    } else if x >= 3 {
      assert Offset(calls, x) == Offset(calls, x - 3) == x - 3;
      assert Round(calls, x) == 1 + Round(calls, x - 3);
    }
  }

  /** Both waits, that of the first round and that of the second, name completion 0. */
  lemma {:induction false} WaitsNameZero(x: nat)
    requires x == 2 || x == 5
    ensures |Doublings(1)| == 3 && IndexAt(OneDoubling, [4, 1], Doublings(1), x) == 0
  {
    Stream3(x);
    RecycledStays([4, 1], Round(Doublings(1), x));
  }

  lemma {:induction false} Signals(x: nat)
    requires x == 2 || x == 5
    ensures |Doublings(1)| == 3
    ensures Along(SignalsOn(1), Doublings(1), x) == if x == 2 then 1 else 2
  {
    var calls := Doublings(1);
    Stream3(0);
    Stream3(1);
    Stream3(2);
    Stream3(3);
    Stream3(4);
    assert Along(SignalsOn(1), calls, 1) == 0 && Along(SignalsOn(1), calls, 2) == 1;
    assert Along(SignalsOn(1), calls, 3) == 1 && Along(SignalsOn(1), calls, 4) == 1;
  }

  lemma {:induction false} Prepared(cmp: Compare)
    ensures Sound(Sys2(cmp)) && Reachable(Sys2(cmp), At0(3, 0, 1, Cursor(0, 0, 0)))
  {
    hide *;
    Sound2(cmp);
    StartsThere(cmp);
    Rung(cmp, 0);
    Rung(cmp, 1);
    Rung(cmp, 2);
    Constructed1(cmp);
  }

  lemma {:induction false} StartsThere(cmp: Compare)
    requires Sound(Sys2(cmp))
    ensures Reachable(Sys2(cmp), At0(0, 0, 0, Cursor(0, 0, 0)))
  {
    hide Sound, Doublings;
    var y, c := Sys2(cmp), Cursor(0, 0, 0);
    assert Start(y).cur[0] == [c, c] && Start(y).cur[1] == [c, c];
    assert Start(y).rounds == [0, 0] && Start(y).pc == [0, 0] && Start(y).cur == [[c, c], [c, c]];
    assert Reaches(y, Start(y), [], At0(0, 0, 0, c));
  }

  lemma {:induction false} Rung(cmp: Compare, rounds: nat)
    requires Sound(Sys2(cmp)) && Reachable(Sys2(cmp), At0(rounds, 0, 0, Cursor(0, 0, 0)))
    ensures Reachable(Sys2(cmp), At0(rounds + 1, 0, 0, Cursor(0, 0, 0)))
  {
    hide Reachable, Sound;
    var s := At0(rounds, 0, 0, Cursor(0, 0, 0));
    Further(Sys2(cmp), s, Doorbell(0));
    assert After(Sys2(cmp), s, Doorbell(0)) == At0(rounds + 1, 0, 0, Cursor(0, 0, 0));
  }

  lemma {:induction false} Constructed1(cmp: Compare)
    requires Sound(Sys2(cmp)) && Reachable(Sys2(cmp), At0(3, 0, 0, Cursor(0, 0, 0)))
    ensures Reachable(Sys2(cmp), At0(3, 0, 1, Cursor(0, 0, 0)))
  {
    hide Reachable;
    var y, s := Sys2(cmp), At0(3, 0, 0, Cursor(0, 0, 0));
    Stream3(0);
    Creates();
    assert Passes(y, s, 1, 0);
    Further(y, s, Manage(1));
    assert After(y, s, Manage(1)) == At0(3, 0, 1, Cursor(0, 0, 0));
  }

  lemma {:induction false} Creates()
    ensures Creations(Doublings(1)) == 1
  {
    assert Doublings(1) == Doublings(0) + [DoublingPost()] + [WaitSend(1)];
    assert Doublings(1)[..2] == Doublings(0) + [DoublingPost()] && Doublings(1)[..2][..1] == Doublings(0);
    assert [Create(1)][..0] == [];
    assert Creations(Doublings(0)) == 1;
  }

  /** Rank 0's management queue goes on: at a wait, one completion is enough. */
  lemma {:induction false} Managed(cmp: Compare, pc: nat, c: Cursor)
    requires Sound(Sys2(cmp)) && Reachable(Sys2(cmp), At0(3, pc, 1, c)) && pc < 8 && (pc >= 2 ==> c.ak == 2)
    ensures Reachable(Sys2(cmp), At0(3, pc + 1, 1, c))
  {
    hide Reachable, Sound, Passes, Doublings;
    var y, s := Sys2(cmp), At0(3, pc, 1, c);
    Stream3(pc);
    Passing(cmp, pc, c);
    Further(y, s, Manage(0));
    assert After(y, s, Manage(0)) == At0(3, pc + 1, 1, c);
  }

  lemma {:induction false} Passing(cmp: Compare, pc: nat, c: Cursor)
    requires Sound(Sys2(cmp)) && pc < 8 && (pc >= 2 ==> c.ak == 2)
    ensures Passes(Sys2(cmp), At0(3, pc, 1, c), 0, pc)
  {
    hide Sound, Doublings, IndexAt, Along, Counting.At;
    Stream3(pc);
    if pc == 2 || pc == 5 {
      WaitsNameZero(pc);
      Signals(2);
    }
  }

  lemma {:induction false} MovedIs(pc: nat, c: Cursor, to: Cursor)
    ensures Moved(At0(3, pc, 1, c), 0, 1, to) == At0(3, pc, 1, to)
  {
    var s := At0(3, pc, 1, c);
    assert s.cur[0][1 := to] == [Cursor(0, 0, 0), to];
    assert s.cur[0 := [Cursor(0, 0, 0), to]] == At0(3, pc, 1, to).cur;
  }

  lemma {:induction false} Executed(cmp: Compare, pc: nat, c: Cursor)
    requires Sound(Sys2(cmp)) && Reachable(Sys2(cmp), At0(3, pc, 1, c)) && c.ex < pc <= 8
    ensures Reachable(Sys2(cmp), At0(3, pc, 1, c.(ex := c.ex + 1)))
  {
    hide Reachable;
    var y, s := Sys2(cmp), At0(3, pc, 1, c);
    if PostsOn(1).Takes(At(y.calls, c.ex)) {
      SendRegReleases(y.t, y.blk, y.calls, 1, pc, c.ex);
    }
    Further(y, s, Execute(0, 1));
    MovedIs(pc, c, c.(ex := c.ex + 1));
  }

  lemma {:induction false} Delivered(cmp: Compare, pc: nat, c: Cursor)
    requires Sound(Sys2(cmp)) && Reachable(Sys2(cmp), At0(3, pc, 1, c)) && c.dl < c.ex && c.dl < 2
    ensures Reachable(Sys2(cmp), At0(3, pc, 1, c.(dl := c.dl + 1)))
  {
    hide Reachable;
    var y, s := Sys2(cmp), At0(3, pc, 1, c);
    Stream3(0);
    Stream3(c.dl);
    assert Along(PostsOn(1), y.calls, 0) == 0 && Along(PostsOn(1), y.calls, 1) == 0;
    assert MadeAt(y, 1, 1, 0);
    assert RecvReg(y, 1, 1, 1) >= RECV_BASE;
    Further(y, s, Deliver(0, 1));
    MovedIs(pc, c, c.(dl := c.dl + 1));
  }

  lemma {:induction false} Acknowledged(cmp: Compare, pc: nat, c: Cursor)
    requires Sound(Sys2(cmp)) && Reachable(Sys2(cmp), At0(3, pc, 1, c)) && c.ak < c.dl
    ensures Reachable(Sys2(cmp), At0(3, pc, 1, c.(ak := c.ak + 1)))
  {
    hide Reachable;
    Further(Sys2(cmp), At0(3, pc, 1, c), Acknowledge(0, 1));
    MovedIs(pc, c, c.(ak := c.ak + 1));
  }

  lemma {:induction false} FirstWriteDone(cmp: Compare)
    ensures Sound(Sys2(cmp)) && Reachable(Sys2(cmp), At0(3, 2, 1, Cursor(2, 2, 2)))
  {
    hide *;
    Prepared(cmp);
    Managed(cmp, 0, Cursor(0, 0, 0));
    Managed(cmp, 1, Cursor(0, 0, 0));
    Executed(cmp, 2, Cursor(0, 0, 0));
    Executed(cmp, 2, Cursor(1, 0, 0));
    Delivered(cmp, 2, Cursor(2, 0, 0));
    Delivered(cmp, 2, Cursor(2, 1, 0));
    Acknowledged(cmp, 2, Cursor(2, 2, 0));
    Acknowledged(cmp, 2, Cursor(2, 2, 1));
  }

  /** With that one completion the management queue passes the waits of both rounds, ... */
  lemma {:induction false} WaitsPass(cmp: Compare, pc: nat)
    requires 2 <= pc <= 8
    ensures Sound(Sys2(cmp)) && Reachable(Sys2(cmp), At0(3, pc, 1, Cursor(2, 2, 2)))
  {
    hide *;
    if pc == 2 {
      FirstWriteDone(cmp);
    } else {
      WaitsPass(cmp, pc - 1);
      Managed(cmp, pc - 1, Cursor(2, 2, 2));
    }
  }

  /** ... and the queue sends the writes of the second round and of the third. */
  lemma {:induction false} WritesLeave(cmp: Compare, ex: nat)
    requires 2 <= ex <= 8
    ensures Sound(Sys2(cmp)) && Reachable(Sys2(cmp), At0(3, 8, 1, Cursor(ex, 2, 2)))
  {
    hide *;
    if ex == 2 {
      WaitsPass(cmp, 8);
    } else {
      WritesLeave(cmp, ex - 1);
      Executed(cmp, 8, Cursor(ex - 1, 2, 2));
    }
  }

  /** A reachable state, on either kind of device, in which the write behind the second round's wait has left although
      the write that this wait was recorded behind has not completed. */
  lemma {:induction false} DependencyBreaks(cmp: Compare)
    ensures var y, s := Sys2(cmp), At0(3, 8, 1, Cursor(8, 2, 2));
      && Sound(y) && Reachable(y, s)
      && At(y.calls, 4) == DoublingPost() && At(y.calls, 5) == WaitSend(1) && At(y.calls, 7) == DoublingPost()
      && s.cur[0][1].ex > 7 && s.cur[0][1].ak <= 4
  {
    WritesLeave(cmp, 8);
    Stream3(4);
    Stream3(5);
    Stream3(7);
  }
}
