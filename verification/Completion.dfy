/** Every started round completes, in every maximal run of the devices, exactly when the graph is light. */
module Completion {
  import opened Words
  import opened Program
  import opened Counting
  import opened Fabric
  import opened Dependency
  import opened Progress

  // ---- Device steps are bounded ----

  function Sum(s: seq<nat>): nat {
    if |s| == 0 then 0 else Sum(s[..|s| - 1]) + s[|s| - 1]
  }

  lemma {:induction false} SumUpdate(s: seq<nat>, i: nat, v: nat)
    requires i < |s|
    ensures Sum(s[i := v]) == Sum(s) - s[i] + v
  {
    var front := s[..|s| - 1];
    if i == |s| - 1 {
      assert s[i := v][..|s| - 1] == front;
    } else {
      SumUpdate(front, i, v);
      assert s[i := v][..|s| - 1] == front[i := v];
    }
  }

  lemma {:induction false} SumBound(s: seq<nat>, m: nat)
    requires forall i :: 0 <= i < |s| ==> s[i] <= m
    ensures Sum(s) <= |s| * m
  {
    if |s| > 0 {
      SumBound(s[..|s| - 1], m);
      Succ(|s|, m);
    }
  }

  function Weights(row: seq<Cursor>): seq<nat> {
    seq(|row|, q requires 0 <= q < |row| => row[q].ex + row[q].dl + row[q].ak)
  }

  function Rows(cur: seq<seq<Cursor>>): seq<nat> {
    seq(|cur|, r requires 0 <= r < |cur| => Sum(Weights(cur[r])))
  }

  /** Device steps taken so far. */
  function Work(s: State): nat {
    Sum(s.pc) + Sum(Rows(s.cur))
  }

  lemma {:induction false} MovedWork(s: State, r: nat, q: nat, c: Cursor)
    requires r < |s.cur| && q < |s.cur[r]|
    ensures var o := s.cur[r][q];
      Work(Moved(s, r, q, c)) == Work(s) + (c.ex + c.dl + c.ak) - (o.ex + o.dl + o.ak)
  {
    var w := c.ex + c.dl + c.ak;
    var row := s.cur[r];
    assert Weights(row[q := c]) == Weights(row)[q := w];
    SumUpdate(Weights(row), q, w);
    assert Rows(Moved(s, r, q, c).cur) == Rows(s.cur)[r := Sum(Weights(row[q := c]))];
    SumUpdate(Rows(s.cur), r, Sum(Weights(row[q := c])));
  }

  lemma {:induction false} StepWork(y: Sys, s: State, a: Step)
    requires Sound(y) && Shaped(y, s) && Enabled(y, s, a)
    ensures Work(After(y, s, a)) == Work(s) + if a.Doorbell? then 0 else 1
  {
    hide Sum, Rows, Weights, Passes, RecvReg, SendReg, Along, IndexAt, Wired, Legal, Connected;
    if a.Manage? {
      SumUpdate(s.pc, a.r, s.pc[a.r] + 1);
    } else if !a.Doorbell? {
      var c := s.cur[a.r][a.q];
      var c' := if a.Execute? then c.(ex := c.ex + 1) else if a.Deliver? then c.(dl := c.dl + 1) else c.(ak := c.ak + 1);
      assert After(y, s, a) == Moved(s, a.r, a.q, c');
      MovedWork(s, a.r, a.q, c');
    }
  }

  /** All the work there is when no rank was asked for more than `rounds` rounds. */
  function Cap(y: Sys, rounds: nat): int {
    y.Ranks() * ((rounds + 1) * |y.calls|) + y.Ranks() * (|y.t| * (3 * ((rounds + 1) * |y.calls|)))
  }

  lemma {:induction false} WorkBound(y: Sys, s: State, rounds: nat)
    requires Sound(y) && Shaped(y, s) && Inv(y, s)
    requires forall r :: 0 <= r < y.Ranks() ==> s.rounds[r] <= rounds
    ensures Work(s) <= Cap(y, rounds)
  {
    var m := (rounds + 1) * |y.calls|;
    forall r | 0 <= r < y.Ranks()
      ensures s.pc[r] <= m && Rows(s.cur)[r] <= |y.t| * (3 * m)
    {
      BlocksOrdered(s.rounds[r], rounds + 1, |y.calls|);
      BlocksOrdered(0, rounds + 1, |y.calls|);
      var w := Weights(s.cur[r]);
      forall q | 0 <= q < |w|
        ensures w[q] <= 3 * m
      {
        assert Ordered(y, s, r, q);
      }
      SumBound(w, 3 * m);
    }
    SumBound(s.pc, m);
    BlocksOrdered(|y.t|, |y.t|, 3 * m);
    SumBound(Rows(s.cur), |y.t| * (3 * m));
  }

  lemma {:induction false} DeviceRun(y: Sys, s: State, steps: seq<Step>, s': State)
    requires Sound(y) && Shaped(y, s) && Inv(y, s) && Reaches(y, s, steps, s')
    requires forall i :: 0 <= i < |steps| ==> !steps[i].Doorbell?
    ensures Shaped(y, s') && Inv(y, s') && s'.rounds == s.rounds && Work(s') == Work(s) + |steps|
    decreases |steps|
  {
    if |steps| > 0 {
      InvStays(y, s, steps[0]);
      StepWork(y, s, steps[0]);
      DeviceRun(y, After(y, s, steps[0]), steps[1..], s');
    }
  }

  /** When every rank was asked for at least `least` and at most `most` rounds, the devices stop after boundedly many
      steps, whatever their order, and then every rank has completed `least` of them: all its management WQEs executed
      and all its operations sent, delivered and acknowledged. */
  lemma {:induction false} EveryRunCompletes(y: Sys, past: seq<Step>, s: State, steps: seq<Step>, s': State,
          least: nat, most: nat)
    requires Sound(y) && MadeFirst(y) && Light(y) && Answered(y)
    requires Shaped(y, Start(y)) && Reaches(y, Start(y), past, s)
    requires forall r :: 0 <= r < |s.rounds| ==> least <= s.rounds[r] <= most
    requires Shaped(y, s) && Reaches(y, s, steps, s')
    requires forall i :: 0 <= i < |steps| ==> !steps[i].Doorbell?
    ensures |steps| <= Cap(y, most) && Shaped(y, s')
    ensures Stuck(y, s') ==> Complete(y, s', least)
  {
    StartInv(y);
    RunInv(y, Start(y), past, s);
    DeviceRun(y, s, steps, s');
    WorkBound(y, s', most);
    if !Complete(y, s', least) {
      var a := Moves(y, s', least);
    }
  }

  // ---- Exactly when ----

  /** No run stops before the rounds that every rank was asked for are complete. */
  ghost predicate NeverStuckEarly(y: Sys)
    requires Sound(y)
  {
    forall steps, s, rounds: nat {:trigger Reaches(y, Start(y), steps, s), Complete(y, s, rounds)} ::
      Shaped(y, s) && Reaches(y, Start(y), steps, s) && Stuck(y, s)
      && (forall r :: 0 <= r < y.Ranks() ==> s.rounds[r] >= rounds)
      ==> Complete(y, s, rounds)
  }

  lemma {:induction false} ReachesFurther(y: Sys, s0: State, steps: seq<Step>, s: State, a: Step)
    requires Sound(y) && Shaped(y, s0) && Reaches(y, s0, steps, s) && Shaped(y, s) && Enabled(y, s, a)
    ensures Reaches(y, s0, steps + [a], After(y, s, a))
    decreases |steps|
  {
    if |steps| == 0 {
      assert (steps + [a])[1..] == [];
    } else {
      ReachesFurther(y, After(y, s0, steps[0]), steps[1..], s, a);
      assert (steps + [a])[1..] == steps[1..] + [a];
    }
  }

  /** Ring the doorbell of each of the first `n` ranks `times` times. */
  lemma {:induction false} RingAll(y: Sys, n: nat, times: nat) returns (steps: seq<Step>, s: State)
    requires Sound(y) && n <= y.Ranks()
    ensures Shaped(y, Start(y)) && Reaches(y, Start(y), steps, s) && Shaped(y, s)
    ensures forall r :: 0 <= r < y.Ranks() ==> s.rounds[r] == if r < n then times else 0
    ensures s.cur == Start(y).cur
  {
    if n == 0 {
      steps, s := [], Start(y);
    } else {
      steps, s := RingAll(y, n - 1, times);
      steps, s := RingOne(y, steps, s, n - 1, times);
    }
  }

  lemma {:induction false} RingOne(y: Sys, past: seq<Step>, s0: State, r: nat, times: nat)
      returns (steps: seq<Step>, s: State)
    requires Sound(y) && r < y.Ranks() && Shaped(y, Start(y)) && Shaped(y, s0) && Reaches(y, Start(y), past, s0)
    ensures Reaches(y, Start(y), steps, s) && Shaped(y, s)
    ensures s.rounds == s0.rounds[r := s0.rounds[r] + times] && s.cur == s0.cur
    decreases times
  {
    hide Reaches, Wired, Legal, Connected, Passes, SendReg, RecvReg, Along, IndexAt;
    if times == 0 {
      steps, s := past, s0;
    } else {
      ReachesFurther(y, Start(y), past, s0, Doorbell(r));
      steps, s := RingOne(y, past + [Doorbell(r)], After(y, s0, Doorbell(r)), r, times - 1);
    }
  }

  /** The step is an acknowledgement of rank 0's queue `q` from position `from` on. */
  predicate Withheld(s: State, a: Step, q: nat, from: nat) {
    a == Acknowledge(0, q) && |s.cur| > 0 && q < |s.cur[0]| && s.cur[0][q].ak >= from
  }

  /** Nothing but doorbells and withheld acknowledgements can happen. */
  ghost predicate StuckBut(y: Sys, s: State, q: nat, from: nat)
    requires Sound(y) && Shaped(y, s)
  {
    forall a: Step :: Enabled(y, s, a) ==> a.Doorbell? || Withheld(s, a, q, from)
  }

  /** Let the devices run until they stop, withholding acknowledgements of one queue, or of none. */
  lemma {:induction false} Exhaust(y: Sys, past: seq<Step>, s: State, rounds: nat, q: nat, from: nat)
      returns (steps: seq<Step>, s': State)
    requires Sound(y) && Shaped(y, Start(y)) && Shaped(y, s) && Reaches(y, Start(y), past, s) && Inv(y, s)
    requires forall r :: 0 <= r < y.Ranks() ==> s.rounds[r] <= rounds
    ensures Shaped(y, s') && Reaches(y, Start(y), steps, s') && Inv(y, s') && s'.rounds == s.rounds
    ensures StuckBut(y, s', q, from)
    ensures y.Ranks() > 0 && q < |y.t| && s.cur[0][q].ak <= from ==> s'.cur[0][q].ak <= from
    decreases Cap(y, rounds) - Work(s)
  {
    hide Reaches, Wired, Legal, Connected, Passes, SendReg, RecvReg, Along, IndexAt, Inv, Work, Cap;
    WorkBound(y, s, rounds);
    if a: Step :| Enabled(y, s, a) && !a.Doorbell? && !Withheld(s, a, q, from) {
      ReachesFurther(y, Start(y), past, s, a);
      InvStays(y, s, a);
      StepWork(y, s, a);
      WorkBound(y, After(y, s, a), rounds);
      steps, s' := Exhaust(y, past + [a], After(y, s, a), rounds, q, from);
    } else {
      steps, s' := past, s;
    }
  }

  /** A queue that posts more than the first credit cannot complete the first round. */
  lemma {:induction false} HeavyStarves(y: Sys, s: State, r: nat, q: nat)
    requires Sound(y) && Shaped(y, s) && Inv(y, s) && r < y.Ranks() && q < |y.t|
    requires forall r :: 0 <= r < y.Ranks() ==> s.rounds[r] <= 1
    requires Num(PostsOn(q), y.calls) > 0x6fff
    ensures !Complete(y, s, 1)
  {
    var n := |y.calls|;
    var far, p := y.nbr[r][q], Pair(y.t, q);
    assert Ordered(y, s, r, q);
    assert s.pc[far] <= n by {
      BlocksOrdered(s.rounds[far], 1, n);
    }
    FirstCredit(y, far, p, s.pc[far]);
    AlongOnce(PostsOn(q), y.calls);
    if n <= s.cur[r][q].dl {
      AlongUpTo(PostsOn(q), y.calls, n, s.cur[r][q].dl);
    }
  }

  lemma {:induction false} FirstCredit(y: Sys, r: nat, q: nat, x: nat)
    requires Sound(y) && r < y.Ranks() && x <= |y.calls|
    ensures RecvReg(y, r, q, x) <= RECV_BASE
  {
    if x > 0 {
      RecvRegBound(y, r, q, x);
    }
  }

  lemma {:induction false} MetIsTimely(y: Sys, s: State, r: nat, x: nat)
    requires Sound(y) && Shaped(y, s) && Inv(y, s) && 0 <= r < y.Ranks() && x < s.pc[r]
    requires WaitsRecv(y.t, At(y.calls, x)) || WaitsSend(y.t, At(y.calls, x))
    ensures y.cmp.Unsigned? ==> 0 <= IndexAt(y.t, y.blk, y.calls, x)
  {
    assert Met(y, s, r, x);
  }

  /** A wait for a completion that was not yet recorded blocks the first round for good. */
  lemma {:induction false} UntimelyStarves(y: Sys, s: State, r: nat, i: nat)
    requires Sound(y) && Shaped(y, s) && Inv(y, s) && r < y.Ranks() && i < |y.calls|
    requires WaitsRecv(y.t, y.calls[i]) || WaitsSend(y.t, y.calls[i])
    requires RecordedIndex(y.t, y.calls, i) < 0 && y.cmp.Unsigned?
    ensures !Complete(y, s, 1)
  {
    FirstIndex(y.t, y.blk, y.calls, i);
    assert At(y.calls, i) == y.calls[i];
    if i < s.pc[r] {
      MetIsTimely(y, s, r, i);
    }
  }

  /** The first half: what is light and answered never stops early. */
  lemma {:induction false} LightFinishes(y: Sys, steps: seq<Step>, s: State, rounds: nat)
    requires Sound(y) && MadeFirst(y) && Light(y) && Answered(y)
    requires Shaped(y, s) && Shaped(y, Start(y)) && Reaches(y, Start(y), steps, s) && Stuck(y, s)
    requires forall r :: 0 <= r < y.Ranks() ==> s.rounds[r] >= rounds
    ensures Complete(y, s, rounds)
  {
    hide Inv, Enabled, Light, Answered, MadeFirst, Complete;
    StartInv(y);
    RunInv(y, Start(y), steps, s);
    if !Complete(y, s, rounds) {
      var a := Moves(y, s, rounds);
    }
  }

  /** The second half: what is not stops in its first round. */
  lemma {:induction false} OthersStarve(y: Sys) returns (steps: seq<Step>, s: State)
    requires Sound(y) && MadeFirst(y) && y.Ranks() > 0 && !(Light(y) && Answered(y))
    ensures Shaped(y, Start(y)) && Shaped(y, s) && Reaches(y, Start(y), steps, s) && Stuck(y, s)
    ensures (forall r :: 0 <= r < y.Ranks() ==> s.rounds[r] == 1) && !Complete(y, s, 1)
  {
    hide Inv, Enabled, Complete, Sound, MadeFirst, Reaches, Num, RecordedIndex;
    StartInv(y);
    var past, s0 := RingAll(y, y.Ranks(), 1);
    RunInv(y, Start(y), past, s0);
    steps, s := Exhaust(y, past, s0, 1, |y.t|, 0);
    if !Light(y) {
      var q :| 0 <= q < |y.t| && Num(PostsOn(q), y.calls) > RECV_BASE;
      HeavyStarves(y, s, 0, q);
    } else {
      var i :| 0 <= i < |y.calls| && (WaitsRecv(y.t, y.calls[i]) || WaitsSend(y.t, y.calls[i]))
        && RecordedIndex(y.t, y.calls, i) < 0;
      UntimelyStarves(y, s, 0, i);
    }
  }

  /** Deadlock freedom, exactly: no interleaving of any number of ranks and rounds stops early if and only if no
      queue posts more operations in one recording than the constant of the first receive-enable, and, on devices that
      take completion 2^32 - 1 never to come, no wait is recorded before the first completion it could wait for. */
  lemma {:induction false} DeadlockFreeIff(y: Sys)
    requires Sound(y) && MadeFirst(y) && y.Ranks() > 0
    ensures NeverStuckEarly(y) <==> Light(y) && Answered(y)
  {
    hide Inv, Enabled, Light, Answered, MadeFirst, Complete, Sound, Stuck;
    if Light(y) && Answered(y) {
      forall steps, s, rounds: nat | Shaped(y, s) && Reaches(y, Start(y), steps, s) && Stuck(y, s)
          && (forall r :: 0 <= r < y.Ranks() ==> s.rounds[r] >= rounds)
        ensures Complete(y, s, rounds)
      {
        LightFinishes(y, steps, s, rounds);
      }
    } else {
      var steps, s := OthersStarve(y);
    }
  }
}
