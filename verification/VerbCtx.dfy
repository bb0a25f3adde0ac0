/** The context every graph of a process shares: created by the first client, deleted by the last, in every interleaving. */
module VerbCtx {

  datatype Option<T> = None | Some(value: T)

  /** Where a client is between two statements. `Entered` and the like hold the mutex; `Leaving` has released it and is
      about to read the instance. */
  datatype Pc = Outside | Entered | Created | Counted | Leaving | Removing | Discounted | Deleted

  /** `refs[c]` are the instances client `c` was given and has not handed back, `live` those constructed and not deleted.
      `failed` is set if the constructor finds the flag `safe` set: a context initiated twice. */
  datatype State = State(pc: seq<Pc>, refs: seq<seq<Option<nat>>>, lock: Option<nat>, ref: int,
                         instance: Option<nat>, live: set<nat>, next: nat,
                         safe: bool, failed: bool)

  datatype Step =
    | LockToGet(c: nat)
    | Create(c: nat)
    | Count(c: nat)
    | UnlockToGet(c: nat)
    | Return(c: nat)
    | LockToRemove(c: nat)
    | Discount(c: nat)
    | Delete(c: nat)
    | UnlockToRemove(c: nat)

  predicate Shaped(s: State) {
    |s.pc| == |s.refs|
  }

  function Start(n: nat): State {
    State(seq(n, _ => Outside), seq(n, _ => []), None, 0, None, {}, 0, false, false)
  }

  predicate Critical(p: Pc) {
    p != Outside && p != Leaving
  }

  /** `remInstance` is called only by a client that has been given an instance and not handed it back. */
  predicate Enabled(s: State, x: Step)
    requires Shaped(s)
  {
    x.c < |s.pc| &&
    match x
    case LockToGet(c) => s.pc[c] == Outside && s.lock.None?
    case Create(c) => s.pc[c] == Entered
    case Count(c) => s.pc[c] == Created
    case UnlockToGet(c) => s.pc[c] == Counted
    case Return(c) => s.pc[c] == Leaving
    case LockToRemove(c) => s.pc[c] == Outside && s.lock.None? && |s.refs[c]| > 0
    case Discount(c) => s.pc[c] == Removing
    case Delete(c) => s.pc[c] == Discounted
    case UnlockToRemove(c) => s.pc[c] == Deleted
  }

  function At(s: State, c: nat, p: Pc): State
    requires Shaped(s) && c < |s.pc|
  {
    s.(pc := s.pc[c := p])
  }

  function After(s: State, x: Step): (s': State)
    requires Shaped(s) && Enabled(s, x)
    ensures Shaped(s') && |s'.pc| == |s.pc|
  {
    match x
    case LockToGet(c) => At(s, c, Entered).(lock := Some(c))
    case Create(c) =>
      if s.ref != 0 then At(s, c, Created)
      else if s.safe then At(s, c, Created).(failed := true)
      else
        At(s, c, Created).(instance := Some(s.next), live := s.live + {s.next}, next := s.next + 1, safe := true)
    case Count(c) => At(s, c, Counted).(ref := s.ref + 1)
    case UnlockToGet(c) => At(s, c, Leaving).(lock := None)
    case Return(c) => At(s, c, Outside).(refs := s.refs[c := s.refs[c] + [s.instance]])
    case LockToRemove(c) => At(s, c, Removing).(lock := Some(c))
    case Discount(c) =>
      At(s, c, Discounted).(ref := s.ref - 1, refs := s.refs[c := if |s.refs[c]| > 0 then s.refs[c][1..] else []])
    case Delete(c) =>
      if s.ref == 0 then
        At(s, c, Deleted).(instance := None, live := s.live - (if s.instance.Some? then {s.instance.value} else {}),
                           safe := false)
      else At(s, c, Deleted)
    case UnlockToRemove(c) => At(s, c, Outside).(lock := None)
  }

  ghost predicate Reaches(s0: State, steps: seq<Step>, s: State)
    requires Shaped(s0)
    decreases |steps|
  {
    if |steps| == 0 then s == s0
    else Enabled(s0, steps[0]) && Reaches(After(s0, steps[0]), steps[1..], s)
  }

  // ---- The invariant ----

  /** References client `c` is counted for: those it was given, and one it is about to be given. */
  function Held(p: Pc, refs: seq<Option<nat>>): nat {
    |refs| + if p == Counted || p == Leaving then 1 else 0
  }

  function Total(pc: seq<Pc>, refs: seq<seq<Option<nat>>>): nat
    requires |pc| == |refs|
  {
    if |pc| == 0 then 0
    else Total(pc[..|pc| - 1], refs[..|pc| - 1]) + Held(pc[|pc| - 1], refs[|pc| - 1])
  }

  /** The instance exists exactly while it is counted, except between counting and creating or deleting it. */
  ghost predicate Alive(s: State)
    requires Shaped(s)
  {
    && s.live == (if s.instance.Some? then {s.instance.value} else {})
    && (s.instance.Some? ==> s.instance.value < s.next)
    && !s.failed && (s.safe <==> s.instance.Some?)
    && (match s.lock
        case None => s.instance.Some? <==> s.ref > 0
        case Some(c) =>
          && c < |s.pc|
          && (s.pc[c] == Created || s.pc[c] == Discounted ==> s.instance.Some?)
          && (s.pc[c] != Created && s.pc[c] != Discounted ==> (s.instance.Some? <==> s.ref > 0)))
  }

  ghost predicate Locked(s: State)
    requires Shaped(s)
  {
    forall c :: 0 <= c < |s.pc| ==> (Critical(s.pc[c]) <==> s.lock == Some(c))
  }

  /** Every reference given out is to the current instance. */
  ghost predicate Current(s: State)
    requires Shaped(s)
  {
    && (forall c, i :: 0 <= c < |s.refs| && 0 <= i < |s.refs[c]| ==> s.refs[c][i].Some? && s.refs[c][i] == s.instance)
    && (forall c :: 0 <= c < |s.pc| && s.pc[c] == Removing ==> |s.refs[c]| > 0)
  }

  ghost predicate Inv(s: State) {
    Shaped(s) && Alive(s) && Locked(s) && Current(s) && s.ref == Total(s.pc, s.refs)
  }

  lemma {:induction false} TotalMoves(pc: seq<Pc>, refs: seq<seq<Option<nat>>>, c: nat, p: Pc, r: seq<Option<nat>>)
    requires |pc| == |refs| && c < |pc|
    ensures Total(pc[c := p], refs[c := r]) == Total(pc, refs) - Held(pc[c], refs[c]) + Held(p, r)
  {
    var n := |pc| - 1;
    if c < n {
      TotalMoves(pc[..n], refs[..n], c, p, r);
      assert pc[c := p][..n] == pc[..n][c := p] && refs[c := r][..n] == refs[..n][c := r];
    } else {
      assert pc[c := p][..n] == pc[..n] && refs[c := r][..n] == refs[..n];
    }
  }

  /** A client that holds a reference is counted. */
  lemma {:induction false} TotalCovers(pc: seq<Pc>, refs: seq<seq<Option<nat>>>, c: nat)
    requires |pc| == |refs| && c < |pc|
    ensures Held(pc[c], refs[c]) <= Total(pc, refs)
  {
    var n := |pc| - 1;
    if c < n {
      TotalCovers(pc[..n], refs[..n], c);
    }
  }

  lemma {:induction false} StartInv(n: nat)
    ensures Inv(Start(n))
  {
    NobodyCounted(Start(n).pc, Start(n).refs);
  }

  lemma {:induction false} NobodyCounted(pc: seq<Pc>, refs: seq<seq<Option<nat>>>)
    requires |pc| == |refs| && forall c :: 0 <= c < |pc| ==> pc[c] == Outside && refs[c] == []
    ensures Total(pc, refs) == 0
  {
    if |pc| > 0 {
      NobodyCounted(pc[..|pc| - 1], refs[..|pc| - 1]);
    }
  }

  lemma {:induction false} CountKeeps(s: State, x: Step)
    requires Inv(s) && Enabled(s, x)
    ensures After(s, x).ref == Total(After(s, x).pc, After(s, x).refs)
  {
    hide Total, Alive, Locked;
    var c, s' := x.c, After(s, x);
    assert s'.pc == s.pc[c := s'.pc[c]] && s'.refs == s.refs[c := s'.refs[c]];
    TotalMoves(s.pc, s.refs, c, s'.pc[c], s'.refs[c]);
  }

  lemma {:induction false} LockedKeeps(s: State, x: Step)
    requires Inv(s) && Enabled(s, x)
    ensures Locked(After(s, x))
  {
    hide Total, Alive, Current;
  }

  lemma {:induction false} AliveKeeps(s: State, x: Step)
    requires Inv(s) && Enabled(s, x)
    ensures Alive(After(s, x))
  {
    hide Total;
    TotalCovers(s.pc, s.refs, x.c);
  }

  /** Nobody holds a reference while none is counted. */
  lemma {:induction false} NoneHeld(s: State, c: nat)
    requires Inv(s) && c < |s.pc| && s.ref == 0
    ensures s.refs[c] == []
  {
    TotalCovers(s.pc, s.refs, c);
  }

  lemma {:induction false} CurrentKeeps(s: State, x: Step)
    requires Inv(s) && Enabled(s, x)
    ensures Current(After(s, x))
  {
    hide Total;
    TotalCovers(s.pc, s.refs, x.c);
    if s.ref == 0 {
      forall c | 0 <= c < |s.pc|
        ensures s.refs[c] == []
      {
        NoneHeld(s, c);
      }
    }
  }

  lemma {:induction false} StepKeeps(s: State, x: Step)
    requires Inv(s) && Enabled(s, x)
    ensures Inv(After(s, x))
  {
    hide Total, Alive, Locked, Current;
    CountKeeps(s, x);
    LockedKeeps(s, x);
    AliveKeeps(s, x);
    CurrentKeeps(s, x);
  }

  lemma {:induction false} RunKeeps(s0: State, steps: seq<Step>, s: State)
    requires Inv(s0) && Reaches(s0, steps, s)
    ensures Inv(s)
    decreases |steps|
  {
    if |steps| > 0 {
      StepKeeps(s0, steps[0]);
      RunKeeps(After(s0, steps[0]), steps[1..], s);
    }
  }

  /** References given out or about to be, over all clients. */
  function Holders(s: State): nat
    requires Shaped(s)
  {
    Total(s.pc, s.refs)
  }

  /** Singleton safety: in every interleaving, the count is the number of references held, no instance is initiated
      while another exists, at most one is live, it is live exactly while the count is positive whenever nobody is
      inside, and every reference held is to it. */
  lemma {:induction false} Singleton(n: nat, steps: seq<Step>, s: State)
    requires Reaches(Start(n), steps, s)
    ensures Shaped(s) && s.ref == Holders(s)
    ensures |s.live| <= 1 && !s.failed
    ensures s.lock.None? ==> (|s.live| == 1 <==> s.ref > 0)
    ensures forall c, i :: 0 <= c < |s.refs| && 0 <= i < |s.refs[c]| ==>
      s.refs[c][i].Some? && s.live == {s.refs[c][i].value}
  {
    StartInv(n);
    RunKeeps(Start(n), steps, s);
  }

  /** The unlocked read at the end of `getInstance`, whatever other clients did since the mutex was released, yields the
      live instance, and that instance stays the live one until this client hands its reference back. */
  lemma {:induction false} ReadIsLive(n: nat, steps: seq<Step>, s: State, c: nat)
    requires Reaches(Start(n), steps, s) && Shaped(s) && Enabled(s, Return(c))
    ensures s.instance.Some? && s.live == {s.instance.value}
    ensures After(s, Return(c)).refs[c] == s.refs[c] + [s.instance]
  {
    hide Total;
    StartInv(n);
    RunKeeps(Start(n), steps, s);
    TotalCovers(s.pc, s.refs, c);
  }

  /** Between counting itself and handing its reference back, a client sees one and the same instance. */
  lemma {:induction false} KeptAlive(s: State, x: Step, c: nat)
    requires Inv(s) && c < |s.pc| && Enabled(s, x)
    requires Held(s.pc[c], s.refs[c]) > 0 && Held(After(s, x).pc[c], After(s, x).refs[c]) > 0
    ensures After(s, x).instance == s.instance && After(s, x).live == s.live && s.instance.Some?
  {
    hide Total;
    StepKeeps(s, x);
    TotalCovers(s.pc, s.refs, c);
    TotalCovers(After(s, x).pc, After(s, x).refs, c);
  }

  // ---- Nobody waits for ever ----

  /** Steps of clients inside a call: all but taking the mutex. */
  predicate Inside(x: Step) {
    !x.LockToGet? && !x.LockToRemove?
  }

  /** Steps a client has to take before its call is over. */
  function Left(p: Pc): nat {
    match p
    case Outside => 0
    case Entered => 4
    case Created => 3
    case Counted => 2
    case Leaving => 1
    case Removing => 3
    case Discounted => 2
    case Deleted => 1
  }

  function AllLeft(pc: seq<Pc>): nat {
    if |pc| == 0 then 0 else AllLeft(pc[..|pc| - 1]) + Left(pc[|pc| - 1])
  }

  lemma {:induction false} LeftMoves(pc: seq<Pc>, c: nat, p: Pc)
    requires c < |pc|
    ensures AllLeft(pc[c := p]) == AllLeft(pc) - Left(pc[c]) + Left(p)
  {
    var n := |pc| - 1;
    if c < n {
      LeftMoves(pc[..n], c, p);
      assert pc[c := p][..n] == pc[..n][c := p];
    } else {
      assert pc[c := p][..n] == pc[..n];
    }
  }

  lemma {:induction false} LeftBound(pc: seq<Pc>)
    ensures AllLeft(pc) <= 4 * |pc|
    ensures AllLeft(pc) == 0 ==> forall c :: 0 <= c < |pc| ==> pc[c] == Outside
  {
    if |pc| > 0 {
      LeftBound(pc[..|pc| - 1]);
    }
  }

  /** A client inside a call can always take its next step itself. */
  lemma {:induction false} NextStep(s: State, c: nat) returns (x: Step)
    requires Shaped(s) && c < |s.pc| && s.pc[c] != Outside
    ensures x.c == c && Inside(x) && Enabled(s, x)
  {
    match s.pc[c]
    case Entered => x := Create(c);
    case Created => x := Count(c);
    case Counted => x := UnlockToGet(c);
    case Leaving => x := Return(c);
    case Removing => x := Discount(c);
    case Discounted => x := Delete(c);
    case Deleted => x := UnlockToRemove(c);
  }

  lemma {:induction false} InsideShrinks(s: State, x: Step)
    requires Shaped(s) && Enabled(s, x) && Inside(x)
    ensures AllLeft(After(s, x).pc) == AllLeft(s.pc) - 1
  {
    hide AllLeft;
    var pc := After(s, x).pc;
    assert pc == s.pc[x.c := pc[x.c]];
    LeftMoves(s.pc, x.c, pc[x.c]);
  }

  /** Every call is over and the mutex is free: any client can get the instance, any that has one can hand it back. */
  ghost predicate Free(s: State)
    requires Shaped(s)
  {
    && s.lock.None?
    && forall c :: 0 <= c < |s.pc| ==>
      && s.pc[c] == Outside && Enabled(s, LockToGet(c))
      && (|s.refs[c]| > 0 ==> Enabled(s, LockToRemove(c)))
  }

  lemma {:induction false} OutsideIsFree(s: State)
    requires Inv(s) && forall c :: 0 <= c < |s.pc| ==> s.pc[c] == Outside
    ensures Free(s)
  {
    hide Total, Current;
  }

  lemma {:induction false} Drained(s: State, steps: seq<Step>, s': State)
    requires Inv(s) && Reaches(s, steps, s') && forall i :: 0 <= i < |steps| ==> Inside(steps[i])
    ensures Inv(s') && AllLeft(s.pc) == AllLeft(s'.pc) + |steps|
    decreases |steps|
  {
    hide Inv, AllLeft;
    if |steps| > 0 {
      ShapedInv(s);
      StepKeeps(s, steps[0]);
      InsideShrinks(s, steps[0]);
      Drained(After(s, steps[0]), steps[1..], s');
    }
  }

  lemma {:induction false} ShapedInv(s: State)
    requires Inv(s)
    ensures Shaped(s)
  {
  }

  /** No client waits for ever. In whatever order the clients inside a call take their steps from a reachable state, there
      are at most four for each client, and when no more can be taken every call is over, the mutex is free, and every
      client can take it. */
  lemma {:induction false} EndsFree(n: nat, past: seq<Step>, s: State, steps: seq<Step>, s': State)
    requires Reaches(Start(n), past, s) && Shaped(s) && Reaches(s, steps, s') && Shaped(s')
    requires forall i :: 0 <= i < |steps| ==> Inside(steps[i])
    ensures |s'.pc| == |s.pc| && |steps| <= 4 * |s.pc|
    ensures (forall x: Step :: Inside(x) ==> !Enabled(s', x)) <==> Free(s')
  {
    hide Inv, AllLeft, Free, Enabled, Reaches, Inside;
    StartInv(n);
    RunKeeps(Start(n), past, s);
    Drained(s, steps, s');
    LeftBound(s.pc);
    SameClients(s, steps, s');
    EndIsFree(s');
  }

  lemma {:induction false} EndIsFree(s: State)
    requires Inv(s) && Shaped(s)
    ensures (forall x: Step :: Inside(x) ==> !Enabled(s, x)) <==> Free(s)
  {
    hide Inv;
    if forall x: Step :: Inside(x) ==> !Enabled(s, x) {
      forall c | 0 <= c < |s.pc|
        ensures s.pc[c] == Outside
      {
        if s.pc[c] != Outside {
          var x := NextStep(s, c);
        }
      }
      OutsideIsFree(s);
    }
  }

  lemma {:induction false} SameClients(s: State, steps: seq<Step>, s': State)
    requires Shaped(s) && Reaches(s, steps, s')
    ensures |s'.pc| == |s.pc|
    decreases |steps|
  {
    if |steps| > 0 {
      SameClients(After(s, steps[0]), steps[1..], s');
    }
  }

  /** Such an end is reached from every reachable state. */
  lemma {:induction false} CanEnd(s: State) returns (steps: seq<Step>, s': State)
    requires Inv(s) && Shaped(s)
    ensures Reaches(s, steps, s') && Shaped(s') && Free(s') && forall i :: 0 <= i < |steps| ==> Inside(steps[i])
    decreases AllLeft(s.pc)
  {
    hide Inv, AllLeft, Free;
    if c :| 0 <= c < |s.pc| && s.pc[c] != Outside {
      var x := NextStep(s, c);
      InsideShrinks(s, x);
      StepKeeps(s, x);
      var more;
      more, s' := CanEnd(After(s, x));
      steps := [x] + more;
      assert steps[1..] == more;
    } else {
      steps, s' := [], s;
      OutsideIsFree(s);
    }
  }
}
