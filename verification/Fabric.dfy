/** What the recorded queues make the devices do: any number of ranks, any number of rounds, every interleaving.

    A rank's management queue executes the endless repetition of its recorded calls in order. The state keeps
    positions in that stream: how far the management queue is (`pc`) and, for every slave queue, up to which
    position its operations have left (`ex`), have been delivered to the peer's CQ (`dl`) and have been
    acknowledged at home (`ak`). A call that is not an operation of the queue costs the queue nothing. */
module Fabric {
  import opened Words
  import opened Program
  import opened Counting

  /** How the device reads a wait for completion 2^32 - 1, which is what a wait recorded before any completion names:
      as a completion that is still to come, or, comparing serially, as the one before the first. */
  datatype Compare = Unsigned | Serial

  /** One graph recorded by every rank. `made[r][i]` is the queue rank `r` constructs at call `i`, if that is a
      construction (the two ends of a ring pair are constructed in an order that depends on the rank);
      `nbr[r][q]` is the rank at the far end of queue `q` of rank `r`, whose own end there is the queue paired with `q`. */
  datatype Sys = Sys(t: Topology, blk: seq<nat>, calls: seq<Call>, made: seq<seq<nat>>, nbr: seq<seq<nat>>,
                       cmp: Compare) {
    function Ranks(): nat { |nbr| }
  }

  ghost predicate Connected(y: Sys)
    requires Wired(y.t)
  {
    && |y.made| == |y.nbr|
    && (forall r :: 0 <= r < |y.nbr| ==> |y.made[r]| == |y.calls| && |y.nbr[r]| == |y.t|)
    && (forall r, q :: 0 <= r < |y.nbr| && 0 <= q < |y.t| ==>
          && y.nbr[r][q] < |y.nbr|
          && y.nbr[y.nbr[r][q]][Pair(y.t, q)] == r
          && (y.t[q].kind.Loopback? || y.t[q].kind.Management? ==> y.nbr[r][q] == r))
  }

  ghost predicate Sound(y: Sys) {
    && Wired(y.t) && Legal(y.t, y.calls) && |y.calls| > 0
    && |y.blk| == |y.t|
    && (forall q :: 0 <= q < |y.t| ==> Tallied(y.t, q, y.calls).wqe <= y.blk[q])
    && Connected(y)
  }

  /** Rank `r` constructs queue `q` at call `i`. */
  predicate MadeAt(y: Sys, r: nat, q: nat, i: nat)
    requires Sound(y) && r < y.Ranks() && i < |y.calls|
  {
    y.calls[i].Create? && y.made[r][i] == q
  }

  /** Rank `r` constructs queue `q`, before any operation is posted on the queue it is paired with. */
  ghost predicate Constructs(y: Sys, r: nat, q: nat)
    requires Sound(y) && r < y.Ranks()
  {
    exists i :: 0 <= i < |y.calls| && MadeAt(y, r, q, i) && Num(PostsOn(Pair(y.t, q)), y.calls[..i]) == 0
  }

  ghost predicate MadeFirst(y: Sys)
    requires Sound(y)
  {
    forall r, q :: 0 <= r < y.Ranks() && 1 <= q < |y.t| ==> Constructs(y, r, q)
  }

  datatype Cursor = Cursor(ex: nat, dl: nat, ak: nat)

  datatype State = State(rounds: seq<nat>, pc: seq<nat>, cur: seq<seq<Cursor>>)

  ghost predicate Shaped(y: Sys, s: State) {
    && |s.rounds| == |s.pc| == |s.cur| == y.Ranks()
    && forall r :: 0 <= r < y.Ranks() ==> |s.cur[r]| == |y.t|
  }

  function Start(y: Sys): State {
    State(seq(y.Ranks(), _ => 0), seq(y.Ranks(), _ => 0), seq(y.Ranks(), _ => seq(|y.t|, _ => Cursor(0, 0, 0))))
  }

  /** The management WQEs released by the host: the receive-enables at first, then whole rounds. */
  function Released(y: Sys, s: State, r: nat): nat
    requires Shaped(y, s) && r < y.Ranks()
  {
    if s.rounds[r] == 0 then Creations(y.calls) else s.rounds[r] * |y.calls|
  }

  /** The receive-enable index of queue `q` in round `k`. */
  function Credit(y: Sys, q: nat, k: nat): (n: nat)
    ensures n >= RECV_BASE
  {
    BlocksOrdered(0, k, Tallied(y.t, q, y.calls).cqe);
    RECV_BASE + k * Tallied(y.t, q, y.calls).cqe
  }

  /** Receives that queue `q` of rank `r` may consume after `x` management WQEs. */
  function RecvReg(y: Sys, r: nat, q: nat, x: nat): nat
    requires Sound(y) && r < y.Ranks()
  {
    if x == 0 then 0
    else
      var k, i := Round(y.calls, x - 1), Offset(y.calls, x - 1);
      if MadeAt(y, r, q, i) then Credit(y, q, k)
      else RecvReg(y, r, q, x - 1)
  }

  /** Completions the CQ of queue `q` of rank `r` has produced. */
  function Produced(y: Sys, s: State, r: nat, q: nat): nat
    requires Sound(y) && Shaped(y, s) && r < y.Ranks() && q < |y.t|
  {
    Along(PostsOn(Pair(y.t, q)), y.calls, s.cur[y.nbr[r][q]][Pair(y.t, q)].dl)
    + if HasScq(y.t, q) then 0 else Along(SignalsOn(q), y.calls, s.cur[r][q].ak)
  }

  /** Completions the send CQ of queue `q` of rank `r` has produced. */
  function SendProduced(y: Sys, s: State, r: nat, q: nat): nat
    requires Sound(y) && Shaped(y, s) && r < y.Ranks() && q < |y.t|
  {
    Along(SignalsOn(q), y.calls, s.cur[r][q].ak)
  }

  /** The wait at position `x`, if there is one, finds the completion it names. Index -1 is the completion before the
      first: whether it has been there all along or never comes is up to the device. */
  predicate Passes(y: Sys, s: State, r: nat, x: nat)
    requires Sound(y) && Shaped(y, s) && r < y.Ranks()
  {
    var c := At(y.calls, x);
    assert LegalCall(y.t, y.calls[Offset(y.calls, x)]);
    var index := IndexAt(y.t, y.blk, y.calls, x);
    && (WaitsRecv(y.t, c) || WaitsSend(y.t, c) ==> y.cmp.Unsigned? ==> 0 <= index)
    && (WaitsSend(y.t, c) ==> index < SendProduced(y, s, r, c.q))
    && (WaitsRecv(y.t, c) ==> index < Produced(y, s, r, c.q))
  }

  datatype Step =
    | Doorbell(r: nat)
    | Manage(r: nat)
    | Execute(r: nat, q: nat)
    | Deliver(r: nat, q: nat)
    | Acknowledge(r: nat, q: nat)

  predicate Enabled(y: Sys, s: State, a: Step)
    requires Sound(y) && Shaped(y, s)
  {
    && a.r < y.Ranks()
    && match a
       case Doorbell(r) => true
       case Manage(r) => s.pc[r] < Released(y, s, r) && Passes(y, s, r, s.pc[r])
       case Execute(r, q) =>
         && q < |y.t|
         && var x := s.cur[r][q].ex;
            if PostsOn(q).Takes(At(y.calls, x))
            then IndexAt(y.t, y.blk, y.calls, x) <= SendReg(y.t, y.blk, y.calls, q, s.pc[r])
            else x < s.pc[r]
       case Deliver(r, q) =>
         && q < |y.t|
         && var x := s.cur[r][q].dl;
         && x < s.cur[r][q].ex
         && (PostsOn(q).Takes(At(y.calls, x)) ==>
               Along(PostsOn(q), y.calls, x) < RecvReg(y, y.nbr[r][q], Pair(y.t, q), s.pc[y.nbr[r][q]]))
       case Acknowledge(r, q) => q < |y.t| && s.cur[r][q].ak < s.cur[r][q].dl
  }

  function Moved(s: State, r: nat, q: nat, c: Cursor): State
    requires r < |s.cur| && q < |s.cur[r]|
  {
    s.(cur := s.cur[r := s.cur[r][q := c]])
  }

  function After(y: Sys, s: State, a: Step): (s': State)
    requires Sound(y) && Shaped(y, s) && Enabled(y, s, a)
    ensures Shaped(y, s')
  {
    match a
    case Doorbell(r) => s.(rounds := s.rounds[r := s.rounds[r] + 1])
    case Manage(r) => s.(pc := s.pc[r := s.pc[r] + 1])
    case Execute(r, q) => Moved(s, r, q, s.cur[r][q].(ex := s.cur[r][q].ex + 1))
    case Deliver(r, q) => Moved(s, r, q, s.cur[r][q].(dl := s.cur[r][q].dl + 1))
    case Acknowledge(r, q) => Moved(s, r, q, s.cur[r][q].(ak := s.cur[r][q].ak + 1))
  }

  /** `s` is reached from `s0` by the given steps, each enabled when taken. */
  ghost predicate Reaches(y: Sys, s0: State, steps: seq<Step>, s: State)
    requires Sound(y) && Shaped(y, s0)
    decreases |steps|
  {
    if |steps| == 0 then s == s0
    else Enabled(y, s0, steps[0]) && Reaches(y, After(y, s0, steps[0]), steps[1..], s)
  }

  // ---- The invariant ----

  ghost predicate Ordered(y: Sys, s: State, r: nat, q: nat)
    requires Sound(y) && Shaped(y, s) && r < y.Ranks() && q < |y.t|
  {
    var c := s.cur[r][q];
    var far := y.nbr[r][q];
    && c.ak <= c.dl <= c.ex <= s.pc[r]
    && Along(PostsOn(q), y.calls, c.dl) <= RecvReg(y, far, Pair(y.t, q), s.pc[far])
  }

  /** Local completions that a send-CQ wait of queue `q` at position `x` does not wait for: those that recording missed
      in the rounds before. */
  function Shortfall(y: Sys, q: nat, x: nat): nat
    requires |y.calls| > 0
  {
    Span(Round(y.calls, x), Deficit(q, y.calls))
  }

  /** The dependency a wait at position `x` stands for: everything recorded before it that completes on the CQ it
      names, in this round and in all earlier ones, has completed; for a send CQ all but the shortfall. */
  ghost predicate Met(y: Sys, s: State, r: nat, x: nat)
    requires Sound(y) && Shaped(y, s) && r < y.Ranks()
  {
    var c := At(y.calls, x);
    assert LegalCall(y.t, y.calls[Offset(y.calls, x)]);
    var p := Pair(y.t, c.q);
    && (WaitsRecv(y.t, c) || WaitsSend(y.t, c) ==> y.cmp.Unsigned? ==> 0 <= IndexAt(y.t, y.blk, y.calls, x))
    && (WaitsRecv(y.t, c) ==>
          && NoneFrom(PostsOn(p), y.calls, s.cur[y.nbr[r][c.q]][p].dl, x)
          && (!HasScq(y.t, c.q) ==> NoneFrom(SignalsOn(c.q), y.calls, s.cur[r][c.q].ak, x)))
    && (WaitsSend(y.t, c) ==>
          && Along(SignalsOn(c.q), y.calls, x) <= SendProduced(y, s, r, c.q) + Shortfall(y, c.q, x)
          && (!Uncounted(c.q, y.calls) ==> NoneFrom(SignalsOn(c.q), y.calls, s.cur[r][c.q].ak, x)))
  }

  ghost predicate Inv(y: Sys, s: State)
    requires Sound(y) && Shaped(y, s)
  {
    && (forall r :: 0 <= r < y.Ranks() ==> s.pc[r] <= Released(y, s, r))
    && (forall r, q :: 0 <= r < y.Ranks() && 0 <= q < |y.t| ==> Ordered(y, s, r, q))
    && (forall r, x :: 0 <= r < y.Ranks() && 0 <= x < s.pc[r] ==> Met(y, s, r, x))
  }

  /** Receive credit comes from the receive-enables of the queue and from nothing else: there is none before the first one
      executed, and then that of the last, `last`. */
  lemma {:induction false} CreditIsLast(y: Sys, r: nat, q: nat, x: nat, last: int)
    requires Sound(y) && r < y.Ranks() && -1 <= last < x
    requires last >= 0 ==> At(y.calls, last).Create? && y.made[r][Offset(y.calls, last)] == q
    requires forall p :: last < p < x && At(y.calls, p).Create? ==> y.made[r][Offset(y.calls, p)] != q
    ensures RecvReg(y, r, q, x)
         == if last < 0 then 0 else 0x6fff + Round(y.calls, last) * Tallied(y.t, q, y.calls).cqe
    decreases x
  {
    hide Tallied;
    if last < x - 1 {
      var i := Offset(y.calls, x - 1);
      assert At(y.calls, x - 1) == y.calls[i];
      assert !MadeAt(y, r, q, i);
      CreditIsLast(y, r, q, x - 1, last);
    }
  }

  lemma {:induction false} RecvRegGrows(y: Sys, r: nat, q: nat, x: nat, x': nat)
    requires Sound(y) && r < y.Ranks() && x <= x'
    ensures RecvReg(y, r, q, x) <= RecvReg(y, r, q, x')
    decreases x'
  {
    if x < x' {
      RecvRegGrows(y, r, q, x, x' - 1);
      RecvRegBound(y, r, q, x' - 1);
    }
  }

  /** The credit never exceeds that of the round begun last. */
  lemma {:induction false} RecvRegBound(y: Sys, r: nat, q: nat, x: nat)
    requires Sound(y) && r < y.Ranks()
    ensures RecvReg(y, r, q, x) <= Credit(y, q, Round(y.calls, x))
    ensures x > 0 ==> RecvReg(y, r, q, x) <= Credit(y, q, Round(y.calls, x - 1))
  {
    if x > 0 {
      RecvRegBound(y, r, q, x - 1);
      RoundsOrdered(y.calls, x - 1, x);
      CreditGrows(y, q, Round(y.calls, x - 1), Round(y.calls, x));
    }
  }

  lemma {:induction false} CreditGrows(y: Sys, q: nat, k: nat, l: nat)
    requires k <= l
    ensures Credit(y, q, k) <= Credit(y, q, l)
  {
    BlocksOrdered(k, l, Tallied(y.t, q, y.calls).cqe);
  }
}
