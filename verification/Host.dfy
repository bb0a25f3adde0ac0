/** The host and the devices at once: doorbells and rearms in every interleaving with the steps of the devices, and how long
    a rearm must wait so that no device ever reads an entry of the wrong round. */
module Host {
  import opened Words
  import opened Program
  import opened Counting
  import opened Fabric
  import opened Dependency
  import opened Ordering
  import opened RearmTasks
  import opened WqeLayout
  import opened Recycle
  import opened QpContext
  import opened Replay
  import opened Persistence
  import CommGraph

  /** The management ring of one rank: `d` copies of `n` words, its queue number, and its entries as first written. */
  datatype Ring = Ring(d: nat, n: nat, qpn: nat, log: seq<Wqe>) {
    ghost predicate Valid() {
      d >= 2 && ValidLog(log) && n == 16 * Size(log)
    }
  }

  /** The devices, the rearms every host has done, and the buffers of the management rings. */
  datatype World = World(dev: State, rearms: seq<nat>, bufs: seq<seq<Word>>)

  datatype Move = Device(a: Step) | Rearm(r: nat)

  ghost predicate Fitted(y: Sys, rings: seq<Ring>) {
    Sound(y) && |rings| == y.Ranks() && forall r :: 0 <= r < |rings| ==> rings[r].Valid()
  }

  ghost predicate Formed(y: Sys, rings: seq<Ring>, h: World)
    requires Fitted(y, rings)
  {
    && Shaped(y, h.dev) && |h.rearms| == |h.bufs| == y.Ranks()
    && forall r :: 0 <= r < y.Ranks() ==> |h.bufs[r]| == Span(rings[r].d, rings[r].n)
  }

  /** Every host rings and rearms in turn. The rearm during a round waits until the management queue is done with the
      round `w` before it; with `w` zero it waits for the round itself. */
  ghost predicate May(y: Sys, rings: seq<Ring>, w: nat, h: World, x: Move)
    requires Fitted(y, rings) && Formed(y, rings, h)
  {
    match x
    case Device(a) =>
      && Enabled(y, h.dev, a)
      && (a.Doorbell? ==> h.rearms[a.r] == Prearmed(rings[a.r].d) + h.dev.rounds[a.r])
    case Rearm(r) =>
      && r < y.Ranks() && h.rearms[r] + 1 == Prearmed(rings[r].d) + h.dev.rounds[r]
      && h.dev.rounds[r] * |y.calls| <= h.dev.pc[r] + w * |y.calls|
  }

  ghost function Next(y: Sys, rings: seq<Ring>, w: nat, h: World, x: Move): (h': World)
    requires Fitted(y, rings) && Formed(y, rings, h) && May(y, rings, w, h, x)
    ensures Formed(y, rings, h')
  {
    match x
    case Device(a) => h.(dev := After(y, h.dev, a))
    case Rearm(r) =>
      var g, k, buf := rings[r], h.rearms[r], h.bufs[r];
      Ready(g.log, g.n, g.d, k, |buf|);
      var after := InOrder(buf, TasksOf(g.log), Span(k % g.d, g.n), Span((k + 1) % g.d, g.n));
      h.(rearms := h.rearms[r := k + 1], bufs := h.bufs[r := after])
  }

  /** Nothing was released yet, and every buffer is as `fin` leaves it. */
  ghost predicate Initial(y: Sys, rings: seq<Ring>, h: World)
    requires Fitted(y, rings)
  {
    && Formed(y, rings, h) && h.dev == Start(y)
    && forall r :: 0 <= r < y.Ranks() ==>
      && h.rearms[r] == Prearmed(rings[r].d)
      && AllHold(h.bufs[r], rings[r].d, rings[r].n, rings[r].qpn, rings[r].log, h.rearms[r])
  }

  ghost predicate Leads(y: Sys, rings: seq<Ring>, w: nat, h0: World, moves: seq<Move>, h: World)
    requires Fitted(y, rings) && Formed(y, rings, h0)
    decreases |moves|
  {
    if |moves| == 0 then h == h0
    else May(y, rings, w, h0, moves[0]) && Leads(y, rings, w, Next(y, rings, w, h0, moves[0]), moves[1..], h)
  }

  /** If rank `r` has a management entry to execute, the copy it reads it from is armed for the round of that entry. */
  ghost predicate Right(y: Sys, rings: seq<Ring>, h: World, r: nat)
    requires Fitted(y, rings) && Formed(y, rings, h) && r < y.Ranks()
  {
    var k, d := Round(y.calls, h.dev.pc[r]), rings[r].d;
    h.dev.pc[r] < Released(y, h.dev, r) ==> ArmedFor(k % d, h.rearms[r], d) == k
  }

  ghost predicate AllRight(y: Sys, rings: seq<Ring>, h: World)
    requires Fitted(y, rings) && Formed(y, rings, h)
  {
    forall r :: 0 <= r < y.Ranks() ==> Right(y, rings, h, r)
  }

  /** In every run, from every initial state. */
  ghost predicate AlwaysRight(y: Sys, rings: seq<Ring>, w: nat)
    requires Fitted(y, rings)
  {
    forall h0, moves, h {:trigger Leads(y, rings, w, h0, moves, h)} ::
      Initial(y, rings, h0) && Leads(y, rings, w, h0, moves, h) && Formed(y, rings, h) ==> AllRight(y, rings, h)
  }

  /** How many rounds a rearm may be ahead of the management queue. */
  function Slack(d: nat): nat {
    if d >= 3 then 2 else 1
  }

  // ---- The invariant ----

  /** The rounds that were rearmed over are done with, and at most one rearm is owed. */
  ghost predicate Behaved(y: Sys, h: World, r: nat, d: nat)
    requires Sound(y) && Shaped(y, h.dev) && |h.rearms| == y.Ranks() && r < y.Ranks()
  {
    var k, b := h.rearms[r], h.dev.rounds[r];
    && (k == Prearmed(d) + b || k + 1 == Prearmed(d) + b)
    && k >= Prearmed(d)
    && (k >= d ==> (k - d + 1) * |y.calls| <= h.dev.pc[r])
  }

  ghost predicate HostInv(y: Sys, rings: seq<Ring>, h: World)
    requires Fitted(y, rings)
  {
    && Formed(y, rings, h) && Inv(y, h.dev)
    && forall r :: 0 <= r < y.Ranks() ==>
      && Behaved(y, h, r, rings[r].d)
      && AllHold(h.bufs[r], rings[r].d, rings[r].n, rings[r].qpn, rings[r].log, h.rearms[r])
  }

  /** A rearm in memory. */
  lemma {:induction false} RearmHolds(g: Ring, buf: seq<Word>, k: nat)
    requires g.Valid() && |buf| == Span(g.d, g.n) && AllHold(buf, g.d, g.n, g.qpn, g.log, k)
    ensures Within(FieldsOf(TasksOf(g.log)), Span(k % g.d, g.n), Span((k + 1) % g.d, g.n), |buf|)
    ensures AllHold(InOrder(buf, TasksOf(g.log), Span(k % g.d, g.n), Span((k + 1) % g.d, g.n)),
                    g.d, g.n, g.qpn, g.log, k + 1)
  {
    hide Span, AllHold, InOrder, TasksOf, FieldsOf, Size, ValidLog;
    var src, dst := Span(k % g.d, g.n), Span((k + 1) % g.d, g.n);
    Ready(g.log, g.n, g.d, k, |buf|);
    InOrderPatches(buf, TasksOf(g.log), src, dst);
    RearmArms(buf, InOrder(buf, TasksOf(g.log), src, dst), g.n, g.d, k, g.qpn, g.log);
  }

  /** What a rearm may overwrite is done with, if it waits long enough. */
  lemma {:induction false} WaitedEnough(n: nat, d: nat, b: nat, pc: nat, w: nat)
    requires d >= 2 && w <= Slack(d) && b * n <= pc + w * n
    ensures Prearmed(d) + b >= d ==> (Prearmed(d) + b - d + 1) * n <= pc
  {
    if Prearmed(d) + b >= d {
      var e := Prearmed(d) + b - d + 1;
      assert e + Slack(d) == b;
      BlocksOrdered(w, Slack(d), n);
      assert b * n == e * n + Slack(d) * n by {
        Distribute(n, e, Slack(d));
      }
    }
  }

  lemma {:induction false} DeviceKeeps(y: Sys, rings: seq<Ring>, w: nat, h: World, a: Step)
    requires Fitted(y, rings) && HostInv(y, rings, h) && May(y, rings, w, h, Device(a))
    ensures HostInv(y, rings, Next(y, rings, w, h, Device(a)))
  {
    hide Inv, AllHold, Enabled, Span, Wired, Legal, Connected, Ring.Valid;
    InvStays(y, h.dev, a);
    var dev := After(y, h.dev, a);
    forall r | 0 <= r < y.Ranks()
      ensures Behaved(y, h.(dev := dev), r, rings[r].d)
    {
      assert Behaved(y, h, r, rings[r].d);
      Forward(y, h.dev, a, r);
    }
  }

  lemma {:induction false} Forward(y: Sys, s: State, a: Step, r: nat)
    requires Sound(y) && Shaped(y, s) && Enabled(y, s, a) && r < y.Ranks()
    ensures After(y, s, a).pc[r] >= s.pc[r]
    ensures After(y, s, a).rounds[r] == s.rounds[r] + if a == Doorbell(r) then 1 else 0
  {
  }

  lemma {:induction false} RearmKeeps(y: Sys, rings: seq<Ring>, w: nat, h: World, r: nat)
    requires Fitted(y, rings) && HostInv(y, rings, h) && May(y, rings, w, h, Rearm(r)) && w <= Slack(rings[r].d)
    ensures HostInv(y, rings, Next(y, rings, w, h, Rearm(r)))
  {
    hide Inv, AllHold, Span, Wired, Legal, Connected, InOrder;
    var g, k := rings[r], h.rearms[r];
    RearmHolds(g, h.bufs[r], k);
    WaitedEnough(|y.calls|, g.d, h.dev.rounds[r], h.dev.pc[r], w);
    var h' := Next(y, rings, w, h, Rearm(r));
    forall q | 0 <= q < y.Ranks()
      ensures Behaved(y, h', q, rings[q].d)
    {
      assert Behaved(y, h, q, rings[q].d);
    }
  }

  lemma {:induction false} MoveKeeps(y: Sys, rings: seq<Ring>, w: nat, h: World, x: Move)
    requires Fitted(y, rings) && HostInv(y, rings, h) && Formed(y, rings, h) && May(y, rings, w, h, x)
    requires forall r :: 0 <= r < y.Ranks() ==> w <= Slack(rings[r].d)
    ensures HostInv(y, rings, Next(y, rings, w, h, x))
  {
    hide HostInv, Next, Fitted, Formed;
    if x.Device? {
      DeviceKeeps(y, rings, w, h, x.a);
    } else {
      RearmKeeps(y, rings, w, h, x.r);
    }
  }

  lemma {:induction false} RunKeeps(y: Sys, rings: seq<Ring>, w: nat, h0: World, moves: seq<Move>, h: World)
    requires Fitted(y, rings) && HostInv(y, rings, h0) && Formed(y, rings, h0) && Leads(y, rings, w, h0, moves, h)
    requires forall r :: 0 <= r < y.Ranks() ==> w <= Slack(rings[r].d)
    ensures HostInv(y, rings, h)
    decreases |moves|
  {
    hide HostInv, Fitted, Formed, May, Next;
    if |moves| > 0 {
      MoveKeeps(y, rings, w, h0, moves[0]);
      RunKeeps(y, rings, w, Next(y, rings, w, h0, moves[0]), moves[1..], h);
    }
  }

  lemma {:induction false} InitialInv(y: Sys, rings: seq<Ring>, h: World)
    requires Fitted(y, rings) && Initial(y, rings, h)
    ensures Formed(y, rings, h) && HostInv(y, rings, h)
  {
    hide Inv, AllHold, Span, Wired, Legal, Connected;
    StartInv(y);
  }

  /** The invariant says that what is read is right. */
  lemma {:induction false} InvRight(y: Sys, rings: seq<Ring>, h: World, r: nat)
    requires Fitted(y, rings) && HostInv(y, rings, h) && r < y.Ranks()
    ensures Right(y, rings, h, r)
  {
    hide Inv, AllHold, Span, Wired, Legal, Connected;
    var x, n, d, b := h.dev.pc[r], |y.calls|, rings[r].d, h.dev.rounds[r];
    var j := h.rearms[r];
    assert Behaved(y, h, r, d);
    if x < Released(y, h.dev, r) {
      var k := Round(y.calls, x);
      if b == 0 {
        RoundBelow(y.calls, x, 1);
      } else {
        RoundBelow(y.calls, x, b);
      }
      if j >= d {
        RoundFrom(y.calls, x, j - d + 1);
      }
      ArmedExactly(k, j, d);
    }
  }

  lemma {:induction false} RoundFrom(calls: seq<Call>, x: nat, k: nat)
    requires |calls| > 0 && k * |calls| <= x
    ensures Round(calls, x) >= k
  {
    Position(calls, x);
    if Round(calls, x) < k {
      BlocksOrdered(Round(calls, x), k, |calls|);
    }
  }

  /** What rank `r` then finds in its buffer are the entries of the round it executes. */
  lemma {:induction false} ReadsRound(y: Sys, rings: seq<Ring>, w: nat, h0: World, moves: seq<Move>, h: World, r: nat)
    requires Fitted(y, rings) && Initial(y, rings, h0) && Leads(y, rings, w, h0, moves, h) && r < y.Ranks()
    requires forall r :: 0 <= r < y.Ranks() ==> w <= Slack(rings[r].d)
    requires Formed(y, rings, h) && h.dev.pc[r] < Released(y, h.dev, r)
    ensures var g, k := rings[r], Round(y.calls, h.dev.pc[r]);
      && Span(k % g.d, g.n) + g.n <= |h.bufs[r]|
      && Laid(CopyOf(h.bufs[r], k % g.d, g.n), g.qpn, Advanced(g.log, k))
  {
    hide Inv, Laid, Advanced, Span, Wired, Legal, Connected, Released, Round;
    InitialInv(y, rings, h0);
    RunKeeps(y, rings, w, h0, moves, h);
    InvRight(y, rings, h, r);
    var g, k := rings[r], Round(y.calls, h.dev.pc[r]);
    assert Holds(h.bufs[r], k % g.d, g.d, g.n, g.qpn, g.log, h.rearms[r]);
  }

  /** And the entry it executes is that of its call, with the index of its round. */
  lemma {:induction false} ReadsEntry(y: Sys, rings: seq<Ring>, w: nat, h0: World, moves: seq<Move>, h: World, r: nat,
          t: Topology, info: seq<Info>, blk: seq<nat>, calls: seq<Call>, pad: nat)
    requires Fitted(y, rings) && Initial(y, rings, h0) && Leads(y, rings, w, h0, moves, h) && r < y.Ranks()
    requires forall r :: 0 <= r < y.Ranks() ==> w <= Slack(rings[r].d)
    requires Formed(y, rings, h) && h.dev.pc[r] < Released(y, h.dev, r)
    requires Legal(t, calls) && |calls| == |y.calls| && Matches(t, info, blk, calls)
    requires rings[r].log == LogOf(t, info, 0, Expand(calls)) + Padding(pad)
    ensures var g, k, i := rings[r], Round(y.calls, h.dev.pc[r]), Offset(y.calls, h.dev.pc[r]);
      EntryAt(t, info, g.qpn, h.bufs[r], Span(k % g.d, g.n) + 16 * i, calls[i], Recycled(t, blk, calls, k, i))
  {
    hide Laid, CopyOf, Advanced, Span, Wired, Legal, Connected, Released, Round, EntryAt, LogOf, Padding, Recycled;
    hide Matches, AllHold, Leads, Initial, ValidLog, Size, Expand;
    var g, k, i := rings[r], Round(y.calls, h.dev.pc[r]), Offset(y.calls, h.dev.pc[r]);
    ReadsRound(y, rings, w, h0, moves, h, r);
    FoundInCopy(t, info, blk, calls, g.qpn, g.log, h.bufs[r], k % g.d, g.n, pad, k, i);
  }

  /** The management ring of a finished graph, as a value. */
  ghost function RingIn(g: CommGraph.CommGraph): Ring
    requires |g.ctxs| > 0
    reads g`ctxs, g.ctxs
  {
    var c := g.ctxs[0];
    Ring.Ring(c.dups, c.offset, c.qpn, c.log)
  }

  lemma {:induction false} ArmedRing(c: QpCtx)
    requires c.Armed()
    ensures Ring.Ring(c.dups, c.offset, c.qpn, c.log).Valid()
    ensures |c.sq[..]| == Span(c.dups, c.offset) && AllHold(c.sq[..], c.dups, c.offset, c.qpn, c.log, c.rearms)
  {
  }

  lemma {:induction false} FinishedRing(g: CommGraph.CommGraph)
    requires g.Finished()
    ensures |g.ctxs| > 0 && RingIn(g).Valid() && g.ctxs[0].rearms == Prearmed(g.ctxs[0].dups)
    ensures var c := g.ctxs[0];
      && c.dups > 0 && |c.sq[..]| == Span(c.dups, c.offset)
      && AllHold(c.sq[..], c.dups, c.offset, c.qpn, c.log, c.rearms)
  {
    hide QpCtx.Armed, LogOf, Tallied, Expand, Deficit, Padding, Matches, Legal, Built, Owned, AllHold, Span, QpCtx.Rung;
    hide QpCtx.Told, QpCtx.Unrung, Described, Ring.Valid;
    assert CommGraph.Done(g.t, g.info, g.owner, g.ctxs[0], 0, g.calls);
    ArmedRing(g.ctxs[0]);
  }

  /** Finished graphs, one for each rank, are such a world: their rings, buffers and rearms are where hosts and devices
      begin. */
  lemma {:induction false} FinishedWorld(y: Sys, gs: seq<CommGraph.CommGraph>) returns (rings: seq<Ring>, h: World)
    requires Sound(y) && |gs| == y.Ranks() && forall r :: 0 <= r < |gs| ==> gs[r].Finished()
    ensures Fitted(y, rings) && Initial(y, rings, h)
    ensures forall r :: 0 <= r < |gs| ==>
      |gs[r].ctxs| > 0 && rings[r] == RingIn(gs[r]) && h.bufs[r] == gs[r].ctxs[0].sq[..]
  {
    hide CommGraph.CommGraph.Finished, Ring.Valid, AllHold, Span, Wired, Legal, Connected;
    forall r | 0 <= r < |gs|
      ensures |gs[r].ctxs| > 0 && RingIn(gs[r]).Valid() && gs[r].ctxs[0].rearms == Prearmed(gs[r].ctxs[0].dups)
      ensures var c := gs[r].ctxs[0];
        && c.dups > 0 && |c.sq[..]| == Span(c.dups, c.offset)
        && AllHold(c.sq[..], c.dups, c.offset, c.qpn, c.log, c.rearms)
    {
      FinishedRing(gs[r]);
    }
    var rearms, bufs;
    rings, rearms, bufs := Collected(gs);
    h := World(Start(y), rearms, bufs);
  }

  lemma {:induction false} Collected(gs: seq<CommGraph.CommGraph>)
      returns (rings: seq<Ring>, rearms: seq<nat>, bufs: seq<seq<Word>>)
    requires forall r :: 0 <= r < |gs| ==> |gs[r].ctxs| > 0
    ensures |rings| == |rearms| == |bufs| == |gs|
    ensures forall r :: 0 <= r < |gs| ==>
      rings[r] == RingIn(gs[r]) && rearms[r] == gs[r].ctxs[0].rearms && bufs[r] == gs[r].ctxs[0].sq[..]
  {
    if |gs| == 0 {
      rings, rearms, bufs := [], [], [];
    } else {
      var n := |gs| - 1;
      rings, rearms, bufs := Collected(gs[..n]);
      var c := gs[n].ctxs[0];
      rings, rearms, bufs := rings + [RingIn(gs[n])], rearms + [c.rearms], bufs + [c.sq[..]];
    }
  }

  // ---- What the doorbell tells the device ----

  /** The number of the entry at position `x` on the endless queue of blocks of `b` slots. */
  function EntryNumber(calls: seq<Call>, b: nat, x: nat): nat
    requires |calls| > 0
  {
    Span(Round(calls, x), b) + Offset(calls, x)
  }

  /** A finished graph tells its device, in doorbell record and register, to go exactly as far as the model of the
      running graph releases: entry numbers below the producer index are those of the released positions. Modulo the ring
      an entry number is the slot where the entry of its call and round is found. */
  lemma {:induction false} ReleasesTold(g: CommGraph.CommGraph, y: Sys, s: State, r: nat, x: nat)
    requires g.Running() && |g.calls| > 0 && |y.calls| == |g.calls| && Creations(y.calls) == Creations(g.calls)
    requires Shaped(y, s) && r < y.Ranks() && |g.ctxs| > 0 && s.rounds[r] == g.ctxs[0].bells
    ensures g.ctxs[0].Told(Wrap(g.Ahead())) && g.ctxs[0].sqCnt > 0 && g.ctxs[0].dups > 0
    ensures var c := g.ctxs[0];
      && (EntryNumber(y.calls, c.wqes, x) < g.Ahead() <==> x < Released(y, s, r))
      && 16 * (EntryNumber(y.calls, c.wqes, x) % c.sqCnt)
      == Span(Round(y.calls, x) % c.dups, c.offset) + 16 * Offset(y.calls, x)
  {
    hide *;
    var c := g.ctxs[0];
    MgmtBlock(g);
    RingOf(c);
    ToldAhead(g);
    Below(y.calls, c.wqes, c.bells, x);
    ReleasedIs(y, s, r);
    AheadIs(g);
    SpanMod(Round(y.calls, x), c.dups, c.wqes, Offset(y.calls, x));
    SpanScale(Round(y.calls, x) % c.dups, c.wqes);
    EntryNumberIs(y.calls, c.wqes, x);
  }

  lemma {:induction false} EntryNumberIs(calls: seq<Call>, b: nat, x: nat)
    requires |calls| > 0
    ensures EntryNumber(calls, b, x) == Span(Round(calls, x), b) + Offset(calls, x) && Offset(calls, x) < |calls|
  {
  }

  lemma {:induction false} Below(calls: seq<Call>, w: nat, b: nat, x: nat)
    requires 0 < |calls| <= w
    ensures EntryNumber(calls, w, x) < (if b == 0 then Creations(calls) else Span(b, w))
      <==> x < if b == 0 then Creations(calls) else b * |calls|
  {
    hide Span, Round, Offset, Creations;
    var k, n := Round(calls, x), |calls|;
    Position(calls, x);
    assert Creations(calls) <= n;
    if k < b {
      SpanGrows(k, b, w);
      BlocksOrdered(k, b, n);
    } else {
      SpanGrows(b, k, w);
      BlocksOrdered(b, k, n);
      FirstOrLater(k, w, n);
    }
  }

  lemma {:induction false} FirstOrLater(k: nat, w: nat, n: nat)
    requires n <= w
    ensures k == 0 ==> Span(k, w) == 0
    ensures k > 0 ==> Span(k, w) >= w && k * n >= n
  {
    if k > 0 {
      SpanGrows(0, k, w);
      MulGrows(k, n);
    }
  }

  lemma {:induction false} ReleasedIs(y: Sys, s: State, r: nat)
    requires Shaped(y, s) && r < y.Ranks()
    ensures Released(y, s, r) == if s.rounds[r] == 0 then Creations(y.calls) else s.rounds[r] * |y.calls|
  {
  }

  lemma {:induction false} AheadIs(g: CommGraph.CommGraph)
    requires |g.ctxs| > 0
    ensures g.Ahead() == if g.ctxs[0].bells == 0 then Creations(g.calls) else Span(g.ctxs[0].bells, g.ctxs[0].wqes)
  {
  }

  lemma {:induction false} ToldAhead(g: CommGraph.CommGraph)
    requires g.Running()
    ensures |g.ctxs| > 0 && g.ctxs[0].Told(Wrap(g.Ahead()))
  {
  }

  lemma {:induction false} RingOf(c: QpCtx)
    requires c.Sized()
    ensures c.dups > 0 && c.sqCnt > 0 && Span(c.dups, c.wqes) == c.sqCnt && c.offset == 16 * c.wqes
  {
    assert c.dups > 0 && c.wqes > 0;
    SpanGrows(1, c.dups, c.wqes);
  }

  /** Every call takes one slot of the management queue. */
  lemma {:induction false} MgmtBlock(g: CommGraph.CommGraph)
    requires g.Running() && |g.ctxs| > 0
    ensures g.ctxs[0].Sized() && |g.calls| <= g.ctxs[0].wqes
  {
    hide QpCtx.Armed, QpCtx.Rung, QpCtx.Sized, LogOf, Expand, Padding;
    g.RunningApart();
    MgmtTally(g.t, g.calls);
  }

  lemma {:induction false} MgmtTally(t: Topology, calls: seq<Call>)
    requires Legal(t, calls)
    ensures Tallied(t, 0, calls).wqe == |calls|
  {
    if |calls| > 0 {
      MgmtTally(t, calls[..|calls| - 1]);
      assert LegalCall(t, calls[|calls| - 1]);
    }
  }

  // ---- A rearm that does not wait ----

  lemma {:induction false} Further(y: Sys, rings: seq<Ring>, w: nat, h0: World, moves: seq<Move>, h: World, x: Move)
    requires Fitted(y, rings) && Formed(y, rings, h0) && Leads(y, rings, w, h0, moves, h)
    requires Formed(y, rings, h) && May(y, rings, w, h, x)
    ensures Leads(y, rings, w, h0, moves + [x], Next(y, rings, w, h, x))
    decreases |moves|
  {
    hide Formed, May, Next, Fitted;
    if |moves| == 0 {
      assert (moves + [x])[1..] == [];
    } else {
      Further(y, rings, w, Next(y, rings, w, h0, moves[0]), moves[1..], h, x);
      assert (moves + [x])[1..] == moves[1..] + [x];
    }
  }

  /** Rank `r` is rung and rearmed for `b` rounds while no device moves. */
  lemma {:induction false} Rush(y: Sys, rings: seq<Ring>, w: nat, h0: World, r: nat, b: nat)
      returns (moves: seq<Move>, h: World)
    requires Fitted(y, rings) && Initial(y, rings, h0) && r < y.Ranks() && b <= w
    ensures Formed(y, rings, h) && Leads(y, rings, w, h0, moves, h)
    ensures h.dev.pc == h0.dev.pc && h.dev.rounds[r] == b && h.rearms[r] == Prearmed(rings[r].d) + b
  {
    hide AllHold, Span, Wired, Legal, Connected, Leads, Passes, RecvReg, SendReg;
    if b == 0 {
      moves, h := [], h0;
      NoMoves(y, rings, w, h0);
    } else {
      moves, h := Rush(y, rings, w, h0, r, b - 1);
      Further(y, rings, w, h0, moves, h, Device(Doorbell(r)));
      moves, h := moves + [Device(Doorbell(r))], Next(y, rings, w, h, Device(Doorbell(r)));
      BlocksOrdered(b, w, |y.calls|);
      Further(y, rings, w, h0, moves, h, Rearm(r));
      moves, h := moves + [Rearm(r)], Next(y, rings, w, h, Rearm(r));
    }
  }

  lemma {:induction false} NoMoves(y: Sys, rings: seq<Ring>, w: nat, h: World)
    requires Fitted(y, rings) && Formed(y, rings, h)
    ensures Leads(y, rings, w, h, [], h)
  {
  }

  /** Exactly how long a rearm must wait: in every interleaving of hosts and devices every management entry is read from a
      copy armed for its round, if and only if the rearm during a round waits for the management queue to be done with
      the round two before it, with only two copies the round before it. */
  lemma {:induction false} RightIff(y: Sys, rings: seq<Ring>, w: nat, h0: World)
    requires Fitted(y, rings) && Initial(y, rings, h0)
    ensures AlwaysRight(y, rings, w) <==> forall r :: 0 <= r < y.Ranks() ==> w <= Slack(rings[r].d)
  {
    hide HostInv, AllHold, Leads, Right;
    if forall r :: 0 <= r < y.Ranks() ==> w <= Slack(rings[r].d) {
      forall h1, moves, h | Initial(y, rings, h1) && Leads(y, rings, w, h1, moves, h) && Formed(y, rings, h)
        ensures AllRight(y, rings, h)
      {
        RunRight(y, rings, w, h1, moves, h);
      }
    } else {
      var r :| 0 <= r < y.Ranks() && w > Slack(rings[r].d);
      var moves, h := Rush(y, rings, w, h0, r, Slack(rings[r].d) + 1);
      RushedWrong(y, rings, h0, h, r);
    }
  }

  lemma {:induction false} RunRight(y: Sys, rings: seq<Ring>, w: nat, h0: World, moves: seq<Move>, h: World)
    requires Fitted(y, rings) && Initial(y, rings, h0) && Leads(y, rings, w, h0, moves, h) && Formed(y, rings, h)
    requires forall r :: 0 <= r < y.Ranks() ==> w <= Slack(rings[r].d)
    ensures AllRight(y, rings, h)
  {
    hide HostInv, Right, Leads, Initial;
    InitialInv(y, rings, h0);
    RunKeeps(y, rings, w, h0, moves, h);
    forall r | 0 <= r < y.Ranks()
      ensures Right(y, rings, h, r)
    {
      InvRight(y, rings, h, r);
    }
  }

  /** Round 0 has been rearmed over before its first entry was executed. */
  lemma {:induction false} RushedWrong(y: Sys, rings: seq<Ring>, h0: World, h: World, r: nat)
    requires Fitted(y, rings) && Initial(y, rings, h0) && Formed(y, rings, h) && r < y.Ranks()
    requires h.dev.pc == h0.dev.pc && h.dev.rounds[r] == Slack(rings[r].d) + 1
    requires h.rearms[r] == Prearmed(rings[r].d) + Slack(rings[r].d) + 1
    ensures !AllRight(y, rings, h)
  {
    hide AllHold, Span, Wired, Legal, Connected;
    var d := rings[r].d;
    assert h.rearms[r] == d && h.dev.pc[r] == 0 && Round(y.calls, 0) == 0;
    SmallMod(0, d);
    ArmedExactly(0, d, d);
    MulGrows(h.dev.rounds[r], |y.calls|);
    assert !Right(y, rings, h, r);
  }
}
