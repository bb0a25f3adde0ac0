/** The graphs that ring pairs, doubling queues and loopback queues make, on any number of ranks. */
module RingGraph {
  import opened Program
  import opened Rounding
  import opened Counting
  import opened Fabric
  import opened Progress
  import opened Completion
  import opened Ordering
  import Handshake
  import CommGraph

  /** Queues by the numbers of an odd rank: the first queue of a ring pair goes to the right, the second to the left. */
  predicate ToTheRight(t: Topology, q: nat)
    requires q < |t|
  {
    RingQueues(t, q) % 2 == 0
  }

  /** By those numbers, the queue that rank `r` registers under number `q`: an even rank constructs the two ends of a ring
      pair in the opposite order. */
  function Name(t: Topology, r: nat, q: nat): nat {
    if r % 2 == 1 then q else Pair(t, q)
  }

  /** The ranks that callers choose as the peers of doubling queues choose them back. */
  ghost predicate Peered(t: Topology, peer: seq<seq<nat>>, n: nat) {
    && |peer| == n && (forall r :: 0 <= r < n ==> |peer[r]| == |t|)
    && forall r, q :: 0 <= r < n && 0 <= q < |t| && t[q].kind.Doubling? ==> peer[r][q] < n && peer[peer[r][q]][q] == r
  }

  /** The rank at the far end of queue `q` of rank `r`. */
  function Far(t: Topology, peer: seq<seq<nat>>, n: nat, r: nat, q: nat): nat
    requires Wired(t) && r < n && q < |t| && |peer| == n && |peer[r]| == |t|
  {
    if t[q].kind.Doubling? then peer[r][q]
    else if !t[q].kind.Ring? then r
    else if ToTheRight(t, q) then (r + 1) % n else (r - 1 + n) % n
  }

  /** The system of `n` ranks in a ring. */
  function RingSys(t: Topology, peer: seq<seq<nat>>, blk: seq<nat>, calls: seq<Call>,
                   n: nat, cmp: Compare): Sys
    requires Wired(t) && |peer| == n && forall r :: 0 <= r < n ==> |peer[r]| == |t|
  {
    Sys(t, blk, calls,
        seq(n, r requires 0 <= r < n => seq(|calls|, i requires 0 <= i < |calls| => Name(t, r, calls[i].q))),
        seq(n, r requires 0 <= r < n => seq(|t|, q requires 0 <= q < |t| => Far(t, peer, n, r, q))),
        cmp)
  }

  lemma {:induction false} PairSides(t: Topology, q: nat)
    requires Wired(t) && Adjacent(t) && q < |t| && t[q].kind.Ring?
    ensures t[q].pair == if ToTheRight(t, q) then q + 1 else q - 1
    ensures ToTheRight(t, t[q].pair) <==> !ToTheRight(t, q)
  {
  }

  lemma {:induction false} FarBack(t: Topology, peer: seq<seq<nat>>, n: nat, r: nat, q: nat)
    requires Wired(t) && Adjacent(t) && Peered(t, peer, n) && r < n && q < |t|
    ensures Far(t, peer, n, r, q) < n
    ensures t[q].kind.Loopback? || t[q].kind.Management? ==> Far(t, peer, n, r, q) == r
    ensures Far(t, peer, n, Far(t, peer, n, r, q), t[q].pair) == r
  {
    hide RingQueues, ToTheRight, Adjacent;
    Handshake.Neighbours(n, r);
    if t[q].kind.Ring? {
      PairSides(t, q);
    }
  }

  lemma {:induction false} RingSound(t: Topology, peer: seq<seq<nat>>, blk: seq<nat>, calls: seq<Call>,
          n: nat, cmp: Compare)
    requires Wired(t) && Adjacent(t) && Peered(t, peer, n) && Legal(t, calls) && |calls| > 0 && CreatedFirst(t, calls)
    requires |blk| == |t| && forall q :: 0 <= q < |t| ==> Tallied(t, q, calls).wqe <= blk[q]
    ensures var y := RingSys(t, peer, blk, calls, n, cmp); Sound(y) && MadeFirst(y) && y.Ranks() == n
  {
    hide Tallied, Adjacent, RingQueues, ToTheRight, Far;
    var y := RingSys(t, peer, blk, calls, n, cmp);
    forall r, q | 0 <= r < n && 0 <= q < |t|
      ensures y.nbr[r][q] < n && y.nbr[y.nbr[r][q]][t[q].pair] == r
      ensures t[q].kind.Loopback? || t[q].kind.Management? ==> y.nbr[r][q] == r
    {
      FarBack(t, peer, n, r, q);
    }
    assert Sound(y);
    forall r, q | 0 <= r < n && 1 <= q < |t|
      ensures Constructs(y, r, q)
    {
      var p := if r % 2 == 1 then q else t[q].pair;
      assert CreatedAt(t, calls, p);
      var i :| 0 <= i < |calls| && calls[i] == Create(p)
        && Num(PostsOn(p), calls[..i]) == 0 && Num(PostsOn(t[p].pair), calls[..i]) == 0;
      assert MadeAt(y, r, q, i);
    }
  }

  /** SPMD progress on a ring: whatever program all ranks record, with any number of ranks and rounds and in every
      interleaving, the ranks never stop before all rounds they started are complete, exactly when no queue posts
      more than the first credit and no wait names a completion that the devices take never to come. Then also the
      dependency order holds exactly when no wait is for the send CQ of a queue with uncounted writes. */
  lemma {:induction false} RingProgress(t: Topology, peer: seq<seq<nat>>, blk: seq<nat>, calls: seq<Call>,
          n: nat, cmp: Compare)
    requires Wired(t) && Adjacent(t) && Peered(t, peer, n) && Legal(t, calls) && |calls| > 0 && CreatedFirst(t, calls) && n > 0
    requires |blk| == |t| && forall q :: 0 <= q < |t| ==> Tallied(t, q, calls).wqe <= blk[q]
    ensures var y := RingSys(t, peer, blk, calls, n, cmp);
      Sound(y) && MadeFirst(y) && y.Ranks() == n && (NeverStuckEarly(y) <==> Light(y) && Answered(y))
      && (Light(y) && Answered(y) ==> (OrderKept(y) <==> AllCounted(y)))
  {
    hide Tallied, NeverStuckEarly, Light, Answered, OrderKept, AllCounted;
    RingSound(t, peer, blk, calls, n, cmp);
    var y := RingSys(t, peer, blk, calls, n, cmp);
    DeadlockFreeIff(y);
    if Light(y) && Answered(y) {
      OrderKeptIff(y);
    }
  }

  // ---- The handshake connects the queues of the system ----

  /** Exchange and barrier of a ring queue are with the rank at the far end of that queue in the system. */
  lemma {:induction false} PeerIsFar(h: Handshake.Ring, t: Topology, peer: seq<seq<nat>>, n: nat, r: nat, q: nat, i: nat)
    requires h.Valid() && h.n == n && Wired(t) && Adjacent(t) && Peered(t, peer, n) && r < n
    requires q < |t| && t[q].kind.Ring? && i / 2 == RingQueues(t, q)
    ensures Name(t, r, q) < |t| && t[Name(t, r, q)].kind.Ring?
    ensures Far(t, peer, n, r, Name(t, r, q)) == h.Peer(r, i)
    ensures h.GoesRight(r, i) <==> ToTheRight(t, Name(t, r, q))
  {
    hide Adjacent, RingQueues, Handshake.Ring.Valid, Handshake.Ring.Tag;
    PairSides(t, q);
  }

  /** The ring queue of each number is there. */
  lemma {:induction false} RingQueueAt(t: Topology, n: nat, m: nat) returns (q: nat)
    requires n <= |t| && m < RingQueues(t, n)
    ensures q < n && t[q].kind.Ring? && RingQueues(t, q) == m
  {
    if t[n - 1].kind.Ring? && RingQueues(t, n - 1) == m {
      q := n - 1;
    } else {
      q := RingQueueAt(t, n - 1, m);
    }
  }

  /** In every run of the handshake of an even number of ranks, a meeting of `a` and `b` joins the two ends of one link of
      the system: the queue that `a` then connects leads to `b`, that of `b` leads to `a`, and they are a pair. */
  lemma {:induction false} MeetingsLink(h: Handshake.Ring, steps: seq<Handshake.Step>, s: Handshake.State, a: nat, b: nat,
          t: Topology, peer: seq<seq<nat>>, blk: seq<nat>, calls: seq<Call>, n: nat, cmp: Compare) returns (q: nat)
    requires h.Valid() && h.n == n && |h.tags| == RingQueues(t, |t|)
    requires n % 2 == 0 && Wired(t) && Adjacent(t) && Peered(t, peer, n)
    requires Handshake.Reaches(h, Handshake.Start(h), steps, s) && |s.pc| == n
    requires Handshake.Enabled(h, s, Handshake.Meet(a, b))
    ensures q < |t| && t[q].kind.Ring? && RingQueues(t, q) == s.pc[a].i / 2 == s.pc[b].i / 2
    ensures var y := RingSys(t, peer, blk, calls, n, cmp);
      var p, p' := Name(t, a, q), Name(t, b, q);
      p < |t| && p' == t[p].pair < |t| && y.nbr[a][p] == b && y.nbr[b][p'] == a
  {
    hide RingQueues, ToTheRight, Adjacent, Handshake.Inv, Handshake.Reaches, Far;
    Handshake.StartInv(h);
    Handshake.RunKeeps(h, Handshake.Start(h), steps, s);
    var i := s.pc[a].i;
    Handshake.Joined(h, s, a, b);
    InMeeting(h, s, a);
    q := RingQueueAt(t, |t|, i / 2);
    PeerIsFar(h, t, peer, n, a, q, i);
    PeerIsFar(h, t, peer, n, b, q, i);
    Handshake.Neighbours(n, a);
    Handshake.Neighbours(n, b);
  }

  lemma {:induction false} InMeeting(h: Handshake.Ring, s: Handshake.State, r: nat)
    requires h.Valid() && Handshake.Inv(h, s) && r < h.n && s.pc[r].Meeting?
    ensures s.pc[r].i / 2 < |h.tags|
  {
  }

  // ---- The graphs of odd and even ranks ----

  /** A call as an even rank records it, where an odd rank records `c`: constructions in the same order of registration
      numbers, which name the two ends of a ring pair the other way round, so that everything else names the other. */
  function MirrorCall(t: Topology, c: Call): Call {
    match c
    case Create(q) => c
    case Post(q, op) => Call.Post(Pair(t, q), op)
    case Wait(q) => Wait(Pair(t, q))
    case WaitSend(q) => WaitSend(Pair(t, q))
  }

  function Mirror(t: Topology, calls: seq<Call>): (r: seq<Call>)
    ensures |r| == |calls|
  {
    if |calls| == 0 then []
    else Mirror(t, calls[..|calls| - 1]) + [MirrorCall(t, calls[|calls| - 1])]
  }

  lemma {:induction false} MirrorAt(t: Topology, calls: seq<Call>, i: nat)
    requires i <= |calls|
    ensures Mirror(t, calls)[..i] == Mirror(t, calls[..i])
    ensures i < |calls| ==> Mirror(t, calls)[i] == MirrorCall(t, calls[i])
  {
    var n := |calls| - 1;
    if i < n {
      MirrorAt(t, calls[..n], i);
      assert calls[..n][..i] == calls[..i];
      assert Mirror(t, calls)[..n] == Mirror(t, calls[..n]);
      assert Mirror(t, calls)[..i] == Mirror(t, calls)[..n][..i];
    } else if i == n + 1 {
      assert calls[..i] == calls && Mirror(t, calls)[..i] == Mirror(t, calls);
    }
  }

  /** Every call of the graph interface, made on the corresponding queue by both ranks, keeps the two recordings
      mirrored: a queue of its own, a ring pair, an operation, a wait. */
  lemma {:induction false} MirrorGrows(t: Topology, u: Topology, calls: seq<Call>, c: Call)
    requires Wired(t) && t <= u && Legal(t, calls)
    ensures Mirror(u, calls + [c]) == Mirror(t, calls) + [MirrorCall(u, c)]
  {
    MirrorExtends(t, u, calls);
    MirrorMore(u, calls, c);
  }

  lemma {:induction false} MirrorExtends(t: Topology, u: Topology, calls: seq<Call>)
    requires t <= u && Legal(t, calls)
    ensures Mirror(u, calls) == Mirror(t, calls)
  {
    if |calls| > 0 {
      MirrorExtends(t, u, calls[..|calls| - 1]);
      assert LegalCall(t, calls[|calls| - 1]);
    }
  }

  /** What a program asks of the graph interface; queues by the numbers of an odd rank, whose user holds the same
      handles, to the right and to the left, as that of an even rank. */
  datatype Request = Own(kind: Kind) | RingPair | Record(call: Call)

  /** An odd and an even rank have recorded the same program so far. */
  ghost predicate Mirrored(odd: CommGraph.CommGraph, even: CommGraph.CommGraph)
    reads odd, odd.qps, even, even.qps
  {
    && odd != even && odd.Recording() && even.Recording()
    && (forall i, j :: 0 <= i < |odd.qps| && 0 <= j < |even.qps| ==> odd.qps[i] != even.qps[j])
    && even.t == odd.t && even.calls == Mirror(odd.t, odd.calls)
  }

  lemma {:induction false} RecordingIs(g: CommGraph.CommGraph)
    requires g.Recording()
    ensures Wired(g.t) && Legal(g.t, g.calls) && |g.qps| == |g.t|
    ensures forall q :: 0 <= q < |g.t| ==> g.qps[q].pair.id == Pair(g.t, q)
  {
    forall q | 0 <= q < |g.t|
      ensures g.qps[q].pair.id == Pair(g.t, q)
    {
      assert g.Registered(q) && g.Registered(g.t[q].pair);
    }
  }

  lemma {:induction false} MirrorTwo(t: Topology, u: Topology, calls: seq<Call>)
    requires Wired(t) && t <= u && |u| == |t| + 2 && Legal(t, calls)
    ensures var n := |t|;
      Mirror(u, calls + [Create(n)] + [Create(n + 1)]) == Mirror(t, calls) + [Create(n)] + [Create(n + 1)]
  {
    hide Mirror;
    var n := |t|;
    var one := calls + [Create(n)];
    MirrorGrows(t, u, calls, Create(n));
    assert one + [Create(n + 1)] == calls + [Create(n)] + [Create(n + 1)];
    MirrorMore(u, one, Create(n + 1));
  }

  lemma {:induction false} MirrorMore(t: Topology, calls: seq<Call>, c: Call)
    ensures Mirror(t, calls + [c]) == Mirror(t, calls) + [MirrorCall(t, c)]
  {
    assert (calls + [c])[..|calls|] == calls;
  }

  /** One request, made on both ranks. */
  method Serve(odd: CommGraph.CommGraph, even: CommGraph.CommGraph, x: Request)
    requires Mirrored(odd, even)
    requires x.Own? ==> x.kind.Loopback? || x.kind.Doubling?
    requires x.Record? ==> !x.call.Create? && LegalCall(odd.t, x.call)
    modifies odd, odd.qps, even, even.qps
    ensures Mirrored(odd, even)
    ensures x.Record? ==> odd.calls == old(odd.calls) + [x.call] && odd.t == old(odd.t)
  {
    hide Mirrored;
    match x
    case Own(kind) => ServeOwn(odd, even, kind);
    case RingPair => ServePair(odd, even);
    case Record(c) => ServeCall(odd, even, c);
  }

  method ServeOwn(odd: CommGraph.CommGraph, even: CommGraph.CommGraph, kind: Kind)
    requires Mirrored(odd, even) && (kind.Loopback? || kind.Doubling?)
    modifies odd, odd.qps, even, even.qps
    ensures Mirrored(odd, even)
  {
    hide CommGraph.CommGraph.Recording, Mirror, Wired, Legal;
    ghost var t, calls := odd.t, odd.calls;
    RecordingIs(odd);
    var mine := odd.NewSelfPaired(kind);
    var its := even.NewSelfPaired(kind);
    MirrorGrows(t, odd.t, calls, Create(|t|));
  }

  method ServePair(odd: CommGraph.CommGraph, even: CommGraph.CommGraph)
    requires Mirrored(odd, even)
    modifies odd, odd.qps, even, even.qps
    ensures Mirrored(odd, even)
  {
    hide CommGraph.CommGraph.Recording, Mirror, Wired, Legal;
    ghost var t, calls := odd.t, odd.calls;
    RecordingIs(odd);
    var right, left := odd.NewRingPair(1);
    var right', left' := even.NewRingPair(0);
    MirrorTwo(t, odd.t, calls);
  }

  /** The even rank's call is on the other end of the pair. */
  lemma {:induction false} Answers(odd: CommGraph.CommGraph, c: Call)
    requires odd.Recording() && !c.Create? && LegalCall(odd.t, c)
    ensures c.q < |odd.qps| && 1 <= odd.qps[c.q].pair.id < |odd.t|
    ensures var p := odd.qps[c.q].pair.id;
      && MirrorCall(odd.t, c) == (if c.Post? then Call.Post(p, c.op) else if c.Wait? then Wait(p) else WaitSend(p))
      && LegalCall(odd.t, MirrorCall(odd.t, c))
    ensures Mirror(odd.t, odd.calls + [c]) == Mirror(odd.t, odd.calls) + [MirrorCall(odd.t, c)]
  {
    hide Mirror;
    RecordingIs(odd);
    MirrorMore(odd.t, odd.calls, c);
    MirrorLegal(odd.t, c);
  }

  method ServeCall(odd: CommGraph.CommGraph, even: CommGraph.CommGraph, c: Call)
    requires Mirrored(odd, even) && !c.Create? && LegalCall(odd.t, c)
    modifies odd, odd.qps, even, even.qps
    ensures Mirrored(odd, even)
    ensures odd.calls == old(odd.calls) + [c] && odd.t == old(odd.t)
  {
    hide CommGraph.CommGraph.Recording, Mirror, MirrorCall, Wired, Legal;
    Answers(odd, c);
    var p := odd.qps[c.q].pair.id;
    if c.Post? {
      odd.Post(c.q, c.op);
      even.Post(p, c.op);
    } else if c.Wait? {
      odd.Wait(c.q);
      even.Wait(p);
    } else {
      odd.WaitSend(c.q);
      even.WaitSend(p);
    }
  }

  /** What an even rank counts for one end of a pair is what an odd rank counts for the other. */
  lemma {:induction false} MirrorTallies(t: Topology, q: nat, calls: seq<Call>)
    requires Wired(t) && Legal(t, calls) && q < |t|
    ensures Legal(t, Mirror(t, calls))
    ensures Tallied(t, q, Mirror(t, calls)) == Tallied(t, Pair(t, q), calls)
    ensures Deficit(q, Mirror(t, calls)) == Deficit(Pair(t, q), calls)
  {
    if |calls| > 0 {
      var front, c := calls[..|calls| - 1], calls[|calls| - 1];
      MirrorTallies(t, q, front);
      assert LegalCall(t, c);
      assert Mirror(t, calls)[..|front|] == Mirror(t, front);
      MirrorLegal(t, c);
      MirrorNote(t, q, Tallied(t, Pair(t, q), front), c);
    }
  }

  lemma {:induction false} MirrorLegal(t: Topology, c: Call)
    requires Wired(t) && LegalCall(t, c)
    ensures LegalCall(t, MirrorCall(t, c))
  {
  }

  lemma {:induction false} MirrorNote(t: Topology, q: nat, n: Tally, c: Call)
    requires Wired(t) && LegalCall(t, c) && q < |t|
    ensures Note(t, q, n, MirrorCall(t, c)) == Note(t, Pair(t, q), n, c)
  {
  }

  /** The index of call `i` in round `k` of the system, for rank `r`: the credit of the queue that the rank constructs
      there, or the index of the common program. */
  function Acts(y: Sys, r: nat, k: nat, i: nat): int
    requires i < |y.calls| && r < |y.made| && |y.made[r]| == |y.calls|
  {
    if y.calls[i].Create? then Credit(y, y.made[r][i], k) else Recycled(y.t, y.blk, y.calls, k, i)
  }

  lemma {:induction false} CreateIndex(t: Topology, blk: seq<nat>, calls: seq<Call>, k: nat, i: nat)
    requires Legal(t, calls) && i < |calls| && calls[i].Create?
    ensures Recycled(t, blk, calls, k, i) == 0x6fff + k * Tallied(t, calls[i].q, calls).cqe
  {
    hide Rerecorded, Tallied;
    FirstIndex(t, blk, calls, i);
  }

  /** An even rank's recycled ring holds, call by call and round by round, the indices of the odd rank's program. */
  lemma {:induction false} MirrorIndex(t: Topology, blk: seq<nat>, blk': seq<nat>, calls: seq<Call>, k: nat, i: nat)
    requires Wired(t) && Legal(t, calls) && i < |calls| && |blk| == |blk'| == |t|
    requires forall q :: 0 <= q < |t| ==> blk'[q] == blk[Pair(t, q)]
    ensures Legal(t, Mirror(t, calls))
    ensures Recycled(t, blk', Mirror(t, calls), k, i)
         == if calls[i].Create? then RECV_BASE + k * Tallied(t, Pair(t, calls[i].q), calls).cqe
            else Recycled(t, blk, calls, k, i)
  {
    hide Tallied, Deficit, Rerecorded, Mirror;
    var c, q := calls[i], calls[i].q;
    assert LegalCall(t, c);
    var m := Mirror(t, calls);
    MirrorAt(t, calls, i);
    var p := m[i].q;
    MirrorTallies(t, p, calls);
    MirrorTallies(t, p, calls[..i]);
    assert HasScq(t, p) == HasScq(t, q);
    if c.Create? {
      CreateIndex(t, blk', m, k, i);
    } else {
      FirstIndex(t, blk', m, i);
      FirstIndex(t, blk, calls, i);
      assert RecordedIndex(t, m, i) == RecordedIndex(t, calls, i);
      assert Increment(t, blk', m, i) == Increment(t, blk, calls, i);
    }
  }

  /** The finished graph of odd ranks, and that of even ranks that made the same calls on devices of the same sizes. */
  ghost predicate Twins(odd: CommGraph.CommGraph, even: CommGraph.CommGraph)
    reads odd, odd.ctxs, odd.owner.Keys, even, even.ctxs, even.owner.Keys
  {
    && odd.Finished() && even.Finished() && |odd.calls| > 0
    && even.t == odd.t && even.calls == Mirror(odd.t, odd.calls)
    && forall q :: 0 <= q < |odd.t| ==>
      Block(CommGraph.BlockSizes(even.info), q) == Block(CommGraph.BlockSizes(odd.info), Pair(odd.t, q))
  }

  lemma {:induction false} OneDivisor(d: nat, e: nat, low: nat, n: nat)
    requires LeastDivisorFrom(d, low, n) && LeastDivisorFrom(e, low, n)
    ensures d == e
  {
  }

  /** An odd and an even rank that begin to record are mirrored. */
  method Begin() returns (odd: CommGraph.CommGraph, even: CommGraph.CommGraph)
    ensures fresh({odd, even}) && Mirrored(odd, even) && odd.calls == []
  {
    hide CommGraph.CommGraph.Recording;
    odd := new CommGraph.CommGraph();
    even := new CommGraph.CommGraph();
  }

  /** Finish both, on devices of the same sizes. */
  method FinishBoth(odd: CommGraph.CommGraph, even: CommGraph.CommGraph, devs: seq<CommGraph.Device>,
          devs': seq<CommGraph.Device>)
    requires Mirrored(odd, even) && |odd.calls| > 0
    requires odd.Sizes(devs) && odd.Recyclable(devs) && even.Sizes(devs') && even.Recyclable(devs')
    requires |devs| == |devs'| == |odd.t|
    requires forall q :: 0 <= q < |devs| ==> Pair(odd.t, q) < |devs| && devs'[q].sqCnt == devs[Pair(odd.t, q)].sqCnt
    modifies odd, even
    ensures Twins(odd, even) && odd.t == old(odd.t) && odd.calls == old(odd.calls)
  {
    hide CommGraph.CommGraph.Recording, CommGraph.CommGraph.Finished, Mirror, CommGraph.CommGraph.Measured;
    hide CommGraph.CommGraph.Registered, CommGraph.CommGraph.Sizes, CommGraph.CommGraph.Recyclable, Pair;
    RecordingIs(odd);
    RecordingIs(even);
    odd.Finish(devs);
    even.Finish(devs');
    FinishedFits(odd);
    FinishedFits(even);
    forall q | 0 <= q < |odd.t|
      ensures Block(CommGraph.BlockSizes(even.info), q) == Block(CommGraph.BlockSizes(odd.info), Pair(odd.t, q))
    {
      SameBlock(odd, even, devs, devs', q);
    }
  }

  /** The same work on send queues of the same size gives the same block. */
  lemma {:induction false} SameBlock(odd: CommGraph.CommGraph, even: CommGraph.CommGraph, devs: seq<CommGraph.Device>,
          devs': seq<CommGraph.Device>, q: nat)
    requires Wired(odd.t) && Legal(odd.t, odd.calls) && even.t == odd.t && even.calls == Mirror(odd.t, odd.calls)
    requires |odd.qps| == |even.qps| == |odd.info| == |even.info| == |devs| == |devs'| == |odd.t| && q < |odd.t|
    requires odd.Measured(devs, odd.info, |devs|) && even.Measured(devs', even.info, |devs'|)
    requires forall i :: 0 <= i < |odd.qps| ==> odd.Registered(i) && even.Registered(i)
    requires Pair(odd.t, q) < |devs| && devs'[q].sqCnt == devs[Pair(odd.t, q)].sqCnt
    ensures Block(CommGraph.BlockSizes(even.info), q) == Block(CommGraph.BlockSizes(odd.info), Pair(odd.t, q))
  {
    hide Tallied, Mirror, LeastDivisorFrom, Wired, Legal;
    var p := Pair(odd.t, q);
    assert even.Registered(q) && odd.Registered(p);
    MirrorTallies(odd.t, q, odd.calls);
    OneDivisor(even.info[q].wqes, odd.info[p].wqes, odd.qps[p].wqeCount, devs[p].sqCnt);
  }

  /** The rings of rank `r`, recorded as `calls` with blocks `blk`, hold the indices that the system acts on. */
  ghost predicate HoldsActs(y: Sys, r: nat, blk: seq<nat>, calls: seq<Call>)
    requires r < |y.made| && |y.made[r]| == |y.calls| == |calls|
  {
    forall k: nat, i :: 0 <= i < |y.calls| ==> Recycled(y.t, blk, calls, k, i) == Acts(y, r, k, i)
  }

  /** Graphs recorded and finished through the graph interface meet all of these assumptions by themselves: nothing can
      be posted on a queue that is not constructed, and what is written fits its block. The rings of odd and even ranks
      hold the indices that the system acts on. */
  lemma {:induction false} FinishedProgress(odd: CommGraph.CommGraph, even: CommGraph.CommGraph,
          peer: seq<seq<nat>>, n: nat, cmp: Compare)
    requires Twins(odd, even) && Peered(odd.t, peer, n) && n > 0
    ensures var y := RingSys(odd.t, peer, CommGraph.BlockSizes(odd.info), odd.calls, n, cmp);
      && Sound(y) && MadeFirst(y) && y.Ranks() == n && (NeverStuckEarly(y) <==> Light(y) && Answered(y))
      && (Light(y) && Answered(y) ==> (OrderKept(y) <==> AllCounted(y)))
      && |even.calls| == |odd.calls|
      && forall r :: 0 <= r < n ==>
        if r % 2 == 1 then HoldsActs(y, r, CommGraph.BlockSizes(odd.info), odd.calls)
        else HoldsActs(y, r, CommGraph.BlockSizes(even.info), even.calls)
  {
    hide CommGraph.CommGraph.Finished, HoldsActs, Recycled, Tallied, Light, Answered, NeverStuckEarly, Mirror;
    FinishedFits(odd);
    FinishedFits(even);
    var t, blk, blk' := odd.t, CommGraph.BlockSizes(odd.info), CommGraph.BlockSizes(even.info);
    hide *;
    RingProgress(t, peer, blk, odd.calls, n, cmp);
    forall r | 0 <= r < n
      ensures if r % 2 == 1 then HoldsActs(RingSys(t, peer, blk, odd.calls, n, cmp), r, blk, odd.calls)
        else HoldsActs(RingSys(t, peer, blk, odd.calls, n, cmp), r, blk', even.calls)
    {
      RankHolds(t, peer, blk, blk', odd.calls, n, cmp, r);
    }
  }

  lemma {:induction false} RankHolds(t: Topology, peer: seq<seq<nat>>, blk: seq<nat>,
          blk': seq<nat>, calls: seq<Call>, n: nat, cmp: Compare, r: nat)
    requires |peer| == n && (forall r :: 0 <= r < n ==> |peer[r]| == |t|)
    requires Wired(t) && Legal(t, calls) && r < n && |blk| == |blk'| == |t|
    requires forall q :: 0 <= q < |t| ==> blk'[q] == blk[Pair(t, q)]
    ensures var y := RingSys(t, peer, blk, calls, n, cmp);
      if r % 2 == 1 then HoldsActs(y, r, blk, calls) else HoldsActs(y, r, blk', Mirror(t, calls))
  {
    hide Recycled, Acts, Mirror;
    forall k: nat, i | 0 <= i < |calls|
      ensures Recycled(t, if r % 2 == 1 then blk else blk', if r % 2 == 1 then calls else Mirror(t, calls), k, i)
           == Acts(RingSys(t, peer, blk, calls, n, cmp), r, k, i)
    {
      RingActs(t, peer, blk, blk', calls, n, cmp, r, k, i);
    }
  }

  lemma {:induction false} FinishedFits(g: CommGraph.CommGraph)
    requires g.Finished()
    ensures Wired(g.t) && Legal(g.t, g.calls) && CreatedFirst(g.t, g.calls) && Adjacent(g.t) && |g.info| == |g.t|
    ensures forall q :: 0 <= q < |g.t| ==> Tallied(g.t, q, g.calls).wqe <= CommGraph.BlockSizes(g.info)[q]
  {
    hide Tallied, CommGraph.Done;
    forall q | 0 <= q < |g.t|
      ensures Tallied(g.t, q, g.calls).wqe <= CommGraph.BlockSizes(g.info)[q]
    {
      CommGraph.DoneFits(g.t, g.info, g.owner, g.ctxs[q], q, g.calls);
    }
  }

  /** Rank `r`'s own recording, odd or even, has the indices that the system acts on. */
  lemma {:induction false} RingActs(t: Topology, peer: seq<seq<nat>>, blk: seq<nat>,
          blk': seq<nat>, calls: seq<Call>, n: nat, cmp: Compare, r: nat, k: nat, i: nat)
    requires |peer| == n && (forall r :: 0 <= r < n ==> |peer[r]| == |t|)
    requires Wired(t) && Legal(t, calls) && i < |calls| && r < n && |blk| == |blk'| == |t|
    requires forall q :: 0 <= q < |t| ==> blk'[q] == blk[Pair(t, q)]
    ensures Recycled(t, if r % 2 == 1 then blk else blk', if r % 2 == 1 then calls else Mirror(t, calls), k, i)
         == Acts(RingSys(t, peer, blk, calls, n, cmp), r, k, i)
  {
    hide Tallied, Recycled, Mirror;
    assert LegalCall(t, calls[i]);
    MirrorIndex(t, blk, blk', calls, k, i);
    if calls[i].Create? {
      CreateIndex(t, blk, calls, k, i);
    }
  }
}
