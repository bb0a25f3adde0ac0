/** The blocking handshake that connects the ring queues of all ranks, in every interleaving. */
module Handshake {
  import opened Words

  /** The tag of a barrier is the tag of its exchange plus this. */
  const BARRIER := 0xf000

  /** `n` ranks, each connecting its ring queues in the order of registration: `tags` has one tag for each, and two
      queues make a ring pair. Ranks of one process share a context: `ctx[r]` is the context of rank `r`.
      Whether a rank that is its own neighbour can meet itself is up to the caller's exchange function: `alone`. */
  datatype Ring = Ring(n: nat, tags: seq<Word>, ctx: seq<nat>, alone: bool) {
    /** Blocking calls of one rank: an exchange and a barrier for each queue. */
    function Meetings(): nat {
      2 * |tags|
    }

    predicate Valid() {
      && n > 0 && |ctx| == n && |tags| % 2 == 0
      && forall i, j :: 0 <= i < j < Meetings() ==> Tag(i) != Tag(j)
    }

    function Tag(i: nat): Word {
      if i / 2 < |tags| then Wrap(tags[i / 2] + if i % 2 == 1 then BARRIER else 0) else 0
    }

    /** Odd ranks construct the queue to the right first, even ranks the queue to the left. */
    predicate GoesRight(r: nat, i: nat) {
      r % 2 == 1 <==> i / 2 % 2 == 0
    }

    /** The rank that meeting `i` of rank `r` is with. */
    function Peer(r: nat, i: nat): nat
      requires r < n
    {
      if GoesRight(r, i) then (r + 1) % n else (r - 1 + n) % n
    }
  }

  /** A rank that waits for its context's mutex, holds it, or has given it up for meeting `i`; the meetings
      before `i` are over. */
  datatype Pc = Waiting(i: nat) | Holding(i: nat) | Meeting(i: nat) | Done

  /** The mutex of each context is free, or held by a rank. */
  datatype State = State(pc: seq<Pc>, holder: map<nat, nat>)

  datatype Step = Lock(r: nat) | Unlock(r: nat) | Meet(a: nat, b: nat)

  function Start(y: Ring): State {
    State(seq(y.n, _ => Waiting(0)), map[])
  }

  predicate Enabled(y: Ring, s: State, x: Step)
    requires y.Valid() && |s.pc| == y.n
  {
    match x
    case Lock(r) => r < y.n && s.pc[r].Waiting? && y.ctx[r] !in s.holder
    case Unlock(r) => r < y.n && s.pc[r].Holding?
    case Meet(a, b) =>
      && a < y.n && b < y.n && (a != b || y.alone) && s.pc[a].Meeting? && s.pc[b].Meeting?
      && y.Peer(a, s.pc[a].i) == b && y.Peer(b, s.pc[b].i) == a
      && y.Tag(s.pc[a].i) == y.Tag(s.pc[b].i)
  }

  function After(y: Ring, s: State, x: Step): (s': State)
    requires y.Valid() && |s.pc| == y.n && Enabled(y, s, x)
    ensures |s'.pc| == y.n
  {
    match x
    case Lock(r) => State(s.pc[r := Holding(s.pc[r].i)], s.holder[y.ctx[r] := r])
    case Unlock(r) =>
      State(s.pc[r := if s.pc[r].i < y.Meetings() then Meeting(s.pc[r].i) else Done], s.holder - {y.ctx[r]})
    case Meet(a, b) => s.(pc := s.pc[a := Waiting(s.pc[a].i + 1)][b := Waiting(s.pc[b].i + 1)])
  }

  ghost predicate Reaches(y: Ring, s0: State, steps: seq<Step>, s: State)
    requires y.Valid() && |s0.pc| == y.n
    decreases |steps|
  {
    if |steps| == 0 then s == s0
    else Enabled(y, s0, steps[0]) && Reaches(y, After(y, s0, steps[0]), steps[1..], s)
  }

  // ---- Tags ----

  /** The tag of the barrier behind an exchange. */
  function BarrierTag(tag: int): Word {
    Wrap(tag + 0xf000)
  }

  /** The exchange of a queue has its tag, the barrier behind it that plus 0xf000. */
  lemma {:induction false} MeetingTags(y: Ring, k: nat)
    requires k < |y.tags|
    ensures y.Meetings() == 2 * |y.tags| && 2 * k + 1 < y.Meetings()
    ensures y.Tag(2 * k) == y.tags[k] && y.Tag(2 * k + 1) == BarrierTag(y.tags[k])
  {
  }

  /** No two queues have the same tag, and none has that of a barrier. */
  ghost predicate Apart(tags: seq<Word>) {
    && (forall k, l :: 0 <= k < l < |tags| ==> tags[k] != tags[l])
    && (forall k, l :: 0 <= k < |tags| && 0 <= l < |tags| ==> tags[k] != BarrierTag(tags[l]))
  }

  /** The tags tell all meetings of a rank apart exactly then. */
  lemma {:induction false} ValidIff(y: Ring)
    ensures y.Valid() <==> y.n > 0 && |y.ctx| == y.n && |y.tags| % 2 == 0 && Apart(y.tags)
  {
    hide Ring.Tag, BarrierTag;
    if y.Valid() {
      ValidApart(y);
    }
    if Apart(y.tags) {
      forall i, j | 0 <= i < j < 2 * |y.tags|
        ensures y.Tag(i) != y.Tag(j)
      {
        ApartTags(y, i, j);
      }
    }
  }

  lemma {:induction false} ValidApart(y: Ring)
    requires y.Valid()
    ensures Apart(y.tags)
  {
    hide Ring.Tag, BarrierTag;
    forall k, l | 0 <= k < |y.tags| && 0 <= l < |y.tags|
      ensures y.tags[k] != BarrierTag(y.tags[l]) && (k < l ==> y.tags[k] != y.tags[l])
    {
      MeetingTags(y, k);
      MeetingTags(y, l);
      assert 2 * k < 2 * l + 1 || 2 * l + 1 < 2 * k;
    }
  }

  lemma {:induction false} ApartTags(y: Ring, i: nat, j: nat)
    requires Apart(y.tags) && i < j < 2 * |y.tags|
    ensures y.Tag(i) != y.Tag(j)
  {
    hide Ring.Tag, BarrierTag;
    var k, l := i / 2, j / 2;
    MeetingTags(y, k);
    MeetingTags(y, l);
    assert (i == 2 * k || i == 2 * k + 1) && (j == 2 * l || j == 2 * l + 1);
    Barriers(y.tags[k], y.tags[l]);
  }

  lemma {:induction false} Barriers(a: Word, b: Word)
    ensures BarrierTag(a) == BarrierTag(b) ==> a == b
  {
  }

  // ---- The invariant ----

  /** Meetings rank `r` has behind it. */
  function Stage(y: Ring, p: Pc): nat {
    if p.Done? then y.Meetings() else p.i
  }

  /** Meetings of first queues of a pair, and of second queues, among the first `i`. */
  function Firsts(i: nat): nat {
    2 * (i / 4) + if i % 4 < 2 then i % 4 else 2
  }

  function Seconds(i: nat): nat {
    2 * (i / 4) + if i % 4 < 2 then 0 else i % 4 - 2
  }

  /** A rank holds its mutex exactly while it is not waiting for it, meeting, or done. */
  ghost predicate Exclusive(y: Ring, s: State)
    requires y.Valid() && |s.pc| == y.n
  {
    && (forall r :: 0 <= r < y.n && s.pc[r].Holding? ==> y.ctx[r] in s.holder && s.holder[y.ctx[r]] == r)
    && (forall c :: c in s.holder ==> s.holder[c] < y.n && y.ctx[s.holder[c]] == c && s.pc[s.holder[c]].Holding?)
  }

  ghost predicate InRange(y: Ring, s: State)
    requires y.Valid() && |s.pc| == y.n
  {
    forall r :: 0 <= r < y.n ==> Stage(y, s.pc[r]) <= y.Meetings() && (s.pc[r].Meeting? ==> s.pc[r].i < y.Meetings())
  }

  /** The two ends of a link have met equally often. */
  ghost predicate Even(y: Ring, s: State, r: nat)
    requires y.Valid() && |s.pc| == y.n && r < y.n
  {
    var mine, right := Stage(y, s.pc[r]), Stage(y, s.pc[(r + 1) % y.n]);
    if r % 2 == 1 then Firsts(mine) == Firsts(right) else Seconds(mine) == Seconds(right)
  }

  ghost predicate Inv(y: Ring, s: State)
    requires y.Valid()
  {
    && |s.pc| == y.n && Exclusive(y, s) && InRange(y, s)
    && (y.n % 2 == 0 ==> forall r :: 0 <= r < y.n ==> Even(y, s, r))
  }

  lemma {:induction false} StartInv(y: Ring)
    requires y.Valid()
    ensures Inv(y, Start(y))
  {
  }

  /** A tag names one meeting. */
  lemma {:induction false} SameMeeting(y: Ring, i: nat, j: nat)
    requires y.Valid() && i < y.Meetings() && j < y.Meetings() && y.Tag(i) == y.Tag(j)
    ensures i == j
  {
  }

  lemma {:induction false} Neighbours(n: nat, r: nat)
    requires r < n
    ensures (r + 1) % n == if r + 1 == n then 0 else r + 1
    ensures (r - 1 + n) % n == if r == 0 then n - 1 else r - 1
    ensures ((r + 1) % n - 1 + n) % n == r && ((r - 1 + n) % n + 1) % n == r
  {
    NextRank(n, r);
    PreviousRank(n, r);
    NextRank(n, (r - 1 + n) % n);
    PreviousRank(n, (r + 1) % n);
  }

  lemma {:induction false} NextRank(n: nat, r: nat)
    requires r < n
    ensures (r + 1) % n == if r + 1 == n then 0 else r + 1
  {
    if r + 1 == n {
      ModUnique(n, n, 1, 0);
    }
  }

  lemma {:induction false} PreviousRank(n: nat, r: nat)
    requires r < n
    ensures (r - 1 + n) % n == if r == 0 then n - 1 else r - 1
  {
    if r > 0 {
      ModUnique(r - 1 + n, n, 1, r - 1);
    }
  }

  /** Every meeting joins a rank's right queue with its right neighbour's left queue, of the same pair and under equal
      tags. */
  lemma {:induction false} Joined(y: Ring, s: State, a: nat, b: nat)
    requires y.Valid() && Inv(y, s) && Enabled(y, s, Meet(a, b)) && y.n % 2 == 0
    ensures s.pc[a].i == s.pc[b].i
    ensures var i := s.pc[a].i;
      || (y.GoesRight(a, i) && !y.GoesRight(b, i) && b == (a + 1) % y.n)
      || (!y.GoesRight(a, i) && y.GoesRight(b, i) && a == (b + 1) % y.n)
  {
    SameMeeting(y, s.pc[a].i, s.pc[b].i);
    Neighbours(y.n, a);
    Neighbours(y.n, b);
  }

  lemma {:induction false} StageCounts(i: nat)
    ensures Firsts(i + 1) == Firsts(i) + (if i / 2 % 2 == 0 then 1 else 0)
    ensures Seconds(i + 1) == Seconds(i) + (if i / 2 % 2 == 0 then 0 else 1)
  {
    var q, m := i / 4, i % 4;
    assert i / 2 % 2 == m / 2;
    if m < 3 {
      assert (i + 1) / 4 == q && (i + 1) % 4 == m + 1;
    } else {
      assert (i + 1) / 4 == q + 1 && (i + 1) % 4 == 0;
    }
  }

  lemma {:induction false} CountsGrow(i: nat, j: nat)
    requires i <= j
    ensures Firsts(i) <= Firsts(j) && Seconds(i) <= Seconds(j)
    ensures i < j && i / 2 % 2 == 0 ==> Firsts(i) < Firsts(j)
    ensures i < j && i / 2 % 2 == 1 ==> Seconds(i) < Seconds(j)
    decreases j
  {
    if i < j {
      CountsGrow(i, j - 1);
      StageCounts(j - 1);
    }
  }

  /** A step that completes no meeting. */
  lemma {:induction false} SoloKeeps(y: Ring, s: State, x: Step)
    requires y.Valid() && Inv(y, s) && Enabled(y, s, x) && !x.Meet?
    ensures Inv(y, After(y, s, x))
  {
    var s' := After(y, s, x);
    assert forall r :: 0 <= r < y.n ==> Stage(y, s'.pc[r]) == Stage(y, s.pc[r]);
    if y.n % 2 == 0 {
      forall r | 0 <= r < y.n
        ensures Even(y, s', r)
      {
        assert Even(y, s, r);
      }
    }
  }

  lemma {:induction false} MeetKeeps(y: Ring, s: State, a: nat, b: nat)
    requires y.Valid() && Inv(y, s) && Enabled(y, s, Meet(a, b))
    ensures Inv(y, After(y, s, Meet(a, b)))
  {
    var s' := After(y, s, Meet(a, b));
    if y.n % 2 == 0 {
      Joined(y, s, a, b);
      forall r | 0 <= r < y.n
        ensures Even(y, s', r)
      {
        MeetKeepsEven(y, s, a, b, r);
      }
    }
  }

  /** A meeting moves both ends of its link, and no other link of the same pair half. */
  lemma {:induction false} MeetKeepsEven(y: Ring, s: State, a: nat, b: nat, r: nat)
    requires y.Valid() && Inv(y, s) && Enabled(y, s, Meet(a, b)) && y.n % 2 == 0 && r < y.n
    ensures Even(y, After(y, s, Meet(a, b)), r)
  {
    hide Firsts, Seconds, Exclusive, InRange;
    var i, right := s.pc[a].i, (r + 1) % y.n;
    Joined(y, s, a, b);
    StageCounts(i);
    assert Even(y, s, r);
    LinkOf(y, r, a, b, i);
  }

  /** If the meeting is one of this rank's link to the right, both ends take part in it; otherwise it is one of
      the other half of a pair for whoever takes part. */
  lemma {:induction false} LinkOf(y: Ring, r: nat, a: nat, b: nat, i: nat)
    requires y.Valid() && y.n % 2 == 0 && r < y.n && a < y.n && b < y.n
    requires || (y.GoesRight(a, i) && !y.GoesRight(b, i) && b == (a + 1) % y.n)
             || (!y.GoesRight(a, i) && y.GoesRight(b, i) && a == (b + 1) % y.n)
    ensures var right := (r + 1) % y.n;
      && right < y.n && r % 2 != right % 2
      && ((r % 2 == 1) == (i / 2 % 2 == 0) ==> (r == a || r == b <==> right == a || right == b))
  {
    hide Ring.Valid;
    NextRank(y.n, r);
    NextRank(y.n, a);
    NextRank(y.n, b);
  }

  lemma {:induction false} StepKeeps(y: Ring, s: State, x: Step)
    requires y.Valid() && Inv(y, s) && Enabled(y, s, x)
    ensures Inv(y, After(y, s, x))
  {
    if x.Meet? {
      MeetKeeps(y, s, x.a, x.b);
    } else {
      SoloKeeps(y, s, x);
    }
  }

  lemma {:induction false} RunKeeps(y: Ring, s0: State, steps: seq<Step>, s: State)
    requires y.Valid() && Inv(y, s0) && Reaches(y, s0, steps, s)
    ensures Inv(y, s)
    decreases |steps|
  {
    if |steps| > 0 {
      StepKeeps(y, s0, steps[0]);
      RunKeeps(y, After(y, s0, steps[0]), steps[1..], s);
    }
  }

  // ---- Deadlock freedom ----

  ghost predicate AllDone(y: Ring, s: State) {
    forall r :: 0 <= r < |s.pc| ==> s.pc[r].Done?
  }

  /** A rank that has met least. */
  lemma {:induction false} Slowest(y: Ring, pc: seq<Pc>) returns (r: nat)
    requires |pc| > 0
    ensures r < |pc| && forall j :: 0 <= j < |pc| ==> Stage(y, pc[r]) <= Stage(y, pc[j])
  {
    if |pc| == 1 {
      r := 0;
    } else {
      r := Slowest(y, pc[..|pc| - 1]);
      if Stage(y, pc[|pc| - 1]) < Stage(y, pc[r]) {
        r := |pc| - 1;
      }
    }
  }

  /** While a rank is not done, some rank can move. */
  lemma {:induction false} Moves(y: Ring, s: State) returns (x: Step)
    requires y.Valid() && Inv(y, s) && y.n % 2 == 0 && !AllDone(y, s)
    ensures Enabled(y, s, x)
  {
    var r := Slowest(y, s.pc);
    if h :| 0 <= h < y.n && s.pc[h].Holding? {
      x := Unlock(h);
    } else if w :| 0 <= w < y.n && s.pc[w].Waiting? {
      x := Lock(w);
    } else {
      var d :| 0 <= d < y.n && !s.pc[d].Done?;
      assert Stage(y, s.pc[r]) <= Stage(y, s.pc[d]) < y.Meetings();
      x := SlowestMeets(y, s, r);
    }
  }

  /** When all are done or in a meeting, the slowest rank's partner is in the same meeting. */
  lemma {:induction false} SlowestMeets(y: Ring, s: State, r: nat) returns (x: Step)
    requires y.Valid() && Inv(y, s) && y.n % 2 == 0 && r < y.n && s.pc[r].Meeting?
    requires forall j :: 0 <= j < y.n ==> s.pc[j].Meeting? || s.pc[j].Done?
    requires forall j :: 0 <= j < y.n ==> Stage(y, s.pc[r]) <= Stage(y, s.pc[j])
    ensures Enabled(y, s, x)
  {
    hide Firsts, Seconds, Exclusive;
    var i := s.pc[r].i;
    var p := y.Peer(r, i);
    PeerBack(y, r, i);
    PartnerLevel(y, s, r, i, p);
    x := Meet(r, p);
  }

  /** The partner of a meeting has it with the rank, on its other side. */
  lemma {:induction false} PeerBack(y: Ring, r: nat, i: nat)
    requires y.Valid() && y.n % 2 == 0 && r < y.n
    ensures var p := y.Peer(r, i);
      p < y.n && p != r && p % 2 != r % 2 && y.Peer(p, i) == r
      && (if y.GoesRight(r, i) then p == (r + 1) % y.n else r == (p + 1) % y.n)
  {
    Neighbours(y.n, r);
    Neighbours(y.n, y.Peer(r, i));
  }

  lemma {:induction false} PartnerLevel(y: Ring, s: State, r: nat, i: nat, p: nat)
    requires y.Valid() && Inv(y, s) && y.n % 2 == 0 && r < y.n && p < y.n && Stage(y, s.pc[r]) == i <= Stage(y, s.pc[p])
    requires p % 2 != r % 2
    requires if y.GoesRight(r, i) then p == (r + 1) % y.n else r == (p + 1) % y.n
    ensures Stage(y, s.pc[p]) == i
  {
    hide Firsts, Seconds, Exclusive;
    assert Even(y, s, r) && Even(y, s, p);
    CountsGrow(i, Stage(y, s.pc[p]));
  }

  // ---- Every run ends ----

  /** Steps rank `p` has taken. */
  function Taken(y: Ring, p: Pc): nat {
    match p
    case Waiting(i) => 3 * i
    case Holding(i) => 3 * i + 1
    case Meeting(i) => 3 * i + 2
    case Done => 3 * y.Meetings() + 2
  }

  function Total(y: Ring, pc: seq<Pc>): nat {
    if |pc| == 0 then 0 else Total(y, pc[..|pc| - 1]) + Taken(y, pc[|pc| - 1])
  }

  lemma {:induction false} TotalGrows(y: Ring, pc: seq<Pc>, r: nat, p: Pc)
    requires r < |pc|
    ensures Total(y, pc[r := p]) == Total(y, pc) - Taken(y, pc[r]) + Taken(y, p)
  {
    var n := |pc| - 1;
    if r < n {
      TotalGrows(y, pc[..n], r, p);
      assert pc[r := p][..n] == pc[..n][r := p];
    } else {
      assert pc[r := p][..n] == pc[..n];
    }
  }

  lemma {:induction false} StepGrows(y: Ring, s: State, x: Step)
    requires y.Valid() && Inv(y, s) && Enabled(y, s, x)
    ensures Total(y, After(y, s, x).pc) > Total(y, s.pc)
  {
    hide Exclusive, Total;
    if x.Meet? {
      MeetGrows(y, s, x.a, x.b);
    } else if x.Lock? {
      TotalGrows(y, s.pc, x.r, Holding(s.pc[x.r].i));
    } else {
      TotalGrows(y, s.pc, x.r, if s.pc[x.r].i < y.Meetings() then Meeting(s.pc[x.r].i) else Done);
    }
  }

  lemma {:induction false} MeetGrows(y: Ring, s: State, a: nat, b: nat)
    requires y.Valid() && |s.pc| == y.n && Enabled(y, s, Meet(a, b))
    ensures Total(y, After(y, s, Meet(a, b)).pc) > Total(y, s.pc)
  {
    hide Total;
    TotalGrows(y, s.pc, a, Waiting(s.pc[a].i + 1));
    TotalGrows(y, s.pc[a := Waiting(s.pc[a].i + 1)], b, Waiting(s.pc[b].i + 1));
  }

  /** The steps of one rank. */
  function StepsOfRank(y: Ring): nat {
    3 * y.Meetings() + 2
  }

  /** The steps of `k` ranks. */
  function StepsOfRanks(y: Ring, k: nat): nat {
    if k == 0 then 0 else StepsOfRanks(y, k - 1) + StepsOfRank(y)
  }

  lemma {:induction false} TotalBound(y: Ring, pc: seq<Pc>)
    requires forall r :: 0 <= r < |pc| ==> Stage(y, pc[r]) <= y.Meetings() && (pc[r].Meeting? ==> pc[r].i < y.Meetings())
    ensures Total(y, pc) <= StepsOfRanks(y, |pc|)
  {
    if |pc| > 0 {
      TotalBound(y, pc[..|pc| - 1]);
    }
  }

  lemma {:induction false} RunLength(y: Ring, s0: State, steps: seq<Step>, s: State)
    requires y.Valid() && Inv(y, s0) && Reaches(y, s0, steps, s)
    ensures Inv(y, s) && |steps| + Total(y, s0.pc) <= Total(y, s.pc)
    decreases |steps|
  {
    if |steps| > 0 {
      StepKeeps(y, s0, steps[0]);
      StepGrows(y, s0, steps[0]);
      RunLength(y, After(y, s0, steps[0]), steps[1..], s);
    }
  }

  ghost predicate Stuck(y: Ring, s: State)
    requires y.Valid() && |s.pc| == y.n
  {
    forall x: Step :: !Enabled(y, s, x)
  }

  /** However the ranks interleave, when nothing can move any more all of them are done. */
  ghost predicate AlwaysFinishes(y: Ring)
    requires y.Valid()
  {
    forall steps, s :: Reaches(y, Start(y), steps, s) && |s.pc| == y.n && Stuck(y, s) ==> AllDone(y, s)
  }

  lemma {:induction false} ReachesFurther(y: Ring, s0: State, steps: seq<Step>, s: State, x: Step)
    requires y.Valid() && |s0.pc| == y.n && Reaches(y, s0, steps, s) && |s.pc| == y.n && Enabled(y, s, x)
    ensures Reaches(y, s0, steps + [x], After(y, s, x))
    decreases |steps|
  {
    if |steps| == 0 {
      assert (steps + [x])[1..] == [];
    } else {
      ReachesFurther(y, After(y, s0, steps[0]), steps[1..], s, x);
      assert (steps + [x])[1..] == steps[1..] + [x];
    }
  }

  /** Let the ranks run until nothing can move. */
  lemma {:induction false} Exhaust(y: Ring, past: seq<Step>, s: State) returns (steps: seq<Step>, s': State)
    requires y.Valid() && Reaches(y, Start(y), past, s) && Inv(y, s)
    ensures Reaches(y, Start(y), steps, s') && Inv(y, s') && Stuck(y, s')
    decreases StepsOfRanks(y, y.n) - Total(y, s.pc)
  {
    TotalBound(y, s.pc);
    if x: Step :| Enabled(y, s, x) {
      StepKeeps(y, s, x);
      StepGrows(y, s, x);
      ReachesFurther(y, Start(y), past, s, x);
      TotalBound(y, After(y, s, x).pc);
      steps, s' := Exhaust(y, past + [x], After(y, s, x));
    } else {
      steps, s' := past, s;
    }
  }

  /** With an odd number of ranks, rank 0 and its left neighbour are both even: they never agree on a meeting. */
  lemma {:induction false} FirstRankStarves(y: Ring, s0: State, steps: seq<Step>, s: State)
    requires y.Valid() && y.n % 2 == 1 && (y.n > 1 || !y.alone)
    requires y.Meetings() > 0 && Inv(y, s0) && Stage(y, s0.pc[0]) == 0
    requires Reaches(y, s0, steps, s)
    ensures |s.pc| == y.n && Stage(y, s.pc[0]) == 0
    decreases |steps|
  {
    if |steps| > 0 {
      FirstRankStays(y, s0, steps[0]);
      StepKeeps(y, s0, steps[0]);
      FirstRankStarves(y, After(y, s0, steps[0]), steps[1..], s);
    }
  }

  lemma {:induction false} FirstRankStays(y: Ring, s: State, x: Step)
    requires y.Valid() && y.n % 2 == 1 && (y.n > 1 || !y.alone)
    requires y.Meetings() > 0 && Inv(y, s) && Stage(y, s.pc[0]) == 0
    requires Enabled(y, s, x)
    ensures Stage(y, After(y, s, x).pc[0]) == 0
  {
    hide Exclusive, Ring.Peer, Ring.Tag, Ring.Valid;
    if x.Meet? {
      FirstNotMet(y, x.a, x.b, s.pc[x.a].i, s.pc[x.b].i);
    }
  }

  lemma {:induction false} FirstNotMet(y: Ring, a: nat, b: nat, i: nat, j: nat)
    requires y.Valid() && y.n % 2 == 1 && i < y.Meetings() && j < y.Meetings() && y.Tag(i) == y.Tag(j)
    requires a < y.n && b < y.n && (a != b || y.n > 1) && y.Peer(a, i) == b && y.Peer(b, j) == a
    ensures !(a == 0 && i == 0) && !(b == 0 && j == 0)
  {
    hide Ring.Peer;
    SameMeeting(y, i, j);
    LeftOfFirst(y);
  }

  /** In its first meeting, rank 0 is to meet a rank whose first meeting is with another. */
  lemma {:induction false} LeftOfFirst(y: Ring)
    requires y.Valid() && y.n % 2 == 1
    ensures y.Peer(0, 0) == y.n - 1
    ensures y.n > 1 ==> y.Peer(y.n - 1, 0) != 0
  {
    Neighbours(y.n, 0);
    Neighbours(y.n, y.n - 1);
  }

  /** A rank alone meets itself. */
  lemma {:induction false} MovesAlone(y: Ring, s: State) returns (x: Step)
    requires y.Valid() && Inv(y, s) && y.n == 1 && y.alone && !AllDone(y, s)
    ensures Enabled(y, s, x)
  {
    Neighbours(1, 0);
    match s.pc[0]
    case Holding(_) => x := Unlock(0);
    case Waiting(_) => x := Lock(0);
    case Meeting(_) => x := Meet(0, 0);
  }

  /** The handshake always finishes if and only if the number of ranks is even, or there is one rank and it can meet
      itself. */
  lemma {:induction false} FinishesIffEven(y: Ring)
    requires y.Valid() && |y.tags| > 0
    ensures AlwaysFinishes(y) <==> y.n % 2 == 0 || (y.n == 1 && y.alone)
  {
    StartInv(y);
    if y.n % 2 == 0 || (y.n == 1 && y.alone) {
      forall steps, s | Reaches(y, Start(y), steps, s) && |s.pc| == y.n && Stuck(y, s)
        ensures AllDone(y, s)
      {
        RunKeeps(y, Start(y), steps, s);
        if !AllDone(y, s) {
          if y.n == 1 {
            var x := MovesAlone(y, s);
          } else {
            var x := Moves(y, s);
          }
        }
      }
    } else {
      var steps, s := Exhaust(y, [], Start(y));
      FirstRankStarves(y, Start(y), steps, s);
      assert !s.pc[0].Done?;
    }
  }

  /** Every run is finite, with at most the steps of all ranks together. */
  lemma {:induction false} RunsEnd(y: Ring, steps: seq<Step>, s: State)
    requires y.Valid() && Reaches(y, Start(y), steps, s)
    ensures |steps| <= StepsOfRanks(y, y.n)
  {
    StartInv(y);
    RunLength(y, Start(y), steps, s);
    TotalBound(y, s.pc);
  }

  /** In every reachable state no rank is in an exchange or a barrier while it holds a mutex, and no two ranks hold the
      same one. */
  lemma {:induction false} NobodyMeetsLocked(y: Ring, steps: seq<Step>, s: State, r: nat, q: nat)
    requires y.Valid() && Reaches(y, Start(y), steps, s) && r < y.n && q < y.n
    ensures |s.pc| == y.n
    ensures s.pc[r].Meeting? ==> forall c :: c in s.holder ==> s.holder[c] != r
    ensures s.pc[r].Holding? && s.pc[q].Holding? && y.ctx[r] == y.ctx[q] ==> r == q
  {
    StartInv(y);
    RunKeeps(y, Start(y), steps, s);
  }
}
