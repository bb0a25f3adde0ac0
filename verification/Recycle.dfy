/** Recycling a block: what one rearm does to a copy of the program, and which round each copy is armed for. */
module Recycle {
  import opened Words
  import opened RearmTasks
  import opened WqeLayout

  /** The tasks registered while the entries were written. */
  function TasksOf(log: seq<Wqe>): seq<Task> {
    if |log| == 0 then []
    else
      var front, w := log[..|log| - 1], log[|log| - 1];
      TasksOf(front) + if w.body.Core? then [Task(16 * Size(front) + 6, w.body.inc)] else []
  }

  /** The entry of the next round: the index moved by its increment. */
  function Bumped(w: Wqe): Wqe {
    if w.body.Core? then w.(body := Core(Wrap(w.body.index + w.body.inc), w.body.number, w.body.inc)) else w
  }

  function BumpLog(log: seq<Wqe>): (r: seq<Wqe>)
    ensures |r| == |log|
  {
    if |log| == 0 then [] else BumpLog(log[..|log| - 1]) + [Bumped(log[|log| - 1])]
  }

  /** The entries `k` rounds later. */
  function Advanced(log: seq<Wqe>, k: nat): (r: seq<Wqe>)
    ensures |r| == |log|
  {
    if k == 0 then log else BumpLog(Advanced(log, k - 1))
  }

  lemma {:induction false} BumpLogAt(log: seq<Wqe>, i: nat)
    requires i < |log|
    ensures BumpLog(log)[i] == Bumped(log[i])
    decreases |log|
  {
    if i < |log| - 1 {
      BumpLogAt(log[..|log| - 1], i);
    }
  }

  lemma {:induction false} BumpKeeps(log: seq<Wqe>)
    ensures Size(BumpLog(log)) == Size(log)
    ensures TasksOf(BumpLog(log)) == TasksOf(log)
    ensures ValidLog(log) ==> ValidLog(BumpLog(log))
  {
    if |log| > 0 {
      var front := log[..|log| - 1];
      BumpKeeps(front);
      assert BumpLog(log)[..|log| - 1] == BumpLog(front);
    }
  }

  lemma {:induction false} AdvancedKeeps(log: seq<Wqe>, k: nat)
    ensures Size(Advanced(log, k)) == Size(log)
    ensures TasksOf(Advanced(log, k)) == TasksOf(log)
    ensures ValidLog(log) ==> ValidLog(Advanced(log, k))
  {
    if k > 0 {
      AdvancedKeeps(log, k - 1);
      BumpKeeps(Advanced(log, k - 1));
    }
  }

  /** The entry with its index moved by `k` increments, modulo 2^32, and nothing else. */
  function Shifted(w: Wqe, k: nat): Wqe {
    if w.body.Core? then w.(body := Core(Wrap(w.body.index + k * w.body.inc), w.body.number, w.body.inc)) else w
  }

  lemma {:induction false} ShiftedNext(w: Wqe, k: nat)
    ensures Shifted(w, 0) == w
    ensures k > 0 ==> Bumped(Shifted(w, k - 1)) == Shifted(w, k)
  {
    if w.body.Core? {
      var x, i := w.body.index, w.body.inc;
      assert x + 0 * i == x;
      Succ(k, i);
      WrapAdd(x + (k - 1) * i, i);
    }
  }

  lemma {:induction false} AdvancedAt(log: seq<Wqe>, k: nat, i: nat)
    requires i < |log|
    ensures Advanced(log, k)[i] == Shifted(log[i], k)
  {
    ShiftedNext(log[i], k);
    if k > 0 {
      AdvancedAt(log, k - 1, i);
      BumpLogAt(Advanced(log, k - 1), i);
    }
  }

  // ---- Where the fields are ----

  lemma {:induction false} FieldBounds(log: seq<Wqe>)
    requires ValidLog(log)
    ensures forall p: int :: p in FieldsOf(TasksOf(log)) ==> 0 <= p < 16 * Size(log)
    ensures Distinct(TasksOf(log))
  {
    if |log| > 0 {
      var front, w := log[..|log| - 1], log[|log| - 1];
      var n, m := Size(front), Size(log);
      assert w.Valid() && m == n + w.Slots() && w.Slots() >= 1;
      FieldBounds(front);
      TaskAdded(log);
      FieldAdded(FieldsOf(TasksOf(front)), FieldsOf(TasksOf(log)), n, m, w);
    }
  }

  lemma {:induction false} FieldAdded(f: Fields, g: Fields, n: nat, m: nat, w: Wqe)
    requires n < m && g == if w.body.Core? then f[16 * n + 6 := w.body.inc] else f
    requires forall p: int :: p in f ==> 0 <= p < 16 * n
    ensures forall p: int :: p in g ==> 0 <= p < 16 * m
    ensures 16 * n + 6 !in f
  {
  }

  lemma {:induction false} TaskAdded(log: seq<Wqe>)
    requires |log| > 0
    ensures var front, w := log[..|log| - 1], log[|log| - 1];
      var p := 16 * Size(front) + 6;
      && (w.body.Core? ==>
            && TasksOf(log) == TasksOf(front) + [Task(p, w.body.inc)]
            && TasksOf(log)[..|TasksOf(log)| - 1] == TasksOf(front)
            && FieldsOf(TasksOf(log)) == FieldsOf(TasksOf(front))[p := w.body.inc])
      && (!w.body.Core? ==> TasksOf(log) == TasksOf(front))
  {
    var front := log[..|log| - 1];
    if log[|log| - 1].body.Core? {
      assert TasksOf(log)[..|TasksOf(log)| - 1] == TasksOf(front);
    }
  }

  /** Within the slots of entry `i`, the index word of a core-direct entry is the only registered field. */
  ghost predicate FieldOnlyAt(log: seq<Wqe>, i: nat)
    requires i < |log|
  {
    var base := 16 * Size(log[..i]);
    var f := FieldsOf(TasksOf(log));
    && (log[i].body.Core? ==> base + 6 in f && f[base + 6] == log[i].body.inc)
    && forall p: int :: p in f && base <= p < base + 16 * log[i].Slots() ==> log[i].body.Core? && p == base + 6
  }

  lemma {:induction false} FieldHere(log: seq<Wqe>, i: nat)
    requires ValidLog(log) && i < |log|
    ensures FieldOnlyAt(log, i)
    decreases |log|
  {
    hide TasksOf, FieldsOf;
    var front := log[..|log| - 1];
    FieldBounds(front);
    TaskAdded(log);
    if i < |log| - 1 {
      FieldHere(front, i);
      assert front[..i] == log[..i];
      SizeUpTo(front, i, |front|);
      assert front[..|front|] == front;
    }
  }

  // ---- One rearm of one copy ----

  /** Two entries that differ at most in the index. */
  predicate Alike(a: Wqe, b: Wqe) {
    a == b || (a.body.Core? && b.body.Core? && a == b.(body := Core(a.body.index, b.body.number, b.body.inc)))
  }

  /** `after` is `dst` with every field of `f` replaced by the bumped field of `src`. */
  ghost predicate Rearmed(src: seq<Word>, dst: seq<Word>, after: seq<Word>, f: Fields) {
    && |src| == |dst| == |after|
    && (forall p: int :: p in f ==> 0 <= p < |src| && after[p] == Bump(src[p], f[p]))
    && (forall j :: 0 <= j < |dst| && j !in f ==> after[j] == dst[j])
  }

  lemma {:induction false} AtRearmed(src: seq<Word>, dst: seq<Word>, after: seq<Word>, head: seq<Word>, a: seq<Wqe>,
          i: nat, w: Wqe)
    requires ValidLog(a) && i < |a| && Alike(a[i], w) && |head| == 4
    requires Rearmed(src, dst, after, FieldsOf(TasksOf(a)))
    requires At(src, 16 * Size(a[..i]), head, a[i])
    requires At(dst, 16 * Size(a[..i]), head, w)
    ensures At(after, 16 * Size(a[..i]), head, Bumped(a[i]))
  {
    FieldHere(a, i);
    OneRearmed(src, dst, after, FieldsOf(TasksOf(a)), 16 * Size(a[..i]), head, a[i], w);
  }

  lemma {:induction false} OneRearmed(src: seq<Word>, dst: seq<Word>, after: seq<Word>, f: Fields,
                   base: nat, head: seq<Word>, v: Wqe, w: Wqe)
    requires Alike(v, w) && Rearmed(src, dst, after, f) && |head| == 4
    requires At(src, base, head, v) && At(dst, base, head, w)
    requires v.body.Core? ==> base + 6 in f && f[base + 6] == v.body.inc
    requires forall p: int :: p in f && base <= p < base + 16 * v.Slots() ==> v.body.Core? && p == base + 6
    ensures At(after, base, head, Bumped(v))
  {
    forall j | base <= j < base + 4
      ensures after[j] == dst[j]
    {
      assert j !in f;
    }
    assert after[base..base + 4] == dst[base..base + 4];
    if v.body.Core? {
      assert base + 7 !in f;
      BumpStored(v.body.index, v.body.inc);
    } else if v.body.Payload? {
      PayloadKept(dst, after, f, base, |v.body.words|, 16 * v.Slots());
    }
  }

  lemma {:induction false} HeadAlike(v: Wqe, w: Wqe, idx: nat, qpn: nat)
    requires Alike(v, w)
    ensures Head(Bumped(v), idx, qpn) == Head(w, idx, qpn) == Head(v, idx, qpn)
  {
  }

  lemma {:induction false} PayloadKept(dst: seq<Word>, after: seq<Word>, f: Fields, base: nat, k: nat, n: nat)
    requires |dst| == |after| && base + n <= |dst| && 4 + k <= n
    requires forall j :: 0 <= j < |dst| && j !in f ==> after[j] == dst[j]
    requires forall p: int :: p in f ==> !(base <= p < base + n)
    ensures after[base + 4..base + 4 + k] == dst[base + 4..base + 4 + k]
  {
  }

  /** A rearm turns a copy holding the entries of any round into the round after the source's. */
  lemma {:induction false} LaidRearmed(src: seq<Word>, dst: seq<Word>, after: seq<Word>, qpn: nat,
                                       a: seq<Wqe>, b: seq<Wqe>, n: nat)
    requires ValidLog(a) && |a| == |b| && n <= |a|
    requires forall i :: 0 <= i < |a| ==> Alike(a[i], b[i])
    requires Rearmed(src, dst, after, FieldsOf(TasksOf(a)))
    requires Laid(src, qpn, a) && Laid(dst, qpn, b)
    ensures Laid(after, qpn, BumpLog(a[..n]))
    decreases n
  {
    if n > 0 {
      var i := n - 1;
      LaidRearmed(src, dst, after, qpn, a, b, i);
      LaidAt(src, qpn, a, i);
      LaidAt(dst, qpn, b, i);
      SizeAlike(a, b, i);
      HeadAlike(a[i], b[i], Size(a[..i]), qpn);
      AtRearmed(src, dst, after, Head(a[i], Size(a[..i]), qpn), a, i, b[i]);
      assert a[..n][..i] == a[..i];
      BumpKeeps(a[..i]);
      assert BumpLog(a[..n]) == BumpLog(a[..i]) + [Bumped(a[i])];
      assert BumpLog(a[..n])[..i] == BumpLog(a[..i]);
    } else {
      assert a[..0] == [];
    }
  }

  lemma {:induction false} SizeAlike(a: seq<Wqe>, b: seq<Wqe>, i: nat)
    requires |a| == |b| && i <= |a| && forall j :: 0 <= j < |a| ==> Alike(a[j], b[j])
    ensures Size(a[..i]) == Size(b[..i])
  {
    if i > 0 {
      SizeAlike(a, b, i - 1);
      assert a[..i][..i - 1] == a[..i - 1] && b[..i][..i - 1] == b[..i - 1];
    }
  }

  lemma {:induction false} AdvancedAlike(log: seq<Wqe>, k: nat, l: nat)
    ensures forall i :: 0 <= i < |log| ==> Alike(Advanced(log, k)[i], Advanced(log, l)[i])
  {
    forall i | 0 <= i < |log|
      ensures Alike(Advanced(log, k)[i], Advanced(log, l)[i])
    {
      AdvancedAt(log, k, i);
      AdvancedAt(log, l, i);
    }
  }

  /** Rearming from a copy armed for round `k` into a copy armed for any round arms it for round `k + 1`. */
  lemma {:induction false} RearmAdvances(src: seq<Word>, dst: seq<Word>, after: seq<Word>, qpn: nat, log: seq<Wqe>,
          k: nat, l: nat)
    requires ValidLog(log)
    requires Rearmed(src, dst, after, FieldsOf(TasksOf(log)))
    requires Laid(src, qpn, Advanced(log, k)) && Laid(dst, qpn, Advanced(log, l))
    ensures Laid(after, qpn, Advanced(log, k + 1))
  {
    var a := Advanced(log, k);
    AdvancedKeeps(log, k);
    AdvancedAlike(log, k, l);
    LaidRearmed(src, dst, after, qpn, a, Advanced(log, l), |a|);
    assert a[..|a|] == a;
  }

  // ---- Which round each copy is armed for ----

  /** The round that copy `c` of `d` is armed for after `r` rearms in all. */
  function ArmedFor(c: nat, r: nat, d: nat): nat
    requires d > 0
  {
    if r == 0 then 0 else if r % d == c then r else ArmedFor(c, r - 1, d)
  }

  lemma {:induction false} RoundBound(c: nat, r: nat, d: nat)
    requires d > 0
    ensures ArmedFor(c, r, d) <= r
  {
    if r > 0 && r % d != c {
      RoundBound(c, r - 1, d);
    }
  }

  lemma {:induction false} RoundGrows(c: nat, r: nat, s: nat, d: nat)
    requires d > 0 && r <= s
    ensures ArmedFor(c, r, d) <= ArmedFor(c, s, d)
    decreases s
  {
    if r < s {
      RoundGrows(c, r, s - 1, d);
      RoundBound(c, s - 1, d);
    }
  }

  /** Copy `k mod d` is armed for round `k` from rearm number `k` up to, but not including, number `k + d`. */
  lemma {:induction false} ArmedExactly(k: nat, r: nat, d: nat)
    requires d > 0
    ensures ArmedFor(k % d, r, d) == k <==> k <= r < k + d
    decreases r
  {
    var c := k % d;
    if r < k {
      RoundBound(c, r, d);
    } else if r == k {
    } else if r < k + d {
      SameCopy(k, r, d);
      ArmedExactly(k, r - 1, d);
    } else {
      ModShift(k, 1, d);
      RoundGrows(c, k + d, r, d);
    }
  }

  /** Rearms done by `fin` before the first round; with the host's own rearm during every round there are
      `Prearmed(d) + j` when round `j` starts. */
  function Prearmed(d: nat): nat {
    if d < 3 then 0 else d - 3
  }

  /** In-flight safety, three or more copies: when round `j` starts, all rounds from `j` to `j + d - 3` are armed, the
      copy of round `j` stays armed for it until the rearm during round `j + 2`, and that during round `j` overwrites
      the copy of round `j - 2`, which is neither that of round `j` nor that of `j - 1`. */
  lemma {:induction false} InFlight(j: nat, d: nat)
    requires d >= 3
    ensures var r := Prearmed(d) + j;
      && (forall k :: j <= k <= j + d - 3 ==> ArmedFor(k % d, r, d) == k)
      && ArmedFor(j % d, r + 2, d) == j && ArmedFor(j % d, r + 3, d) != j
      && (r + 1) % d != j % d
      && (j >= 1 ==> (r + 1) % d != (j - 1) % d)
      && (j >= 2 ==> (r + 1) % d == (j - 2) % d)
  {
    var r := Prearmed(d) + j;
    forall k | j <= k <= j + d - 3
      ensures ArmedFor(k % d, r, d) == k
    {
      ArmedExactly(k, r, d);
    }
    ArmedExactly(j, r + 2, d);
    ArmedExactly(j, r + 3, d);
    SameCopy(j, r + 1, d);
    if j >= 1 {
      SameCopy(j - 1, r + 1, d);
    }
    if j >= 2 {
      ModShift(j - 2, 1, d);
    }
  }

  /** With two copies only round `j` is armed when it starts, and the rearm during it overwrites the copy of round
      `j - 1`: nothing is lost only if that round has finished. */
  lemma {:induction false} InFlightTwo(j: nat)
    ensures var r := Prearmed(2) + j;
      && ArmedFor(j % 2, r, 2) == j && ArmedFor((j + 1) % 2, r, 2) != j + 1
      && ArmedFor(j % 2, r + 1, 2) == j && ArmedFor(j % 2, r + 2, 2) != j
      && (r + 1) % 2 != j % 2
      && (j >= 1 ==> (r + 1) % 2 == (j - 1) % 2)
  {
    ArmedExactly(j, j, 2);
    ArmedExactly(j + 1, j, 2);
    ArmedExactly(j, j + 1, 2);
    ArmedExactly(j, j + 2, 2);
  }
}
