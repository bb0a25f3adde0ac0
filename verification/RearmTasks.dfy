/** The index fields that a rearm must advance, grouped by increment. */
module RearmTasks {
  import opened Words

  /** One registered field: its word position in the first copy, and what each round adds to it. */
  datatype Task = Task(ptr: nat, inc: int)

  /** Registered positions and their increments. */
  type Fields = map<int, int>

  ghost predicate Within(f: Fields, src: nat, dst: nat, length: nat) {
    forall p :: p in f ==> 0 <= p + src < length && 0 <= p + dst < length
  }

  /** No field of the source copy is a field of the destination copy. */
  ghost predicate Separate(f: Fields, src: nat, dst: nat) {
    forall p :: p in f ==> p + src - dst !in f
  }

  /** Every registered field of the destination copy is the bumped field of the source copy; nothing else changed. */
  ghost predicate Patched(before: seq<Word>, after: seq<Word>, f: Fields, src: nat, dst: nat)
    requires Within(f, src, dst, |before|)
  {
    && |after| == |before|
    && (forall p :: p in f ==> after[p + dst] == Bump(before[p + src], f[p]))
    && (forall j :: 0 <= j < |before| && j - dst !in f ==> after[j] == before[j])
  }

  function FieldsOf(tasks: seq<Task>): Fields {
    if |tasks| == 0 then map[]
    else
      var t := tasks[|tasks| - 1];
      FieldsOf(tasks[..|tasks| - 1])[t.ptr := t.inc]
  }

  /** No position is registered twice. */
  ghost predicate Distinct(tasks: seq<Task>) {
    |tasks| == 0
    || (Distinct(tasks[..|tasks| - 1]) && tasks[|tasks| - 1].ptr !in FieldsOf(tasks[..|tasks| - 1]))
  }

  ghost predicate NoRepeats(ptrs: seq<nat>) {
    |ptrs| == 0 || (NoRepeats(ptrs[..|ptrs| - 1]) && ptrs[|ptrs| - 1] !in ptrs[..|ptrs| - 1])
  }

  /** Some task registers position `p` with increment `inc`. */
  ghost predicate Registers(tasks: seq<Task>, p: int, inc: int) {
    exists i :: 0 <= i < |tasks| && tasks[i].ptr == p && tasks[i].inc == inc
  }

  lemma {:induction false} FieldsAre(tasks: seq<Task>)
    ensures forall p: int :: p in FieldsOf(tasks) ==> Registers(tasks, p, FieldsOf(tasks)[p])
    ensures Distinct(tasks) ==>
      forall p: int, inc: int :: Registers(tasks, p, inc) ==> p in FieldsOf(tasks) && FieldsOf(tasks)[p] == inc
  {
    if |tasks| > 0 {
      var front, t := tasks[..|tasks| - 1], tasks[|tasks| - 1];
      FieldsAre(front);
      forall p: int | p in FieldsOf(tasks)
        ensures Registers(tasks, p, FieldsOf(tasks)[p])
      {
        if p == t.ptr {
          assert tasks[|tasks| - 1].ptr == p;
        } else {
          RegistersMore(front, t, p, FieldsOf(front)[p]);
          assert front + [t] == tasks;
        }
      }
      if Distinct(tasks) {
        forall p: int, inc: int | Registers(tasks, p, inc)
          ensures p in FieldsOf(tasks) && FieldsOf(tasks)[p] == inc
        {
          RegistersMore(front, t, p, inc);
          assert front + [t] == tasks;
        }
      }
    }
  }

  lemma {:induction false} RegistersMore(tasks: seq<Task>, t: Task, p: int, inc: int)
    ensures Registers(tasks + [t], p, inc) <==> Registers(tasks, p, inc) || (t.ptr == p && t.inc == inc)
  {
    if Registers(tasks, p, inc) {
      var i :| 0 <= i < |tasks| && tasks[i].ptr == p && tasks[i].inc == inc;
      assert (tasks + [t])[i] == tasks[i];
    } else if t.ptr == p && t.inc == inc {
      assert (tasks + [t])[|tasks|] == t;
    }
  }

  lemma {:induction false} FieldsShrink(tasks: seq<Task>, src: nat, dst: nat, length: nat)
    requires |tasks| > 0
    ensures Within(FieldsOf(tasks), src, dst, length) ==> Within(FieldsOf(tasks[..|tasks| - 1]), src, dst, length)
    ensures Separate(FieldsOf(tasks), src, dst) ==> Separate(FieldsOf(tasks[..|tasks| - 1]), src, dst)
  {
    var t := tasks[|tasks| - 1];
    var f := FieldsOf(tasks[..|tasks| - 1]);
    assert FieldsOf(tasks) == f[t.ptr := t.inc];
    assert forall p: int :: p in f ==> p in f[t.ptr := t.inc];
  }

  /** The fields updated one after the other, in the order they were registered. */
  function InOrder(buf: seq<Word>, tasks: seq<Task>, src: nat, dst: nat): (r: seq<Word>)
    requires Within(FieldsOf(tasks), src, dst, |buf|)
    ensures |r| == |buf|
  {
    if |tasks| == 0 then buf
    else
      var t := tasks[|tasks| - 1];
      FieldsShrink(tasks, src, dst, |buf|);
      assert t.ptr in FieldsOf(tasks);
      var b := InOrder(buf, tasks[..|tasks| - 1], src, dst);
      b[t.ptr + dst := Bump(b[t.ptr + src], t.inc)]
  }

  /** Updating in registration order is a patch. */
  lemma {:induction false} InOrderPatches(buf: seq<Word>, tasks: seq<Task>, src: nat, dst: nat)
    requires Within(FieldsOf(tasks), src, dst, |buf|) && Separate(FieldsOf(tasks), src, dst) && Distinct(tasks)
    ensures Patched(buf, InOrder(buf, tasks, src, dst), FieldsOf(tasks), src, dst)
  {
    if |tasks| > 0 {
      var front, t := tasks[..|tasks| - 1], tasks[|tasks| - 1];
      assert Distinct(front) && t.ptr !in FieldsOf(front);
      hide *;
      FieldsShrink(tasks, src, dst, |buf|);
      InOrderNext(buf, tasks, src, dst);
      InOrderPatches(buf, front, src, dst);
      PatchedOneMore(buf, InOrder(buf, front, src, dst), FieldsOf(front), t.ptr, t.inc, src, dst);
    }
  }

  lemma {:induction false} InOrderNext(buf: seq<Word>, tasks: seq<Task>, src: nat, dst: nat)
    requires |tasks| > 0 && Within(FieldsOf(tasks), src, dst, |buf|)
    ensures var front, t := tasks[..|tasks| - 1], tasks[|tasks| - 1];
      && FieldsOf(tasks) == FieldsOf(front)[t.ptr := t.inc]
      && Within(FieldsOf(front), src, dst, |buf|)
      && t.ptr + dst < |buf| && t.ptr + src < |buf|
      && var done := InOrder(buf, front, src, dst);
         InOrder(buf, tasks, src, dst) == done[t.ptr + dst := Bump(done[t.ptr + src], t.inc)]
  {
    FieldsShrink(tasks, src, dst, |buf|);
    assert tasks[|tasks| - 1].ptr in FieldsOf(tasks);
  }

  /** A patch is determined by its fields. */
  lemma {:induction false} PatchedOnce(before: seq<Word>, a: seq<Word>, b: seq<Word>, f: Fields, src: nat, dst: nat)
    requires Within(f, src, dst, |before|)
    requires Patched(before, a, f, src, dst) && Patched(before, b, f, src, dst)
    ensures a == b
  {
    forall j | 0 <= j < |before|
      ensures a[j] == b[j]
    {
      if j - dst in f {
        assert a[j - dst + dst] == b[j - dst + dst];
      }
    }
  }

  /** Grouping by increment does not matter: any patch of the registered fields is the update in registration order. */
  lemma {:induction false} GroupedIsInOrder(before: seq<Word>, after: seq<Word>, tasks: seq<Task>, src: nat, dst: nat)
    requires Within(FieldsOf(tasks), src, dst, |before|) && Separate(FieldsOf(tasks), src, dst) && Distinct(tasks)
    requires Patched(before, after, FieldsOf(tasks), src, dst)
    ensures after == InOrder(before, tasks, src, dst)
  {
    InOrderPatches(before, tasks, src, dst);
    PatchedOnce(before, after, InOrder(before, tasks, src, dst), FieldsOf(tasks), src, dst);
  }

  lemma {:induction false} PatchedOneMore(x: seq<Word>, y: seq<Word>, f: Fields, p: int, inc: int, src: nat, dst: nat)
    requires Within(f[p := inc], src, dst, |x|) && Within(f, src, dst, |x|)
    requires Separate(f[p := inc], src, dst) && p !in f
    requires Patched(x, y, f, src, dst)
    ensures 0 <= p + dst < |x| && 0 <= p + src < |x|
    ensures Patched(x, y[p + dst := Bump(y[p + src], inc)], f[p := inc], src, dst)
  {
    assert p in f[p := inc];
    assert p + src - dst !in f[p := inc];
  }

  /** Patching one group of fields and then another is patching both. */
  lemma {:induction false} PatchedUnion(x: seq<Word>, y: seq<Word>, z: seq<Word>, f: Fields, g: Fields, src: nat,
          dst: nat)
    requires Within(f + g, src, dst, |x|) && Separate(f + g, src, dst) && f.Keys !! g.Keys
    requires Within(f, src, dst, |x|) && Within(g, src, dst, |y|)
    requires Patched(x, y, f, src, dst) && Patched(y, z, g, src, dst)
    ensures Patched(x, z, f + g, src, dst)
  {
    forall p | p in f + g
      ensures z[p + dst] == Bump(x[p + src], (f + g)[p])
    {
      assert p + src - dst !in f + g;
      if p in g {
        assert y[p + src] == x[p + src];
      } else {
        assert z[p + dst] == y[p + dst];
      }
    }
  }

  function Group(ptrs: seq<nat>, inc: int): Fields {
    map p: int | p in ptrs :: inc
  }

  ghost predicate IsCapacity(n: nat) {
    n == 4 || (n > 4 && n % 2 == 0 && IsCapacity(n / 2))
  }

  /** A growable list of field positions sharing one increment. */
  class ValRearmTasks {
    var size: nat
    var bufSize: nat
    var ptrs: array<nat>
    ghost var copied: nat  // elements moved by all growths so far

    /** The capacity is 4 * 2^k and at least the size, and all growths together moved fewer than 2 * size elements. */
    ghost predicate Valid()
      reads this
    {
      && ptrs.Length == bufSize && size <= bufSize && IsCapacity(bufSize)
      && copied == bufSize - 4
      && (size == 0 ==> copied == 0)
      && (size > 0 ==> copied < 2 * size)
    }

    function Contents(): seq<nat>
      requires Valid()
      reads this, ptrs
    {
      ptrs[..size]
    }

    constructor ()
      ensures Valid() && Contents() == [] && fresh(ptrs)
    {
      size, bufSize, copied := 0, 4, 0;
      ptrs := new nat[4];
    }

    method Add(ptr: nat)
      requires Valid()
      modifies this, ptrs
      ensures Valid() && Contents() == old(Contents()) + [ptr]
      ensures ptrs == old(ptrs) || fresh(ptrs)
    {
      size := size + 1;
      if size > bufSize {
        Grow();
      }
      ptrs[size - 1] := ptr;
    }

    /** Twice the capacity, with the same elements. */
    method Grow()
      requires ptrs.Length == bufSize
      modifies this`ptrs, this`bufSize, this`copied
      ensures fresh(ptrs) && ptrs.Length == bufSize == 2 * old(bufSize)
      ensures ptrs[..old(bufSize)] == old(ptrs[..bufSize])
      ensures copied == old(copied) + old(bufSize)
    {
      var tmp := new nat[bufSize * 2];
      var i := 0;
      while i < bufSize
        invariant 0 <= i <= bufSize == ptrs.Length == old(bufSize) && ptrs == old(ptrs) && ptrs[..] == old(ptrs[..])
        invariant tmp[..i] == ptrs[..i] && copied == old(copied) + i
      {
        tmp[i] := ptrs[i];
        copied := copied + 1;
        i := i + 1;
      }
      bufSize := bufSize * 2;
      ptrs := tmp;
    }

    method Exec(increment: int, src: nat, dst: nat, buf: array<Word>)
      requires Valid() && buf as object != ptrs as object
      requires NoRepeats(Contents())
      requires Within(Group(Contents(), increment), src, dst, buf.Length)
      requires Separate(Group(Contents(), increment), src, dst)
      modifies buf
      ensures Patched(old(buf[..]), buf[..], Group(Contents(), increment), src, dst)
    {
      hide Bump;
      hide IsCapacity, NoRepeats, Separate;
      var i := 0;
      while i < size
        invariant 0 <= i <= size
        invariant ptrs[..i] <= Contents()
        invariant Within(Group(ptrs[..i], increment), src, dst, buf.Length)
        invariant Patched(old(buf[..]), buf[..], Group(ptrs[..i], increment), src, dst)
      {
        var p := ptrs[i];
        assert Contents()[..i] == ptrs[..i];
        GroupGrows(Contents(), i, increment, src, dst, buf.Length);
        PatchedOneMore(old(buf[..]), buf[..], Group(ptrs[..i], increment), p, increment, src, dst);
        assert ptrs[..i + 1] == ptrs[..i] + [p];
        ghost var b := buf[..];
        buf[p + dst] := Bump(buf[p + src], increment);
        assert buf[..] == b[p + dst := Bump(b[p + src], increment)];
        assert Group(ptrs[..i + 1], increment) == Group(ptrs[..i], increment)[p as int := increment];
        i := i + 1;
      }
      assert ptrs[..i] == Contents();
    }
  }

  lemma {:induction false} GroupGrows(ptrs: seq<nat>, i: nat, inc: int, src: nat, dst: nat, length: nat)
    requires i < |ptrs| && NoRepeats(ptrs)
    requires Within(Group(ptrs, inc), src, dst, length) && Separate(Group(ptrs, inc), src, dst)
    ensures ptrs[i] !in ptrs[..i]
    ensures var f := Group(ptrs[..i], inc)[ptrs[i] as int := inc];
      Within(f, src, dst, length) && Separate(f, src, dst)
  {
    NoRepeatsAt(ptrs, i);
    var f := Group(ptrs[..i], inc)[ptrs[i] as int := inc];
    forall p | p in f
      ensures p in Group(ptrs, inc)
    {
      assert p == ptrs[i] || p in ptrs[..i];
    }
  }

  lemma {:induction false} NoRepeatsAt(ptrs: seq<nat>, i: nat)
    requires NoRepeats(ptrs) && i < |ptrs|
    ensures ptrs[i] !in ptrs[..i]
  {
    if i < |ptrs| - 1 {
      NoRepeatsAt(ptrs[..|ptrs| - 1], i);
      assert ptrs[..|ptrs| - 1][..i] == ptrs[..i];
    }
  }

  /** The positions registered with one increment, oldest first. */
  function OfIncrement(tasks: seq<Task>, inc: int): seq<nat> {
    if |tasks| == 0 then []
    else
      var t := tasks[|tasks| - 1];
      OfIncrement(tasks[..|tasks| - 1], inc) + if t.inc == inc then [t.ptr] else []
  }

  lemma {:induction false} OfIncrementMore(tasks: seq<Task>, t: Task, inc: int)
    ensures OfIncrement(tasks + [t], inc) == OfIncrement(tasks, inc) + if t.inc == inc then [t.ptr] else []
  {
    assert (tasks + [t])[..|tasks|] == tasks;
  }

  lemma {:induction false} OfIncrementIs(tasks: seq<Task>, inc: int)
    ensures forall p: int :: p in OfIncrement(tasks, inc) <==> Registers(tasks, p, inc)
    ensures Distinct(tasks) ==> NoRepeats(OfIncrement(tasks, inc))
  {
    if |tasks| > 0 {
      var front, t := tasks[..|tasks| - 1], tasks[|tasks| - 1];
      OfIncrementIs(front, inc);
      assert front + [t] == tasks;
      forall p: int
        ensures p in OfIncrement(tasks, inc) <==> Registers(tasks, p, inc)
      {
        RegistersMore(front, t, p, inc);
      }
      if Distinct(tasks) && t.inc == inc {
        FieldsAre(front);
        var o := OfIncrement(front, inc);
        assert t.ptr !in o;
        assert OfIncrement(tasks, inc)[..|o|] == o;
      } else if Distinct(tasks) {
        assert OfIncrement(tasks, inc) == OfIncrement(front, inc);
      }
    }
  }

  /** The fields whose increment is one of `keys`. */
  ghost function Restricted(tasks: seq<Task>, keys: seq<int>): Fields {
    var f := FieldsOf(tasks);
    map p | p in f && f[p] in keys :: f[p]
  }

  /** One more key adds its group. */
  lemma {:induction false} RestrictedGrows(tasks: seq<Task>, keys: seq<int>, k: int)
    requires Distinct(tasks) && k !in keys
    ensures var g := Group(OfIncrement(tasks, k), k);
      && Restricted(tasks, keys + [k]) == Restricted(tasks, keys) + g
      && Restricted(tasks, keys).Keys !! g.Keys
      && g.Keys <= FieldsOf(tasks).Keys
  {
    var f, g := FieldsOf(tasks), Group(OfIncrement(tasks, k), k);
    forall p: int
      ensures p in f && f[p] == k <==> p in g
    {
      FieldsAre(tasks);
      OfIncrementIs(tasks, k);
    }
  }

  ghost predicate Ascending(keys: seq<int>) {
    forall i, j :: 0 <= i < j < |keys| ==> keys[i] < keys[j]
  }

  /** The keys of an ordered map after looking up `k`. */
  function Looked(keys: seq<int>, k: int): seq<int> {
    if |keys| == 0 then [k]
    else if k < keys[0] then [k] + keys
    else if k == keys[0] then keys
    else [keys[0]] + Looked(keys[1..], k)
  }

  lemma {:induction false} LookedIs(keys: seq<int>, k: int)
    requires Ascending(keys)
    ensures Ascending(Looked(keys, k))
    ensures forall x :: x in Looked(keys, k) <==> x == k || x in keys
  {
    if |keys| > 0 && keys[0] < k {
      LookedIs(keys[1..], k);
      forall x
        ensures x in Looked(keys, k) <==> x == k || x in keys
      {
        assert x in keys <==> x == keys[0] || x in keys[1..];
      }
      var rest := Looked(keys[1..], k);
      forall j | 0 <= j < |rest|
        ensures keys[0] < rest[j]
      {
        assert rest[j] in rest;
      }
      assert Looked(keys, k) == [keys[0]] + rest;
    }
  }

  /** List `v` holds the positions registered with increment `k`. */
  ghost predicate ListOf(v: ValRearmTasks, tasks: seq<Task>, k: int)
    reads v, v.ptrs
  {
    v.Valid() && v.Contents() == OfIncrement(tasks, k)
  }

  lemma {:induction false} ListKept(v: ValRearmTasks, tasks: seq<Task>, t: Task, k: int)
    requires ListOf(v, tasks, k) && t.inc != k
    ensures ListOf(v, tasks + [t], k)
  {
    OfIncrementMore(tasks, t, k);
  }

  method AddTo(v: ValRearmTasks, ptr: nat, ghost tasks: seq<Task>, ghost inc: int)
    requires ListOf(v, tasks, inc)
    modifies v, v.ptrs
    ensures ListOf(v, tasks + [Task(ptr, inc)], inc)
    ensures v.ptrs == old(v.ptrs) || fresh(v.ptrs)
  {
    OfIncrementMore(tasks, Task(ptr, inc), inc);
    v.Add(ptr);
  }

  /** All registered fields, one list per increment. */
  class RearmTasks {
    var keys: seq<int>  // ascending: the iteration order of the ordered map
    var byInc: map<int, ValRearmTasks>
    ghost var tasks: seq<Task>  // what was registered, in order
    ghost var Repr: set<object>
    ghost var owner: map<object, int>  // the increment whose list an object belongs to

    /** List `v` is the one of increment `k`. */
    ghost predicate Lists(k: int, v: ValRearmTasks)
      reads this, v, v.ptrs
    {
      ListOf(v, tasks, k)
    }

    /** The lists share no memory with one another. */
    ghost predicate Owns(k: int, v: ValRearmTasks)
      reads this, v
    {
      && v in Repr && v in owner && owner[v] == k
      && v.ptrs in Repr && v.ptrs in owner && owner[v.ptrs] == k
      && v as object != this
    }

    ghost predicate Valid()
      reads this, Repr
    {
      && this in Repr
      && Ascending(keys)
      && (forall k :: k in keys <==> k in byInc)
      && (forall k :: k in byInc ==> byInc[k] in Repr && Owns(k, byInc[k]) && Lists(k, byInc[k]))
      && (forall k :: k !in byInc ==> OfIncrement(tasks, k) == [])
    }

    constructor ()
      ensures Valid() && tasks == [] && fresh(Repr)
    {
      keys, byInc, tasks := [], map[], [];
      Repr, owner := {this}, map[];
    }

    method Add(ptr: nat, inc: int)
      requires Valid()
      modifies Repr
      ensures Valid() && fresh(Repr - old(Repr))
      ensures tasks == old(tasks) + [Task(ptr, inc)]
    {
      Find(inc);
      Append(ptr, inc);
    }

    /** The list of an increment comes into being when it is first looked up. */
    method Find(inc: int)
      requires Valid()
      modifies this
      ensures Valid() && fresh(Repr - old(Repr)) && tasks == old(tasks) && inc in byInc
    {
      hide OfIncrement, Ascending, IsCapacity, Looked;
      if inc !in byInc {
        var v := new ValRearmTasks();
        LookedIs(keys, inc);
        keys, byInc := Looked(keys, inc), byInc[inc := v];
        Repr, owner := Repr + {v, v.ptrs}, owner[v := inc][v.ptrs := inc];
        forall k | k in byInc
          ensures byInc[k] in Repr && Owns(k, byInc[k]) && Lists(k, byInc[k])
        {
          assert k != inc ==> old(Owns(k, byInc[k]) && Lists(k, byInc[k]));
        }
      }
    }

    method Append(ptr: nat, inc: int)
      requires Valid() && inc in byInc
      modifies this, byInc[inc], byInc[inc].ptrs
      ensures Valid() && fresh(Repr - old(Repr))
      ensures tasks == old(tasks) + [Task(ptr, inc)]
    {
      hide OfIncrement, Ascending, ListOf;
      ghost var before, t := tasks, Task(ptr, inc);
      var v := byInc[inc];
      AddTo(v, ptr, before, inc);
      Repr, owner := Repr + {v.ptrs}, owner[v.ptrs := inc];
      tasks := tasks + [t];
      forall k | k in byInc
        ensures byInc[k] in Repr && Owns(k, byInc[k]) && Lists(k, byInc[k])
      {
        assert old(Owns(k, byInc[k]) && Lists(k, byInc[k]));
        if k != inc {
          assert byInc[k] != v && byInc[k].ptrs != v.ptrs;
          assert ListOf(byInc[k], before, k);
          ListKept(byInc[k], before, t, k);
        }
      }
      forall k | k !in byInc
        ensures OfIncrement(tasks, k) == []
      {
        OfIncrementMore(before, t, k);
      }
    }

    /** Bump every registered field from the copy numbered `phase` into the next copy, one increment at a time, in
        increasing order of the increments. The result is what updating the fields in the order of their
        registration gives, and changes nothing but them. */
    method Exec(offset: nat, phase: nat, dups: nat, buf: array<Word>)
      requires Valid() && buf !in Repr && dups > 0
      requires Distinct(tasks)
      requires Within(FieldsOf(tasks), phase * offset, (phase + 1) % dups * offset, buf.Length)
      requires Separate(FieldsOf(tasks), phase * offset, (phase + 1) % dups * offset)
      modifies buf
      ensures Patch(old(buf[..]), buf[..], FieldsOf(tasks), phase * offset, (phase + 1) % dups * offset)
      ensures buf[..] == InOrder(old(buf[..]), tasks, phase * offset, (phase + 1) % dups * offset)
    {
      var src, dst := phase * offset, (phase + 1) % dups * offset;
      ghost var before := buf[..];
      ExecGroups(src, dst, buf);
      GroupedIsInOrder(before, buf[..], tasks, src, dst);
    }

    method ExecGroups(src: nat, dst: nat, buf: array<Word>)
      requires Valid() && buf !in Repr
      requires Distinct(tasks)
      requires Within(FieldsOf(tasks), src, dst, buf.Length) && Separate(FieldsOf(tasks), src, dst)
      modifies buf
      ensures Patch(old(buf[..]), buf[..], FieldsOf(tasks), src, dst)
    {
      hide OfIncrement, IsCapacity, FieldsOf, Distinct, Separate;
      ghost var x := buf[..];
      var i := 0;
      while i < |keys|
        invariant Valid() && 0 <= i <= |keys|
        invariant Patch(x, buf[..], Restricted(tasks, keys[..i]), src, dst)
      {
        ghost var y := buf[..];
        assert keys[i] in keys && keys[i] !in keys[..i];
        ExecGroup(keys[i], keys[..i], src, dst, buf);
        PatchGrows(tasks, keys[..i], keys[i], x, y, buf[..], src, dst);
        assert keys[..i + 1] == keys[..i] + [keys[i]];
        i := i + 1;
      }
      assert keys[..i] == keys;
      AllRestricted(tasks, keys);
    }

    method ExecGroup(k: int, ghost done: seq<int>, src: nat, dst: nat, buf: array<Word>)
      requires Valid() && buf !in Repr && k in byInc && k !in done
      requires Distinct(tasks)
      requires Within(FieldsOf(tasks), src, dst, buf.Length) && Separate(FieldsOf(tasks), src, dst)
      modifies buf
      ensures Patch(old(buf[..]), buf[..], Group(OfIncrement(tasks, k), k), src, dst)
    {
      RestrictedGrows(tasks, done, k);
      OfIncrementIs(tasks, k);
      assert Lists(k, byInc[k]);
      byInc[k].Exec(k, src, dst, buf);
    }
  }

  ghost predicate Patch(before: seq<Word>, after: seq<Word>, f: Fields, src: nat, dst: nat) {
    Within(f, src, dst, |before|) && Patched(before, after, f, src, dst)
  }

  lemma {:induction false} PatchGrows(tasks: seq<Task>, keys: seq<int>, k: int, x: seq<Word>, y: seq<Word>,
          z: seq<Word>, src: nat, dst: nat)
    requires Distinct(tasks) && k !in keys
    requires Within(FieldsOf(tasks), src, dst, |x|) && Separate(FieldsOf(tasks), src, dst)
    requires Patch(x, y, Restricted(tasks, keys), src, dst)
    requires Patch(y, z, Group(OfIncrement(tasks, k), k), src, dst)
    ensures Patch(x, z, Restricted(tasks, keys + [k]), src, dst)
  {
    RestrictedGrows(tasks, keys, k);
    var f, g := Restricted(tasks, keys), Group(OfIncrement(tasks, k), k);
    assert (f + g).Keys <= FieldsOf(tasks).Keys;
    PatchedUnion(x, y, z, f, g, src, dst);
  }

  lemma {:induction false} AllRestricted(tasks: seq<Task>, keys: seq<int>)
    requires forall k :: k !in keys ==> OfIncrement(tasks, k) == []
    ensures Restricted(tasks, keys) == FieldsOf(tasks)
  {
    var f := FieldsOf(tasks);
    FieldsAre(tasks);
    forall p: int | p in f
      ensures f[p] in keys
    {
      OfIncrementIs(tasks, f[p]);
    }
  }
}
