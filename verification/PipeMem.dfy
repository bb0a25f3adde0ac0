/** Memory split into slots that are used in turn. */
module PipeMem {
  import opened Words

  const SIZE: int := 0x1_0000_0000_0000_0000

  type Size = s: int | 0 <= s < 0x1_0000_0000_0000_0000

  /** Conversion of an integer to size_t or uint64_t. */
  function WrapSize(x: int): (s: Size) {
    x % SIZE
  }

  /** A registered address range. */
  datatype Sge = Sge(addr: Size, length: Word, key: Word)

  /** A reference into registered memory: 64-bit address arithmetic, and a length kept in 32 bits. */
  function RefMem(mem: Sge, offset: Size, length: Word): Sge {
    Sge(WrapSize(mem.addr + offset), length, mem.key)
  }

  /** The slot of number `idx`. */
  function Slot(mem: Sge, length: Size, depth: Size, idx: Size): Sge
    requires depth > 0
  {
    RefMem(mem, WrapSize(length * (idx % depth)), Wrap(length))
  }

  class PipeMem {
    const length: Size
    const depth: Size
    const mem: Sge
    var cur: Size
    ghost var taken: nat  // calls of Next so far

    ghost predicate Valid()
      reads this
    {
      cur == WrapSize(taken)
    }

    constructor (length: Size, depth: Size, mem: Sge)
      ensures this.length == length && this.depth == depth && this.mem == mem && Valid() && taken == 0
    {
      this.length, this.depth, this.mem, cur, taken := length, depth, mem, 0, 0;
    }

    /** The far end of a ring queue: this rank's own slot length and number of slots over the peer's address. */
    constructor Remote(length: Size, depth: Size, addr: Size, key: Word)
      ensures this.length == length && this.depth == depth && mem == Sge(addr, 0, key) && Valid() && taken == 0
    {
      this.length, this.depth, cur, taken := length, depth, 0, 0;
      mem := Sge(addr, 0, key);
    }

    method At(idx: Size) returns (slot: Sge)
      requires depth > 0
      ensures slot == Slot(mem, length, depth, idx) && slot.key == mem.key && slot.length == Wrap(length)
      ensures Fits(mem, length, depth) ==> slot.addr == mem.addr + length * (idx % depth)
    {
      slot := RefMem(mem, WrapSize(length * (idx % depth)), Wrap(length));
      if Fits(mem, length, depth) {
        SlotAddress(mem, length, depth, idx);
      }
    }

    /** The slot numbered by the calls made before, as a size_t counts them. */
    method Next() returns (slot: Sge)
      requires depth > 0 && Valid()
      modifies this`cur, this`taken
      ensures Valid() && taken == old(taken) + 1
      ensures slot == Slot(mem, length, depth, WrapSize(old(taken))) && slot.key == mem.key && slot.length == Wrap(length)
      ensures Fits(mem, length, depth) && (old(taken) < SIZE || SIZE % depth == 0) ==>
        slot.addr == mem.addr + length * (old(taken) % depth)
    {
      NextBack(taken);
      if Fits(mem, length, depth) && (taken < SIZE || SIZE % depth == 0) {
        NextInTurn(mem, length, depth, taken);
      }
      cur := WrapSize(cur + 1);
      taken := taken + 1;
      slot := RefMem(mem, WrapSize(length * (WrapSize(cur - 1) % depth)), Wrap(length));
    }
  }

  lemma {:induction false} NextBack(k: nat)
    ensures WrapSize(WrapSize(k) + 1) == WrapSize(k + 1)
    ensures WrapSize(WrapSize(k + 1) - 1) == WrapSize(k)
  {
  }

  // ---- The slots tile the buffer ----

  predicate Contains(s: Sge, a: int) {
    s.addr <= a < s.addr + s.length
  }

  /** The bytes of `depth` slots of `length` bytes lie within the address space. */
  predicate Fits(mem: Sge, length: Size, depth: Size) {
    depth > 0 && mem.addr + length * depth <= SIZE
  }

  /** That is, there is a slot, and each ends within the address space. */
  lemma {:induction false} FitsIff(mem: Sge, length: Size, depth: Size)
    ensures Fits(mem, length, depth)
      <==> depth > 0 && forall i: nat :: i < depth ==> mem.addr + EndOf(length, i) <= SIZE
  {
    if depth > 0 {
      assert EndOf(length, depth - 1) == length * depth by {
        Distribute(length, depth - 1, 1);
      }
      forall i: nat | i < depth
        ensures EndOf(length, i) <= length * depth
      {
        SlotsOrdered(length, i, depth);
      }
    }
  }

  /** Where slot `i` ends, counted from the start of the buffer. */
  function EndOf(length: nat, i: nat): int {
    length * i + length
  }

  /** Slots are where unbounded arithmetic puts them. */
  lemma {:induction false} SlotAddress(mem: Sge, length: Size, depth: Size, idx: Size)
    requires Fits(mem, length, depth)
    ensures var s, o := Slot(mem, length, depth, idx), length * (idx % depth);
      && s.addr == mem.addr + o && s.length == Wrap(length)
      && 0 <= o && o + length <= length * depth
  {
    SlotsOrdered(length, idx % depth, depth);
    InSize(length * (idx % depth), mem.addr, length * depth, length);
  }

  lemma {:induction false} InSize(o: nat, base: nat, all: nat, length: nat)
    requires o + length <= all && base + all <= SIZE && base < SIZE
    ensures WrapSize(base + WrapSize(o)) == base + o
    requires o > 0 ==> length > 0
  {
  }

  lemma {:induction false} NextInTurn(mem: Sge, length: Size, depth: Size, i: nat)
    requires Fits(mem, length, depth) && (i < SIZE || SIZE % depth == 0)
    ensures Slot(mem, length, depth, WrapSize(i)).addr == mem.addr + length * (i % depth)
  {
    hide Slot;
    SlotAddress(mem, length, depth, WrapSize(i));
    if i < SIZE {
      SmallMod(i, SIZE);
    } else {
      ModOfMod(i, SIZE, depth);
    }
  }

  /** The slot that call number `i` of `Next` returns is slot `i` modulo the depth for every `i`, also after the counter
      has wrapped, if and only if the depth divides 2^64. */
  lemma {:induction false} NextForever(mem: Sge, length: Size, depth: Size)
    requires Fits(mem, length, depth) && length > 0
    ensures (forall i: nat :: Slot(mem, length, depth, WrapSize(i)).addr == mem.addr + length * (i % depth))
      <==> SIZE % depth == 0
  {
    hide Slot;
    if SIZE % depth == 0 {
      forall i: nat
        ensures Slot(mem, length, depth, WrapSize(i)).addr == mem.addr + length * (i % depth)
      {
        NextInTurn(mem, length, depth, i);
      }
    } else {
      assert WrapSize(SIZE) == 0;
      SmallMod(0, depth);
      SlotAddress(mem, length, depth, 0);
      MulGrows(SIZE % depth, length);
      assert Slot(mem, length, depth, WrapSize(SIZE)).addr != mem.addr + length * (SIZE % depth);
    }
  }

  /** Two of any `depth` consecutive slots share no byte. */
  lemma {:induction false} WindowDisjoint(mem: Sge, length: Size, depth: Size, k: Size, l: Size, a: int)
    requires Fits(mem, length, depth) && k < l < k + depth
    ensures !(Contains(Slot(mem, length, depth, k), a) && Contains(Slot(mem, length, depth, l), a))
  {
    hide Slot;
    SlotAddress(mem, length, depth, k);
    SlotAddress(mem, length, depth, l);
    var s, t := k % depth, l % depth;
    assert s != t by {
      SameCopy(k, l, depth);
    }
    ShortWrap(length);
    if s < t {
      SlotsOrdered(length, s, t);
    } else {
      SlotsOrdered(length, t, s);
    }
  }

  lemma {:induction false} SlotsOrdered(length: nat, s: nat, t: nat)
    requires s < t
    ensures length * s + length <= length * t
  {
    BlocksOrdered(s, t, length);
  }

  lemma {:induction false} ShortWrap(length: nat)
    ensures Wrap(length) <= length
  {
  }

  /** One of the slots from number `i` on contains the byte. */
  ghost predicate Covered(mem: Sge, length: Size, depth: Size, i: Size, a: int)
    requires depth > 0 && i + depth <= SIZE
  {
    exists k: Size :: i <= k < i + depth && Contains(Slot(mem, length, depth, k), a)
  }

  /** Any `depth` consecutive slots together are exactly the buffer, if and only if a slot is shorter than 4 GiB: a
      reference keeps only 32 bits of its length. */
  lemma {:induction false} WindowCovers(mem: Sge, length: Size, depth: Size, i: Size)
    requires Fits(mem, length, depth) && i + depth <= SIZE
    ensures (forall a :: Covered(mem, length, depth, i, a) <==> mem.addr <= a < mem.addr + length * depth)
      <==> length < LIMIT
  {
    if length < LIMIT {
      forall a
        ensures Covered(mem, length, depth, i, a) <==> mem.addr <= a < mem.addr + length * depth
      {
        CoveredIff(mem, length, depth, i, a);
      }
    } else {
      Uncovered(mem, length, depth, i);
    }
  }

  lemma {:induction false} CoveredIff(mem: Sge, length: Size, depth: Size, i: Size, a: int)
    requires Fits(mem, length, depth) && i + depth <= SIZE && length < LIMIT
    ensures Covered(mem, length, depth, i, a) <==> mem.addr <= a < mem.addr + length * depth
  {
    hide Slot;
    if k: Size :| i <= k < i + depth && Contains(Slot(mem, length, depth, k), a) {
      SlotAddress(mem, length, depth, k);
      ShortWrap(length);
    }
    if mem.addr <= a < mem.addr + length * depth {
      var s := SlotOf(a - mem.addr, length, depth);
      var k := Nth(i, depth, s);
      SlotAddress(mem, length, depth, k);
      assert Wrap(length) == length;
      assert Contains(Slot(mem, length, depth, k), a);
    }
  }

  /** The slot that byte `o` of the buffer belongs to. */
  lemma {:induction false} SlotOf(o: int, length: int, depth: int) returns (s: nat)
    requires 0 <= o < length * depth && length > 0
    ensures s < depth && length * s <= o < length * s + length
  {
    s := o / length;
    assert o == s * length + o % length;
    BlocksOrdered(depth, s, length);
  }

  /** The number from `i` on that is `s` modulo `depth`. */
  lemma {:induction false} Nth(i: Size, depth: Size, s: nat) returns (k: Size)
    requires s < depth && i + depth <= SIZE
    ensures i <= k < i + depth && k % depth == s
  {
    var m, q := i % depth, i / depth;
    assert i == q * depth + m;
    if m <= s {
      k := i + (s - m);
      ModUnique(k, depth, q, s);
    } else {
      k := i + depth + s - m;
      assert (q + 1) * depth == q * depth + depth;
      ModUnique(k, depth, q + 1, s);
    }
  }

  lemma {:induction false} Uncovered(mem: Sge, length: Size, depth: Size, i: Size)
    requires Fits(mem, length, depth) && i + depth <= SIZE && length >= LIMIT
    ensures mem.addr <= mem.addr + length - 1 < mem.addr + length * depth
    ensures !Covered(mem, length, depth, i, mem.addr + length - 1)
  {
    hide Slot;
    SlotsOrdered(length, 0, depth);
    ShortLimit(length);
    if k: Size :| i <= k < i + depth && Contains(Slot(mem, length, depth, k), mem.addr + length - 1) {
      SlotAddress(mem, length, depth, k);
      if k % depth > 0 {
        SlotsOrdered(length, 0, k % depth);
      }
    }
  }

  lemma {:induction false} ShortLimit(length: nat)
    requires length >= LIMIT
    ensures Wrap(length) < length
  {
  }

  // ---- Both ends of a ring queue ----

  /** The sender's view of the receiver's memory names the receiver's own slots, position by position, if and only if
      both ends have the same slot length and the same number of slots. */
  lemma {:induction false} RemoteNamesIncoming(peer: Sge, key: Word, length: Size, depth: Size, length': Size,
          depth': Size)
    requires Fits(peer, length, depth) && Fits(peer, length', depth')
    requires 0 < length < LIMIT && 0 < length' < LIMIT
    ensures (forall pos: Size :: SameRange(peer, key, length, depth, length', depth', pos))
      <==> length == length' && depth == depth'
  {
    hide Slot;
    if forall pos: Size :: SameRange(peer, key, length, depth, length', depth', pos) {
      assert SameRange(peer, key, length, depth, length', depth', 0);
      SlotAddress(Sge(peer.addr, 0, key), length, depth, 0);
      SlotAddress(peer, length', depth', 0);
      if depth < depth' {
        assert SameRange(peer, key, length, depth, length', depth', depth);
        Apart(peer, key, length, depth, depth');
      } else if depth' < depth {
        assert SameRange(peer, key, length, depth, length', depth', depth');
        Apart(peer, key, length, depth', depth);
      }
    } else {
      SameEverywhere(peer, key, length, depth);
    }
  }

  lemma {:induction false} SameEverywhere(peer: Sge, key: Word, length: Size, depth: Size)
    requires depth > 0
    ensures forall pos: Size :: SameRange(peer, key, length, depth, length, depth, pos)
  {
  }

  /** `remote[pos]` at this end, built from the peer's address with this end's length and depth, is the address range of
      `incoming[pos]` at the peer. */
  predicate SameRange(peer: Sge, key: Word, length: Size, depth: Size, length': Size, depth': Size, pos: Size)
    requires depth > 0 && depth' > 0
  {
    var remote, incoming := Slot(Sge(peer.addr, 0, key), length, depth, pos), Slot(peer, length', depth', pos);
    remote.addr == incoming.addr && remote.length == incoming.length
  }

  /** The shorter end starts over where the longer one goes on. */
  lemma {:induction false} Apart(peer: Sge, key: Word, length: Size, depth: Size, depth': Size)
    requires 0 < depth < depth' && length > 0 && Fits(peer, length, depth) && Fits(peer, length, depth')
    ensures Slot(Sge(peer.addr, 0, key), length, depth, depth).addr != Slot(peer, length, depth', depth).addr
    ensures Slot(peer, length, depth, depth).addr != Slot(Sge(peer.addr, 0, key), length, depth', depth).addr
  {
    SlotAddress(peer, length, depth, depth);
    SlotAddress(peer, length, depth', depth);
    SlotAddress(Sge(peer.addr, 0, key), length, depth, depth);
    SlotAddress(Sge(peer.addr, 0, key), length, depth', depth);
    ModUnique(depth, depth, 1, 0);
    ModUnique(depth, depth', 0, depth);
    MulGrows(depth, length);
  }
}
