/** Polling a completion queue for whole rounds: ring index, ownership parity, and when both tell the truth. */
module Poller {
  import opened Words

  type Byte = b: int | 0 <= b < 0x100

  const INVALID := 15

  /** The byte holds the opcode of a completion and the ownership bit of pass `pass` over the ring. */
  predicate Stamped(b: Byte, pass: nat) {
    b / 16 != INVALID && b % 2 == pass % 2
  }

  /** What the device has done to a ring of `c` slots after `h` completions: the last `c` of them are there, number `n` in
      slot `n` modulo `c`, and slots not yet reached are invalid. */
  ghost predicate Filled(ops: seq<Byte>, c: nat, h: nat)
    requires c > 0
  {
    && |ops| == c
    && (forall n :: 0 <= n < h <= n + c ==> Stamped(ops[n % c], n / c))
    && (forall s :: h <= s < c ==> ops[s] / 16 == INVALID)
  }

  lemma {:induction false} EmptyRing(ops: seq<Byte>, c: nat)
    requires c > 0 && |ops| == c && forall s :: 0 <= s < c ==> ops[s] / 16 == INVALID
    ensures Filled(ops, c, 0)
  {
  }

  /** The device writes completion number `h`. */
  lemma {:induction false} Arrives(ops: seq<Byte>, c: nat, h: nat, b: Byte)
    requires c > 0 && Filled(ops, c, h) && Stamped(b, h / c)
    ensures Filled(ops[h % c := b], c, h + 1)
  {
    hide Stamped;
    var after := ops[h % c := b];
    forall n | 0 <= n < h + 1 <= n + c
      ensures Stamped(after[n % c], n / c)
    {
      StaysStamped(ops, c, h, b, n);
    }
    forall s | h + 1 <= s < c
      ensures after[s] / 16 == INVALID
    {
      StaysInvalid(ops, c, h, b, s);
    }
  }

  lemma {:induction false} StaysStamped(ops: seq<Byte>, c: nat, h: nat, b: Byte, n: nat)
    requires c > 0 && Filled(ops, c, h) && Stamped(b, h / c) && n < h + 1 <= n + c
    ensures Stamped(ops[h % c := b][n % c], n / c)
  {
    hide Stamped;
    if n < h {
      OtherSlot(ops, c, h, b, n);
    }
  }

  lemma {:induction false} StaysInvalid(ops: seq<Byte>, c: nat, h: nat, b: Byte, s: nat)
    requires c > 0 && Filled(ops, c, h) && h + 1 <= s < c
    ensures ops[h % c := b][s] / 16 == INVALID
  {
    hide Stamped;
    SmallMod(h, c);
  }

  lemma {:induction false} OtherSlot(ops: seq<Byte>, c: nat, h: nat, b: Byte, n: nat)
    requires c > 0 && |ops| == c && n < h < n + c
    ensures ops[h % c := b][n % c] == ops[n % c]
  {
    SameCopy(n, h, c);
  }

  /** The ring after the device has written the given completions, one after the other. */
  function Arrived(ops: seq<Byte>, c: nat, bytes: seq<Byte>): (r: seq<Byte>)
    requires |ops| == c > 0
    ensures |r| == c
  {
    if |bytes| == 0 then ops
    else
      var n := |bytes| - 1;
      Arrived(ops, c, bytes[..n])[n % c := bytes[n]]
  }

  /** A ring that starts invalid shows, after any number of completions stamped with their passes, just those. */
  lemma {:induction false} RingShows(ops: seq<Byte>, c: nat, bytes: seq<Byte>)
    requires |ops| == c > 0 && forall s :: 0 <= s < c ==> ops[s] / 16 == INVALID
    requires forall n :: 0 <= n < |bytes| ==> Stamped(bytes[n], n / c)
    ensures Filled(Arrived(ops, c, bytes), c, |bytes|)
  {
    hide Stamped, Filled;
    if |bytes| == 0 {
      EmptyRing(ops, c);
    } else {
      var n := |bytes| - 1;
      RingShows(ops, c, bytes[..n]);
      Arrives(Arrived(ops, c, bytes[..n]), c, n, bytes[n]);
    }
  }

  /** The slot of number `p` shows a completion of its own pass if and only if number `p` has arrived, as long as the
      device is at most one ring ahead of or behind it. */
  lemma {:induction false} SlotTells(ops: seq<Byte>, c: nat, h: nat, p: nat)
    requires c > 0 && Filled(ops, c, h) && p - c < h <= p + c
    ensures Stamped(ops[p % c], p / c) <==> h > p
  {
    if h <= p {
      if p >= c {
        Earlier(p, c);
        assert Stamped(ops[(p - c) % c], (p - c) / c);
      } else {
        SmallMod(p, c);
      }
    }
  }

  lemma {:induction false} Earlier(p: nat, c: nat)
    requires 0 < c <= p
    ensures (p - c) % c == p % c && (p - c) / c == p / c - 1
  {
    var q, r := p / c, p % c;
    assert (q - 1) * c == q * c - c;
    ModUnique(p - c, c, q - 1, r);
  }

  /** Slot and parity found in a 32-bit counter are those of the unbounded number. */
  lemma {:induction false} CounterTells(p: int, c: nat)
    requires IsPow2(c) && c <= 0x8000_0000
    ensures And(Wrap(p), c - 1) == p % c
    ensures And(Wrap(p), c) != 0 <==> p / c % 2 == 1
  {
    MaskIsRemainder(Wrap(p), c);
    DividesLimit(c);
    WrapMod(p, c);
    PassParity(p, c);
  }

  /** Passes before the counter wraps are an even number. */
  lemma {:induction false} PassParity(p: int, c: nat)
    requires IsPow2(c) && c <= 0x8000_0000
    ensures Wrap(p) / c % 2 == p / c % 2
  {
    hide IsPow2;
    var q, w := p / LIMIT, Wrap(p);
    EvenPasses(c);
    var m := LIMIT / (2 * c);
    assert p == q * LIMIT + w;
    assert q * LIMIT == 2 * (q * m) * c by {
      assert LIMIT == m * (2 * c);
      MulAssoc(q, m, 2 * c);
      MulAssoc(q * m, 2, c);
    }
    var a, r := w / c, w % c;
    assert p == (2 * (q * m) + a) * c + r by {
      assert w == a * c + r;
    }
    ModUnique(p, c, 2 * (q * m) + a, r);
    ModShift(a, q * m, 2);
  }

  lemma {:induction false} EvenPasses(c: nat)
    requires IsPow2(c) && c <= 0x8000_0000
    ensures c > 0 && LIMIT % (2 * c) == 0
  {
    assert IsPow2(2 * c) by {
      assert 2 * c / 2 == c;
    }
    hide IsPow2;
    BigPowers();
    Pow2Divides(2 * c, LIMIT);
  }

  class CqPoller {
    const cqeCnt: nat          // slots of the ring
    const cqes: nat            // completions of one round
    const ops: array<Byte>     // opcode and owner of each slot, written by the device
    var pollCnt: Word
    var cur: nat               // the slot looked at
    var dbrec: Word
    ghost var rounds: nat      // rounds reported

    /** Number of the completion polled for: the last of its round. Without completions in a round it is -1. */
    ghost function Awaited(): int
      reads this`rounds
    {
      Span(rounds + 1, cqes) - 1
    }

    ghost predicate Valid()
      reads this`pollCnt, this`cur, this`rounds
    {
      && IsPow2(cqeCnt) && cqeCnt <= 0x8000_0000 && ops.Length == cqeCnt
      && pollCnt == Wrap(Awaited()) && cur == Awaited() % cqeCnt
    }

    constructor (ops: array<Byte>, cqes: nat)
      requires IsPow2(ops.Length) && ops.Length <= 0x8000_0000
      ensures Valid() && this.ops == ops && this.cqes == cqes && rounds == 0
    {
      assert ops.Length > 0;
      hide IsPow2, And, Wrap;
      CounterTells(cqes - 1, ops.Length);
      cqeCnt, this.cqes, this.ops := ops.Length, cqes, ops;
      pollCnt, dbrec, rounds := Wrap(cqes - 1), 0, 0;
      cur := And(Wrap(cqes - 1), ops.Length - 1);
      new;
      assert Span(1, cqes) == Span(0, cqes) + cqes;
    }

    /** Look at the last completion of the round. If the device is less than one ring behind and at most one ring ahead,
        the answer is yes exactly when all completions of the round, and of all rounds before it, have arrived. If a
        round fits the ring, the first half of that window then holds again, for the next round. A round without
        completions is never reported: what is looked at is the last slot, on the pass before the first. */
    method Poll(ghost h: nat) returns (r: int)
      requires Valid() && Filled(ops[..], cqeCnt, h)
      requires Awaited() - cqeCnt < h <= Awaited() + cqeCnt
      modifies this`pollCnt, this`cur, this`dbrec, this`rounds
      ensures Valid() && (r == 1 || r == 0)
      ensures r == 1 <==> cqes > 0 && h >= Span(old(rounds) + 1, cqes)
      ensures r == 1 ==> rounds == old(rounds) + 1 && Read(dbrec) == old(Awaited()) % 0x100_0000
      ensures r == 0 ==> rounds == old(rounds) && pollCnt == old(pollCnt) && dbrec == old(dbrec)
      ensures cqes <= cqeCnt ==> Awaited() - cqeCnt < h
    {
      hide IsPow2, Filled, And, Wrap, Be, Read, Stamped;
      ghost var p := Awaited();
      CounterTells(p, cqeCnt);
      AwaitedSign(rounds, cqes);
      var b := ops[cur];
      var opcode := b / 16;
      if cqes > 0 {
        SlotTells(ops[..], cqeCnt, h, p);
        StampedIff(b, p / cqeCnt);
      } else {
        LastSlot(ops[..], cqeCnt, h);
      }
      if opcode != 15 && !((b % 2 == 1) != (And(pollCnt, cqeCnt) != 0)) {
        LowBits(p);
        dbrec := Be(And(pollCnt, 0xff_ffff));
        NextRound(p, cqes, cqeCnt);
        pollCnt := Wrap(pollCnt + cqes);
        cur := And(pollCnt, cqeCnt - 1);
        rounds := rounds + 1;
        r := 1;
      } else {
        r := 0;
      }
    }
  }

  lemma {:induction false} StampedIff(b: Byte, pass: nat)
    ensures Stamped(b, pass) <==> b / 16 != 15 && b % 2 == pass % 2
  {
  }

  lemma {:induction false} AwaitedSign(rounds: nat, cqes: nat)
    ensures if cqes > 0 then Span(rounds + 1, cqes) >= 1 else Span(rounds + 1, cqes) == 0
  {
    SpanIs(rounds + 1, cqes);
    SpanGrows(0, rounds + 1, cqes);
  }

  /** As long as the last slot was not reached it is invalid. */
  lemma {:induction false} LastSlot(ops: seq<Byte>, c: nat, h: nat)
    requires c > 0 && Filled(ops, c, h) && h < c
    ensures -1 % c == c - 1 && ops[c - 1] / 16 == INVALID
  {
    ModUnique(-1, c, -1, c - 1);
  }

  lemma {:induction false} LowBits(p: int)
    ensures And(Wrap(p), 0xff_ffff) == p % 0x100_0000
    ensures Read(Be(And(Wrap(p), 0xff_ffff))) == p % 0x100_0000
  {
    hide And, Be, Read, IsPow2, Wrap;
    BigPowers();
    WrapMod(p, 0x100_0000);
    MaskIsRemainder(Wrap(p), 0x100_0000);
    ReadBe(And(Wrap(p), 0xff_ffff));
  }

  lemma {:induction false} NextRound(p: int, cqes: nat, c: nat)
    requires IsPow2(c) && c <= 0x8000_0000
    ensures Wrap(Wrap(p) + cqes) == Wrap(p + cqes)
    ensures And(Wrap(p + cqes), c - 1) == (p + cqes) % c
  {
    WrapAdd(p, cqes);
    CounterTells(p + cqes, c);
  }
}
