/** Work-queue entries as they lie in the send buffer: 64-byte slots of sixteen words. */
module WqeLayout {
  import opened Words

  /** What follows the control segment: nothing, opaque segments, or a core-direct segment whose first two
      words are not written. `inc` is the increment registered for the index field. */
  datatype Body = Blank | Payload(words: seq<Word>) | Core(index: Word, number: Word, inc: nat)

  /** `ds` is the length in 16-byte segments, control segment included. */
  datatype Wqe = Wqe(opcode: nat, opmod: nat, ce: Word, ds: nat, body: Body) {
    function Slots(): nat {
      (ds + 3) / 4
    }

    predicate Valid() {
      && opcode < 0x100 && opmod < 0x100 && 1 <= ds < 0x100
      && (body.Payload? ==> |body.words| == 4 * (ds - 1))
      && (body.Core? ==> ds == 2)
    }
  }

  predicate ValidLog(log: seq<Wqe>) {
    forall i :: 0 <= i < |log| ==> log[i].Valid()
  }

  /** Slots taken by a list of entries. */
  function Size(log: seq<Wqe>): nat {
    if |log| == 0 then 0 else Size(log[..|log| - 1]) + log[|log| - 1].Slots()
  }

  lemma {:induction false} SizeUpTo(log: seq<Wqe>, i: nat, j: nat)
    requires i <= j <= |log| && ValidLog(log)
    ensures Size(log[..i]) <= Size(log[..j])
    ensures i < j ==> Size(log[..i]) + log[i].Slots() <= Size(log[..j])
    decreases j
  {
    if i < j {
      assert log[..j][..j - 1] == log[..j - 1];
      SizeUpTo(log, i, j - 1);
    }
  }

  // ---- One entry in memory ----

  function OpValue(w: Wqe, idx: nat): int {
    0x100 * (w.opmod * 0x1_0000 + idx % 0x1_0000) + w.opcode
  }

  function QpnValue(w: Wqe, qpn: nat): int {
    0x100 * qpn + w.ds
  }

  /** The control segment: opcode, number and modifier; queue number and length; completion flags; immediate. */
  function Head(w: Wqe, idx: nat, qpn: nat): (r: seq<Word>)
    ensures |r| == 4
  {
    [Be(Wrap(OpValue(w, idx))), Be(Wrap(QpnValue(w, qpn))), Be(w.ce), 0]
  }

  predicate BodyAt(block: seq<Word>, base: nat, b: Body)
    requires base + 8 <= |block|
  {
    match b
    case Blank => true
    case Payload(words) => base + 4 + |words| <= |block| && block[base + 4..base + 4 + |words|] == words
    case Core(index, number, _) => block[base + 6] == Be(index) && block[base + 7] == Be(number)
  }

  /** The entry `w` with control segment `head` lies at word `base`. */
  predicate At(block: seq<Word>, base: nat, head: seq<Word>, w: Wqe)
    requires |head| == 4
  {
    && base + 16 * w.Slots() <= |block| && w.Valid()
    && block[base..base + 4] == head
    && BodyAt(block, base, w.body)
  }

  /** The entries of `log` lie one after the other from the start of the block, as written to slots 0, 1, 2, .... */
  ghost predicate Laid(block: seq<Word>, qpn: nat, log: seq<Wqe>) {
    |log| == 0
    || (var front, w := log[..|log| - 1], log[|log| - 1];
        Laid(block, qpn, front) && At(block, 16 * Size(front), Head(w, Size(front), qpn), w))
  }

  /** Only the words up to the end of the entries matter. */
  lemma {:induction false} LaidPrefix(x: seq<Word>, y: seq<Word>, qpn: nat, log: seq<Wqe>)
    requires Laid(x, qpn, log) && 16 * Size(log) <= |x| && 16 * Size(log) <= |y|
    requires x[..16 * Size(log)] == y[..16 * Size(log)]
    ensures Laid(y, qpn, log)
  {
    if |log| > 0 {
      var front, w := log[..|log| - 1], log[|log| - 1];
      var a, n := 16 * Size(front), 16 * Size(log);
      assert x[..a] == x[..n][..a] == y[..n][..a] == y[..a];
      LaidPrefix(x, y, qpn, front);
      assert x[a..n] == x[..n][a..] == y[..n][a..] == y[a..n];
      AtSame(x, y, a, Head(w, Size(front), qpn), w);
    }
  }

  lemma {:induction false} AtSame(x: seq<Word>, y: seq<Word>, base: nat, head: seq<Word>, w: Wqe)
    requires |head| == 4 && At(x, base, head, w) && base + 16 * w.Slots() <= |y|
    requires x[base..base + 16 * w.Slots()] == y[base..base + 16 * w.Slots()]
    ensures At(y, base, head, w)
  {
    var n := 16 * w.Slots();
    var s, t := x[base..base + n], y[base..base + n];
    assert x[base..base + 4] == s[..4] && y[base..base + 4] == t[..4];
    assert x[base + 6] == s[6] && y[base + 6] == t[6];
    assert x[base + 7] == s[7] && y[base + 7] == t[7];
    if w.body.Payload? {
      PayloadSame(x, y, base, n, |w.body.words|);
    }
  }

  lemma {:induction false} PayloadSame(x: seq<Word>, y: seq<Word>, base: nat, n: nat, k: nat)
    requires base + n <= |x| && base + n <= |y| && x[base..base + n] == y[base..base + n] && 4 + k <= n
    ensures x[base + 4..base + 4 + k] == y[base + 4..base + 4 + k]
  {
    var s, t := x[base + 4..base + 4 + k], y[base + 4..base + 4 + k];
    forall j | 0 <= j < |s|
      ensures s[j] == t[j]
    {
      assert x[base..base + n][4 + j] == y[base..base + n][4 + j];
    }
  }

  lemma {:induction false} LaidAt(block: seq<Word>, qpn: nat, log: seq<Wqe>, i: nat)
    requires Laid(block, qpn, log) && i < |log|
    ensures At(block, 16 * Size(log[..i]), Head(log[i], Size(log[..i]), qpn), log[i])
    decreases |log|
  {
    if i < |log| - 1 {
      LaidAt(block, qpn, log[..|log| - 1], i);
      assert log[..|log| - 1][..i] == log[..i];
    }
  }

  // ---- Walking the finished block ----

  /** What the device learns from a header: the slot, the opcode, the length, and the completion flags. */
  datatype Header = Header(slot: nat, opcode: nat, ds: nat, flags: nat)

  /** The headers of the entries from number `i` on, with the slots they were written to. */
  function Headers(log: seq<Wqe>, i: nat): seq<Header>
    requires i <= |log|
    decreases |log| - i
  {
    if i == |log| then [] else [Header(Size(log[..i]), log[i].opcode, log[i].ds, log[i].ce)] + Headers(log, i + 1)
  }

  /** Opcode, length, flags and slot count found in a header. */
  datatype Code = Code(opcode: nat, ds: nat, flags: nat, slots: nat)

  function CodeOf(w: Wqe): Code {
    Code(w.opcode, w.ds, w.ce, w.Slots())
  }

  function CodeAt(block: seq<Word>, slot: nat): Code
    requires 16 * slot + 16 <= |block|
  {
    var ds := ByteOf(block[16 * slot + 1], 3);
    Code(ByteOf(block[16 * slot], 3), ds, Read(block[16 * slot + 2]), (ds + 3) / 4)
  }

  /** Every slot read as if it held a header. */
  function Decoded(block: seq<Word>, end: nat): seq<Code>
    requires 16 * end <= |block|
  {
    seq(end, slot requires 0 <= slot < end => CodeAt(block, slot))
  }

  /** Step from header to header, by the lengths found in memory, until the end of the block. The last element is
      where the walk stopped: at the end, beyond it, or at a header of length zero. */
  function Walk(codes: seq<Code>, slot: nat): seq<Header>
    decreases |codes| - slot
  {
    if slot >= |codes| then [Header(slot, 0, 0, 0)]
    else
      var c := codes[slot];
      var h := Header(slot, c.opcode, c.ds, c.flags);
      if c.slots == 0 then [h] else [h] + Walk(codes, slot + c.slots)
  }

  /** The control segment at word `base` as the device reads it, byte by byte: modifier and opcode, the queue's own number
      in 24 bits and the length, nothing but the completion flags, no immediate. */
  predicate HeaderAt(block: seq<Word>, base: nat, opcode: nat, opmod: nat, qpn: nat, ds: nat, flags: nat) {
    && base + 4 <= |block|
    && ByteOf(block[base], 3) == opcode && ByteOf(block[base], 0) == opmod
    && Read(block[base + 1]) / 0x100 == qpn % 0x100_0000 && ByteOf(block[base + 1], 3) == ds
    && Read(block[base + 2]) == flags && block[base + 3] == 0
  }

  /** Every part of a header is where the device looks for it; the entry number is cut to 16 bits. */
  lemma {:induction false} HeaderDecodes(block: seq<Word>, base: nat, idx: nat, qpn: nat, w: Wqe)
    requires At(block, base, Head(w, idx, qpn), w)
    ensures HeaderAt(block, base, w.opcode, w.opmod, qpn, w.ds, w.ce)
    ensures Read(block[base]) / 0x100 % 0x1_0000 == idx % 0x1_0000
  {
    hide Be, Read, ByteOf;
    assert w.Valid();
    var h := block[base..base + 4];
    assert block[base] == h[0] && block[base + 1] == h[1] && block[base + 2] == h[2] && block[base + 3] == h[3];
    OpWord(w, idx);
    QpnWord(w, qpn);
    ReadBe(w.ce);
  }

  lemma {:induction false} OpWord(w: Wqe, idx: nat)
    requires w.Valid()
    ensures var x := Be(Wrap(OpValue(w, idx)));
      && ByteOf(x, 3) == w.opcode && ByteOf(x, 0) == w.opmod
      && Read(x) / 0x100 % 0x1_0000 == idx % 0x1_0000
  {
    hide Be, Read, ByteOf;
    var v, n := OpValue(w, idx), idx % 0x1_0000;
    assert v == 0x100_0000 * w.opmod + 0x100 * n + w.opcode;
    ModUnique(v, LIMIT, 0, v);
    ReadBe(v);
    BeBytes(v);
    ModUnique(v, 0x100, 0x1_0000 * w.opmod + n, w.opcode);
    ModUnique(v, 0x100_0000, w.opmod, 0x100 * n + w.opcode);
    ModUnique(v / 0x100, 0x1_0000, w.opmod, n);
  }

  lemma {:induction false} QpnWord(w: Wqe, qpn: nat)
    requires w.Valid()
    ensures var x := Be(Wrap(QpnValue(w, qpn)));
      ByteOf(x, 3) == w.ds && Read(x) / 0x100 == qpn % 0x100_0000
  {
    hide Be, Read, ByteOf;
    var high, low := qpn / 0x100_0000, qpn % 0x100_0000;
    var v, rest := QpnValue(w, qpn), 0x100 * low + w.ds;
    assert v == high * LIMIT + rest;
    ModUnique(v, LIMIT, high, rest);
    ReadBe(rest);
    BeBytes(rest);
    ModUnique(rest, 0x100, low, w.ds);
  }

  /** The finished block as the device sees it: starting at slot 0 and following the lengths in memory, the walk
      visits every entry in the order it was written, and lands exactly on the end. */
  lemma {:induction false} WalkVisits(block: seq<Word>, qpn: nat, log: seq<Wqe>)
    requires ValidLog(log) && Laid(block, qpn, log) && 16 * Size(log) <= |block|
    ensures Walk(Decoded(block, Size(log)), 0) == Headers(log, 0) + [Header(Size(log), 0, 0, 0)]
  {
    var codes := Decoded(block, Size(log));
    forall i | 0 <= i < |log|
      ensures Coded(codes, log, i)
    {
      DecodedAt(block, qpn, log, i);
    }
    WalkCodes(codes, log, 0);
  }

  /** Entry `i` is found at its slot, and the next one right behind it. */
  ghost predicate Coded(codes: seq<Code>, log: seq<Wqe>, i: nat)
    requires i < |log|
  {
    var slot := Size(log[..i]);
    && slot < |codes| && codes[slot] == CodeOf(log[i])
    && codes[slot].slots > 0 && Size(log[..i + 1]) == slot + codes[slot].slots
  }

  lemma {:induction false} WalkCodes(codes: seq<Code>, log: seq<Wqe>, i: nat)
    requires i <= |log| && |codes| == Size(log)
    requires forall j :: 0 <= j < |log| ==> Coded(codes, log, j)
    ensures Walk(codes, Size(log[..i])) == Headers(log, i) + [Header(Size(log), 0, 0, 0)]
    decreases |log| - i
  {
    hide Size;
    if i < |log| {
      WalkCodes(codes, log, i + 1);
      assert Coded(codes, log, i);
    } else {
      assert log[..i] == log;
    }
  }

  lemma {:induction false} DecodedAt(block: seq<Word>, qpn: nat, log: seq<Wqe>, i: nat)
    requires ValidLog(log) && Laid(block, qpn, log) && 16 * Size(log) <= |block| && i < |log|
    ensures Size(log[..i]) < Size(log) && Size(log[..i + 1]) == Size(log[..i]) + log[i].Slots()
    ensures Decoded(block, Size(log))[Size(log[..i])] == CodeOf(log[i]) && log[i].Slots() > 0
  {
    hide Size, Laid, ByteOf, Read, Head, At;
    var slot := Size(log[..i]);
    NextSlot(log, i);
    LaidAt(block, qpn, log, i);
    HeaderDecodes(block, 16 * slot, slot, qpn, log[i]);
  }

  lemma {:induction false} NextSlot(log: seq<Wqe>, i: nat)
    requires ValidLog(log) && i < |log|
    ensures Size(log[..i + 1]) == Size(log[..i]) + log[i].Slots() <= Size(log)
  {
    assert log[..i + 1][..i] == log[..i] && log[..|log|] == log;
    SizeUpTo(log, i, |log|);
  }
}
