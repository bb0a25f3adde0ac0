/** The recycled ring in memory is the program recorded again and again. */
module Persistence {
  import opened Words
  import opened Program
  import opened Counting
  import opened WqeLayout
  import opened Recycle
  import opened QpContext
  import opened Replay
  import opened CommGraph

  /** Management entries take one slot each. */
  lemma {:induction false} MgmtSlots(t: Topology, info: seq<Info>, calls: seq<Call>, log: seq<Wqe>, i: nat)
    requires i <= |calls| <= |log|
    requires forall j :: 0 <= j < |calls| ==> log[j] == CallWqe(t, info, calls, j)
    ensures Size(log[..i]) == i
  {
    if i > 0 {
      MgmtSlots(t, info, calls, log, i - 1);
      assert log[..i][..i - 1] == log[..i - 1];
    }
  }

  /** What the entry of a call does: enable receives, enable sends, or wait for a completion. */
  function OpcodeOf(c: Call): nat {
    if c.Create? then 0x16 else if c.Post? then 0x17 else 0x0f
  }

  /** The queue or completion queue that the entry of a call names. */
  function NumberOf(t: Topology, info: seq<Info>, c: Call): nat {
    var n := InfoAt(info, c.q);
    if c.Create? || c.Post? then n.qpn else if c.WaitSend? && HasScq(t, c.q) then n.scqn else n.cqn
  }

  /** The entry of call `i` found at word `base` of a buffer, in the bytes that the device reads: what it does, on which
      queue, and with which index. It asks for no completion of its own. */
  ghost predicate EntryAt(t: Topology, info: seq<Info>, qpn: nat, buf: seq<Word>, base: nat, c: Call, index: int) {
    && base + 16 <= |buf| && HeaderAt(buf, base, OpcodeOf(c), 0, qpn, 2, 0)
    && Read(buf[base + 6]) == Wrap(index) && Read(buf[base + 7]) == Wrap(NumberOf(t, info, c))
  }

  /** Persistent refinement in memory. After any number of rearms, and for every round `k` whose copy they have armed and
      not yet armed again, the copy of round `k` holds for every call the entry with the index that recording the whole
      program `k` more times would write, modulo 2^32, exactly unless it lags behind that: a wait that lags (`LagIff`) holds
      the recycled index. */
  lemma {:induction false} HoldsRound(t: Topology, info: seq<Info>, blk: seq<nat>, calls: seq<Call>, c: QpCtx,
          pad: nat, k: nat, i: nat)
    requires Legal(t, calls) && i < |calls| && Matches(t, info, blk, calls)
    requires c.Armed() && k <= c.rearms < k + c.dups
    requires c.log == LogOf(t, info, 0, Expand(calls)) + Padding(pad)
    ensures c.dups >= 2
    ensures var base := Span(k % c.dups, c.offset) + 16 * i;
      && EntryAt(t, info, c.qpn, c.sq[..], base, calls[i], Recycled(t, blk, calls, k, i))
      && (EntryAt(t, info, c.qpn, c.sq[..], base, calls[i], Rerecorded(t, blk, calls, k, i)) <==>
            Wrap(k * Lag(t, calls, i)) == 0)
  {
    hide *;
    c.RoundHeld(k);
    FoundInCopy(t, info, blk, calls, c.qpn, c.log, c.sq[..], k % c.dups, c.offset, pad, k, i);
    SameUnlessLagging(t, info, c.qpn, c.sq[..], Span(k % c.dups, c.offset) + 16 * i, blk, calls, k, i);
  }

  /** If copy `c` of a buffer holds the entries of round `k`, the entry of call `i` is found there. */
  lemma {:induction false} FoundInCopy(t: Topology, info: seq<Info>, blk: seq<nat>, calls: seq<Call>, qpn: nat,
          first: seq<Wqe>, buf: seq<Word>, c: nat, n: nat, pad: nat, k: nat, i: nat)
    requires Legal(t, calls) && i < |calls| && Matches(t, info, blk, calls)
    requires first == LogOf(t, info, 0, Expand(calls)) + Padding(pad)
    requires Span(c, n) + n <= |buf| && Laid(CopyOf(buf, c, n), qpn, Advanced(first, k))
    ensures EntryAt(t, info, qpn, buf, Span(c, n) + 16 * i, calls[i], Recycled(t, blk, calls, k, i))
  {
    hide *;
    EntryHolds(t, info, blk, calls, qpn, first, CopyOf(buf, c, n), pad, k, i);
    CopyIs(buf, c, n);
    InCopy(t, info, qpn, buf, Span(c, n), n, 16 * i, calls[i], Recycled(t, blk, calls, k, i));
  }

  lemma {:induction false} CopyIs(buf: seq<Word>, c: nat, n: nat)
    requires Span(c, n) + n <= |buf|
    ensures CopyOf(buf, c, n) == buf[Span(c, n)..Span(c, n) + n]
  {
  }

  /** The entry found is also the re-recorded one exactly if the lag is nothing modulo 2^32. */
  lemma {:induction false} SameUnlessLagging(t: Topology, info: seq<Info>, qpn: nat, buf: seq<Word>, base: nat,
          blk: seq<nat>, calls: seq<Call>, k: nat, i: nat)
    requires Legal(t, calls) && i < |calls|
    requires EntryAt(t, info, qpn, buf, base, calls[i], Recycled(t, blk, calls, k, i))
    ensures EntryAt(t, info, qpn, buf, base, calls[i], Rerecorded(t, blk, calls, k, i))
      <==> Wrap(k * Lag(t, calls, i)) == 0
  {
    hide Rerecorded, Recycled, Lag, HeaderAt, Read;
    RecyclingRerecords(t, blk, calls, k, i);
    WrapSame(Recycled(t, blk, calls, k, i), k * Lag(t, calls, i));
  }

  lemma {:induction false} WrapSame(a: int, b: int)
    ensures Wrap(a + b) == Wrap(a) <==> Wrap(b) == 0
  {
    var p, q := a / LIMIT, (a + b) / LIMIT;
    if Wrap(a + b) == Wrap(a) {
      ModUnique(b, LIMIT, q - p, 0);
    } else if Wrap(b) == 0 {
      ModShift(a, b / LIMIT, LIMIT);
    }
  }

  lemma {:induction false} InCopy(t: Topology, info: seq<Info>, qpn: nat, buf: seq<Word>, start: nat, n: nat, base: nat,
          c: Call, index: int)
    requires start + n <= |buf| && EntryAt(t, info, qpn, buf[start..start + n], base, c, index)
    ensures EntryAt(t, info, qpn, buf, start + base, c, index)
  {
  }

  lemma {:induction false} EntryHolds(t: Topology, info: seq<Info>, blk: seq<nat>, calls: seq<Call>, qpn: nat,
          first: seq<Wqe>, copy: seq<Word>, pad: nat, k: nat, i: nat)
    requires Legal(t, calls) && i < |calls| && Matches(t, info, blk, calls)
    requires first == LogOf(t, info, 0, Expand(calls)) + Padding(pad)
    requires Laid(copy, qpn, Advanced(first, k))
    ensures EntryAt(t, info, qpn, copy, 16 * i, calls[i], Recycled(t, blk, calls, k, i))
  {
    hide *;
    var log := Advanced(first, k);
    MgmtEntries(t, info, calls);
    assert first[i] == CallWqe(t, info, calls, i);
    MgmtSlots(t, info, calls, first, i);
    AlikeFirst(first, k);
    SizeAlike(log, first, i);
    LaidAt(copy, qpn, log, i);
    AdvancedAt(first, k, i);
    EntryInRound(t, info, blk, calls, k, i);
    CallNames(t, info, calls, i);
    EntryDecodes(copy, i, qpn, log[i]);
    ReadBe(Wrap(Recycled(t, blk, calls, k, i)));
    ReadBe(Wrap(NumberOf(t, info, calls[i])));
    EntryFound(t, info, qpn, copy, 16 * i, calls[i], Recycled(t, blk, calls, k, i));
  }

  /** A core-direct entry in memory. */
  lemma {:induction false} EntryDecodes(copy: seq<Word>, i: nat, qpn: nat, w: Wqe)
    requires w.body.Core? && WqeLayout.At(copy, 16 * i, Head(w, i, qpn), w)
    ensures 16 * i + 16 <= |copy| && w.ds == 2
    ensures HeaderAt(copy, 16 * i, w.opcode, w.opmod, qpn, 2, w.ce)
    ensures copy[16 * i + 6] == Be(w.body.index) && copy[16 * i + 7] == Be(w.body.number)
  {
    hide Be, Head, HeaderAt;
    HeaderDecodes(copy, 16 * i, i, qpn, w);
  }

  lemma {:induction false} EntryFound(t: Topology, info: seq<Info>, qpn: nat, copy: seq<Word>, base: nat, c: Call,
          index: int)
    requires base + 16 <= |copy| && HeaderAt(copy, base, OpcodeOf(c), 0, qpn, 2, 0)
    requires Read(copy[base + 6]) == Wrap(index) && Read(copy[base + 7]) == Wrap(NumberOf(t, info, c))
    ensures EntryAt(t, info, qpn, copy, base, c, index)
  {
  }

  /** The entry of a call does what the call is for, on the queue it names. */
  lemma {:induction false} CallNames(t: Topology, info: seq<Info>, calls: seq<Call>, i: nat)
    requires i < |calls|
    ensures var w := CallWqe(t, info, calls, i);
      w.opcode == OpcodeOf(calls[i]) && w.opmod == 0 && w.ce == 0 && w.body.Core? && w.body.number == Wrap(NumberOf(t, info, calls[i]))
  {
    hide CntOf, Wrap;
  }

  /** What the device finds in memory for position `k * |calls| + i` of the endless stream is what the model of the
      running graph lets it act on. */
  lemma {:induction false} MemoryIsStream(t: Topology, info: seq<Info>, blk: seq<nat>, calls: seq<Call>, c: QpCtx,
          pad: nat, k: nat, i: nat)
    requires Legal(t, calls) && i < |calls| && Matches(t, info, blk, calls)
    requires c.Armed() && k <= c.rearms < k + c.dups
    requires c.log == LogOf(t, info, 0, Expand(calls)) + Padding(pad)
    ensures c.dups >= 2 && k * |calls| + i >= 0 && Counting.At(calls, k * |calls| + i) == calls[i]
    ensures EntryAt(t, info, c.qpn, c.sq[..], Span(k % c.dups, c.offset) + 16 * i, calls[i],
                    IndexAt(t, blk, calls, k * |calls| + i))
  {
    hide QpCtx.Armed, Legal, Matches, LogOf, Padding, Recycled, Rerecorded, Wrap, Be, Span, EntryAt;
    HoldsRound(t, info, blk, calls, c, pad, k, i);
    PositionAt(calls, k, i);
  }

  /** The same from a graph that was recorded, finished and used. Of `n` rearms still owed, one is owed while a round
      runs that was not yet rearmed for. Round `j` is in memory from its release, while it runs, and through the rearm
      of the next round, with three copies or more through that of the round after. */
  lemma {:induction false} GraphHolds(g: CommGraph, n: nat, j: nat, i: nat)
    requires g.Running() && |g.ctxs| > 0 && i < |g.calls|
    requires g.Owed(n) && j + n <= g.ctxs[0].bells <= j + n + if g.ctxs[0].dups >= 3 then 2 else 1
    ensures g.ctxs[0].dups >= 2
    ensures var c, blk := g.ctxs[0], BlockSizes(g.info);
      var base := Span(j % c.dups, c.offset) + 16 * i;
      && EntryAt(g.t, g.info, InfoAt(g.info, 0).qpn, c.sq[..], base, g.calls[i], Recycled(g.t, blk, g.calls, j, i))
      && (EntryAt(g.t, g.info, InfoAt(g.info, 0).qpn, c.sq[..], base, g.calls[i], Rerecorded(g.t, blk, g.calls, j, i)) <==>
            Wrap(j * Lag(g.t, g.calls, i)) == 0)
  {
    hide QpCtx.Armed, QpCtx.Rung, Described, LogOf, Expand, Padding, Matches, Legal, CreatedFirst, Recycled, Rerecorded;
    hide EntryAt, Lag, Wired, Done, Span;
    var c := g.ctxs[0];
    AtLeastTwo(c);
    assert c.qpn == InfoAt(g.info, 0).qpn by {
      LiveNumber(g.t, g.info, g.owner, c, 0, g.calls);
    }
    HoldsRound(g.t, g.info, BlockSizes(g.info), g.calls, c, c.wqes - Tallied(g.t, 0, g.calls).wqe, j, i);
  }

  lemma {:induction false} AtLeastTwo(c: QpCtx)
    requires c.Armed()
    ensures c.dups >= 2
  {
  }

  lemma {:induction false} LiveNumber(t: Topology, info: seq<Info>, owner: Owner, c: QpCtx, q: nat, calls: seq<Call>)
    requires Live(t, info, owner, c, q, calls)
    ensures c.qpn == InfoAt(info, q).qpn
  {
  }
}
