/** The low-level context of one queue: writing entries, padding, duplicating, rearming and ringing. */
module QpContext {
  import opened Words
  import opened Program
  import opened Rounding
  import opened RearmTasks
  import opened WqeLayout
  import opened Recycle

  const SEND_IMM := 0x0b
  const RDMA_WRITE_IMM := 0x09
  const RECV_EN := 0x16
  const SEND_EN := 0x17
  const CQE_WAIT := 0x0f

  /** The entry written for an operation. */
  function OpWqe(op: Op): Wqe {
    if op.SendCredit? then Wqe(SEND_IMM, 0, 0, 1, Blank)
    else
      var ce := if op.Signalled() then 8 else 0;
      if op.Slots() == 2 then Wqe(RDMA_WRITE_IMM, 0xff, ce, 5, Payload(op.words))
      else Wqe(RDMA_WRITE_IMM, 0, ce, 3, Payload(op.words))
  }

  lemma {:induction false} OpWqeFits(op: Op)
    requires op.SendCredit? || |op.words| == if op.Slots() == 2 then 16 else 8
    ensures OpWqe(op).Valid() && OpWqe(op).Slots() == op.Slots()
  {
  }

  /** The entry of operation `op` at word `base` of a buffer, in the bytes that the device reads: opcode, modifier, queue,
      length in 16-byte segments, flags (8 asks for a completion), and the segments behind. */
  predicate OpAt(buf: seq<Word>, base: nat, qpn: nat, op: Op) {
    match op
    case SendCredit => HeaderAt(buf, base, 0x0b, 0, qpn, 1, 0)
    case Write(words) => HeaderAt(buf, base, 0x09, 0, qpn, 3, 0) && SegmentsAt(buf, base, words)
    case WriteCmpl(words) => HeaderAt(buf, base, 0x09, 0, qpn, 3, 8) && SegmentsAt(buf, base, words)
    case ReduceWrite(words) => HeaderAt(buf, base, 0x09, 0xff, qpn, 5, 0) && SegmentsAt(buf, base, words)
    case ReduceWriteCmpl(words) => HeaderAt(buf, base, 0x09, 0xff, qpn, 5, 8) && SegmentsAt(buf, base, words)
    case DoublingWriteCmpl(words) => HeaderAt(buf, base, 0x09, 0, qpn, 3, 8) && SegmentsAt(buf, base, words)
  }

  predicate SegmentsAt(buf: seq<Word>, base: nat, words: seq<Word>) {
    base + 4 + |words| <= |buf| && buf[base + 4..base + 4 + |words|] == words
  }

  /** The entry as written is the one of the operation as the device reads it. */
  lemma {:induction false} OpReads(buf: seq<Word>, base: nat, idx: nat, qpn: nat, op: Op)
    requires WqeLayout.At(buf, base, Head(OpWqe(op), idx, qpn), OpWqe(op))
    ensures OpAt(buf, base, qpn, op)
  {
    hide HeaderAt, Head;
    HeaderDecodes(buf, base, idx, qpn, OpWqe(op));
  }

  lemma {:induction false} LastEntry(buf: seq<Word>, qpn: nat, log: seq<Wqe>, op: Op)
    requires Laid(buf, qpn, log + [OpWqe(op)])
    ensures OpAt(buf, 16 * Size(log), qpn, op)
  {
    hide Laid, OpWqe, OpAt;
    LaidAt(buf, qpn, log + [OpWqe(op)], |log|);
    assert (log + [OpWqe(op)])[..|log|] == log;
    OpReads(buf, 16 * Size(log), Size(log), qpn, op);
  }

  /** The entry of a management operation. */
  function CoreWqe(opcode: nat, index: Word, number: Word, inc: nat): Wqe {
    Wqe(opcode, 0, 0, 2, Core(index, number, inc))
  }

  function NopWqe(slots: nat): Wqe {
    Wqe(0, 0, 0, 4 * slots, Blank)
  }

  /** The padding of `n` free slots. */
  function Padding(n: nat): seq<Wqe> {
    if n == 0 then [] else if n > 8 then [NopWqe(8)] + Padding(n - 8) else [NopWqe(n)]
  }

  lemma {:induction false} LaidMore(x: seq<Word>, y: seq<Word>, qpn: nat, log: seq<Wqe>, w: Wqe)
    requires Laid(x, qpn, log) && w.Valid()
    requires |x| == |y| && 16 * (Size(log) + w.Slots()) <= |y|
    requires x[..16 * Size(log)] == y[..16 * Size(log)]
    requires At(y, 16 * Size(log), Head(w, Size(log), qpn), w)
    ensures Laid(y, qpn, log + [w]) && Size(log + [w]) == Size(log) + w.Slots()
  {
    LaidPrefix(x, y, qpn, log);
    assert (log + [w])[..|log|] == log;
  }

  lemma {:induction false} TasksMore(log: seq<Wqe>, w: Wqe)
    ensures TasksOf(log + [w]) == TasksOf(log) + if w.body.Core? then [Task(16 * Size(log) + 6, w.body.inc)] else []
    ensures ValidLog(log) && w.Valid() ==> ValidLog(log + [w])
  {
    assert (log + [w])[..|log|] == log;
  }

  class CqCtx {
    var cmplCnt: Word
    const cqn: nat
    const cqes: nat

    constructor (cqn: nat, cqes: nat)
      ensures this.cqn == cqn && this.cqes == cqes && cmplCnt == 0
    {
      this.cqn, this.cqes, cmplCnt := cqn, cqes, 0;
    }
  }

  class QpCtx {
    const qpn: nat
    const cqn: nat
    const sq: array<Word>  // the send buffer
    const sqCnt: nat       // its slots
    const wqes: nat        // slots of one copy of the program
    const cqes: nat        // completions of one round
    const dups: nat        // copies in the buffer
    const offset: nat      // words of one copy
    const scq: CqCtx?
    const tasks: RearmTasks
    var writeCnt: Word
    var cmplCnt: Word
    var exeCnt: Word
    var phase: nat
    var pair: QpCtx
    var dbrec: Word
    var bfReg: Word        // the two words last stored in the doorbell register: index, and queue number
    var bfQpn: Word
    ghost var log: seq<Wqe>   // entries of one copy as first written
    ghost var rearms: nat
    ghost var bells: nat      // rounds released

    ghost predicate Sized() {
      && IsPow2(sqCnt) && 0 < wqes && 1 <= dups && Span(dups, wqes) == sqCnt <= 0x8000_0000
      && sq.Length == 16 * sqCnt && offset == 16 * wqes && Span(dups, offset) == sq.Length
    }

    ghost predicate Kept()
      reads this`log, tasks, tasks.Repr
    {
      && Sized() && tasks.Valid() && sq !in tasks.Repr && this !in tasks.Repr && SendCq() !! tasks.Repr
      && ValidLog(log) && tasks.tasks == TasksOf(log)
    }

    ghost function Footprint(): set<object>
      reads tasks
    {
      {this, sq} + tasks.Repr + SendCq()
    }

    /** While the graph is replayed: the entries written so far lie at the start of the buffer, one after the other. */
    ghost predicate Recording()
      reads this`log, this`writeCnt, this`phase, this`rearms, sq, tasks, tasks.Repr
    {
      && Kept()
      && writeCnt == Size(log) <= wqes
      && Laid(sq[..], qpn, log)
      && phase == 0 && rearms == 0
    }

    constructor (qpn: nat, cqn: nat, sqCnt: nat, numOfWqes: nat, numOfCqes: nat, scq: CqCtx?)
      requires IsPow2(sqCnt) && sqCnt <= 0x8000_0000 && 0 < numOfWqes <= sqCnt
      ensures this.qpn == qpn && this.cqn == cqn && this.sqCnt == sqCnt && this.cqes == numOfCqes && this.scq == scq
      ensures LeastDivisorFrom(wqes, numOfWqes, sqCnt)
      ensures dups >= 2 <==> numOfWqes <= sqCnt / 2
      ensures Recording() && log == [] && pair == this && Unrung()
      ensures writeCnt == 0 && cmplCnt == 0 && exeCnt == 0
      ensures fresh(sq) && fresh(tasks) && fresh(tasks.Repr)
    {
      var split := Split(numOfWqes, sqCnt);
      RecycledIffHalf(numOfWqes, sqCnt, split.wqes, split.dups);
      this.qpn, this.cqn, this.sqCnt, this.cqes, this.scq := qpn, cqn, sqCnt, numOfCqes, scq;
      wqes, dups, offset := split.wqes, split.dups, 16 * split.wqes;
      sq := new Word[16 * sqCnt];
      tasks := new RearmTasks();
      writeCnt, cmplCnt, exeCnt, phase := 0, 0, 0, 0;
      dbrec, bfReg, bfQpn := 0, 0, 0;
      pair := this;
      log, rearms, bells := [], 0, 0;
      new;
      OffsetFits(dups, wqes, sqCnt);
    }

    lemma {:induction false} Fits()
      requires Sized()
      ensures wqes <= sqCnt && offset <= sq.Length
      ensures dups >= 2 ==> wqes < sqCnt && 2 * offset <= sq.Length
    {
      hide IsPow2;
      SpanGrows(1, dups, wqes);
      SpanGrows(1, dups, offset);
      assert Span(1, wqes) == wqes && Span(1, offset) == offset;
      if dups >= 2 {
        SpanGrows(2, dups, offset);
        assert Span(2, offset) == Span(1, offset) + offset;
      }
    }

    /** Write one entry behind the last one, and register its index field if it has one. */
    method Put(w: Wqe)
      requires Recording() && w.Valid() && Size(log) + w.Slots() <= wqes
      modifies this`writeCnt, this`log, sq, tasks.Repr
      ensures Recording() && log == old(log) + [w] && fresh(tasks.Repr - old(tasks.Repr))
    {
      hide tasks.Valid;
      Fits();
      var base := Write(w);
      Register(base, w);
      TasksMore(log, w);
      writeCnt := writeCnt + w.Slots();
      log := log + [w];
    }

    method Register(base: nat, w: Wqe)
      requires Kept()
      modifies tasks.Repr
      ensures tasks.Valid() && fresh(tasks.Repr - old(tasks.Repr))
      ensures sq !in tasks.Repr && this !in tasks.Repr && SendCq() !! tasks.Repr
      ensures tasks.tasks == old(tasks.tasks) + if w.body.Core? then [Task(base + 6, w.body.inc)] else []
      ensures sq[..] == old(sq[..])
    {
      if w.body.Core? {
        tasks.Add(base + 6, w.body.inc);
      }
    }

    /** The entry goes to the slot numbered by the write counter, modulo the size of the queue. */
    method Write(w: Wqe) returns (base: nat)
      requires Recording() && w.Valid() && Size(log) + w.Slots() <= wqes
      modifies sq
      ensures base == 16 * Size(log)
      ensures Laid(sq[..], qpn, log + [w]) && Size(log + [w]) == Size(log) + w.Slots()
    {
      Fits();
      SmallMod(writeCnt, sqCnt);
      var slot := writeCnt % sqCnt;
      base := 16 * slot;
      ghost var before := sq[..];
      WriteEntry(base, w);
      assert before[..base] == sq[..][..base];
      LaidMore(before, sq[..], qpn, log, w);
    }

    /** The control segment and the segments behind it. */
    method WriteEntry(base: nat, w: Wqe)
      requires w.Valid() && base + 16 * w.Slots() <= sq.Length
      modifies sq
      ensures At(sq[..], base, Head(w, writeCnt, qpn), w)
      ensures forall j :: 0 <= j < sq.Length && !(base <= j < base + 16 * w.Slots()) ==> sq[j] == old(sq[j])
    {
      WriteHead(base, w);
      ghost var head := sq[..][base..base + 4];
      match w.body {
        case Blank =>
        case Payload(words) =>
          forall i | 0 <= i < |words| {
            sq[base + 4 + i] := words[i];
          }
          assert sq[..][base + 4..base + 4 + |words|] == words;
        case Core(index, number, _) =>
          sq[base + 6] := Be(index);
          sq[base + 7] := Be(number);
      }
      assert sq[..][base..base + 4] == head;
    }

    method WriteHead(base: nat, w: Wqe)
      requires base + 4 <= sq.Length
      modifies sq
      ensures sq[..][base..base + 4] == Head(w, writeCnt, qpn)
      ensures forall j :: 0 <= j < sq.Length && !(base <= j < base + 4) ==> sq[j] == old(sq[j])
    {
      var head := Head(w, writeCnt, qpn);
      sq[base], sq[base + 1], sq[base + 2], sq[base + 3] := head[0], head[1], head[2], head[3];
      assert sq[..][base..base + 4] == [head[0], head[1], head[2], head[3]];
    }

    ghost function SendCq(): set<object> {
      if scq == null then {} else {scq}
    }

    /** The completions one operation is counted for: a local one if it is signalled, and one on the pair. */
    method Count(signalled: bool)
      modifies this`cmplCnt, pair`cmplCnt, SendCq()
      ensures var own := signalled && scq == null;
        && cmplCnt == Plus(old(cmplCnt), (if own then 1 else 0) + if pair == this then 1 else 0)
        && pair.cmplCnt == Plus(old(pair.cmplCnt), (if own && pair == this then 1 else 0) + 1)
      ensures scq != null ==> scq.cmplCnt == Plus(old(scq.cmplCnt), if signalled then 1 else 0)
    {
      PlusTwo(cmplCnt);
      if signalled {
        if scq == null {
          cmplCnt := Plus(cmplCnt, 1);
        } else {
          scq.cmplCnt := Plus(scq.cmplCnt, 1);
        }
      }
      pair.cmplCnt := Plus(pair.cmplCnt, 1);
    }

    /** Write a data operation: its own entry, its local completion if it asks for one, the completion it counts
        on its pair. */
    method Post(op: Op)
      requires Recording() && Size(log) + op.Slots() <= wqes
      requires op.SendCredit? || |op.words| == if op.Slots() == 2 then 16 else 8
      requires pair !in tasks.Repr
      modifies this`writeCnt, this`log, sq, tasks.Repr
      modifies this`cmplCnt, pair`cmplCnt, SendCq()
      ensures Recording() && log == old(log) + [OpWqe(op)] && fresh(tasks.Repr - old(tasks.Repr))
      ensures OpAt(sq[..], 16 * old(Size(log)), qpn, op)
      ensures var own := op.Signalled() && scq == null;
        && cmplCnt == Plus(old(cmplCnt), (if own then 1 else 0) + if pair == this then 1 else 0)
        && pair.cmplCnt == Plus(old(pair.cmplCnt), (if own && pair == this then 1 else 0) + 1)
      ensures scq != null ==> scq.cmplCnt == Plus(old(scq.cmplCnt), if op.Signalled() then 1 else 0)
    {
      hide tasks.Valid, Laid, Plus, TasksOf, Size, Span, ValidLog, OpAt;
      ghost var c, p, s := cmplCnt, pair.cmplCnt, if scq == null then 0 else scq.cmplCnt;
      OpWqeFits(op);
      Put(OpWqe(op));
      LastEntry(sq[..], qpn, old(log), op);
      assert cmplCnt == c && pair.cmplCnt == p && (scq != null ==> scq.cmplCnt == s);
      Count(op.Signalled());
    }

    method CdSendEnable(slave: QpCtx)
      requires Recording() && Size(log) < wqes
      modifies this`writeCnt, this`log, sq, tasks.Repr
      ensures Recording() && fresh(tasks.Repr - old(tasks.Repr))
      ensures log == old(log) + [CoreWqe(SEND_EN, old(slave.writeCnt), Wrap(slave.qpn), slave.wqes)]
    {
      Put(CoreWqe(SEND_EN, slave.writeCnt, Wrap(slave.qpn), slave.wqes));
    }

    method CdRecvEnable(slave: QpCtx)
      requires Recording() && Size(log) < wqes
      modifies this`writeCnt, this`log, sq, tasks.Repr
      ensures Recording() && fresh(tasks.Repr - old(tasks.Repr))
      ensures log == old(log) + [CoreWqe(RECV_EN, Wrap(0x6fff), Wrap(slave.qpn), slave.cqes)]
    {
      Put(CoreWqe(RECV_EN, Wrap(RECV_BASE), Wrap(slave.qpn), slave.cqes));
    }

    method CdWait(slave: QpCtx)
      requires Recording() && Size(log) < wqes
      modifies this`writeCnt, this`log, sq, tasks.Repr
      ensures Recording() && fresh(tasks.Repr - old(tasks.Repr))
      ensures log == old(log) + [CoreWqe(CQE_WAIT, Wrap(old(slave.cmplCnt) - 1), Wrap(slave.cqn), slave.cqes)]
    {
      Put(CoreWqe(CQE_WAIT, Wrap(slave.cmplCnt - 1), Wrap(slave.cqn), slave.cqes));
    }

    method CdWaitSend(slave: QpCtx)
      requires Recording() && Size(log) < wqes
      modifies this`writeCnt, this`log, sq, tasks.Repr
      ensures Recording() && fresh(tasks.Repr - old(tasks.Repr))
      ensures log == old(log) + [
        if slave.scq == null then CoreWqe(CQE_WAIT, Wrap(old(slave.cmplCnt) - 1), Wrap(slave.cqn), slave.cqes)
        else CoreWqe(CQE_WAIT, Wrap(old(slave.scq.cmplCnt) - 1), Wrap(slave.scq.cqn), slave.scq.cqes)]
    {
      if slave.scq == null {
        CdWait(slave);
        return;
      }
      Put(CoreWqe(CQE_WAIT, Wrap(slave.scq.cmplCnt - 1), Wrap(slave.scq.cqn), slave.scq.cqes));
    }

    /** An empty entry over `num` slots. With `num` zero only a header is written, into the slot behind the entries so
        far; if they fill the whole queue that is slot 0. */
    method Nop(num: nat)
      requires Recording() && num <= 8 && Size(log) + num <= wqes
      modifies this`writeCnt, this`log, sq, tasks.Repr
      ensures Kept() && fresh(tasks.Repr - old(tasks.Repr)) && writeCnt == Size(log)
      ensures log == if num == 0 then old(log) else old(log) + [NopWqe(num)]
      ensures num > 0 || Size(log) < sqCnt ==> Recording()
      ensures num == 0 ==>
        sq[..] == HeaderOver(old(sq[..]), 16 * (Size(log) % sqCnt), Head(NopWqe(0), Size(log), qpn))
    {
      hide tasks.Valid, Laid, TasksOf, Size, Span, ValidLog, IsPow2, Head;
      if num > 0 {
        Put(NopWqe(num));
      } else {
        NopHeader();
      }
    }

    method NopHeader()
      requires Recording()
      modifies sq
      ensures Size(log) < sqCnt ==> Recording()
      ensures sq[..] == HeaderOver(old(sq[..]), 16 * (Size(log) % sqCnt), Head(NopWqe(0), Size(log), qpn))
    {
      assert sqCnt > 0;
      hide tasks.Valid, Laid, TasksOf, Size, Span, ValidLog, IsPow2, Head, HeaderOver;
      ghost var before := sq[..];
      var slot := writeCnt % sqCnt;
      WriteHeader(slot, NopWqe(0));
      if Size(log) < sqCnt {
        SmallMod(Size(log), sqCnt);
        HeaderBehind(before, sq[..], qpn, log, Head(NopWqe(0), writeCnt, qpn));
      }
    }

    method WriteHeader(slot: nat, w: Wqe)
      requires 16 * slot + 4 <= sq.Length
      modifies sq
      ensures sq[..] == HeaderOver(old(sq[..]), 16 * slot, Head(w, writeCnt, qpn))
    {
      ghost var before := sq[..];
      WriteHead(16 * slot, w);
      HeaderIs(before, sq[..], 16 * slot, Head(w, writeCnt, qpn));
    }

    /** Fill the block: empty entries over eight slots while more than eight are left, then one over the rest. Only when
        the entries fill a queue of a single copy is there no room for the closing header: it replaces the first. */
    method Pad()
      requires Recording()
      modifies this`writeCnt, this`log, sq, tasks.Repr
      ensures Kept() && fresh(tasks.Repr - old(tasks.Repr)) && writeCnt == Size(log) == wqes
      ensures log == old(log) + Padding(wqes - Size(old(log)))
      ensures dups >= 2 || Size(old(log)) < sqCnt ==> Recording()
      ensures dups == 1 && Size(old(log)) == sqCnt ==>
        sq[..] == HeaderOver(old(sq[..]), 0, Head(NopWqe(0), sqCnt, qpn))
    {
      hide tasks.Valid, Laid, TasksOf, Size, Span, ValidLog, IsPow2, Head, Sized, HeaderOver;
      Widths();
      PadWhole();
      SizeMore(log, NopWqe(wqes - writeCnt));
      ZeroSlot(sqCnt);
      Nop(wqes - writeCnt);
    }

    /** The entries over eight slots. */
    method PadWhole()
      requires Recording()
      modifies this`writeCnt, this`log, sq, tasks.Repr
      ensures Recording() && fresh(tasks.Repr - old(tasks.Repr)) && writeCnt + 8 >= wqes
      ensures log + Padding(wqes - Size(log)) == old(log + Padding(wqes - Size(log)))
      ensures (log == old(log) && sq[..] == old(sq[..])) || old(writeCnt) < writeCnt < wqes
    {
      ghost var all := log + Padding(wqes - Size(log));
      assert writeCnt == Size(log) <= wqes;
      hide tasks.Valid, Size, Padding, QpCtx.Recording, QpCtx.Kept;
      while writeCnt + 8 < wqes
        invariant Recording() && fresh(tasks.Repr - old(tasks.Repr)) && writeCnt == Size(log) <= wqes
        invariant log + Padding(wqes - Size(log)) == all
        invariant (log == old(log) && sq[..] == old(sq[..])) || old(writeCnt) < writeCnt < wqes
        decreases wqes - writeCnt
      {
        PadStep();
      }
    }

    method PadStep()
      requires Recording() && writeCnt == Size(log) && Size(log) + 8 < wqes
      modifies this`writeCnt, this`log, sq, tasks.Repr
      ensures Recording() && fresh(tasks.Repr - old(tasks.Repr))
      ensures writeCnt == Size(log) == old(writeCnt) + 8
      ensures log + Padding(wqes - Size(log)) == old(log + Padding(wqes - Size(log)))
    {
      hide tasks.Valid, Size, Head, HeaderOver, Padding, NopWqe, QpCtx.Recording, QpCtx.Kept;
      PaddingNext(log, wqes - Size(log));
      Nop(8);
    }

    lemma {:induction false} Widths()
      requires Sized()
      ensures 0 < wqes <= sqCnt && sq.Length == 16 * sqCnt && dups >= 1
      ensures dups >= 2 ==> wqes < sqCnt
      ensures dups == 1 ==> wqes == sqCnt
    {
      Fits();
      assert Span(1, wqes) == Span(0, wqes) + wqes;
    }

    /** Copy the first block over the rest of the buffer. */
    method Duplicate()
      requires Sized()
      modifies sq
      ensures sq[..] == Repeated(old(sq[..offset]), dups)
    {
      hide Span, Repeated;
      Fits();
      ghost var first := sq[..offset];
      var d := 1;
      RepeatedNext(first, d);
      while d < dups
        invariant 1 <= d <= dups && offset <= Span(d, offset) <= sq.Length
        invariant sq[..Span(d, offset)] == Repeated(first, d) && sq[..offset] == first
      {
        ghost var done := Span(d, offset);
        assert offset * d == done && done + offset <= sq.Length by {
          SpanIs(d, offset);
          SpanGrows(d, dups, offset);
        }
        RepeatedNext(first, d + 1);
        CopyTo(offset * d);
        assert sq[..done + offset] == Repeated(first, d) + first;
        d := d + 1;
      }
      assert sq[..sq.Length] == sq[..];
    }

    method CopyTo(dst: nat)
      requires offset <= dst && dst + offset <= sq.Length
      modifies sq
      ensures sq[..dst + offset] == old(sq[..dst]) + old(sq[..offset])
      ensures sq[..offset] == old(sq[..offset])
    {
      forall i | 0 <= i < offset {
        sq[dst + i] := sq[i];
      }
    }

    /** Between rearms: every copy holds the entries of the round it is armed for. */
    ghost predicate Armed()
      reads this`log, this`phase, this`rearms, sq, tasks, tasks.Repr
    {
      && Kept() && Size(log) == wqes && dups >= 2
      && phase == rearms % dups
      && AllHold(sq[..], dups, offset, qpn, log, rearms)
    }

    /** Bump the fields of the copy armed last into the copy behind it. */
    method Rearm()
      requires Armed()
      modifies this`phase, this`rearms, sq
      ensures Armed() && rearms == old(rearms) + 1 && phase == rearms % dups
      ensures Patch(old(sq[..]), sq[..], FieldsOf(TasksOf(log)), Span(old(phase), offset), Span(phase, offset))
    {
      hide tasks.Valid, AllHold, TasksOf, FieldsOf, Patch, Patched, Within, Separate, Distinct;
      hide Span, ValidLog, Size, ArmedFor;
      ghost var before := sq[..];
      Ready(log, offset, dups, rearms, sq.Length);
      tasks.Exec(offset, phase, dups, sq);
      phase := (phase + 1) % dups;
      RearmArms(before, sq[..], offset, dups, rearms, qpn, log);
      rearms := rearms + 1;
    }

    /** Complete the block: pad it, copy it over the buffer, and arm all copies but the last two ahead of the first. */
    method Fin()
      requires Recording() && dups >= 2
      modifies this`writeCnt, this`log, this`phase, this`rearms, sq, tasks.Repr
      ensures Armed() && rearms == Prearmed(dups)
      ensures log == old(log) + Padding(wqes - Size(old(log)))
      ensures writeCnt == wqes && fresh(tasks.Repr - old(tasks.Repr))
    {
      hide tasks.Valid, AllHold, TasksOf, FieldsOf, Patch, Laid, Span, ValidLog, Size, ArmedFor, Repeated, Padding;
      Pad();
      ghost var before := sq[..];
      Fits();
      Duplicate();
      CopiesHold(before, sq[..], offset, dups, qpn, log);
      SmallMod(0, dups);
      ghost var repr, all := tasks.Repr, log;
      var d := 1;
      while d < dups - 2
        invariant 1 <= d && d - 1 == rearms && rearms <= Prearmed(dups)
        invariant Armed() && writeCnt == wqes && tasks.Repr == repr && log == all
      {
        Rearm();
        d := d + 1;
      }
    }

    /** What the device reads in the doorbell record and in the doorbell register is the end of the entries released: the
        32-bit producer index `k`, in the register its low 24 bits, and behind it the number of the queue. */
    ghost predicate Told(k: Word)
      reads this`dbrec, this`bfReg, this`bfQpn
    {
      Read(dbrec) == k && Read(bfReg) == k % 0x100_0000 * 0x100 && Read(bfQpn) / 0x100 == qpn % 0x100_0000
    }

    /** No doorbell has ever been rung. */
    ghost predicate Unrung()
      reads this`exeCnt, this`bells, this`dbrec, this`bfReg, this`bfQpn
    {
      exeCnt == 0 && bells == 0 && dbrec == 0 && bfReg == 0 && bfQpn == 0
    }

    /** The producer index is that of the rounds released. */
    ghost predicate Rung()
      reads this`exeCnt, this`bells
    {
      exeCnt == Wrap(Span(bells, wqes))
    }

    /** Ring the doorbell for one more round: the producer index moves over one block, and round `bells` occupies
        copy `bells` modulo the number of copies, also after the 32-bit index has wrapped. */
    method Db()
      requires Sized() && Rung()
      modifies this`exeCnt, this`dbrec, this`bfReg, this`bfQpn, this`bells
      ensures Rung() && bells == old(bells) + 1 && (old(Armed()) ==> Armed())
      ensures exeCnt == Wrap(old(exeCnt) + wqes)
      ensures forall i: nat :: i < wqes ==> Slot(old(exeCnt), i, sqCnt) == Span(old(bells) % dups, wqes) + i
      ensures Told(Wrap(Span(bells, wqes)))
    {
      assert Armed() ==> this !in tasks.Repr;
      hide IsPow2, Wrap, Armed, Span, Slot, Told;
      NextBlock(bells, wqes, dups, sqCnt);
      exeCnt := Wrap(exeCnt + wqes);
      Store(exeCnt);
      bells := bells + 1;
    }

    /** The stores of a doorbell: the doorbell record and the register of the device. */
    method Store(k: Word)
      modifies this`dbrec, this`bfReg, this`bfQpn
      ensures Told(k)
    {
      hide Be, Read, Wrap;
      bfReg, bfQpn := Be(Wrap(k * 0x100)), Be(Wrap(qpn * 0x100));
      dbrec := Be(k);
      ReadBe(k);
      Shifted8(k);
      Shifted8(qpn);
    }

    /** After any number of rearms, the copy of round `k` holds exactly the entries of that round from rearm number `k`
        on, until the number of copies have been done since. */
    lemma {:induction false} RoundHeld(k: nat)
      requires Armed() && k <= rearms < k + dups
      ensures dups >= 2 && Span(k % dups, offset) + offset <= sq.Length
      ensures Laid(CopyOf(sq[..], k % dups, offset), qpn, Advanced(log, k))
    {
      ArmedExactly(k, rearms, dups);
      assert Holds(sq[..], k % dups, dups, offset, qpn, log, rearms);
    }

    /** In-flight safety of the buffer itself. With one rearm during every round, `Prearmed` and `j` are done when round
        `j` is released: its copy holds its entries then, after the rearm during it, and with three copies or more also
        after that of the round behind it. */
    lemma {:induction false} RunningHeld(j: nat)
      requires Armed() && Prearmed(dups) + j <= rearms <= Prearmed(dups) + j + if dups >= 3 then 2 else 1
      ensures dups >= 2 && Span(j % dups, offset) + offset <= sq.Length
      ensures Laid(CopyOf(sq[..], j % dups, offset), qpn, Advanced(log, j))
    {
      RoundHeld(j);
    }

    /** Walked by the lengths in its headers from its first slot, every copy shows the recorded entries in order, then
        only empty ones, and ends exactly at its last slot, whatever rounds it was armed for. */
    lemma {:induction false} WalkCopy(c: nat, recorded: seq<Wqe>)
      requires Armed() && c < dups && Size(recorded) <= wqes && log == recorded + Padding(wqes - Size(recorded))
      ensures Span(c, offset) + offset <= sq.Length
      ensures Walk(Decoded(CopyOf(sq[..], c, offset), wqes), 0)
           == Headers(recorded, 0) + Nops(Size(recorded), wqes - Size(recorded)) + [Header(wqes, 0, 0, 0)]
    {
      hide Laid, Walk, Decoded, Headers, Nops, Padding, Advanced, tasks.Valid, TasksOf, Span;
      assert Holds(sq[..], c, dups, offset, qpn, log, rearms);
      WalkRound(CopyOf(sq[..], c, offset), qpn, log, ArmedFor(c, rearms, dups));
      RecordedThenNops(recorded, wqes - Size(recorded));
    }

    /** Ring the doorbell for the first `k` entries only; the rounds counted so far do not change. */
    method DbFirst(k: Word)
      modifies this`dbrec, this`bfReg, this`bfQpn
      ensures Told(k)
    {
      Store(k);
    }
  }

  // ---- Walking a copy ----

  /** Headers of `n` slots of padding from slot `slot` on. */
  function Nops(slot: nat, n: nat): seq<Header>
    decreases n
  {
    if n == 0 then []
    else if n > 8 then [Header(slot, 0, 32, 0)] + Nops(slot + 8, n - 8)
    else [Header(slot, 0, 4 * n, 0)]
  }

  lemma {:induction false} WalkRound(block: seq<Word>, qpn: nat, log: seq<Wqe>, k: nat)
    requires ValidLog(log) && Laid(block, qpn, Advanced(log, k)) && 16 * Size(log) <= |block|
    ensures Walk(Decoded(block, Size(log)), 0) == Headers(log, 0) + [Header(Size(log), 0, 0, 0)]
  {
    hide Laid, Walk, Decoded, Headers, Advanced, Size;
    AdvancedKeeps(log, k);
    WalkVisits(block, qpn, Advanced(log, k));
    AlikeFirst(log, k);
    HeadersAlike(Advanced(log, k), log, 0);
  }

  lemma {:induction false} AlikeFirst(log: seq<Wqe>, k: nat)
    ensures forall i :: 0 <= i < |log| ==> Alike(Advanced(log, k)[i], log[i])
  {
    AdvancedAlike(log, k, 0);
  }

  lemma {:induction false} HeadersAlike(a: seq<Wqe>, b: seq<Wqe>, i: nat)
    requires |a| == |b| && i <= |a| && forall j :: 0 <= j < |a| ==> Alike(a[j], b[j])
    ensures Headers(a, i) == Headers(b, i)
    decreases |a| - i
  {
    if i < |a| {
      HeadersAlike(a, b, i + 1);
      SizeAlike(a, b, i);
    }
  }

  lemma {:induction false} RecordedThenNops(log: seq<Wqe>, n: nat)
    ensures Headers(log + Padding(n), 0) == Headers(log, 0) + Nops(Size(log), n)
    ensures Size(log + Padding(n)) == Size(log) + n
  {
    PaddingIs(log, n);
    HeadersSplit(log, Padding(n), 0);
    PaddingHeaders(log, n);
  }

  lemma {:induction false} HeadersSplit(x: seq<Wqe>, y: seq<Wqe>, i: nat)
    requires i <= |x|
    ensures Headers(x + y, i) == Headers(x, i) + Headers(x + y, |x|)
    decreases |x| - i
  {
    if i < |x| {
      HeadersSplit(x, y, i + 1);
      assert (x + y)[..i] == x[..i];
    }
  }

  lemma {:induction false} PaddingHeaders(log: seq<Wqe>, n: nat)
    ensures Headers(log + Padding(n), |log|) == Nops(Size(log), n)
    decreases n
  {
    var all := log + Padding(n);
    assert all[..|log|] == log;
    if n > 8 {
      var more := log + [NopWqe(8)];
      PaddingHeaders(more, n - 8);
      SizeMore(log, NopWqe(8));
      assert more + Padding(n - 8) == all;
    } else if n > 0 {
      assert Headers(all, |log| + 1) == [];
    }
  }

  // ---- Rearming one copy among all ----

  /** The fields of every copy are inside the buffer, and those of two copies are apart. */
  lemma {:induction false} Ready(log: seq<Wqe>, n: nat, d: nat, r: nat, length: nat)
    requires ValidLog(log) && n == 16 * Size(log) && d >= 2 && Span(d, n) == length
    ensures var f, src, dst := FieldsOf(TasksOf(log)), Span(r % d, n), Span((r + 1) % d, n);
      && Within(f, src, dst, length) && Separate(f, src, dst) && Distinct(TasksOf(log))
      && r % d * n == src && (r + 1) % d * n == dst && r % d < d && (r % d + 1) % d == (r + 1) % d
  {
    var c, e := r % d, (r + 1) % d;
    FieldBounds(log);
    NextCopy(r, d);
    SpanIs(c, n);
    SpanIs(e, n);
    SpanGrows(c, d, n);
    SpanGrows(e, d, n);
    if c < e {
      SpanGrows(c, e, n);
    } else {
      SpanGrows(e, c, n);
    }
  }

  lemma {:induction false} NextCopy(r: nat, d: nat)
    requires d >= 2
    ensures (r % d + 1) % d == (r + 1) % d != r % d
  {
    ModShift(r % d + 1, r / d, d);
    SameCopy(r, r + 1, d);
  }

  /** The buffer with a header written over four of its words. */
  function HeaderOver(buf: seq<Word>, base: nat, head: seq<Word>): (r: seq<Word>)
    requires |head| == 4
    ensures base + 4 <= |buf| ==>
      |r| == |buf| && r[base..base + 4] == head && r[..base] == buf[..base] && r[base + 4..] == buf[base + 4..]
  {
    if base + 4 <= |buf| then buf[..base] + head + buf[base + 4..] else buf
  }

  lemma {:induction false} HeaderIs(before: seq<Word>, after: seq<Word>, base: nat, head: seq<Word>)
    requires |head| == 4 && |after| == |before| && base + 4 <= |before| && after[base..base + 4] == head
    requires forall j :: 0 <= j < |before| && !(base <= j < base + 4) ==> after[j] == before[j]
    ensures after == HeaderOver(before, base, head)
  {
    assert after == after[..base] + after[base..base + 4] + after[base + 4..];
  }

  /** A header behind the entries leaves them alone. */
  lemma {:induction false} HeaderBehind(before: seq<Word>, after: seq<Word>, qpn: nat, log: seq<Wqe>, head: seq<Word>)
    requires |head| == 4 && 16 * Size(log) + 4 <= |before| && Laid(before, qpn, log)
    requires after == HeaderOver(before, 16 * Size(log), head)
    ensures Laid(after, qpn, log)
  {
    LaidPrefix(before, after, qpn, log);
  }

  lemma {:induction false} ZeroSlot(n: nat)
    requires n > 0
    ensures n % n == 0
  {
    ModUnique(n, n, 1, 0);
  }

  lemma {:induction false} SizeMore(log: seq<Wqe>, w: Wqe)
    ensures Size(log + [w]) == Size(log) + w.Slots()
  {
    assert (log + [w])[..|log|] == log;
  }

  lemma {:induction false} PaddingNext(log: seq<Wqe>, n: nat)
    requires n > 8
    ensures log + Padding(n) == log + [NopWqe(8)] + Padding(n - 8)
    ensures Size(log + [NopWqe(8)]) == Size(log) + 8
  {
    SizeMore(log, NopWqe(8));
  }

  /** Padding takes exactly the slots it is asked to, and is made of empty entries. */
  lemma {:induction false} PaddingIs(log: seq<Wqe>, n: nat)
    ensures Size(log + Padding(n)) == Size(log) + n
    ensures forall i :: 0 <= i < |Padding(n)| ==> Padding(n)[i].opcode == 0 && Padding(n)[i].body.Blank?
    decreases n
  {
    if n > 8 {
      var more := log + [NopWqe(8)];
      PaddingIs(more, n - 8);
      SizeMore(log, NopWqe(8));
      assert more + Padding(n - 8) == log + Padding(n);
    } else if n > 0 {
      SizeMore(log, NopWqe(n));
    } else {
      assert log + [] == log;
    }
  }

  /** `n` copies of a block, end to end. */
  function Repeated(block: seq<Word>, n: nat): seq<Word> {
    if n == 0 then [] else Repeated(block, n - 1) + block
  }

  lemma {:induction false} RepeatedNext(block: seq<Word>, d: nat)
    requires d > 0
    ensures Repeated(block, d) == Repeated(block, d - 1) + block
    ensures Span(d, |block|) == Span(d - 1, |block|) + |block|
    ensures Repeated(block, 0) == [] && Span(0, |block|) == 0
  {
  }

  /** Copy number `c` of a buffer of blocks of `n` words. */
  function CopyOf(buf: seq<Word>, c: nat, n: nat): seq<Word>
    requires Span(c, n) + n <= |buf|
  {
    buf[Span(c, n)..Span(c, n) + n]
  }

  /** Every copy is the block, and there is nothing else. */
  lemma {:induction false} RepeatedCopies(block: seq<Word>, d: nat, c: nat)
    requires c < d
    ensures |Repeated(block, d)| == Span(d, |block|) && Span(c, |block|) + |block| <= Span(d, |block|)
    ensures CopyOf(Repeated(block, d), c, |block|) == block
  {
    RepeatedLength(block, d);
    SpanGrows(c, d, |block|);
    if c < d - 1 {
      RepeatedCopies(block, d - 1, c);
    } else {
      RepeatedLength(block, c);
    }
  }

  lemma {:induction false} RepeatedLength(block: seq<Word>, d: nat)
    ensures |Repeated(block, d)| == Span(d, |block|)
  {
    if d > 0 {
      RepeatedLength(block, d - 1);
    }
  }

  /** Copy `c` of `d` holds the entries of the round it is armed for after `r` rearms. */
  ghost predicate Holds(buf: seq<Word>, c: nat, d: nat, n: nat, qpn: nat, log: seq<Wqe>, r: nat)
    requires d > 0
  {
    Span(c, n) + n <= |buf| && Laid(CopyOf(buf, c, n), qpn, Advanced(log, ArmedFor(c, r, d)))
  }

  ghost predicate AllHold(buf: seq<Word>, d: nat, n: nat, qpn: nat, log: seq<Wqe>, r: nat)
    requires d > 0
  {
    forall c :: 0 <= c < d ==> Holds(buf, c, d, n, qpn, log, r)
  }

  /** After duplication every copy holds the entries as first written. */
  lemma {:induction false} CopiesHold(before: seq<Word>, after: seq<Word>, n: nat, d: nat, qpn: nat, log: seq<Wqe>)
    requires n == 16 * Size(log) <= |before| && Laid(before, qpn, log)
    requires after == Repeated(before[..n], d) && d > 0
    ensures AllHold(after, d, n, qpn, log, 0)
  {
    forall c | 0 <= c < d
      ensures Holds(after, c, d, n, qpn, log, 0)
    {
      RepeatedCopies(before[..n], d, c);
      LaidPrefix(before, CopyOf(after, c, n), qpn, log);
    }
  }

  /** The copies as one rearm leaves them: the next copy patched, all others as they were. */
  lemma {:induction false} PatchedCopies(before: seq<Word>, after: seq<Word>, f: Fields, n: nat, c: nat, e: nat, k: nat)
    requires Span(c, n) + n <= |before| && Span(e, n) + n <= |before| && Span(k, n) + n <= |before|
    requires forall p: int :: p in f ==> 0 <= p < n
    requires Patch(before, after, f, Span(c, n), Span(e, n))
    ensures |after| == |before|
    ensures k == e ==> Rearmed(CopyOf(before, c, n), CopyOf(before, e, n), CopyOf(after, e, n), f)
    ensures k != e ==> CopyOf(after, k, n) == CopyOf(before, k, n)
  {
    hide Span;
    if k < e {
      SpanGrows(k, e, n);
    } else if k > e {
      SpanGrows(e, k, n);
    }
  }

  lemma {:induction false} RearmArmsOne(before: seq<Word>, after: seq<Word>, n: nat, d: nat, r: nat, qpn: nat,
          log: seq<Wqe>,
                     s: nat, e: nat, c: nat)
    requires ValidLog(log) && n == 16 * Size(log) && d >= 2 && c < d && s < d && e < d && s == r % d && e == (r + 1) % d
    requires AllHold(before, d, n, qpn, log, r)
    requires Patch(before, after, FieldsOf(TasksOf(log)), Span(s, n), Span(e, n))
    ensures Holds(after, c, d, n, qpn, log, r + 1)
  {
    hide Span, Laid, Patch, Rearmed, TasksOf, FieldsOf, Advanced, ArmedFor;
    FieldBounds(log);
    assert Holds(before, s, d, n, qpn, log, r);
    assert Holds(before, e, d, n, qpn, log, r);
    assert Holds(before, c, d, n, qpn, log, r);
    PatchedCopies(before, after, FieldsOf(TasksOf(log)), n, s, e, c);
    ArmedNext(c, r, d);
    if c == e {
      RearmAdvances(CopyOf(before, s, n), CopyOf(before, e, n), CopyOf(after, e, n), qpn, log, r, ArmedFor(e, r, d));
    }
  }

  lemma {:induction false} ArmedNext(c: nat, r: nat, d: nat)
    requires d > 0
    ensures ArmedFor(c, r + 1, d) == if c == (r + 1) % d then r + 1 else ArmedFor(c, r, d)
    ensures ArmedFor(r % d, r, d) == r
  {
    ArmedExactly(r, r, d);
  }

  /** One rearm moves every copy to the round it is then armed for. */
  lemma {:induction false} RearmArms(before: seq<Word>, after: seq<Word>, n: nat, d: nat, r: nat, qpn: nat,
          log: seq<Wqe>)
    requires ValidLog(log) && n == 16 * Size(log) && d >= 2
    requires AllHold(before, d, n, qpn, log, r)
    requires Patch(before, after, FieldsOf(TasksOf(log)), Span(r % d, n), Span((r + 1) % d, n))
    ensures AllHold(after, d, n, qpn, log, r + 1)
  {
    var next := r + 1;
    forall c | 0 <= c < d
      ensures Holds(after, c, d, n, qpn, log, next)
    {
      RearmArmsOne(before, after, n, d, r, qpn, log, r % d, (r + 1) % d, c);
    }
  }

  // ---- The doorbell ----

  /** A number moved up by a byte, in 32 bits. */
  lemma {:induction false} Shifted8(k: nat)
    ensures var r := Read(Be(Wrap(k * 0x100))); r == k % 0x100_0000 * 0x100 && r / 0x100 == k % 0x100_0000
  {
    hide Be, Read;
    var q, low := k / 0x100_0000, k % 0x100_0000;
    assert k * 0x100 == q * LIMIT + low * 0x100;
    ModUnique(k * 0x100, LIMIT, q, low * 0x100);
    ReadBe(Wrap(k * 0x100));
  }

  /** The slot of the `i`-th entry behind the 32-bit producer index `exe`. */
  function Slot(exe: Word, i: nat, sqCnt: nat): int
    requires sqCnt > 0
  {
    Wrap(exe + i) % sqCnt
  }

  lemma {:induction false} DoorbellCopy(j: nat, i: nat, b: nat, d: nat, n: nat)
    requires IsPow2(n) && n <= 0x8000_0000 && Span(d, b) == n && d > 0 && i < b
    ensures Slot(Wrap(Span(j, b)), i, n) == Span(j % d, b) + i
  {
    hide IsPow2, Span, Wrap;
    DividesLimit(n);
    WrapAdd(Span(j, b), i);
    WrapMod(Span(j, b) + i, n);
    SpanMod(j, d, b, i);
  }

  lemma {:induction false} NextBlock(j: nat, b: nat, d: nat, n: nat)
    requires IsPow2(n) && n <= 0x8000_0000 && Span(d, b) == n && d > 0 && n > 0
    ensures Wrap(Wrap(Span(j, b)) + b) == Wrap(Span(j + 1, b))
    ensures forall i: nat :: i < b ==> Slot(Wrap(Span(j, b)), i, n) == Span(j % d, b) + i
  {
    hide IsPow2, Wrap, Slot;
    WrapAdd(Span(j, b), b);
    forall i: nat | i < b
      ensures Slot(Wrap(Span(j, b)), i, n) == Span(j % d, b) + i
    {
      DoorbellCopy(j, i, b, d, n);
    }
  }

  /** Entry `i` of block `j` on a ring of `d` blocks. */
  lemma {:induction false} SpanMod(j: nat, d: nat, b: nat, i: nat)
    requires d > 0 && i < b
    ensures Span(d, b) > 0 && (Span(j, b) + i) % Span(d, b) == Span(j % d, b) + i
  {
    hide Span;
    var q, s := j / d, j % d;
    SpanGrows(0, d, b);
    SpanGrows(s, d, b);
    SpanWhole(q, d, s, b);
    assert q * d + s == j;
    ModUnique(Span(j, b) + i, Span(d, b), q, Span(s, b) + i);
  }

  lemma {:induction false} SpanWhole(q: nat, d: nat, s: nat, b: nat)
    ensures q * d + s >= 0 && Span(q * d + s, b) == q * Span(d, b) + Span(s, b)
  {
    hide Span;
    BlocksOrdered(q, q, d);
    SpanIs(q * d + s, b);
    SpanIs(d, b);
    SpanIs(s, b);
    Distribute(b, q * d, s);
    MulAssoc(q, d, b);
  }

  lemma {:induction false} OffsetFits(dups: nat, wqes: nat, sqCnt: nat)
    requires dups * wqes == sqCnt
    ensures Span(dups, wqes) == sqCnt && Span(dups, 16 * wqes) == 16 * sqCnt
  {
    SpanIs(dups, wqes);
    SpanScale(dups, wqes);
  }

  lemma {:induction false} SpanScale(n: nat, b: nat)
    ensures Span(n, 16 * b) == 16 * Span(n, b)
  {
    if n > 0 {
      SpanScale(n - 1, b);
    }
  }
}
