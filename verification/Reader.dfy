/** The user side: the cursor of tool/src/rb.c and the decoding loop `read_samples` of
    tool/src/profile.c, reading the mapped pages without a lock while the kernel writes. */
module Reader {
  import opened Bits
  import opened Samples
  import opened RingSpec
  import opened RingMasks
  import opened RingBuffer
  import opened ReaderSpec

  class UserRing {
    var tail: nat
    var consumed: nat
    const size: nat
    const nPages: nat

    ghost predicate Valid()
      reads this
    {
      PageCount(nPages) && size == nPages * PAGE && Position(tail, size) && consumed < U32
    }

    /** `smon_rb_init`. */
    constructor (mmapPages: nat)
      requires PageCount(mmapPages)
      ensures Valid() && nPages == mmapPages && tail == 0 && consumed == 0
    {
      ghost var j := PageExponent(mmapPages);
      tail, consumed := 0, 0;
      size := mmapPages * PAGE;
      nPages := mmapPages;
    }

    /** `smon_rb_consume`. */
    method Consume(k: nat)
      requires Valid() && k % 4 == 0 && k <= size
      modifies this
      ensures Valid() && tail == Fwd(old(tail), k, size) && consumed == (old(consumed) + k) % U32
    {
      hide And, Or;
      FwdAligned(tail, k, size);
      TrimMask(tail, k, nPages);
      tail := And(tail + k, Or((nPages - 1) * PAGE, PAGE - 1));
      consumed := (consumed + k) % U32;
    }

    /** `smon_rb_count`. */
    method CountBytes(begin: nat, end: nat) returns (n: nat)
      requires Valid() && begin < size && end < size
      ensures n == Gap(begin, end, size)
    {
      n := And((end - begin) % U32, size - 1);
      CountMask(end, begin, nPages);
    }

    /** `smon_rb_page_next`: the same advance as the kernel's page stuffing. */
    method PageNext()
      requires Valid()
      modifies this
      ensures Valid() && tail == Fwd(old(tail), PageSpace(old(tail)), size)
      ensures consumed == (old(consumed) + PageSpace(old(tail))) % U32
    {
      hide And, Or;
      var oldTail := tail;
      PageNextMask(tail, nPages);
      PageSpaceArith(tail);
      StepArith(tail, PageSpace(tail), size);
      ghost var j := PageExponent(nPages);
      tail := And(tail + PAGE, (nPages - 1) * PAGE);
      var n := CountBytes(oldTail, tail);
      consumed := (consumed + n) % U32;
    }

    /** `smon_rb_flush`. */
    method Flush() returns (bytes: nat)
      requires Valid()
      modifies this`consumed
      ensures Valid() && bytes == old(consumed) && consumed == 0
    {
      bytes := consumed;
      consumed := 0;
    }
  }

  /** Reading the mapping: page `addr >> PAGE_SHIFT` of the ring, see `smon_vma_fault`. */
  method Load(k: KernelRing, addr: nat, n: nat) returns (bytes: seq<byte>)
    requires k.Valid() && addr < k.size && n <= PageSpace(addr)
    ensures addr + n <= k.size && bytes == k.Mem()[addr..addr + n]
  {
    var page, offset := addr / PAGE, addr % PAGE;
    assert addr == page * PAGE + offset && page < k.nPages;
    PageOf(page, offset + n, k.nPages);
    bytes := k.data[page][offset..offset + n];
    forall i | 0 <= i < n
      ensures bytes[i] == k.Mem()[addr + i]
    {
      assert (addr + i) / PAGE == page && (addr + i) % PAGE == offset + i;
    }
  }

  /** The `switch` on the header at the cursor. */
  method ReadOne(u: UserRing, k: KernelRing) returns (seen: Seen)
    requires k.Valid() && u.Valid() && u.size == k.size
    requires Readable(k.Mem(), u.tail)
    modifies u
    ensures u.Valid() && seen == Look(k.Mem(), old(u.tail))
    ensures u.tail == Fwd(old(u.tail), Stride(k.Mem(), old(u.tail)), u.size)
    ensures u.consumed == (old(u.consumed) + Stride(k.Mem(), old(u.tail))) % U32
  {
    hide And, Or;
    ghost var mem, p := k.Mem(), u.tail;
    PageSpaceArith(p);
    var header := Load(k, u.tail, HEADER);
    var kind := FromLE(header);
    assert kind == HeaderAt(mem, p);
    if kind == PAD {
      u.PageNext();
      seen := Skipped;
    } else if kind == EOF {
      FwdZero(p, u.size);
      seen := AtEof;
    } else if Known(kind) {
      var payload := TakeSample(u, k, kind);
      seen := Got(Sample(kind, payload));
    } else {
      FwdZero(p, u.size);
      seen := Unknown;
    }
  }

  /** A sample's case: consume the header, read the structure at the cursor, consume it. */
  method TakeSample(u: UserRing, k: KernelRing, kind: nat) returns (payload: seq<byte>)
    requires k.Valid() && u.Valid() && u.size == k.size
    requires Known(kind) && kind != EOF && Length(kind) <= PageSpace(u.tail)
    modifies u
    ensures u.Valid() && old(u.tail) + Length(kind) <= u.size
    ensures payload == k.Mem()[old(u.tail) + HEADER..old(u.tail) + Length(kind)]
    ensures u.tail == Fwd(old(u.tail), Length(kind), u.size)
    ensures u.consumed == (old(u.consumed) + Length(kind)) % U32
  {
    hide And, Or;
    ghost var p := u.tail;
    StepArith(p, Length(kind), u.size);
    ReadPayload(p, kind);
    u.Consume(HEADER);
    assert u.tail == p + HEADER;
    payload := Load(k, u.tail, PayloadSize(kind));
    FwdFwd(p, HEADER, PayloadSize(kind), u.size);
    u.Consume(PayloadSize(kind));
  }

  /** With a payload to come, the header ends inside the same page. */
  lemma ReadPayload(p: nat, kind: nat)
    requires p % 4 == 0 && Known(kind) && kind != EOF && Length(kind) <= PageSpace(p)
    ensures PayloadSize(kind) <= PageSpace(p + HEADER)
  {
    var page := p / PAGE;
    assert p + HEADER == PAGE * page + (p % PAGE + HEADER);
    assert (p + HEADER) / PAGE == page;
  }

  /** The kernel's writes that get in while the reader is between two records. */
  method WriteBatch(k: KernelRing, ws: seq<Sample>, ghost v0: Ring, ghost done: seq<Sample>,
                    ghost p: nat, ghost consumed: nat, ghost out: seq<Sample>)
    requires k.Valid() && AllSamples(ws) && Placed(v0) && AllSamples(done)
    requires k.View() == WriteAll(v0, done) && Walk(k.View(), p, consumed, out)
    modifies k`head, k`items, k.data
    ensures k.Valid() && AllSamples(done + ws) && k.View() == WriteAll(v0, done + ws)
    ensures Walk(k.View(), p, consumed, out)
  {
    hide Walk, RingSpec.Write, WriteAll, Decode, Fits, And, Or;
    WriteNone(v0);
    assert done + ws[..0] == done;
    for i := 0 to |ws|
      invariant k.Valid() && AllSamples(done + ws[..i]) && k.View() == WriteAll(v0, done + ws[..i])
      invariant Walk(k.View(), p, consumed, out)
    {
      WalkWrite(k.View(), ws[i], p, consumed, out);
      WriteAllSnoc(v0, done + ws[..i], ws[i]);
      assert (done + ws[..i]) + [ws[i]] == done + ws[..i + 1];
      var _ := k.Write(ws[i].kind, ws[i].payload);
    }
    assert ws[..|ws|] == ws;
  }

  lemma WriteNone(v0: Ring)
    requires Placed(v0)
    ensures WriteAll(v0, []) == v0
  {
  }

  lemma WriteAllSnoc(v0: Ring, done: seq<Sample>, s: Sample)
    requires Placed(v0) && AllSamples(done) && IsSample(s)
    ensures AllSamples(done + [s]) && Placed(WriteAll(v0, done))
    ensures WriteAll(v0, done + [s]) == RingSpec.Write(WriteAll(v0, done), s)
  {
    assert (done + [s])[..|done|] == done;
  }

  /** The loop of `read_samples`, with the kernel writing sched[i] before the i-th turn. */
  method DecodeLoop(u: UserRing, k: KernelRing, nr: nat, sched: seq<seq<Sample>>)
    returns (n: int, eof: bool, err: int, out: seq<Sample>, ghost done: seq<Sample>)
    requires k.Valid() && u.Valid() && u.size == k.size && nr < U32
    requires u.tail == k.tail && u.consumed == 0 && Counted(k.View())
    requires forall ws :: ws in sched ==> AllSamples(ws)
    requires nr <= |Contents(k.View())| || EofIndex(Contents(k.View())) < |Contents(k.View())|
    modifies u, k`head, k`items, k.data
    ensures k.Valid() && u.Valid() && err == 0
    ensures AllSamples(done) && k.View() == WriteAll(old(k.View()), done) && done <= Flatten(sched)
    ensures Walk(k.View(), u.tail, u.consumed, out)
    ensures |out| == StopAt(Contents(old(k.View())), nr)
    ensures n == |out| + (if eof then 1 else 0) && (eof <==> |out| < nr)
  {
    hide Walk, Readable, Stride, Look, And, Or, Flatten, Accepted, Decode, WriteAll, EofIndex, Fwd, Gap, Aligned;
    ghost var v0, c := k.View(), Contents(k.View());
    var i := 0;
    n, eof, err, out, done := 0, false, 0, [], [];
    WalkStart(v0);
    WriteNone(v0);
    FlattenPrefix(sched, 0);
    while n < nr && !eof
      invariant k.Valid() && u.Valid() && err == 0
      invariant 0 <= i <= |sched| && AllSamples(done) && done == Flatten(sched[..i])
      invariant k.View() == WriteAll(v0, done)
      invariant Walk(k.View(), u.tail, u.consumed, out)
      invariant n == |out| + (if eof then 1 else 0) && |out| <= StopAt(c, nr)
      invariant eof ==> |out| == EofIndex(c) < nr
      decreases nr - n, !eof, u.tail % PAGE
    {
      if i < |sched| {
        WriteBatch(k, sched[i], v0, done, u.tail, u.consumed, out);
        FlattenPrefix(sched, i);
        done := done + sched[i];
        i := i + 1;
      }
      WalkTurn(v0, done, u.tail, u.consumed, out, nr);
      var seen := ReadOne(u, k);
      out := out + Yield(seen);
      match seen {
        case Got(_) =>
        case Skipped => n := n - 1;
        case AtEof => eof := true;
        case Unknown =>
          err := -1;
          return;
      }
      n := n + 1;
    }
    FlattenPrefix(sched, i);
  }

  lemma {:induction false} FlattenPrefix(sched: seq<seq<Sample>>, i: nat)
    requires i <= |sched|
    ensures i == 0 ==> Flatten(sched[..i]) == []
    ensures i < |sched| ==> Flatten(sched[..i + 1]) == Flatten(sched[..i]) + sched[i]
    ensures Flatten(sched[..i]) <= Flatten(sched)
    decreases |sched| - i
  {
    if i < |sched| {
      assert sched[..i + 1][..i] == sched[..i];
      FlattenPrefix(sched, i + 1);
    } else {
      assert sched[..i] == sched;
    }
  }

  /** `read_samples`: decode, then tell the kernel how much was taken. `out` is what gets
      printed, `done` the writes that had happened by the end of the loop. */
  method ReadSamples(u: UserRing, k: KernelRing, nr: nat, sched: seq<seq<Sample>>)
    returns (err: int, out: seq<Sample>, ghost done: seq<Sample>)
    requires k.Valid() && u.Valid() && u.size == k.size && nr < U32
    requires u.tail == k.tail && u.consumed == 0 && Counted(k.View())
    requires forall ws :: ws in sched ==> AllSamples(ws)
    requires nr <= |Contents(k.View())| || EofIndex(Contents(k.View())) < |Contents(k.View())|
    modifies u, k, k.data
    ensures err == 0 && k.Valid() && u.Valid() && u.tail == k.tail && u.consumed == 0
    ensures done <= Flatten(sched)
    ensures ReadResult(old(k.View()), k.View(), nr, out, done)
  {
    hide And, Or, Decode, WriteAll, Accepted, Flatten;
    ghost var v0 := k.View();
    var n, eof;
    n, eof, err, out, done := DecodeLoop(u, k, nr, sched);
    if err != 0 {
      return;
    }
    ghost var v, p, consumed := k.View(), u.tail, u.consumed;
    WalkIndex(v0, done, v, p, consumed, out);
    WalkSplits(v, p, consumed, out);
    WalkFlush(v, p, consumed, out);
    var bytes := u.Flush();
    k.Read(n, bytes);
    assert k.View() == v.(tail := p, items := v.items - n);
  }
}
