/** One step of the user's walk over the mapped ring, and runs of writes beside it. */
module ReaderSpec {
  import opened Wrappers
  import opened Samples
  import opened RingSpec

  /** What the `switch` in `read_samples` found at the cursor. */
  datatype Seen = Got(s: Sample) | Skipped | AtEof | Unknown

  /** The bytes the walk touches at p lie inside p's page. */
  predicate Readable(mem: seq<byte>, p: nat) {
    && Position(p, |mem|)
    && (Known(HeaderAt(mem, p)) ==> Length(HeaderAt(mem, p)) <= PageSpace(p))
  }

  function Look(mem: seq<byte>, p: nat): Seen
    requires Readable(mem, p)
  {
    var kind := HeaderAt(mem, p);
    if kind == PAD then Skipped
    else if kind == EOF then AtEof
    else if Known(kind) then
      StepArith(p, Length(kind), |mem|);
      Got(Sample(kind, mem[p + HEADER..p + Length(kind)]))
    else Unknown
  }

  /** How far that step moves the cursor; EOF and unknown headers are not consumed. */
  function Stride(mem: seq<byte>, p: nat): (k: nat)
    requires Readable(mem, p)
    ensures k <= PageSpace(p)
    ensures k == 0 <==> !Look(mem, p).Got? && !Look(mem, p).Skipped?
  {
    match Look(mem, p)
    case Got(s) => Length(s.kind)
    case Skipped => PageSpace(p)
    case _ => 0
  }

  function Yield(seen: Seen): seq<Sample> {
    if seen.Got? then [seen.s] else []
  }

  /** On a well-framed stretch the walk never meets an unknown header: it takes the first
      sample, skips a PAD, or stands on EOF, and what it leaves is framed again. */
  lemma LookDecodes(mem: seq<byte>, p: nat, n: nat)
    requires Position(p, |mem|) && 0 < n <= |mem| && Decode(mem, p, n).Some?
    ensures Readable(mem, p) && Stride(mem, p) <= n && p + Stride(mem, p) <= |mem|
    ensures Position(Fwd(p, Stride(mem, p), |mem|), |mem|)
    ensures var ys := Decode(mem, p, n).value;
      match Look(mem, p)
      case Got(s) => s.kind != EOF && ys != [] && s == ys[0] &&
        Decode(mem, Fwd(p, Stride(mem, p), |mem|), n - Stride(mem, p)) == Some(ys[1..])
      case Skipped => Decode(mem, Fwd(p, Stride(mem, p), |mem|), n - Stride(mem, p)) == Some(ys)
      case AtEof => ys != [] && ys[0] == EOF_SAMPLE
      case Unknown => false
    ensures Look(mem, p).Skipped? ==> p % PAGE != 0 && Fwd(p, Stride(mem, p), |mem|) % PAGE == 0
    ensures Look(mem, p) != AtEof ==>
      Decode(mem, p, Stride(mem, p)) == Some(Yield(Look(mem, p)))
  {
    hide Decode;
    Unfold(mem, p, n);
    var f := FrameAt(mem, p).value;
    PageSpaceArith(p);
    StepArith(p, f.step, |mem|);
    var q := Fwd(p, f.step, |mem|);
    var rest := Decode(mem, q, n - f.step).value;
    assert f.samples + rest == Decode(mem, p, n).value;
    assert [] + rest == rest;
    Unfold(mem, p, f.step);
    Unfold(mem, q, 0);
    assert f.samples + [] == f.samples;
    FwdZero(p, |mem|);
  }

  /** Several writes in a row. */
  function WriteAll(r: Ring, ws: seq<Sample>): (w: Ring)
    requires Placed(r) && AllSamples(ws)
    ensures Placed(w) && |w.mem| == |r.mem| && w.tail == r.tail
  {
    if ws == [] then r
    else
      var before := WriteAll(r, ws[..|ws| - 1]);
      WriteKeepsUnread(before, ws[|ws| - 1]);
      Write(before, ws[|ws| - 1])
  }

  /** Those among them that the ring had room for. */
  function Accepted(r: Ring, ws: seq<Sample>): (acc: seq<Sample>)
    requires Placed(r) && AllSamples(ws)
  {
    if ws == [] then []
    else
      var before := ws[..|ws| - 1];
      Accepted(r, before) + (if Fits(WriteAll(r, before), ws[|ws| - 1].kind) then [ws[|ws| - 1]] else [])
  }

  /** Any number of writes: unread bytes keep their values, and from every unread record
      boundary exactly the accepted samples have been appended. */
  lemma {:induction false} WriteAllAppends(r: Ring, ws: seq<Sample>, p: nat)
    requires Placed(r) && AllSamples(ws)
    requires Position(p, |r.mem|) && Unread(r, p) && From(r, p).Some?
    ensures Unread(WriteAll(r, ws), p) && From(WriteAll(r, ws), p) == Some(From(r, p).value + Accepted(r, ws))
    ensures Count(r) <= Count(WriteAll(r, ws))
    ensures forall i :: 0 <= i < Count(r) ==>
      WriteAll(r, ws).mem[Fwd(r.tail, i, |r.mem|)] == r.mem[Fwd(r.tail, i, |r.mem|)]
  {
    hide Decode, Aligned, Write, Fits;
    if ws == [] {
      assert From(r, p).value + [] == From(r, p).value;
    } else {
      var before := ws[..|ws| - 1];
      WriteAllAppends(r, before, p);
      var mid, s := WriteAll(r, before), ws[|ws| - 1];
      WriteAppends(mid, s, p);
      WriteKeepsUnread(mid, s);
      var last := if Fits(mid, s.kind) then [s] else [];
      assert From(r, p).value + (Accepted(r, before) + last) == (From(r, p).value + Accepted(r, before)) + last;
    }
  }

  /** While the ring is well framed, `items` counts its records. */
  predicate Counted(r: Ring) {
    Framed(r) && |r.mem| <= 0x40_0000 && r.items == |Contents(r)|
  }

  lemma WriteCounts(r: Ring, s: Sample)
    requires Counted(r) && IsSample(s)
    ensures Counted(Write(r, s))
    ensures Contents(Write(r, s)) == Contents(r) + if Fits(r, s.kind) then [s] else []
  {
    hide Decode, Aligned, Write, Fits;
    WriteAppends(r, s, r.tail);
    var w := Write(r, s);
    DecodeLength(w.mem, w.tail, Count(w));
  }

  lemma {:induction false} WriteAllCounts(r: Ring, ws: seq<Sample>)
    requires Counted(r) && AllSamples(ws)
    ensures Counted(WriteAll(r, ws)) && Contents(WriteAll(r, ws)) == Contents(r) + Accepted(r, ws)
  {
    hide Decode, Aligned, Write, Fits;
    if ws == [] {
      assert Contents(r) + [] == Contents(r);
    } else {
      var before := ws[..|ws| - 1];
      WriteAllCounts(r, before);
      WriteCounts(WriteAll(r, before), ws[|ws| - 1]);
      var last := if Fits(WriteAll(r, before), ws[|ws| - 1].kind) then [ws[|ws| - 1]] else [];
      assert Contents(r) + (Accepted(r, before) + last) == (Contents(r) + Accepted(r, before)) + last;
    }
  }

  /** The reader stands at p, `consumed` bytes past the kernel's tail, having decoded `out`;
      both sides of the cursor are well framed. */
  ghost predicate Walk(v: Ring, p: nat, consumed: nat, out: seq<Sample>) {
    && Counted(v)
    && Position(p, |v.mem|) && Unread(v, p) && consumed == Gap(v.tail, p, |v.mem|)
    && Decode(v.mem, v.tail, consumed) == Some(out)
    && From(v, p).Some?
  }

  /** What the reader has yet to decode. */
  function Ahead(v: Ring, p: nat): seq<Sample>
    requires Placed(v) && Position(p, |v.mem|) && From(v, p).Some?
  {
    From(v, p).value
  }

  lemma WalkStart(v: Ring)
    requires Counted(v)
    ensures Walk(v, v.tail, 0, []) && Ahead(v, v.tail) == Contents(v)
  {
    hide Aligned, FrameAt;
  }

  /** Decoded and undecoded samples make up the queue. */
  lemma WalkSplits(v: Ring, p: nat, consumed: nat, out: seq<Sample>)
    requires Walk(v, p, consumed, out)
    ensures Contents(v) == out + Ahead(v, p) && v.items == |out| + |Ahead(v, p)|
    ensures 4 * |Ahead(v, p)| <= Gap(p, v.head, |v.mem|)
    ensures 4 * v.items <= Count(v)
  {
    hide Decode, Aligned;
    DecodeJoin(v.mem, v.tail, consumed, Gap(p, v.head, |v.mem|));
    DecodeLength(v.mem, p, Gap(p, v.head, |v.mem|));
    DecodeLength(v.mem, v.tail, Count(v));
  }

  /** A concurrent write only adds to what lies ahead of the reader. */
  lemma WalkWrite(v: Ring, s: Sample, p: nat, consumed: nat, out: seq<Sample>)
    requires Walk(v, p, consumed, out) && IsSample(s)
    ensures Walk(Write(v, s), p, consumed, out)
    ensures Ahead(Write(v, s), p) == Ahead(v, p) + if Fits(v, s.kind) then [s] else []
  {
    hide Decode, Aligned, Write, Fits;
    WriteAppends(v, s, p);
    WriteCounts(v, s);
    WriteKeepsUnread(v, s);
    DecodeFrame(v.mem, Write(v, s).mem, v.tail, consumed);
  }

  /** One step of the reader. */
  lemma WalkLook(v: Ring, p: nat, consumed: nat, out: seq<Sample>)
    requires Walk(v, p, consumed, out) && p != v.head
    ensures Readable(v.mem, p)
    ensures var k := Stride(v.mem, p); var q := Fwd(p, k, |v.mem|);
      && consumed + k < |v.mem|
      && Walk(v, q, consumed + k, out + Yield(Look(v.mem, p)))
      && Ahead(v, p) == Yield(Look(v.mem, p)) + Ahead(v, q)
      && (Look(v.mem, p).Got? ==> Look(v.mem, p).s.kind != EOF)
      && (Look(v.mem, p).Skipped? ==> p % PAGE != 0 && q % PAGE == 0)
      && (Look(v.mem, p).AtEof? ==> q == p && Ahead(v, p) != [] && Ahead(v, p)[0] == EOF_SAMPLE)
      && !Look(v.mem, p).Unknown?
  {
    hide Decode, FrameAt, Aligned;
    var n := Gap(p, v.head, |v.mem|);
    LookDecodes(v.mem, p, n);
    var k := Stride(v.mem, p);
    var q := Fwd(p, k, |v.mem|);
    WalkMoves(v, p, k, n);
    if Look(v.mem, p).AtEof? {
      assert out + [] == out;
      assert [] + Ahead(v, p) == Ahead(v, p);
    } else {
      DecodeJoin(v.mem, v.tail, consumed, k);
    }
  }

  lemma WalkMoves(v: Ring, p: nat, k: nat, n: nat)
    requires Placed(v) && p < |v.mem| && Unread(v, p) && n == Gap(p, v.head, |v.mem|) && k <= n
    ensures Unread(v, Fwd(p, k, |v.mem|))
    ensures Gap(v.tail, Fwd(p, k, |v.mem|), |v.mem|) == Gap(v.tail, p, |v.mem|) + k
    ensures Gap(Fwd(p, k, |v.mem|), v.head, |v.mem|) == n - k
    ensures Fwd(v.tail, Gap(v.tail, p, |v.mem|), |v.mem|) == p
    ensures k == 0 ==> Fwd(p, k, |v.mem|) == p
  {
  }

  /** The index of the first EOF, or the length. */
  function EofIndex(c: seq<Sample>): (i: nat)
    ensures i <= |c| && forall j :: 0 <= j < i ==> c[j].kind != EOF
    ensures i < |c| ==> c[i].kind == EOF
  {
    if c == [] || c[0].kind == EOF then 0 else 1 + EofIndex(c[1..])
  }

  /** How many samples a read of at most nr returns. */
  function StopAt(c: seq<Sample>, nr: nat): (k: nat)
    ensures k <= nr && k <= |c|
  {
    if nr <= EofIndex(c) then nr else EofIndex(c)
  }

  function Flatten(sched: seq<seq<Sample>>): seq<Sample> {
    if sched == [] then [] else Flatten(sched[..|sched| - 1]) + sched[|sched| - 1]
  }

  /** The next sample ahead, while fewer than nr have been taken and no EOF was met. */
  lemma NextIndex(c: seq<Sample>, acc: seq<Sample>, nr: nat, k: nat)
    requires nr <= |c| || EofIndex(c) < |c|
    requires k < nr && k <= StopAt(c, nr)
    ensures k < |c| && c[k..] + acc != [] && (c[k..] + acc)[0] == c[k]
    ensures if c[k].kind == EOF then k == EofIndex(c) else k + 1 <= StopAt(c, nr)
  {
  }

  predicate AllSamples(ws: seq<Sample>) {
    forall s :: s in ws ==> IsSample(s)
  }

  /** The result of one `read_samples` of at most nr on a ring v0, while `done` was written:
      the first samples up to nr or EOF come out, exactly they leave the ring, and what was
      accepted meanwhile is queued behind the rest. EOF is counted as read but stays. */
  ghost predicate ReadResult(v0: Ring, v: Ring, nr: nat, out: seq<Sample>, done: seq<Sample>)
    requires Framed(v0)
  {
    var c, stop := Contents(v0), StopAt(Contents(v0), nr);
    && AllSamples(done) && Framed(v)
    && v.mem == WriteAll(v0, done).mem && v.head == WriteAll(v0, done).head
    && out == c[..stop]
    && Contents(v) == c[stop..] + Accepted(v0, done)
    && v.items == |Contents(v)| - (if stop < nr then 1 else 0)
  }

  lemma GapAligned(p: nat, q: nat, size: nat)
    requires Position(p, size) && Position(q, size)
    ensures Gap(p, q, size) % 4 == 0
  {
  }

  /** Moving the kernel's tail up to the reader's drops exactly what was decoded. */
  lemma WalkFlush(v: Ring, p: nat, consumed: nat, out: seq<Sample>)
    requires Walk(v, p, consumed, out)
    ensures consumed % 4 == 0 && consumed <= Count(v) && Fwd(v.tail, consumed, |v.mem|) == p
    ensures Framed(v.(tail := p)) && Contents(v.(tail := p)) == Ahead(v, p)
  {
    hide Decode;
    GapAligned(v.tail, p, |v.mem|);
  }

  /** Where the walk stands in the queue it started from. */
  lemma WalkIndex(v0: Ring, done: seq<Sample>, v: Ring, p: nat, consumed: nat, out: seq<Sample>)
    requires Counted(v0) && AllSamples(done) && v == WriteAll(v0, done)
    requires Walk(v, p, consumed, out) && |out| <= |Contents(v0)|
    ensures out == Contents(v0)[..|out|]
    ensures Ahead(v, p) == Contents(v0)[|out|..] + Accepted(v0, done)
    ensures Ahead(v, p) != [] ==> p != v.head
  {
    hide Decode, Aligned, WriteAll, Accepted;
    WriteAllCounts(v0, done);
    WalkSplits(v, p, consumed, out);
    var c, acc := Contents(v0), Accepted(v0, done);
    assert out == (out + Ahead(v, p))[..|out|] == (c + acc)[..|out|];
    assert Ahead(v, p) == (out + Ahead(v, p))[|out|..] == (c + acc)[|out|..];
  }

  /** One turn of the decoding loop, placed in the queue v0 the read started from. */
  lemma WalkTurn(v0: Ring, done: seq<Sample>, p: nat, consumed: nat, out: seq<Sample>, nr: nat)
    requires Counted(v0) && AllSamples(done) && Walk(WriteAll(v0, done), p, consumed, out)
    requires nr <= |Contents(v0)| || EofIndex(Contents(v0)) < |Contents(v0)|
    requires |out| < nr && |out| <= StopAt(Contents(v0), nr)
    ensures var v := WriteAll(v0, done);
      && Readable(v.mem, p) && consumed + Stride(v.mem, p) < |v.mem|
      && Walk(v, Fwd(p, Stride(v.mem, p), |v.mem|), consumed + Stride(v.mem, p), out + Yield(Look(v.mem, p)))
      && match Look(v.mem, p)
         case Got(_) => |out| + 1 <= StopAt(Contents(v0), nr)
         case Skipped => p % PAGE != 0 && Fwd(p, Stride(v.mem, p), |v.mem|) % PAGE == 0
         case AtEof => |out| == EofIndex(Contents(v0))
         case Unknown => false
  {
    hide Decode, Aligned, WriteAll, Accepted, Readable, Look, Stride, EofIndex;
    var v := WriteAll(v0, done);
    WalkIndex(v0, done, v, p, consumed, out);
    NextIndex(Contents(v0), Accepted(v0, done), nr, |out|);
    WalkLook(v, p, consumed, out);
  }
}
