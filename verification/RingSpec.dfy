/** The ring buffer on flat memory: what the mapped pages mean as a queue of samples, and
    what one write does to that meaning. */
module RingSpec {
  import opened Wrappers
  import opened Samples
  import opened Bits

  const PAGE: nat := 4096

  datatype Ring = Ring(mem: seq<byte>, head: nat, tail: nat, items: nat)

  predicate Geometry(size: nat) {
    size % PAGE == 0 && 2 * PAGE <= size
  }

  predicate Aligned(p: nat, size: nat) {
    Geometry(size) && p % 4 == 0
  }

  /** Where a header may stand. */
  predicate Position(p: nat, size: nat) {
    p < size && Aligned(p, size)
  }

  /** k bytes further round the ring. */
  function Fwd(p: nat, k: nat, size: nat): (q: nat)
    requires p < size && k <= size
    ensures q < size
  {
    if p + k < size then p + k else p + k - size
  }

  lemma FwdZero(p: nat, size: nat)
    requires p < size
    ensures Fwd(p, 0, size) == p
  {
  }

  lemma FwdFwd(p: nat, a: nat, b: nat, size: nat)
    requires p < size && a + b <= size
    ensures Fwd(Fwd(p, a, size), b, size) == Fwd(p, a + b, size)
  {
  }

  /** Bytes from one position forward to another. */
  function Gap(from: nat, to: nat, size: nat): (n: nat)
    requires from < size && to < size
    ensures n < size && Fwd(from, n, size) == to
  {
    if from <= to then to - from else to - from + size
  }

  /** Bytes left in p's page. */
  function PageSpace(p: nat): (n: nat)
    ensures 1 <= n <= PAGE
  {
    PAGE - p % PAGE
  }

  /** A step within p's page stays inside the ring and lands on a position again. */
  lemma StepArith(p: nat, k: nat, size: nat)
    requires Position(p, size) && k % 4 == 0 && k <= PageSpace(p)
    ensures p + k <= size && Position(Fwd(p, k, size), size)
    ensures k == PageSpace(p) ==> Fwd(p, k, size) % PAGE == 0
  {
    PageEnd(p, size);
  }

  /** The end of p's page is a page start, inside the ring or at its end. */
  lemma PageEnd(p: nat, size: nat)
    requires p < size && size % PAGE == 0
    ensures p + PageSpace(p) <= size && (p + PageSpace(p)) % PAGE == 0
  {
    var page, pages := p / PAGE, size / PAGE;
    assert p == PAGE * page + p % PAGE && size == PAGE * pages;
    assert p + PageSpace(p) == PAGE * (page + 1);
    assert page < pages;
  }

  lemma PageSpaceArith(p: nat)
    requires p % 4 == 0
    ensures PageSpace(p) % 4 == 0 && PageSpace(p) >= 4
  {
    var page, word := p / PAGE, p / 4;
    assert p == PAGE * page + p % PAGE && p == 4 * word;
    assert PageSpace(p) == 4 * (1024 * (page + 1) - word);
  }

  function Splice(mem: seq<byte>, at: nat, bytes: seq<byte>): (m: seq<byte>)
    requires at + |bytes| <= |mem|
    ensures |m| == |mem|
    ensures forall i :: 0 <= i < |m| ==> m[i] == if at <= i < at + |bytes| then bytes[i - at] else mem[i]
  {
    mem[..at] + bytes + mem[at + |bytes|..]
  }

  function HeaderAt(mem: seq<byte>, p: nat): nat
    requires Position(p, |mem|)
  {
    FromLE(mem[p..p + 4])
  }

  /** What the header at p frames: how far it reaches and which sample it holds (none for
      a PAD). No frame when the type is unknown, when the record would cross the page end,
      or for a PAD at the start of a page (so two PADs never follow each other). */
  datatype Frame = Frame(step: nat, samples: seq<Sample>)

  function FrameAt(mem: seq<byte>, p: nat): (f: Option<Frame>)
    requires Position(p, |mem|)
    ensures f.Some? ==> 4 <= f.value.step <= PageSpace(p) && f.value.step % 4 == 0
    ensures f.Some? ==> p + f.value.step <= |mem| && Position(Fwd(p, f.value.step, |mem|), |mem|)
    ensures f.Some? ==> |f.value.samples| <= 1 && forall s :: s in f.value.samples ==> IsSample(s)
  {
    var kind := HeaderAt(mem, p);
    PageSpaceArith(p);
    if kind == PAD then
      if p % PAGE == 0 then None
      else
        StepArith(p, PageSpace(p), |mem|);
        Some(Frame(PageSpace(p), []))
    else if !Known(kind) || Length(kind) > PageSpace(p) then None
    else
      StepArith(p, Length(kind), |mem|);
      Some(Frame(Length(kind), [Sample(kind, mem[p + HEADER..p + Length(kind)])]))
  }

  /** The samples framed by exactly the n bytes from p on, if they are framed at all. */
  function Decode(mem: seq<byte>, p: nat, n: nat): (r: Option<seq<Sample>>)
    requires Position(p, |mem|)
    decreases n
  {
    if n == 0 then Some([])
    else
      var f := FrameAt(mem, p);
      if f.None? || f.value.step > n then None
      else
        var rest := Decode(mem, Fwd(p, f.value.step, |mem|), n - f.value.step);
        if rest.None? then None else Some(f.value.samples + rest.value)
  }

  function Count(r: Ring): nat
    requires r.head < |r.mem| && r.tail < |r.mem|
  {
    Gap(r.tail, r.head, |r.mem|)
  }

  function Space(r: Ring): nat
    requires r.head < |r.mem| && r.tail < |r.mem|
  {
    |r.mem| - 1 - Count(r)
  }

  predicate Placed(r: Ring) {
    Position(r.head, |r.mem|) && Position(r.tail, |r.mem|)
  }

  predicate Framed(r: Ring) {
    Placed(r) && Decode(r.mem, r.tail, Count(r)).Some?
  }

  /** The queue the ring represents. */
  function Contents(r: Ring): seq<Sample>
    requires Framed(r)
  {
    Decode(r.mem, r.tail, Count(r)).value
  }

  /** The ring between a position p and the head. */
  function From(r: Ring, p: nat): Option<seq<Sample>>
    requires Placed(r) && Position(p, |r.mem|)
  {
    Decode(r.mem, p, Gap(p, r.head, |r.mem|))
  }

  /** p lies between tail and head (both included). */
  predicate Unread(r: Ring, p: nat)
    requires Placed(r)
  {
    p < |r.mem| && Gap(r.tail, p, |r.mem|) <= Count(r)
  }

  /** When there is room: the record, plus the page remainder if it has to be skipped. */
  predicate Fits(r: Ring, kind: nat)
    requires Placed(r)
  {
    Length(kind) + (if Length(kind) > PageSpace(r.head) then PageSpace(r.head) else 0) <= Space(r)
  }

  /** Committing a PAD header over the rest of the head's page. */
  function Stuff(r: Ring): Ring
    requires Placed(r)
  {
    r.(mem := Splice(r.mem, r.head, ToLE(PAD)), head := Fwd(r.head, PageSpace(r.head), |r.mem|))
  }

  lemma StuffPlaced(r: Ring)
    requires Placed(r)
    ensures Placed(Stuff(r)) && PageSpace(Stuff(r).head) == PAGE
  {
    PageSpaceArith(r.head);
    StepArith(r.head, PageSpace(r.head), |r.mem|);
  }

  function Put(r: Ring, s: Sample): Ring
    requires Placed(r) && IsSample(s) && Length(s.kind) <= PageSpace(r.head)
  {
    r.(mem := Splice(r.mem, r.head, Record(s)),
       head := Fwd(r.head, Length(s.kind), |r.mem|),
       items := (r.items + 1) % U32)
  }

  /** One call of `smon_rb_write` with a known type. */
  function Write(r: Ring, s: Sample): Ring
    requires Placed(r) && IsSample(s)
  {
    if Length(s.kind) > Space(r) then r
    else if Length(s.kind) > PageSpace(r.head) then
      StuffPlaced(r);
      var stuffed := Stuff(r);
      if Length(s.kind) > Space(stuffed) then stuffed else Put(stuffed, s)
    else Put(r, s)
  }

  lemma FrameAtFrame(a: seq<byte>, b: seq<byte>, p: nat, n: nat)
    requires |a| == |b| && Position(p, |a|) && 4 <= n <= |a|
    requires forall i :: 0 <= i < n ==> a[Fwd(p, i, |a|)] == b[Fwd(p, i, |a|)]
    ensures FrameAt(a, p).Some? && FrameAt(a, p).value.step <= n ==> FrameAt(b, p) == FrameAt(a, p)
  {
    PageSpaceArith(p);
    StepArith(p, 4, |a|);
    SameSlice(a, b, p, n, 4);
    var kind := HeaderAt(a, p);
    if FrameAt(a, p).Some? && Length(kind) <= n && kind != PAD {
      StepArith(p, Length(kind), |a|);
      SameSlice(a, b, p, n, Length(kind));
      assert a[p + HEADER..p + Length(kind)] == a[p..p + Length(kind)][HEADER..];
      assert b[p + HEADER..p + Length(kind)] == b[p..p + Length(kind)][HEADER..];
    }
  }

  lemma SameSlice(a: seq<byte>, b: seq<byte>, p: nat, n: nat, k: nat)
    requires |a| == |b| && p + k <= |a| && k <= n <= |a| && p < |a|
    requires forall i :: 0 <= i < n ==> a[Fwd(p, i, |a|)] == b[Fwd(p, i, |a|)]
    ensures a[p..p + k] == b[p..p + k]
  {
    forall i | p <= i < p + k
      ensures a[i] == b[i]
    {
      assert Fwd(p, i - p, |a|) == i;
    }
  }

  /** Bytes that decode still do when copied. */
  lemma {:induction false} DecodeFrame(a: seq<byte>, b: seq<byte>, p: nat, n: nat)
    requires |a| == |b| && Position(p, |a|) && n <= |a|
    requires forall i :: 0 <= i < n ==> a[Fwd(p, i, |a|)] == b[Fwd(p, i, |a|)]
    requires Decode(a, p, n).Some?
    ensures Decode(b, p, n) == Decode(a, p, n)
    decreases n
  {
    hide FrameAt, Aligned;
    if n != 0 {
      FrameAtFrame(a, b, p, n);
      var step := FrameAt(a, p).value.step;
      var q := Fwd(p, step, |a|);
      forall i | 0 <= i < n - step
        ensures a[Fwd(q, i, |a|)] == b[Fwd(q, i, |a|)]
      {
        assert Fwd(q, i, |a|) == Fwd(p, step + i, |a|);
      }
      DecodeFrame(a, b, q, n - step);
    }
  }

  /** Adjacent well-framed stretches decode to the concatenation. */
  lemma {:induction false} DecodeJoin(mem: seq<byte>, p: nat, n: nat, k: nat)
    requires Position(p, |mem|) && n + k <= |mem| && Position(Fwd(p, n, |mem|), |mem|)
    requires Decode(mem, p, n).Some? && Decode(mem, Fwd(p, n, |mem|), k).Some?
    ensures Decode(mem, p, n + k) == Some(Decode(mem, p, n).value + Decode(mem, Fwd(p, n, |mem|), k).value)
    decreases n
  {
    hide FrameAt, Aligned, Fwd, Decode;
    Unfold(mem, p, n);
    if n != 0 {
      var f := FrameAt(mem, p).value;
      var q := Fwd(p, f.step, |mem|);
      FwdFwd(p, f.step, n - f.step, |mem|);
      DecodeJoin(mem, q, n - f.step, k);
      Unfold(mem, p, n + k);
      var a, b := Decode(mem, q, n - f.step).value, Decode(mem, Fwd(p, n, |mem|), k).value;
      assert f.samples + (a + b) == (f.samples + a) + b;
    } else {
      FwdZero(p, |mem|);
      var b := Decode(mem, p, k).value;
      assert [] + b == b;
    }
  }

  /** The definition of Decode, one frame deep. */
  lemma Unfold(mem: seq<byte>, p: nat, n: nat)
    requires Position(p, |mem|)
    ensures n == 0 ==> Decode(mem, p, n) == Some([])
    ensures n != 0 && Decode(mem, p, n).Some? ==>
      && FrameAt(mem, p).Some? && FrameAt(mem, p).value.step <= n
      && Decode(mem, Fwd(p, FrameAt(mem, p).value.step, |mem|), n - FrameAt(mem, p).value.step).Some?
    ensures n != 0 && FrameAt(mem, p).Some? && FrameAt(mem, p).value.step <= n ==>
      var f := FrameAt(mem, p).value;
      var rest := Decode(mem, Fwd(p, f.step, |mem|), n - f.step);
      rest.Some? ==> Decode(mem, p, n) == Some(f.samples + rest.value)
  {
  }

  /** Every record takes at least a header. */
  lemma {:induction false} DecodeLength(mem: seq<byte>, p: nat, n: nat)
    requires Position(p, |mem|) && Decode(mem, p, n).Some?
    ensures 4 * |Decode(mem, p, n).value| <= n
    ensures forall s :: s in Decode(mem, p, n).value ==> IsSample(s)
    decreases n
  {
    hide FrameAt, Aligned;
    if n != 0 {
      var f := FrameAt(mem, p).value;
      DecodeLength(mem, Fwd(p, f.step, |mem|), n - f.step);
    }
  }

  /** A write at the head changes no byte between tail and head. */
  lemma SpliceUnread(r: Ring, bytes: seq<byte>, k: nat)
    requires Placed(r) && |bytes| <= k <= PageSpace(r.head) && k <= Space(r)
    ensures forall i :: 0 <= i < Count(r) ==>
      Splice(r.mem, r.head, bytes)[Fwd(r.tail, i, |r.mem|)] == r.mem[Fwd(r.tail, i, |r.mem|)]
    ensures Gap(r.tail, Fwd(r.head, k, |r.mem|), |r.mem|) == Count(r) + k
  {
  }

  lemma PutRecord(r: Ring, s: Sample)
    requires Placed(r) && IsSample(s) && Length(s.kind) <= PageSpace(r.head)
    ensures Position(Put(r, s).head, |r.mem|)
    ensures Decode(Put(r, s).mem, r.head, Length(s.kind)) == Some([s])
  {
    hide Decode;
    var m := Put(r, s).mem;
    StepArith(r.head, Length(s.kind), |m|);
    assert m[r.head..r.head + 4] == ToLE(s.kind);
    HeaderRoundTrip(s.kind);
    assert m[r.head + HEADER..r.head + Length(s.kind)] == s.payload;
    assert FrameAt(m, r.head) == Some(Frame(Length(s.kind), [s]));
    Unfold(m, r.head, Length(s.kind));
    Unfold(m, Fwd(r.head, Length(s.kind), |m|), 0);
    assert [s] + [] == [s];
  }

  lemma StuffRecord(r: Ring)
    requires Placed(r) && r.head % PAGE != 0
    ensures Position(Stuff(r).head, |r.mem|) && Stuff(r).head % PAGE == 0
    ensures Decode(Stuff(r).mem, r.head, PageSpace(r.head)) == Some([])
  {
    hide Decode;
    var m := Stuff(r).mem;
    PageSpaceArith(r.head);
    StepArith(r.head, PageSpace(r.head), |m|);
    assert m[r.head..r.head + 4] == ToLE(PAD);
    HeaderRoundTrip(PAD);
    assert FrameAt(m, r.head) == Some(Frame(PageSpace(r.head), []));
    Unfold(m, r.head, PageSpace(r.head));
    Unfold(m, Fwd(r.head, PageSpace(r.head), |m|), 0);
    var none: seq<Sample> := [];
    assert none + none == none;
  }

  /** Appending k freshly written bytes at the head, seen from any unread position. */
  lemma Append(r: Ring, m: seq<byte>, k: nat, p: nat)
    requires Placed(r) && Position(p, |r.mem|) && Unread(r, p) && From(r, p).Some?
    requires |m| == |r.mem| && k <= Space(r) && k % 4 == 0
    requires forall i :: 0 <= i < Count(r) ==> m[Fwd(r.tail, i, |m|)] == r.mem[Fwd(r.tail, i, |m|)]
    requires Decode(m, r.head, k).Some?
    ensures Gap(p, Fwd(r.head, k, |m|), |m|) == Gap(p, r.head, |m|) + k
    ensures Decode(m, p, Gap(p, r.head, |m|) + k) == Some(From(r, p).value + Decode(m, r.head, k).value)
  {
    hide FrameAt, Aligned, Decode;
    var n := Gap(p, r.head, |m|);
    var off := Gap(r.tail, p, |m|);
    forall i | 0 <= i < n
      ensures m[Fwd(p, i, |m|)] == r.mem[Fwd(p, i, |m|)]
    {
      FwdFwd(r.tail, off, i, |m|);
    }
    DecodeFrame(r.mem, m, p, n);
    DecodeJoin(m, p, n, k);
  }

  /** What a write does to the stretch from any unread record boundary p to the head:
      the sample is appended, or nothing is. No unread byte changes, and a PAD committed
      before a drop is invisible. */
  lemma WriteAppends(r: Ring, s: Sample, p: nat)
    requires Placed(r) && IsSample(s)
    requires Position(p, |r.mem|) && Unread(r, p) && From(r, p).Some?
    ensures var w := Write(r, s);
      && Placed(w) && |w.mem| == |r.mem| && w.tail == r.tail && Unread(w, p)
      && From(w, p) == Some(From(r, p).value + (if Fits(r, s.kind) then [s] else []))
      && w.items == (if Fits(r, s.kind) then (r.items + 1) % U32 else r.items)
      && Count(r) <= Count(w)
  {
    hide FrameAt, Aligned, Decode, Splice;
    var xs := From(r, p).value;
    assert xs + [] == xs;
    if Length(s.kind) > Space(r) {
    } else if Length(s.kind) > PageSpace(r.head) {
      StuffAppends(r, p);
      StuffRecord(r);
      if Length(s.kind) <= Space(Stuff(r)) {
        PutAppends(Stuff(r), s, p);
      }
    } else {
      PutAppends(r, s, p);
    }
  }

  lemma StuffAppends(r: Ring, p: nat)
    requires Placed(r) && r.head % PAGE != 0 && PageSpace(r.head) <= Space(r)
    requires Position(p, |r.mem|) && Unread(r, p) && From(r, p).Some?
    ensures Placed(Stuff(r)) && Unread(Stuff(r), p) && From(Stuff(r), p) == From(r, p)
    ensures Count(Stuff(r)) == Count(r) + PageSpace(r.head)
  {
    hide FrameAt, Decode;
    PageSpaceArith(r.head);
    StuffRecord(r);
    SpliceUnread(r, ToLE(PAD), PageSpace(r.head));
    Append(r, Stuff(r).mem, PageSpace(r.head), p);
    assert From(r, p).value + [] == From(r, p).value;
  }

  lemma PutAppends(r: Ring, s: Sample, p: nat)
    requires Placed(r) && IsSample(s) && Length(s.kind) <= PageSpace(r.head) && Length(s.kind) <= Space(r)
    requires Position(p, |r.mem|) && Unread(r, p) && From(r, p).Some?
    ensures Placed(Put(r, s)) && Unread(Put(r, s), p) && From(Put(r, s), p) == Some(From(r, p).value + [s])
    ensures Count(Put(r, s)) == Count(r) + Length(s.kind)
  {
    hide FrameAt, Aligned, Decode;
    PutRecord(r, s);
    SpliceUnread(r, Record(s), Length(s.kind));
    Append(r, Put(r, s).mem, Length(s.kind), p);
  }

  /** Unlocked reading is safe: whatever is written, and whether or not it is accepted,
      the bytes between tail and head stay as they are and the head never reaches the tail. */
  lemma WriteKeepsUnread(r: Ring, s: Sample)
    requires Placed(r) && IsSample(s)
    ensures var w := Write(r, s);
      && Placed(w) && |w.mem| == |r.mem| && w.tail == r.tail && Count(r) <= Count(w)
      && (forall i :: 0 <= i < Count(r) ==>
            w.mem[Fwd(r.tail, i, |r.mem|)] == r.mem[Fwd(r.tail, i, |r.mem|)])
      && (w.head == w.tail ==> w == r)
  {
    var total := Length(s.kind);
    if total > Space(r) {
    } else if total > PageSpace(r.head) {
      var stuffed := Stuff(r);
      StuffRecord(r);
      SpliceUnread(r, ToLE(PAD), PageSpace(r.head));
      if total <= Space(stuffed) {
        PutRecord(stuffed, s);
        SpliceUnread(stuffed, Record(s), total);
      }
    } else {
      PutRecord(r, s);
      SpliceUnread(r, Record(s), total);
    }
  }

  /** A sample is dropped only when fewer than 196 bytes were free; EOF exactly when all
      but 4 bytes are in use; and a drained ring takes any sample. */
  lemma WhenDropped(r: Ring, s: Sample)
    requires Placed(r) && IsSample(s)
    ensures !Fits(r, s.kind) ==> Space(r) < 196
    ensures s.kind == EOF ==> (Fits(r, s.kind) <==> Count(r) != |r.mem| - 4)
    ensures Count(r) == 0 ==> Fits(r, s.kind)
  {
    PageSpaceArith(r.head);
    WholeWords(r);
    assert Length(s.kind) % 4 == 0 && 4 <= Length(s.kind) <= 100 && (s.kind == EOF ==> Length(s.kind) == 4);
    DropBounds(Length(s.kind), PageSpace(r.head), Count(r), |r.mem|);
    hide Gap, PageSpace, Length, Known, Aligned;
  }

  lemma DropBounds(len: nat, rest: nat, count: nat, size: nat)
    requires len % 4 == 0 && rest % 4 == 0 && count % 4 == 0 && size % 4 == 0
    requires 4 <= len <= 100 && 4 <= rest <= PAGE && count < size && 2 * PAGE <= size
    ensures var need, space := len + (if len > rest then rest else 0), size - 1 - count;
      && (need > space ==> space < 196)
      && (len == 4 ==> (need <= space <==> count != size - 4))
      && (count == 0 ==> need <= space)
  {
    var l, r, c, n := len / 4, rest / 4, count / 4, size / 4;
    assert len == 4 * l && rest == 4 * r && count == 4 * c && size == 4 * n;
  }

  lemma WholeWords(r: Ring)
    requires Placed(r)
    ensures Count(r) % 4 == 0 && |r.mem| % 4 == 0 && |r.mem| >= 2 * PAGE
  {
    var n := InPages(|r.mem|);
    var t := InWords(r.tail);
    var h := InWords(r.head);
    assert t < n && h < n;
    hide Aligned, Position;
    var k := if t <= h then h - t else h + n - t;
    assert Count(r) == 4 * k;
    hide Gap;
    ModIs(Count(r), 4, k, 0);
    ModIs(|r.mem|, 4, n, 0);
  }

  lemma InWords(x: nat) returns (k: nat)
    requires x % 4 == 0
    ensures x == 4 * k
  {
    k := x / 4;
  }

  lemma InPages(x: nat) returns (k: nat)
    requires Geometry(x)
    ensures x == 4 * k && x >= 2 * PAGE
  {
    k := 1024 * (x / PAGE);
  }
}
