/** The kernel's ring buffer, driver/rb.c, with the file operations of driver/main.c that
    gate it. Pages are separate arrays; positions and counts are 32-bit unsigned values. */
module RingBuffer {
  import opened Bits
  import opened Samples
  import opened RingSpec
  import opened RingMasks

  const PAGE_SHIFT: nat := 12

  datatype PollMask = NotReady | PollIn | PollHup

  class KernelRing {
    const nPages: nat
    const size: nat
    const data: seq<array<byte>>
    var head: nat
    var tail: nat
    var items: nat
    var batch: nat
    var active: int

    ghost predicate Mapped()
      reads this, data
    {
      && PageCount(nPages) && size == nPages * PAGE && |data| == nPages
      && (forall i :: 0 <= i < |data| ==> data[i].Length == PAGE)
      && (forall i, j :: 0 <= i < j < |data| ==> data[i] != data[j])
      && Position(head, size) && tail < size && items < U32 && batch < U32
    }

    /** Both ends lie where a header may stand. */
    ghost predicate Valid()
      reads this, data
    {
      Mapped() && Position(tail, size)
    }

    /** The pages as the user maps them, one after the other. */
    ghost function Mem(): (m: seq<byte>)
      requires Mapped()
      reads this, data
      ensures |m| == size
    {
      seq(size, i requires 0 <= i < size && Mapped() reads this, data => data[i / PAGE][i % PAGE])
    }

    /** The ring buffer on flat memory. */
    ghost function View(): (r: Ring)
      requires Valid()
      reads this, data
      ensures Placed(r) && |r.mem| == size
    {
      Ring(Mem(), head, tail, items)
    }

    /** What poll would say now. */
    ghost function Pollable(): PollMask
      requires Valid()
      reads this, data
    {
      if items >= batch then (if active > 0 then PollIn else PollHup)
      else if Count(View()) != 0 && active <= 0 then PollHup
      else NotReady
    }

    /** `smon_create_rb`, for the page counts that reach it through `smon_mmap`. */
    constructor (n: nat)
      requires PageCount(n)
      ensures Valid() && fresh(data) && nPages == n
      ensures head == 0 && tail == 0 && items == 0 && batch == 1 && active == 0
    {
      hide And, Pow2;
      RingStart(n);
      hide PageCount, Position;
      var pages: seq<array<byte>> := [];
      while |pages| < n
        invariant |pages| <= n
        invariant forall i :: 0 <= i < |pages| ==> pages[i].Length == PAGE && fresh(pages[i])
        invariant forall i, j :: 0 <= i < j < |pages| ==> pages[i] != pages[j]
        invariant fresh(pages)
      {
        var page := new byte[PAGE];
        pages := pages + [page];
      }
      nPages := n;
      size := n * PAGE;
      data := pages;
      head, tail, items, batch, active := 0, 0, 0, 1, 0;
    }

    method HeadPage() returns (page: nat, offset: nat)
      requires Valid()
      ensures page == head / PAGE < nPages && offset == head % PAGE
    {
      page := head / Pow2(PAGE_SHIFT);
      offset := And(head, PAGE - 1);
      Pow2Values();
      OffsetMask(head);
      assert page < nPages;
    }

    method RbCount() returns (n: nat)
      requires Valid()
      ensures n == Count(View())
    {
      n := And((head - tail) % U32, size - 1);
      CountMask(head, tail, nPages);
    }

    method RbSpace() returns (n: nat)
      requires Valid()
      ensures n == Space(View())
    {
      n := And((tail - (head + 1)) % U32, size - 1);
      SpaceMask(head, tail, nPages);
    }

    /** memcpy into one page. */
    method Copy(page: nat, offset: nat, src: seq<byte>)
      requires Valid() && page < nPages && offset + |src| <= PAGE
      modifies data[page]
      ensures Valid() && page * PAGE + offset + |src| <= size
      ensures Mem() == Splice(old(Mem()), page * PAGE + offset, src)
    {
      ghost var was, at := Mem(), page * PAGE + offset;
      PageOf(page, offset + |src|, nPages);
      forall i | 0 <= i < |src| {
        data[page][offset + i] := src[i];
      }
      forall i | 0 <= i < size
        ensures Mem()[i] == Splice(was, at, src)[i]
      {
        assert i == PAGE * (i / PAGE) + i % PAGE;
        if i / PAGE != page {
          Apart(i / PAGE, i % PAGE, page, offset, |src|);
        }
      }
    }

    /** `smon_rb_stuff_page`. */
    method StuffPage()
      requires Valid() && head % PAGE != 0
      modifies this`head, data
      ensures Valid() && View() == Stuff(old(View()))
    {
      hide And, Or, Splice, Fwd, ToLE, Pow2, PageCount;
      var page, offset := HeadPage();
      PageSpaceArith(head);
      NextPageMask(head, nPages);
      StepArith(head, PageSpace(head), size);
      assert offset + HEADER <= PAGE;
      StampPad(page, offset);
      head := And(page + 1, nPages - 1) * Pow2(PAGE_SHIFT);
      Pow2Values();
    }

    /** The PAD header. */
    method StampPad(page: nat, offset: nat)
      requires Valid() && page == head / PAGE && offset == head % PAGE && offset + HEADER <= PAGE
      modifies data
      ensures Valid() && head + HEADER <= size && Mem() == Splice(old(Mem()), head, ToLE(PAD))
    {
      hide And, Or, Splice, Fwd;
      assert head == page * PAGE + offset && page < nPages;
      Copy(page, offset, ToLE(PAD));
    }

    /** `smon_rb_write`: `wake` tells whether the reader is to be woken. */
    method Write(kind: nat, sample: seq<byte>) returns (wake: bool)
      requires Valid() && (Known(kind) ==> |sample| == PayloadSize(kind))
      modifies this`head, this`items, data
      ensures Valid()
      ensures Known(kind) ==> View() == RingSpec.Write(old(View()), Sample(kind, sample))
      ensures !Known(kind) ==> View() == old(View())
      ensures wake <==> Known(kind) && Fits(old(View()), kind) && items >= batch
      ensures active > 0 && old(Pollable()) == NotReady && Pollable() != NotReady ==> wake
    {
      if !Known(kind) {
        return false;
      }
      ghost var s := Sample(kind, sample);
      ghost var was := View();
      var total := PayloadSize(kind) + HEADER;
      var space := RbSpace();
      if total > space {
        return false;
      }
      if total > PAGE - And(head, PAGE - 1) {
        OffsetMask(head);
        StuffPage();
        StuffRecord(was);
        space := RbSpace();
        if total > space {
          NotFitted(was, kind);
          return false;
        }
      }
      OffsetMask(head);
      ghost var r := View();
      assert total <= PageSpace(r.head) && total <= Space(r);
      Fitted(was, r, kind);
      wake := PutSample(kind, sample);
    }

    /** The two memcpy calls: header, then payload. */
    method CopyRecord(kind: nat, sample: seq<byte>)
      requires Valid() && Known(kind) && |sample| == PayloadSize(kind)
      requires Length(kind) <= PageSpace(head)
      modifies data
      ensures Valid() && head + Length(kind) <= size
      ensures Mem() == Splice(old(Mem()), head, Record(Sample(kind, sample)))
    {
      hide And, Or, Splice, ToLE, Fwd, Pow2, PageCount;
      var page, offset := HeadPage();
      PageOf(page, offset + Length(kind), nPages);
      SpliceTwice(Mem(), head, ToLE(kind), sample);
      Copy(page, offset, ToLE(kind));
      if |sample| > 0 {
        Copy(page, offset + HEADER, sample);
      } else {
        SpliceNone(Mem(), head + HEADER);
      }
    }

    method PutSample(kind: nat, sample: seq<byte>) returns (wake: bool)
      requires Valid() && Known(kind) && |sample| == PayloadSize(kind)
      requires Length(kind) <= PageSpace(head)
      modifies this`head, this`items, data
      ensures Valid() && View() == Put(old(View()), Sample(kind, sample))
      ensures wake <==> items >= batch
    {
      hide And, Or, Splice, Record;
      StepArith(head, Length(kind), size);
      TrimMask(head, Length(kind), nPages);
      CopyRecord(kind, sample);
      head := head + Length(kind);
      head := And(head, Or((nPages - 1) * PAGE, PAGE - 1));
      items := (items + 1) % U32;
      wake := items >= batch;
    }

    /** `smon_rb_read`, the effect of SMON_IOCREAD. A tool that reads whole records leaves the
        tail where a header may stand; the kernel does not check. */
    method Read(n: nat, sz: nat)
      requires Valid() && n < U32 && sz < U32
      modifies this`tail, this`items
      ensures Mapped() && Mem() == old(Mem()) && head == old(head)
      ensures Valid() <==> sz > Count(old(View())) || sz % 4 == 0
      ensures tail == if sz > Count(old(View())) then head else Fwd(old(tail), sz, size)
      ensures items == if n > old(items) then 0 else old(items) - n
    {
      hide And, Or;
      var count := RbCount();
      if sz > count {
        tail := head;
      } else {
        FwdAligned(tail, sz, size);
        TrimMask(tail, sz, nPages);
        tail := (tail + sz) % U32;
        tail := And(tail, Or((nPages - 1) * PAGE, PAGE - 1));
      }
      if n > items {
        items := 0;
      } else {
        items := items - n;
      }
    }

    /** `smon_get_rb`. */
    method Get()
      requires Valid()
      modifies this`active
      ensures Valid() && active == old(active) + 1 && View() == old(View())
    {
      active := active + 1;
    }

    /** `smon_release_rb`: the last holder leaves the end-of-file mark. */
    method Release() returns (wake: bool)
      requires Valid()
      modifies this`active, this`head, this`items, data
      ensures Valid() && active == old(active) - 1
      ensures View() == if active == 0 then RingSpec.Write(old(View()), EOF_SAMPLE) else old(View())
      ensures wake <==> active == 0
      ensures old(Pollable()) == NotReady && Pollable() != NotReady ==> wake
    {
      hide RingSpec.Write, And, Or;
      active := active - 1;
      assert View() == old(View());
      wake := active == 0;
      if wake {
        var _ := Write(EOF, []);
      }
    }

    /** `smon_poll` on a mapped ring. */
    method Poll() returns (mask: PollMask)
      requires Valid()
      ensures mask == Pollable()
      ensures mask == PollIn <==> items >= batch && active > 0
      ensures mask == PollHup <==> active <= 0 && (items >= batch || Count(View()) != 0)
    {
      mask := NotReady;
      var count := RbCount();
      if items >= batch {
        if active > 0 {
          mask := PollIn;
        } else {
          mask := PollHup;
        }
      } else if count != 0 && !(active > 0) {
        mask := PollHup;
      }
    }
  }

  /** `smon_mmap`: the mapping succeeds exactly for 2, 4, ..., 1024 pages. */
  method Mmap(n: nat) returns (rb: KernelRing?)
    ensures rb != null <==> exists j: nat :: 1 <= j <= 10 && n == Pow2(j)
    ensures rb != null ==> rb.Valid() && rb.nPages == n && rb.head == rb.tail
  {
    hide And, Pow2, KernelRing.Mem;
    rb := null;
    PageCounts(n);
    if n >= 2 && IsPowerOf2(n) && n <= MAX_PAGES {
      rb := new KernelRing(n);
    }
  }

  lemma RingStart(n: nat)
    requires PageCount(n)
    ensures Position(0, n * PAGE)
  {
    var j := PageExponent(n);
  }

  lemma PageOf(page: nat, upto: nat, n: nat)
    requires page < n && upto <= PAGE
    ensures page * PAGE + upto <= n * PAGE
  {
  }

  lemma Apart(page: nat, at: nat, other: nat, offset: nat, k: nat)
    requires page != other && at < PAGE && offset + k <= PAGE
    ensures !(other * PAGE + offset <= PAGE * page + at < other * PAGE + offset + k)
  {
  }

  lemma FwdAligned(p: nat, k: nat, size: nat)
    requires Position(p, size) && k <= size
    ensures Position(Fwd(p, k, size), size) <==> k % 4 == 0
  {
  }

  lemma SpliceTwice(m: seq<byte>, at: nat, a: seq<byte>, b: seq<byte>)
    requires at + |a| + |b| <= |m|
    ensures Splice(Splice(m, at, a), at + |a|, b) == Splice(m, at, a + b)
  {
  }

  lemma SpliceNone(m: seq<byte>, at: nat)
    requires at <= |m|
    ensures Splice(m, at, []) == m
  {
  }

  lemma NotFitted(r: Ring, kind: nat)
    requires Placed(r) && Known(kind) && PageSpace(r.head) < Length(kind) <= Space(r)
    requires Placed(Stuff(r)) && Length(kind) > Space(Stuff(r))
    ensures !Fits(r, kind)
  {
  }

  lemma Fitted(r: Ring, w: Ring, kind: nat)
    requires Placed(r) && Placed(w) && Known(kind) && Length(kind) <= Space(r) && Length(kind) <= Space(w)
    requires w == if Length(kind) > PageSpace(r.head) then Stuff(r) else r
    ensures Fits(r, kind)
  {
  }
}
