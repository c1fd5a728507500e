/** Sample records as the ring buffer stores them: a 4-byte little-endian type, then the
    C structure of that type (x86-64 layout, trailing padding included). */
module Samples {
  import opened Bits

  type byte = x: int | 0 <= x < 256

  const PMC: nat := 1
  const RAPL: nat := 2
  const CPU: nat := 3
  const SCHED: nat := 4
  const FORK: nat := 5
  const INFO: nat := 6
  const PAD: nat := 7
  const EOF: nat := 8

  const HEADER: nat := 4
  const MAX_RECORD: nat := 100

  /** The types `smon_rb_write` accepts. PAD is the buffer's own filler. */
  predicate Known(kind: nat) {
    1 <= kind <= 6 || kind == EOF
  }

  function PayloadSize(kind: nat): (n: nat)
    ensures n % 4 == 0 && n + HEADER <= MAX_RECORD
    ensures n == 0 <==> kind == EOF || !Known(kind)
  {
    if kind == PMC then 96
    else if kind == RAPL then 40
    else if kind == CPU then 24
    else if kind == SCHED then 24
    else if kind == FORK then 16
    else if kind == INFO then 56
    else 0
  }

  /** The members of a C structure, in order. */
  datatype Fields = Nothing | LongLong(Fields) | Int(Fields) | LongLongs(n: nat, Fields)

  function Structure(kind: nat): Fields {
    if kind == PMC then LongLong(LongLong(LongLong(Int(LongLongs(7, Int(Nothing))))))
    else if kind == RAPL then LongLong(LongLong(LongLongs(3, Nothing)))
    else if kind == CPU then LongLong(Int(Int(Int(Nothing))))
    else if kind == SCHED then LongLong(LongLong(Int(Int(Nothing))))
    else if kind == FORK then LongLong(Int(Int(Nothing)))
    else if kind == INFO then LongLong(Int(Int(LongLong(LongLong(LongLong(Int(Int(Int(Nothing)))))))))
    else Nothing
  }

  /** The 4-byte words of a structure whose members from here on start at word `at`: long
      longs are aligned to two, and so is the whole. */
  function Words(f: Fields, at: nat): nat {
    match f
    case Nothing => at + at % 2
    case LongLong(rest) => Words(rest, at + at % 2 + 2)
    case LongLongs(n, rest) => Words(rest, at + at % 2 + 2 * n)
    case Int(rest) => Words(rest, at + 1)
  }

  /** The accepted types are those of the structures and EOF, and the sizes are theirs. */
  lemma Layout(kind: nat)
    ensures Known(kind) <==> Structure(kind) != Nothing || kind == EOF
    ensures PayloadSize(kind) == 4 * Words(Structure(kind), 0)
  {
    assert Words(Structure(PMC), 0) == 24 && Words(Structure(RAPL), 0) == 10;
    assert Words(Structure(CPU), 0) == 6 && Words(Structure(SCHED), 0) == 6;
    assert Words(Structure(FORK), 0) == 4 && Words(Structure(INFO), 0) == 14;
    hide Words;
  }

  function Length(kind: nat): nat {
    HEADER + PayloadSize(kind)
  }

  datatype Sample = Sample(kind: nat, payload: seq<byte>)

  predicate IsSample(s: Sample) {
    Known(s.kind) && |s.payload| == PayloadSize(s.kind)
  }

  const EOF_SAMPLE := Sample(EOF, [])

  /** A 32-bit word in memory order. */
  function ToLE(x: nat): (b: seq<byte>)
    requires x < U32
    ensures |b| == 4
  {
    [x % 256, x / 256 % 256, x / 65536 % 256, x / 16777216]
  }

  function FromLE(b: seq<byte>): (x: nat)
    requires |b| == 4
    ensures x < U32
  {
    var b0: int, b1: int, b2: int, b3: int := b[0], b[1], b[2], b[3];
    b0 + 256 * b1 + 65536 * b2 + 16777216 * b3
  }

  lemma HeaderRoundTrip(x: nat)
    requires x < U32
    ensures FromLE(ToLE(x)) == x
  {
    assert x / 65536 == x / 256 / 256 && x / 16777216 == x / 256 / 256 / 256;
  }

  function Record(s: Sample): (b: seq<byte>)
    requires IsSample(s)
    ensures |b| == Length(s.kind)
  {
    ToLE(s.kind) + s.payload
  }
}
