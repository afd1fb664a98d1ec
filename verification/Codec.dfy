/** The chunk stream on the wire: its layout, its decoder, and what truncation and cancelling leave. */
module Codec {
  type byte = b: int | 0 <= b < 256

  const CHUNK_SIZE: nat := 4 * 1024 * 1024
  const BLOCK_SIZE: nat := CHUNK_SIZE + 5

  function Zeros(n: nat): (r: seq<byte>)
    ensures |r| == n
    ensures forall i :: 0 <= i < n ==> r[i] == 0
  {
    seq(n, _ => 0)
  }

  // ----- control frames

  /** Big-endian size and one byte for `has_more`. */
  function Frame(size: nat, more: bool): (r: seq<byte>)
    requires size < 0x1_0000_0000
    ensures |r| == 5
  {
    [size / 0x100_0000, size / 0x1_0000 % 256, size / 256 % 256, size % 256, if more then 1 else 0]
  }

  function FromBigEndian(a: byte, b: byte, c: byte, d: byte): nat {
    a * 0x100_0000 + b * 0x1_0000 + c * 256 + d
  }

  lemma FrameDecodes(size: nat, more: bool)
    requires size < 0x1_0000_0000
    ensures var f := Frame(size, more);
            FromBigEndian(f[0], f[1], f[2], f[3]) == size && (f[4] != 0 <==> more)
  {
    assert size / 0x1_0000 == 256 * (size / 0x100_0000) + size / 0x1_0000 % 256;
    assert size / 256 == 256 * (size / 0x1_0000) + size / 256 % 256;
  }

  /** The five bytes: the size, most significant byte first, then 1 or 0. */
  lemma FrameBytes(size: nat, more: bool)
    requires size < 4294967296
    ensures var f := Frame(size, more);
            size == f[0] as int * 16777216 + f[1] as int * 65536 + f[2] as int * 256 + f[3] as int
            && f[4] == (if more then 1 else 0)
  {
    FrameDecodes(size, more);
  }

  /** A chunk is 4 MiB, a block five bytes more; there are as few blocks as hold the data, but at least one. */
  lemma Sizes(n: nat)
    ensures CHUNK_SIZE == 4194304 && BLOCK_SIZE == 4194309
    ensures 1 <= BlockCount(n) && n <= 4194304 * BlockCount(n)
    ensures BlockCount(n) == 1 || 4194304 * (BlockCount(n) - 1) < n
  {
  }

  // ----- the encoder's output

  /** One chunk, zero-padded, and its control frame. */
  function Block(payload: seq<byte>, more: bool): (r: seq<byte>)
    requires |payload| <= CHUNK_SIZE
    ensures |r| == BLOCK_SIZE
  {
    payload + Zeros(CHUNK_SIZE - |payload|) + Frame(|payload|, more)
  }

  /** max(1, ceil(n / CHUNK_SIZE)) */
  function BlockCount(n: nat): nat {
    if n == 0 then 1 else (n + CHUNK_SIZE - 1) / CHUNK_SIZE
  }

  /** Where chunk k starts, or the end of the data. */
  function Offset(data: seq<byte>, k: nat): (r: nat)
    ensures r <= |data|
  {
    if k * CHUNK_SIZE <= |data| then k * CHUNK_SIZE else |data|
  }

  function Payload(data: seq<byte>, k: nat): (r: seq<byte>)
    ensures |r| <= CHUNK_SIZE
  {
    data[Offset(data, k)..Offset(data, k + 1)]
  }

  predicate More(data: seq<byte>, k: nat) {
    k + 1 < BlockCount(|data|)
  }

  /** The first k blocks of the stream. */
  function Blocks(data: seq<byte>, k: nat): (r: seq<byte>)
    ensures |r| == k * BLOCK_SIZE
  {
    if k == 0 then [] else Blocks(data, k - 1) + Block(Payload(data, k - 1), More(data, k - 1))
  }

  function Wire(data: seq<byte>): seq<byte> {
    Blocks(data, BlockCount(|data|))
  }

  ghost predicate BlockAt(wire: seq<byte>, k: nat, b: seq<byte>) {
    (k + 1) * BLOCK_SIZE <= |wire| && wire[k * BLOCK_SIZE..(k + 1) * BLOCK_SIZE] == b
  }

  lemma BlockAtPrefix(wire: seq<byte>, more: seq<byte>, k: nat, b: seq<byte>)
    requires BlockAt(wire, k, b)
    ensures BlockAt(wire + more, k, b)
  {
    SliceOfPrefix(wire, more, k * BLOCK_SIZE, (k + 1) * BLOCK_SIZE);
  }

  lemma BlockAtEnd(wire: seq<byte>, k: nat, b: seq<byte>)
    requires |wire| == k * BLOCK_SIZE && |b| == BLOCK_SIZE
    ensures BlockAt(wire + b, k, b)
  {
  }

  /** Block k of the wire holds chunk k, zero padding, the chunk's size, and `has_more` unless it is last. */
  lemma {:induction false} WireLayout(data: seq<byte>, n: nat, k: nat)
    requires k < n
    ensures BlockAt(Blocks(data, n), k, Block(Payload(data, k), More(data, k)))
  {
    var last := Block(Payload(data, n - 1), More(data, n - 1));
    BlocksStep(data, n - 1);
    if k < n - 1 {
      WireLayout(data, n - 1, k);
      BlockAtPrefix(Blocks(data, n - 1), last, k, Block(Payload(data, k), More(data, k)));
    } else {
      BlockAtEnd(Blocks(data, n - 1), k, last);
    }
  }

  lemma SliceOfPrefix<T>(a: seq<T>, b: seq<T>, i: nat, j: nat)
    requires i <= j <= |a|
    ensures (a + b)[i..j] == a[i..j]
  {
  }

  lemma {:induction false} BlocksPrefix(data: seq<byte>, j: nat, k: nat)
    requires j <= k
    ensures Blocks(data, j) <= Blocks(data, k)
  {
    if j < k {
      BlocksPrefix(data, j, k - 1);
    }
  }

  lemma ShiftChunk(data: seq<byte>, k: nat)
    requires |data| > CHUNK_SIZE
    ensures Payload(data, k + 1) == Payload(data[CHUNK_SIZE..], k)
    ensures More(data, k + 1) == More(data[CHUNK_SIZE..], k)
    ensures BlockCount(|data|) == BlockCount(|data| - CHUNK_SIZE) + 1
  {
    var rest := data[CHUNK_SIZE..];
    assert Offset(data, k + 1) == Offset(rest, k) + CHUNK_SIZE;
    assert Offset(data, k + 2) == Offset(rest, k + 1) + CHUNK_SIZE;
  }

  lemma Associative<T>(a: seq<T>, b: seq<T>, c: seq<T>)
    ensures (a + b) + c == a + (b + c)
  {
  }

  lemma BlocksStep(data: seq<byte>, k: nat)
    ensures Blocks(data, k + 1) == Blocks(data, k) + Block(Payload(data, k), More(data, k))
  {
  }

  ghost predicate Shifted(first: seq<byte>, data: seq<byte>, tail: seq<byte>, k: nat) {
    Blocks(data, k + 1) == first + Blocks(tail, k)
  }

  lemma ShiftOne(data: seq<byte>, k: nat, first: seq<byte>)
    requires |data| > CHUNK_SIZE && Shifted(first, data, data[CHUNK_SIZE..], k)
    ensures Shifted(first, data, data[CHUNK_SIZE..], k + 1)
  {
    var tail := data[CHUNK_SIZE..];
    ShiftChunk(data, k);
    BlocksStep(data, k + 1);
    BlocksStep(tail, k);
    Associative(first, Blocks(tail, k), Block(Payload(data, k + 1), More(data, k + 1)));
  }

  lemma ShiftFirst(data: seq<byte>)
    requires |data| > CHUNK_SIZE
    ensures Shifted(Block(data[..CHUNK_SIZE], true), data, data[CHUNK_SIZE..], 0)
  {
    FirstBlock(data);
    FirstChunk(data);
  }

  lemma {:induction false} ShiftBlocks(data: seq<byte>, k: nat, first: seq<byte>)
    requires |data| > CHUNK_SIZE && Shifted(first, data, data[CHUNK_SIZE..], 0)
    ensures Shifted(first, data, data[CHUNK_SIZE..], k)
  {
    if k > 0 {
      ShiftBlocks(data, k - 1, first);
      ShiftOne(data, k - 1, first);
    }
  }

  lemma CountBounds(n: nat)
    ensures n <= CHUNK_SIZE ==> BlockCount(n) == 1
    ensures n > CHUNK_SIZE ==> BlockCount(n) == BlockCount(n - CHUNK_SIZE) + 1 >= 2
    ensures (BlockCount(n) - 1) * CHUNK_SIZE <= n <= BlockCount(n) * CHUNK_SIZE
    ensures n > 0 ==> (BlockCount(n) - 1) * CHUNK_SIZE < n
  {
  }

  lemma FirstBlock(data: seq<byte>)
    ensures Blocks(data, 1) == Block(Payload(data, 0), More(data, 0))
  {
    BlocksStep(data, 0);
    assert Blocks(data, 0) == [];
  }

  lemma FirstChunk(data: seq<byte>)
    ensures |data| <= CHUNK_SIZE ==> Payload(data, 0) == data && !More(data, 0)
    ensures |data| > CHUNK_SIZE ==> Payload(data, 0) == data[..CHUNK_SIZE] && More(data, 0)
  {
    CountBounds(|data|);
  }

  /** The wire, chunk by chunk from the front. */
  lemma WireUnfold(data: seq<byte>)
    ensures |data| <= CHUNK_SIZE ==> Wire(data) == Block(data, false)
    ensures |data| > CHUNK_SIZE ==> Wire(data) == Block(data[..CHUNK_SIZE], true) + Wire(data[CHUNK_SIZE..])
  {
    CountBounds(|data|);
    if |data| <= CHUNK_SIZE {
      FirstBlock(data);
      FirstChunk(data);
    } else {
      ShiftFirst(data);
      ShiftBlocks(data, BlockCount(|data|) - 1, Block(data[..CHUNK_SIZE], true));
    }
  }

  // ----- the decoder

  /** How the reader's loop ends: last block seen, cancelled, out of input, or a chunk slice out of range. */
  datatype End = Complete | Stopped | Truncated | OutOfRange

  datatype Decoded = Decoded(out: seq<byte>, rest: seq<byte>, end: End)

  /** What the reader makes of `wire`; `stop(k)` is the cancel flag as loaded after block k. */
  function Decode(wire: seq<byte>, k: nat, stop: nat -> bool): Decoded
    decreases |wire|
  {
    if |wire| < BLOCK_SIZE then Decoded([], [], Truncated)
    else
      var f := wire[CHUNK_SIZE..BLOCK_SIZE];
      var size := FromBigEndian(f[0], f[1], f[2], f[3]);
      var rest := wire[BLOCK_SIZE..];
      if size > CHUNK_SIZE then Decoded([], rest, OutOfRange)
      else if f[4] == 0 then Decoded(wire[..size], rest, Complete)
      else if stop(k) then Decoded(wire[..size], rest, Stopped)
      else
        var d := Decode(rest, k + 1, stop);
        d.(out := wire[..size] + d.out)
  }

  const NEVER: nat -> bool := _ => false

  lemma DecodeBlock(payload: seq<byte>, more: bool, rest: seq<byte>, k: nat, stop: nat -> bool)
    requires |payload| <= CHUNK_SIZE
    ensures Decode(Block(payload, more) + rest, k, stop)
         == if !more then Decoded(payload, rest, Complete)
            else if stop(k) then Decoded(payload, rest, Stopped)
            else var d := Decode(rest, k + 1, stop); d.(out := payload + d.out)
  {
    var b := Block(payload, more);
    var wire := b + rest;
    assert wire[CHUNK_SIZE..BLOCK_SIZE] == Frame(|payload|, more);
    assert wire[BLOCK_SIZE..] == rest;
    assert wire[..|payload|] == payload;
    FrameDecodes(|payload|, more);
  }

  /** The possible results of reading a whole wire: all of the source, or, if cancelled, a whole number
      of chunks short of it. */
  ghost predicate ReadsWhole(d: Decoded, data: seq<byte>, rest: seq<byte>) {
    || (d.end == Complete && d.out == data && d.rest == rest)
    || (d.end == Stopped && d.out < data && |d.out| % CHUNK_SIZE == 0 && |d.out| > 0)
  }

  lemma ReadsWholeStep(d: Decoded, data: seq<byte>, rest: seq<byte>)
    requires |data| > CHUNK_SIZE && ReadsWhole(d, data[CHUNK_SIZE..], rest)
    ensures ReadsWhole(d.(out := data[..CHUNK_SIZE] + d.out), data, rest)
  {
    assert data == data[..CHUNK_SIZE] + data[CHUNK_SIZE..];
  }

  /** Whatever follows the stream stays unread, and exactly the source comes out unless cancelled. */
  lemma {:induction false} DecodeWire(data: seq<byte>, rest: seq<byte>, k: nat, stop: nat -> bool)
    ensures ReadsWhole(Decode(Wire(data) + rest, k, stop), data, rest)
    decreases |data|
  {
    WireUnfold(data);
    if |data| <= CHUNK_SIZE {
      DecodeBlock(data, false, rest, k, stop);
    } else {
      var head, tail := data[..CHUNK_SIZE], data[CHUNK_SIZE..];
      Associative(Block(head, true), Wire(tail), rest);
      DecodeBlock(head, true, Wire(tail) + rest, k, stop);
      DecodeWire(tail, rest, k + 1, stop);
      ReadsWholeStep(Decode(Wire(tail) + rest, k + 1, stop), data, rest);
    }
  }

  lemma {:induction false} NeverStops(wire: seq<byte>, k: nat)
    ensures Decode(wire, k, NEVER).end != Stopped
    decreases |wire|
  {
    if |wire| >= BLOCK_SIZE {
      NeverStops(wire[BLOCK_SIZE..], k + 1);
    }
  }

  /** Reading back what was written gives the source and leaves what follows it. */
  lemma RoundTrip(data: seq<byte>, rest: seq<byte>)
    ensures Decode(Wire(data) + rest, 0, NEVER) == Decoded(data, rest, Complete)
  {
    DecodeWire(data, rest, 0, NEVER);
    NeverStops(Wire(data) + rest, 0);
  }

  /** The possible results of reading a cut wire: an error or a stop, after whole chunks only. */
  ghost predicate ReadsCut(d: Decoded, data: seq<byte>) {
    (d.end == Truncated || d.end == Stopped) && d.out <= data && |d.out| % CHUNK_SIZE == 0
  }

  lemma ReadsCutStep(d: Decoded, data: seq<byte>)
    requires |data| > CHUNK_SIZE && ReadsCut(d, data[CHUNK_SIZE..])
    ensures ReadsCut(d.(out := data[..CHUNK_SIZE] + d.out), data)
  {
    assert data == data[..CHUNK_SIZE] + data[CHUNK_SIZE..];
  }

  lemma CutAfter(head: seq<byte>, tail: seq<byte>, cut: nat)
    requires |head| <= cut <= |head + tail|
    ensures (head + tail)[..cut] == head + tail[..cut - |head|]
  {
  }

  /** A stream cut anywhere is never taken for a whole one. */
  lemma {:induction false} TruncationDetected(data: seq<byte>, cut: nat, k: nat, stop: nat -> bool)
    requires cut < |Wire(data)|
    ensures ReadsCut(Decode(Wire(data)[..cut], k, stop), data)
    decreases |data|
  {
    WireUnfold(data);
    if cut >= BLOCK_SIZE {
      var head, tail := data[..CHUNK_SIZE], data[CHUNK_SIZE..];
      CutAfter(Block(head, true), Wire(tail), cut);
      DecodeBlock(head, true, Wire(tail)[..cut - BLOCK_SIZE], k, stop);
      TruncationDetected(tail, cut - BLOCK_SIZE, k + 1, stop);
      ReadsCutStep(Decode(Wire(tail)[..cut - BLOCK_SIZE], k + 1, stop), data);
    }
  }

  /** Two different sources never share a wire. */
  lemma WireInjective(a: seq<byte>, b: seq<byte>)
    requires Wire(a) == Wire(b)
    ensures a == b
  {
    RoundTrip(a, []);
    RoundTrip(b, []);
  }
}
