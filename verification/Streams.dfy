/** The stream writer and readers as they run: short reads, two swapped buffers, look-ahead, throttle,
    cancel checks, and I/O that can fail at any call. */
module Streams {
  import opened Wrappers
  import opened Codec

  datatype CodecError = Io | Cancelled | Panic

  /** A progress call: payload bytes so far, the size estimate, and the time of the call. */
  datatype Report = Report(bytes: nat, total: nat, at: real)

  /** b with x written over it from place `off` on. */
  function Spliced(b: seq<byte>, off: nat, x: seq<byte>): seq<byte>
    requires off + |x| <= |b|
  {
    b[..off] + x + b[off + |x|..]
  }

  /** The outside world of one transfer. Calls may take time, give fewer bytes than asked, and fail. */
  class Transfer {
    var source: seq<byte>      // what the source still gives before end of file
    var sink: seq<byte>        // what the destination has taken
    var clock: real
    var cancelled: bool
    var reports: seq<Report>
    ghost var offers: seq<Report>  // payload handed to the destination, at the start of each chunk
    ghost var faults: nat          // I/O failures so far

    /** Some time passes, at least d. */
    method Pass(d: real)
      modifies this`clock
      ensures clock >= old(clock) + d && clock >= old(clock)
    {
      var extra: real := *;
      clock := clock + (if d > 0.0 then d else 0.0) + (if extra > 0.0 then extra else 0.0);
    }

    /** One read: any positive number of the bytes that fit, or 0 at end of file. */
    method Read(buf: array<byte>, off: nat) returns (r: Result<nat, CodecError>)
      requires off <= buf.Length
      modifies this`source, this`clock, this`faults, buf
      ensures clock >= old(clock)
      ensures r.Ok? ==> faults == old(faults) && r.value <= buf.Length - off && r.value <= |old(source)|
      ensures r.Ok? ==> (r.value == 0 <==> off == buf.Length || old(source) == [])
      ensures r.Ok? ==> source == old(source)[r.value..]
      ensures r.Ok? ==> buf[..] == Spliced(old(buf[..]), off, old(source)[..r.value])
      ensures r.Err? ==> r.error == Io && faults > old(faults) && source == old(source) && buf[..] == old(buf[..])
    {
      Pass(0.0);
      if * {
        faults := faults + 1;
        return Err(Io);
      }
      var room := buf.Length - off;
      var most: nat := if |source| < room then |source| else room;
      var n: nat := 0;
      if most > 0 {
        n :| 0 < n <= most;
      }
      forall i | 0 <= i < n {
        buf[off + i] := source[i];
      }
      source := source[n..];
      return Ok(n);
    }

    /** Hand over all of b; a failure may leave any part of it with the destination. */
    method WriteAll(b: seq<byte>) returns (r: Result<(), CodecError>)
      modifies this`sink, this`clock, this`faults
      ensures clock >= old(clock)
      ensures r.Ok? ==> faults == old(faults) && sink == old(sink) + b
      ensures r.Err? ==>
        r.error == Io && faults > old(faults) && exists n :: 0 <= n <= |b| && sink == old(sink) + b[..n]
    {
      Pass(0.0);
      if * {
        var n :| 0 <= n <= |b|;
        sink := sink + b[..n];
        faults := faults + 1;
        return Err(Io);
      }
      sink := sink + b;
      return Ok(());
    }

    /** The flag may be raised at any time and stays raised. */
    method IsCancelled() returns (r: bool)
      modifies this`cancelled
      ensures r == cancelled && (old(cancelled) ==> cancelled)
    {
      if * {
        cancelled := true;
      }
      return cancelled;
    }
  }

  method FillZero(buf: array<byte>, from: nat)
    requires from <= buf.Length
    modifies buf
    ensures buf[..] == old(buf[..from]) + Zeros(buf.Length - from)
  {
    forall i | from <= i < buf.Length {
      buf[i] := 0;
    }
  }

  /** The first `total` places hold what was read of `data`, the rest what the buffer held before. */
  predicate Filled(buf: seq<byte>, was: seq<byte>, data: seq<byte>, source: seq<byte>, total: nat) {
    && total <= |was| == |buf| && total <= |data| && source == data[total..]
    && (forall i :: 0 <= i < total ==> buf[i] == data[i]) && (forall i :: total <= i < |buf| ==> buf[i] == was[i])
  }

  lemma FilledMore(b: seq<byte>, b': seq<byte>, was: seq<byte>, data: seq<byte>, source: seq<byte>, source': seq<byte>,
                   total: nat, n: nat)
    requires Filled(b, was, data, source, total) && n <= |source| && n <= |b| - total
    requires source' == source[n..] && b' == Spliced(b, total, source[..n])
    ensures Filled(b', was, data, source', total + n)
  {
  }

  method ReadExactOrEof(io: Transfer, buf: array<byte>) returns (r: Result<nat, CodecError>)
    modifies io`source, io`clock, io`faults, buf
    ensures io.clock >= old(io.clock)
    ensures r.Ok? ==> io.faults == old(io.faults)
    ensures r.Ok? ==> r.value == if |old(io.source)| < buf.Length then |old(io.source)| else buf.Length
    ensures r.Ok? ==> Filled(buf[..], old(buf[..]), old(io.source), io.source, r.value)
    ensures r.Err? ==> r.error == Io && io.faults > old(io.faults)
  {
    var total := 0;
    ghost var was := buf[..];
    while total < buf.Length
      invariant Filled(buf[..], was, old(io.source), io.source, total)
      invariant io.clock >= old(io.clock) && io.faults == old(io.faults)
    {
      ghost var part, left := buf[..], io.source;
      var n := io.Read(buf, total);
      if n.Err? {
        return n;
      }
      if n.value == 0 {
        break;
      }
      FilledMore(part, buf[..], was, old(io.source), left, io.source, total, n.value);
      total := total + n.value;
    }
    return Ok(total);
  }

  method MakeFrame(actualSize: nat, hasMore: bool) returns (frame: array<byte>)
    requires actualSize < 0x1_0000_0000
    ensures fresh(frame) && frame[..] == Frame(actualSize, hasMore)
  {
    frame := new byte[5](_ => 0);
    frame[0], frame[1] := actualSize / 0x100_0000, actualSize / 0x1_0000 % 256;
    frame[2], frame[3] := actualSize / 256 % 256, actualSize % 256;
    frame[4] := if hasMore then 1 else 0;
  }

  // ----- the writer

  /** The look-ahead sees another chunk exactly when chunk k is not the last. */
  lemma LookAhead(data: seq<byte>, k: nat)
    requires k < BlockCount(|data|)
    ensures Offset(data, k) == k * CHUNK_SIZE
    ensures More(data, k) <==> Offset(data, k + 1) < |data|
    ensures More(data, k) ==> Offset(data, k + 1) == Offset(data, k) + CHUNK_SIZE
    ensures !More(data, k) ==> Offset(data, k + 1) == |data| <= Offset(data, k) + CHUNK_SIZE
  {
    CountBounds(|data|);
  }

  lemma Finished(data: seq<byte>, k: nat)
    requires 0 < k <= BlockCount(|data|) && !More(data, k - 1)
    ensures k == BlockCount(|data|) && Blocks(data, k) == Wire(data) && data[Offset(data, k + 1)..] == []
  {
    CountBounds(|data|);
  }

  lemma RateBound(bytes: nat, rate: nat, elapsed: real)
    requires rate > 0 && bytes as real / rate as real <= elapsed
    ensures bytes as real <= rate as real * elapsed
  {
    var r := rate as real;
    assert bytes as real == r * (bytes as real / r);
    Scale(r, bytes as real / r, elapsed);
  }

  lemma Scale(r: real, a: real, b: real)
    requires r >= 0.0 && a <= b
    ensures r * a <= r * b
  {
  }

  /** At `at`, at most `rate` bytes per second since `start`, and `slack` more. */
  ghost predicate WithinRate(rate: Option<nat>, start: real, o: Report, slack: nat) {
    rate.Some? ==> o.bytes as real <= rate.value as real * (o.at - start) + slack as real
  }

  /** `log` extends `from` by one entry for each of the first k chunks, with the payload up to and
      including that chunk, each within the rate. */
  ghost predicate Logged(log: seq<Report>, from: seq<Report>, data: seq<byte>, k: nat, rate: Option<nat>, start: real,
                         slack: nat)
  {
    && |log| == |from| + k && log[..|from|] == from
    && forall i :: |from| <= i < |log| ==>
      log[i].bytes == Offset(data, i - |from| + 1) && WithinRate(rate, start, log[i], slack)
  }

  lemma LogOne(log: seq<Report>, from: seq<Report>, data: seq<byte>, k: nat, rate: Option<nat>, start: real,
               slack: nat, o: Report)
    requires Logged(log, from, data, k, rate, start, slack)
    requires o.bytes == Offset(data, k + 1) && WithinRate(rate, start, o, slack)
    ensures Logged(log + [o], from, data, k + 1, rate, start, slack)
  {
  }

  /** Progress values rise strictly, to the length of the data. */
  lemma ProgressRises(data: seq<byte>, j: nat, k: nat)
    requires 0 < j < k <= BlockCount(|data|)
    ensures Offset(data, j) < Offset(data, k) && Offset(data, BlockCount(|data|)) == |data|
  {
    CountBounds(|data|);
  }

  lemma LogNone(log: seq<Report>, data: seq<byte>, rate: Option<nat>, start: real, slack: nat)
    ensures Logged(log, log, data, 0, rate, start, slack)
  {
  }

  /** The token bucket: wait until the payload sent so far fits the rate. A rate of 0 makes the wait infinite,
      or not a number, and converting it to a duration panics. */
  method Throttle(io: Transfer, rate: Option<nat>, start: real, bytesSent: nat) returns (r: Result<(), CodecError>)
    modifies io`clock
    ensures io.clock >= old(io.clock)
    ensures r == if rate == Some(0) then Err(Panic) else Ok(())
    ensures r.Ok? ==> forall o: Report :: o.bytes == bytesSent && o.at == io.clock ==> WithinRate(rate, start, o, 0)
  {
    if rate.Some? {
      if rate.value == 0 {
        return Err(Panic);
      }
      var expected := bytesSent as real / rate.value as real;
      var elapsed := io.clock - start;
      if expected >= elapsed {
        io.Pass(expected - elapsed);
      }
      RateBound(bytesSent, rate.value, io.clock - start);
    }
    return Ok(());
  }

  lemma OneMore(sent: nat, bytes: nat, then': real, now: real)
    requires sent as real <= then' <= now && bytes <= sent + CHUNK_SIZE
    ensures bytes as real <= now + CHUNK_SIZE as real
  {
  }

  /** What one more chunk may be handed over at: the rate plus one chunk. */
  lemma OfferWithinRate(rate: Option<nat>, start: real, sent: nat, before: real, o: Report)
    requires WithinRate(rate, start, Report(sent, 0, before), 0)
    requires o.at >= before && o.bytes <= sent + CHUNK_SIZE
    ensures WithinRate(rate, start, o, CHUNK_SIZE)
  {
    if rate.Some? {
      Scale(rate.value as real, before - start, o.at - start);
      OneMore(sent, o.bytes, rate.value as real * (before - start), rate.value as real * (o.at - start));
    }
  }

  predicate Holds(buf: seq<byte>, data: seq<byte>, k: nat) {
    buf == Payload(data, k) + Zeros(CHUNK_SIZE - |Payload(data, k)|)
  }

  lemma Padded(buf: seq<byte>, data: seq<byte>, k: nat, n: nat, was: seq<byte>)
    requires |was| == CHUNK_SIZE && k < BlockCount(|data|)
    requires n == |Payload(data, k)| && was[..n] == Payload(data, k) && buf == was[..n] + Zeros(CHUNK_SIZE - n)
    ensures Holds(buf, data, k)
  {
  }

  /** What a read of a whole buffer gives when k chunks are already taken. */
  lemma ChunkRead(data: seq<byte>, k: nat, n: nat, was: seq<byte>)
    requires k <= BlockCount(|data|) && |was| == CHUNK_SIZE
    requires n == if |data| - Offset(data, k) < CHUNK_SIZE then |data| - Offset(data, k) else CHUNK_SIZE
    ensures data[Offset(data, k)..][..n] == Payload(data, k)
    ensures data[Offset(data, k)..][n..] == data[Offset(data, k + 1)..]
    ensures n == |Payload(data, k)|
  {
    CountBounds(|data|);
  }

  /** Only the first k blocks and a part of the next one reached the destination. */
  ghost predicate Torn(sink: seq<byte>, before: seq<byte>, data: seq<byte>, k: nat) {
    exists n :: 0 <= n <= BLOCK_SIZE && TornAt(sink, before, data, k, n)
  }

  predicate TornAt(sink: seq<byte>, before: seq<byte>, data: seq<byte>, k: nat, n: nat)
    requires n <= BLOCK_SIZE
  {
    sink == before + Blocks(data, k) + Block(Payload(data, k), More(data, k))[..n]
  }

  lemma NothingTorn(sink: seq<byte>, before: seq<byte>, data: seq<byte>, k: nat)
    requires sink == before + Blocks(data, k)
    ensures Torn(sink, before, data, k)
  {
    assert TornAt(sink, before, data, k, 0);
  }

  lemma ChunkTorn(sink: seq<byte>, before: seq<byte>, data: seq<byte>, k: nat, chunk: seq<byte>, n: nat)
    requires Holds(chunk, data, k) && n <= |chunk|
    requires sink == before + Blocks(data, k) + chunk[..n]
    ensures Torn(sink, before, data, k)
  {
    assert Block(Payload(data, k), More(data, k))[..n] == chunk[..n];
    assert TornAt(sink, before, data, k, n);
  }

  lemma FrameTorn(sink: seq<byte>, before: seq<byte>, data: seq<byte>, k: nat, chunk: seq<byte>, frame: seq<byte>,
                  n: nat)
    requires Holds(chunk, data, k) && frame == Frame(|Payload(data, k)|, More(data, k)) && n <= 5
    requires sink == before + Blocks(data, k) + chunk + frame[..n]
    ensures Torn(sink, before, data, k)
  {
    assert Block(Payload(data, k), More(data, k))[..CHUNK_SIZE + n] == chunk + frame[..n];
    Associative(before + Blocks(data, k), chunk, frame[..n]);
    assert TornAt(sink, before, data, k, CHUNK_SIZE + n);
  }

  lemma BlockWritten(before: seq<byte>, data: seq<byte>, k: nat, chunk: seq<byte>, frame: seq<byte>)
    requires Holds(chunk, data, k) && frame == Frame(|Payload(data, k)|, More(data, k))
    ensures before + Blocks(data, k) + chunk + frame == before + Blocks(data, k + 1)
  {
    BlocksStep(data, k);
    Associative(before + Blocks(data, k), chunk, frame);
    Associative(before, Blocks(data, k), chunk + frame);
  }

  ghost method NoteOffer(io: Transfer, o: Report, from: seq<Report>, data: seq<byte>, k: nat, rate: Option<nat>,
                         start: real)
    requires Logged(io.offers, from, data, k, rate, start, CHUNK_SIZE)
    requires o.bytes == Offset(data, k + 1) && WithinRate(rate, start, o, CHUNK_SIZE)
    modifies io`offers
    ensures Logged(io.offers, from, data, k + 1, rate, start, CHUNK_SIZE)
  {
    LogOne(io.offers, from, data, k, rate, start, CHUNK_SIZE, o);
    io.offers := io.offers + [o];
  }

  /** The progress callback. */
  method NoteProgress(io: Transfer, o: Report, ghost from: seq<Report>, ghost data: seq<byte>, ghost k: nat,
                      ghost rate: Option<nat>, ghost start: real)
    requires Logged(io.reports, from, data, k, rate, start, 0)
    requires o.bytes == Offset(data, k + 1) && WithinRate(rate, start, o, 0)
    modifies io`reports
    ensures Logged(io.reports, from, data, k + 1, rate, start, 0)
  {
    LogOne(io.reports, from, data, k, rate, start, 0, o);
    io.reports := io.reports + [o];
  }

  /** Write one chunk and its control frame. */
  method SendBlock(io: Transfer, cur: array<byte>, curActual: nat, hasMore: bool,
                   ghost before: seq<byte>, ghost data: seq<byte>, ghost k: nat)
    returns (r: Result<(), CodecError>)
    requires cur.Length == CHUNK_SIZE && Holds(cur[..], data, k)
    requires curActual == |Payload(data, k)| && hasMore == More(data, k)
    requires io.sink == before + Blocks(data, k)
    modifies io`sink, io`clock, io`faults
    ensures io.clock >= old(io.clock)
    ensures r.Ok? ==> io.faults == old(io.faults) && io.sink == before + Blocks(data, k + 1)
    ensures r.Err? ==> r.error == Io && io.faults > old(io.faults) && Torn(io.sink, before, data, k)
  {
    ghost var chunk := cur[..];
    r := io.WriteAll(cur[..]);
    if r.Err? {
      ghost var n :| 0 <= n <= |chunk| && io.sink == before + Blocks(data, k) + chunk[..n];
      ChunkTorn(io.sink, before, data, k, chunk, n);
      return;
    }
    var frame := MakeFrame(curActual, hasMore);
    ghost var f := frame[..];
    r := io.WriteAll(frame[..]);
    if r.Err? {
      ghost var n :| 0 <= n <= |f| && io.sink == before + Blocks(data, k) + chunk + f[..n];
      FrameTorn(io.sink, before, data, k, chunk, f, n);
      return;
    }
    BlockWritten(before, data, k, chunk, f);
  }

  /** The chunk in `buf` after n bytes were read into it and the rest was cleared. */
  method PadChunk(buf: array<byte>, n: nat, ghost data: seq<byte>, ghost k: nat)
    requires buf.Length == CHUNK_SIZE && k < BlockCount(|data|)
    requires n == |Payload(data, k)| && buf[..n] == Payload(data, k)
    modifies buf
    ensures Holds(buf[..], data, k)
  {
    ghost var was := buf[..];
    FillZero(buf, n);
    Padded(buf[..], data, k, n, was);
  }

  /** Read chunk k into a buffer. */
  method ReadChunk(io: Transfer, buf: array<byte>, ghost data: seq<byte>, ghost k: nat)
    returns (r: Result<nat, CodecError>)
    requires buf.Length == CHUNK_SIZE && k <= BlockCount(|data|) && io.source == data[Offset(data, k)..]
    modifies io`source, io`clock, io`faults, buf
    ensures io.clock >= old(io.clock)
    ensures r.Ok? ==> io.faults == old(io.faults) && io.source == data[Offset(data, k + 1)..]
    ensures r.Ok? ==> r.value == |Payload(data, k)| && buf[..r.value] == Payload(data, k)
    ensures r.Ok? && k > 0 ==> (r.value > 0 <==> More(data, k - 1))
    ensures r.Err? ==> r.error == Io && io.faults > old(io.faults)
  {
    r := ReadExactOrEof(io, buf);
    if r.Ok? {
      ChunkRead(data, k, r.value, buf[..]);
      if k > 0 {
        LookAhead(data, k - 1);
      }
    }
  }

  /** How chunk k can fail: an I/O call, which leaves the destination with a part of its block, or the
      throttle on a rate of 0, after the whole block. */
  ghost predicate RoundFails(e: CodecError, rate: Option<nat>, k: nat, data: seq<byte>, before: seq<byte>,
                             sink: seq<byte>, clean: bool)
  {
    match e
    case Io => !clean && Torn(sink, before, data, k)
    case Panic => clean && rate == Some(0) && sink == before + Blocks(data, k + 1)
    case Cancelled => false
  }

  /** What the writer's result says after k whole rounds: Ok, the whole wire is out; Cancelled, exactly the
      first k blocks are, and k may be all of them; otherwise round k failed. With a rate of 0 the first
      round always fails. */
  ghost predicate WriteOutcome(r: Result<(), CodecError>, rate: Option<nat>, k: nat, data: seq<byte>,
                               before: seq<byte>, sink: seq<byte>, clean: bool)
  {
    && (rate == Some(0) ==> k == 0 && (r == Err(Io) || r == Err(Panic)))
    && match r
       case Ok(_) => k == BlockCount(|data|) && sink == before + Wire(data)
       case Err(Cancelled) => 0 < k <= BlockCount(|data|) && sink == before + Blocks(data, k)
       case Err(e) => k < BlockCount(|data|) && RoundFails(e, rate, k, data, before, sink, clean)
  }

  /** The data read so far and the chunk in `cur` at the start of round k. */
  ghost predicate RoundReady(cur: seq<byte>, curActual: nat, source: seq<byte>, sent: nat, data: seq<byte>, k: nat) {
    && k < BlockCount(|data|) && sent == Offset(data, k)
    && Holds(cur, data, k) && curActual == |Payload(data, k)|
    && source == data[Offset(data, k + 1)..]
  }

  /** Both logs cover the first k chunks. */
  ghost predicate LogsKept(offers: seq<Report>, reports: seq<Report>, offers0: seq<Report>, reports0: seq<Report>,
                           data: seq<byte>, offered: nat, k: nat, rate: Option<nat>, start: real)
  {
    && Logged(offers, offers0, data, offered, rate, start, CHUNK_SIZE)
    && Logged(reports, reports0, data, k, rate, start, 0)
  }

  /** Write chunk k, throttle, and report; the clock was within the rate at `roundStart`. */
  method PutChunk(io: Transfer, cur: array<byte>, curActual: nat, hasMore: bool, bytesSent: nat, totalBytes: nat,
                  rate: Option<nat>, start: real, ghost roundStart: real,
                  ghost before: seq<byte>, ghost data: seq<byte>, ghost k: nat,
                  ghost offers: seq<Report>, ghost reports: seq<Report>)
    returns (r: Result<nat, CodecError>)
    requires cur.Length == CHUNK_SIZE && Holds(cur[..], data, k) && k < BlockCount(|data|)
    requires curActual == |Payload(data, k)| && hasMore == More(data, k) && bytesSent == Offset(data, k)
    requires io.sink == before + Blocks(data, k)
    requires LogsKept(io.offers, io.reports, offers, reports, data, k, k, rate, start)
    requires WithinRate(rate, start, Report(bytesSent, 0, roundStart), 0) && io.clock >= roundStart
    modifies io`sink, io`clock, io`faults, io`offers, io`reports
    ensures r.Ok? ==> io.faults == old(io.faults) && io.sink == before + Blocks(data, k + 1)
    ensures r.Ok? ==> r.value == Offset(data, k + 1)
    ensures r.Ok? ==> LogsKept(io.offers, io.reports, offers, reports, data, k + 1, k + 1, rate, start)
    ensures r.Ok? ==> WithinRate(rate, start, Report(r.value, 0, io.clock), 0)
    ensures r.Ok? ==> rate != Some(0)
    ensures r.Err? ==> RoundFails(r.error, rate, k, data, before, io.sink, io.faults == old(io.faults))
    ensures r.Err? ==> LogsKept(io.offers, io.reports, offers, reports, data, k + 1, k, rate, start)
  {
    LookAhead(data, k);
    ghost var offer := Report(bytesSent + curActual, totalBytes, io.clock);
    OfferWithinRate(rate, start, bytesSent, roundStart, offer);
    NoteOffer(io, offer, offers, data, k, rate, start);
    var w := SendBlock(io, cur, curActual, hasMore, before, data, k);
    if w.Err? {
      return Err(w.error);
    }
    var t := Throttle(io, rate, start, bytesSent + curActual);
    if t.Err? {
      return Err(t.error);
    }
    NoteProgress(io, Report(bytesSent + curActual, totalBytes, io.clock), reports, data, k, rate, start);
    return Ok(bytesSent + curActual);
  }

  /** One round: look ahead into the spare buffer, then put chunk k. Returns the length read ahead and the
      payload sent so far. */
  method Round(io: Transfer, cur: array<byte>, nxt: array<byte>, curActual: nat, bytesSent: nat, totalBytes: nat,
               rate: Option<nat>, start: real,
               ghost before: seq<byte>, ghost data: seq<byte>, ghost k: nat,
               ghost offers: seq<Report>, ghost reports: seq<Report>)
    returns (r: Result<(nat, nat), CodecError>, ghost offered: nat)
    requires cur != nxt && cur.Length == nxt.Length == CHUNK_SIZE
    requires RoundReady(cur[..], curActual, io.source, bytesSent, data, k)
    requires io.sink == before + Blocks(data, k)
    requires LogsKept(io.offers, io.reports, offers, reports, data, k, k, rate, start)
    requires WithinRate(rate, start, Report(bytesSent, 0, io.clock), 0)
    modifies io`source, io`sink, io`clock, io`faults, io`offers, io`reports, nxt
    ensures k <= offered <= k + 1
    ensures r.Ok? ==> offered == k + 1 && io.faults == old(io.faults) && io.sink == before + Blocks(data, k + 1)
    ensures r.Ok? ==> Ahead(nxt[..], r.value.0, io.source, r.value.1, data, k + 1)
    ensures r.Ok? ==> LogsKept(io.offers, io.reports, offers, reports, data, k + 1, k + 1, rate, start)
    ensures r.Ok? ==> WithinRate(rate, start, Report(r.value.1, 0, io.clock), 0)
    ensures r.Ok? ==> rate != Some(0)
    ensures r.Err? ==> RoundFails(r.error, rate, k, data, before, io.sink, io.faults == old(io.faults))
    ensures r.Err? ==> LogsKept(io.offers, io.reports, offers, reports, data, offered, k, rate, start)
  {
    NothingTorn(io.sink, before, data, k);
    ghost var roundStart := io.clock;
    offered := k;
    var look := ReadChunk(io, nxt, data, k + 1);
    if look.Err? {
      return Err(look.error), offered;
    }
    offered := k + 1;
    var put := PutChunk(io, cur, curActual, look.value > 0, bytesSent, totalBytes, rate, start, roundStart,
                        before, data, k, offers, reports);
    if put.Err? {
      return Err(put.error), offered;
    }
    return Ok((look.value, put.value)), offered;
  }

  /** Chunk k is in the spare buffer, not yet padded; n is 0 exactly when there is none. */
  ghost predicate Ahead(buf: seq<byte>, n: nat, source: seq<byte>, sent: nat, data: seq<byte>, k: nat) {
    && 0 < k <= BlockCount(|data|) && sent == Offset(data, k)
    && n == |Payload(data, k)| && n <= |buf| && buf[..n] == Payload(data, k)
    && source == data[Offset(data, k + 1)..]
    && (n > 0 <==> More(data, k - 1))
  }

  /** After k chunks: stop on the cancel flag, or when nothing was read ahead; otherwise make the spare buffer
      ready as chunk k. */
  method AfterRound(io: Transfer, nxt: array<byte>, nxtActual: nat, ghost sent: nat, ghost data: seq<byte>,
                    ghost k: nat)
    returns (done: Option<Result<(), CodecError>>)
    requires nxt.Length == CHUNK_SIZE && Ahead(nxt[..], nxtActual, io.source, sent, data, k)
    modifies io`cancelled, nxt
    ensures old(io.cancelled) ==> io.cancelled
    ensures done == if io.cancelled then Some(Err(Cancelled)) else if nxtActual == 0 then Some(Ok(())) else None
    ensures done == Some(Ok(())) ==> k == BlockCount(|data|) && Blocks(data, k) == Wire(data) && io.source == []
    ensures done == None ==> RoundReady(nxt[..], nxtActual, io.source, sent, data, k)
  {
    var stop := io.IsCancelled();
    if stop {
      return Some(Err(Cancelled));
    }
    if nxtActual == 0 {
      Finished(data, k);
      return Some(Ok(()));
    }
    PadChunk(nxt, nxtActual, data, k);
    return None;
  }

  /** The writer's loop: `cur` holds the first chunk, `nxt` is the spare buffer. */
  method WriteRounds(io: Transfer, cur0: array<byte>, nxt0: array<byte>, firstActual: nat,
                     rateLimit: Option<nat>, throttleStart: real, totalBytes: nat, ghost data: seq<byte>)
    returns (r: Result<(), CodecError>, ghost k: nat, ghost offered: nat)
    requires cur0 != nxt0 && cur0.Length == nxt0.Length == CHUNK_SIZE
    requires RoundReady(cur0[..], firstActual, io.source, 0, data, 0)
    requires WithinRate(rateLimit, throttleStart, Report(0, 0, io.clock), 0)
    modifies io, cur0, nxt0
    ensures WriteOutcome(r, rateLimit, k, data, old(io.sink), io.sink, io.faults == old(io.faults))
    ensures r.Ok? ==> io.source == []
    ensures r == Err(Cancelled) ==> io.cancelled
    ensures k > 0 && io.cancelled ==> r == Err(Cancelled)
    ensures old(io.cancelled) ==> k <= 1
    ensures k <= offered <= k + 1
    ensures LogsKept(io.offers, io.reports, old(io.offers), old(io.reports), data, offered, k, rateLimit, throttleStart)
  {
    ghost var before, offers, reports := io.sink, io.offers, io.reports;
    var cur, nxt, curActual := cur0, nxt0, firstActual;
    var bytesSent: nat := 0;
    k, offered := 0, 0;
    LogNone(offers, data, rateLimit, throttleStart, CHUNK_SIZE);
    LogNone(reports, data, rateLimit, throttleStart, 0);
    while true
      invariant {cur, nxt} == {cur0, nxt0} && cur != nxt
      invariant RoundReady(cur[..], curActual, io.source, bytesSent, data, k)
      invariant io.sink == before + Blocks(data, k) && io.faults == old(io.faults)
      invariant WithinRate(rateLimit, throttleStart, Report(bytesSent, 0, io.clock), 0)
      invariant if k == 0 then io.cancelled == old(io.cancelled) else !io.cancelled && !old(io.cancelled)
      invariant k > 0 ==> rateLimit != Some(0)
      invariant LogsKept(io.offers, io.reports, offers, reports, data, k, k, rateLimit, throttleStart)
      decreases BlockCount(|data|) - k
    {
      var round;
      round, offered := Round(io, cur, nxt, curActual, bytesSent, totalBytes, rateLimit, throttleStart,
                              before, data, k, offers, reports);
      if round.Err? {
        return Err(round.error), k, offered;
      }
      k := k + 1;
      bytesSent := round.value.1;
      var done := AfterRound(io, nxt, round.value.0, bytesSent, data, k);
      if done.Some? {
        return done.value, k, offered;
      }
      cur, nxt, curActual := nxt, cur, round.value.0;
    }
  }

  /** Send the source as chunks with control frames. The ghost k counts the chunks written out whole and
      `offered` those whose writing began; the logs show that at every moment the payload handed over is
      within the rate plus one chunk, and at every progress call within the rate. The cancel flag is looked at
      after every chunk. */
  method WriteStream(io: Transfer, rateLimit: Option<nat>, totalBytes: nat)
    returns (r: Result<(), CodecError>, ghost k: nat, ghost offered: nat)
    modifies io
    ensures WriteOutcome(r, rateLimit, k, old(io.source), old(io.sink), io.sink, io.faults == old(io.faults))
    ensures r.Ok? ==> io.source == []
    ensures r == Err(Cancelled) ==> io.cancelled
    ensures k > 0 && io.cancelled ==> r == Err(Cancelled)
    ensures old(io.cancelled) ==> k <= 1
    ensures k <= offered <= k + 1
    ensures LogsKept(io.offers, io.reports, old(io.offers), old(io.reports), old(io.source), offered, k,
                     rateLimit, old(io.clock))
  {
    ghost var data := io.source;
    var cur := new byte[CHUNK_SIZE](_ => 0);
    var nxt := new byte[CHUNK_SIZE](_ => 0);
    var throttleStart := io.clock;
    var first := ReadChunk(io, cur, data, 0);
    if first.Err? {
      NothingTorn(io.sink, io.sink, data, 0);
      return Err(first.error), 0, 0;
    }
    PadChunk(cur, first.value, data, 0);
    r, k, offered := WriteRounds(io, cur, nxt, first.value, rateLimit, throttleStart, totalBytes, data);
  }

  // ----- the readers

  /** Fill the buffer, or fail at an early end of file. */
  method ReadExact(io: Transfer, buf: array<byte>) returns (r: Result<(), CodecError>)
    modifies io`source, io`clock, io`faults, buf
    ensures r.Ok? ==> io.faults == old(io.faults) && |old(io.source)| >= buf.Length
    ensures r.Ok? ==> buf[..] == old(io.source)[..buf.Length] && io.source == old(io.source)[buf.Length..]
    ensures r.Err? ==> r.error == Io && io.faults >= old(io.faults)
    ensures r.Err? && io.faults == old(io.faults) ==> |old(io.source)| < buf.Length
  {
    var n := ReadExactOrEof(io, buf);
    if n.Err? {
      return Err(n.error);
    }
    if n.value < buf.Length {
      return Err(Io);
    }
    return Ok(());
  }

  function SizeField(wire: seq<byte>): nat
    requires |wire| >= BLOCK_SIZE
  {
    FromBigEndian(wire[CHUNK_SIZE], wire[CHUNK_SIZE + 1], wire[CHUNK_SIZE + 2], wire[CHUNK_SIZE + 3])
  }

  predicate BlockReadable(wire: seq<byte>) {
    |wire| >= BLOCK_SIZE && SizeField(wire) <= CHUNK_SIZE
  }

  function HeadPayload(wire: seq<byte>): seq<byte> {
    if BlockReadable(wire) then wire[..SizeField(wire)] else []
  }

  predicate CannotRead(wire: seq<byte>, e: CodecError) {
    if e == Panic then |wire| >= BLOCK_SIZE && SizeField(wire) > CHUNK_SIZE else |wire| < BLOCK_SIZE
  }

  /** Copy the payload of one block into the sink; Ok tells whether more blocks follow. A size beyond
      the chunk makes the slice panic. */
  method CopyBlock(io: Transfer, chunk: array<byte>, frame: array<byte>) returns (r: Result<bool, CodecError>)
    requires chunk != frame && chunk.Length == CHUNK_SIZE && frame.Length == 5
    modifies io`source, io`sink, io`clock, io`faults, chunk, frame
    ensures io.faults >= old(io.faults)
    ensures r.Ok? ==> io.faults == old(io.faults) && BlockReadable(old(io.source))
                      && (r.value <==> old(io.source)[CHUNK_SIZE + 4] != 0)
                      && io.sink == old(io.sink) + old(io.source)[..SizeField(old(io.source))]
                      && io.source == old(io.source)[BLOCK_SIZE..]
    ensures r.Err? && io.faults == old(io.faults) ==>
      io.sink == old(io.sink) && CannotRead(old(io.source), r.error)
    ensures r.Err? ==> r.error != Cancelled && old(io.sink) <= io.sink <= old(io.sink) + HeadPayload(old(io.source))
  {
    ghost var wire := io.source;
    var e := ReadExact(io, chunk);
    if e.Err? {
      return Err(e.error);
    }
    e := ReadExact(io, frame);
    if e.Err? {
      return Err(e.error);
    }
    assert forall i :: 0 <= i < 5 ==> frame[i] == wire[CHUNK_SIZE..][i];
    var actualSize := FromBigEndian(frame[0], frame[1], frame[2], frame[3]);
    var hasMore := frame[4];
    if actualSize > CHUNK_SIZE {
      return Err(Panic);
    }
    assert chunk[..actualSize] == wire[..actualSize];
    e := io.WriteAll(chunk[..actualSize]);
    if e.Err? {
      return Err(e.error);
    }
    return Ok(hasMore != 0);
  }

  function StopAt(n: nat): nat -> bool {
    k => k >= n
  }

  function Prepend(got: seq<byte>, d: Decoded): Decoded {
    d.(out := got + d.out)
  }

  lemma DecodeStep(got: seq<byte>, wire: seq<byte>, k: nat, stop: nat -> bool)
    requires BlockReadable(wire) && wire[CHUNK_SIZE + 4] != 0 && !stop(k)
    ensures Prepend(got, Decode(wire, k, stop))
         == Prepend(got + wire[..SizeField(wire)], Decode(wire[BLOCK_SIZE..], k + 1, stop))
  {
    Associative(got, wire[..SizeField(wire)], Decode(wire[BLOCK_SIZE..], k + 1, stop).out);
  }

  /** After k blocks gave `got`, the rest of the reading decides the result. */
  ghost predicate Reading(whole: seq<byte>, got: seq<byte>, wire: seq<byte>, k: nat) {
    forall n: nat :: n >= k ==> Decode(whole, 0, StopAt(n)) == Prepend(got, Decode(wire, k, StopAt(n)))
  }

  lemma ReadingStep(whole: seq<byte>, got: seq<byte>, wire: seq<byte>, k: nat)
    requires Reading(whole, got, wire, k) && BlockReadable(wire) && wire[CHUNK_SIZE + 4] != 0
    ensures Reading(whole, got + wire[..SizeField(wire)], wire[BLOCK_SIZE..], k + 1)
  {
    forall n: nat | n >= k + 1
      ensures Decode(whole, 0, StopAt(n))
           == Prepend(got + wire[..SizeField(wire)], Decode(wire[BLOCK_SIZE..], k + 1, StopAt(n)))
    {
      DecodeStep(got, wire, k, StopAt(n));
    }
  }

  /** The result when the loop ends at the block that `wire` starts with. */
  lemma ReadingEnds(whole: seq<byte>, got: seq<byte>, wire: seq<byte>, k: nat)
    requires Reading(whole, got, wire, k)
    ensures var d := Decode(whole, 0, StopAt(k));
            d.out == got + HeadPayload(wire)
            && (|wire| < BLOCK_SIZE ==> d.end == Truncated)
            && (|wire| >= BLOCK_SIZE && SizeField(wire) > CHUNK_SIZE ==> d.end == OutOfRange)
            && (BlockReadable(wire) ==>
                  d.rest == wire[BLOCK_SIZE..] && d.end == if wire[CHUNK_SIZE + 4] == 0 then Complete else Stopped)
  {
    assert Decode(whole, 0, StopAt(k)) == Prepend(got, Decode(wire, k, StopAt(k)));
  }

  /** What the reader's result says: Ok(false) means a complete stream, Ok(true) a cancelled one, and an
      error, unless an I/O call failed, a truncated stream or an impossible size. */
  ghost predicate ReadOutcome(r: Result<bool, CodecError>, d: Decoded, before: seq<byte>, sink: seq<byte>,
                              rest: seq<byte>, clean: bool)
  {
    match r
    case Ok(stopped) => d.end == (if stopped then Stopped else Complete) && sink == before + d.out && rest == d.rest
    case Err(e) =>
      && before <= sink <= before + d.out
      && (clean ==> sink == before + d.out && d.end == if e == Panic then OutOfRange else Truncated)
  }

  lemma ReadFails(whole: seq<byte>, got: seq<byte>, wire: seq<byte>, k: nat, e: CodecError,
                  before: seq<byte>, sink: seq<byte>, rest: seq<byte>, clean: bool)
    requires Reading(whole, got, wire, k)
    requires before + got <= sink <= before + got + HeadPayload(wire)
    requires clean ==> sink == before + got && CannotRead(wire, e)
    ensures ReadOutcome(Err(e), Decode(whole, 0, StopAt(k)), before, sink, rest, clean)
  {
    ReadingEnds(whole, got, wire, k);
    Associative(before, got, HeadPayload(wire));
    assert sink[..|before|] == (before + got)[..|before|] == before;
  }

  lemma ReadEnds(whole: seq<byte>, got: seq<byte>, wire: seq<byte>, k: nat, before: seq<byte>, sink: seq<byte>,
                 rest: seq<byte>)
    requires Reading(whole, got, wire, k) && BlockReadable(wire)
    requires sink == before + got + HeadPayload(wire) && rest == wire[BLOCK_SIZE..]
    ensures ReadOutcome(Ok(wire[CHUNK_SIZE + 4] != 0), Decode(whole, 0, StopAt(k)), before, sink, rest, true)
  {
    ReadingEnds(whole, got, wire, k);
    Associative(before, got, HeadPayload(wire));
  }

  lemma ReadingStarts(wire: seq<byte>)
    ensures Reading(wire, [], wire, 0)
  {
  }

  /** Read a chunk stream into the sink, checking the cancel flag between chunks. Ok(true) means
      cancelled; the ghost `stopAt` is the block after which the loop ended. */
  method ReadStreamWithCancel(io: Transfer) returns (r: Result<bool, CodecError>, ghost stopAt: nat)
    modifies io
    ensures ReadOutcome(r, Decode(old(io.source), 0, StopAt(stopAt)), old(io.sink), io.sink, io.source,
                        io.faults == old(io.faults))
    ensures (r == Ok(true) || old(io.cancelled)) ==> io.cancelled
    ensures io.cancelled && stopAt > 0 ==> r == Ok(true)
    ensures old(io.cancelled) ==> stopAt == 0
  {
    var chunk := new byte[CHUNK_SIZE](_ => 0);
    var frame := new byte[5](_ => 0);
    ghost var whole, before, got := io.source, io.sink, [];
    stopAt := 0;
    ReadingStarts(whole);
    while true
      invariant Reading(whole, got, io.source, stopAt)
      invariant io.sink == before + got && io.faults == old(io.faults)
      invariant stopAt > 0 ==> !io.cancelled
      invariant old(io.cancelled) ==> io.cancelled
      decreases |io.source|
    {
      ghost var wire := io.source;
      var more := CopyBlock(io, chunk, frame);
      if more.Err? {
        ReadFails(whole, got, wire, stopAt, more.error, before, io.sink, io.source, io.faults == old(io.faults));
        return Err(more.error), stopAt;
      }
      ReadEnds(whole, got, wire, stopAt, before, io.sink, io.source);
      if !more.value {
        break;
      }
      var stop := io.IsCancelled();
      if stop {
        return Ok(true), stopAt;
      }
      ReadingStep(whole, got, wire, stopAt);
      Associative(before, got, HeadPayload(wire));
      got := got + HeadPayload(wire);
      stopAt := stopAt + 1;
    }
    return Ok(false), stopAt;
  }

  /** The reader without a cancel flag. */
  method ReadStream(io: Transfer) returns (r: Result<(), CodecError>, ghost blocks: nat)
    modifies io
    ensures ReadOutcome(if r.Ok? then Ok(false) else Err(r.error), Decode(old(io.source), 0, StopAt(blocks)),
                        old(io.sink), io.sink, io.source, io.faults == old(io.faults))
  {
    var chunk := new byte[CHUNK_SIZE](_ => 0);
    var frame := new byte[5](_ => 0);
    ghost var whole, before, got := io.source, io.sink, [];
    blocks := 0;
    ReadingStarts(whole);
    while true
      invariant Reading(whole, got, io.source, blocks)
      invariant io.sink == before + got && io.faults == old(io.faults)
      decreases |io.source|
    {
      ghost var wire := io.source;
      var more := CopyBlock(io, chunk, frame);
      if more.Err? {
        ReadFails(whole, got, wire, blocks, more.error, before, io.sink, io.source, io.faults == old(io.faults));
        return Err(more.error), blocks;
      }
      ReadEnds(whole, got, wire, blocks, before, io.sink, io.source);
      if !more.value {
        break;
      }
      ReadingStep(whole, got, wire, blocks);
      Associative(before, got, HeadPayload(wire));
      got := got + HeadPayload(wire);
      blocks := blocks + 1;
    }
    return Ok(()), blocks;
  }
}
