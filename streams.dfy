/**
 * Byte streams and the service's one-source, many-destination copy loop
 * (`readIntoWriters`). A source is given by the answers its `Read` calls will
 * produce; a destination is a writer whose writes either all succeed or all
 * fail.
 */
module Streams {
  import opened Wrappers

  type Byte = x: int | 0 <= x < 256
  type Bytes = seq<Byte>

  /** The size of the copy buffer, `32*1024`. */
  const BufferSize: nat := 32 * 1024

  /** The errors a source can end with: `io.EOF`, `context.Canceled`, anything else. */
  datatype ReadError = EOF | Canceled | Failed(reason: string)

  /** One answer of a source: some bytes, and possibly the error that ends it. */
  datatype ReadStep = ReadStep(data: Bytes, err: Option<ReadError>)

  /** All bytes a source yields, up to and including those that come with its ending error. */
  function Payload(steps: seq<ReadStep>): Bytes {
    if steps == [] then []
    else steps[0].data + (if steps[0].err.None? then Payload(steps[1..]) else [])
  }

  /** The error that ends a source: its first error, or `io.EOF` once its answers run out. */
  function Ending(steps: seq<ReadStep>): ReadError {
    if steps == [] then EOF
    else if steps[0].err.Some? then steps[0].err.value
    else Ending(steps[1..])
  }

  /** A measure that every error-free read strictly decreases. */
  function Weight(steps: seq<ReadStep>): nat {
    if steps == [] then 0 else |steps[0].data| + 1 + Weight(steps[1..])
  }

  /** What one `Read` returns and what the source still has to say afterwards. */
  datatype ReadResult = ReadResult(chunk: Bytes, err: Option<ReadError>, rest: seq<ReadStep>)

  /**
   * One `Read` into a buffer of `capacity` bytes. An answer longer than the
   * buffer is split: the buffer is filled, no error is reported yet, and the
   * remainder, with the answer's error, is kept for the next call. Once the
   * answers run out every read returns no bytes and `io.EOF`.
   */
  function NextRead(steps: seq<ReadStep>, capacity: nat): (r: ReadResult)
    requires capacity > 0
    ensures |r.chunk| <= capacity
    ensures r.err.Some? ==> r.chunk == Payload(steps) && r.err.value == Ending(steps)
    ensures r.err.None? ==> Payload(steps) == r.chunk + Payload(r.rest)
    ensures r.err.None? ==> Ending(r.rest) == Ending(steps) && Weight(r.rest) < Weight(steps)
  {
    if steps == [] then ReadResult([], Some(EOF), [])
    else if |steps[0].data| <= capacity then ReadResult(steps[0].data, steps[0].err, steps[1..])
    else
      var d := steps[0].data;
      var rest := [ReadStep(d[capacity..], steps[0].err)] + steps[1..];
      assert rest[1..] == steps[1..];
      assert d == d[..capacity] + d[capacity..];
      ReadResult(d[..capacity], None, rest)
  }

  /**
   * A source (`io.Reader`): the answers its remaining `Read` calls give.
   * Closing a body is not modelled; it has no effect on what was read.
   */
  class Reader {
    var pending: seq<ReadStep>

    constructor (script: seq<ReadStep>)
      ensures pending == script
    {
      pending := script;
    }

    /** `Read(buf)`: fills `buf[..n]` with the next chunk. */
    method Read(buf: array<Byte>) returns (n: nat, err: Option<ReadError>)
      requires buf.Length > 0
      modifies this, buf
      ensures var r := NextRead(old(pending), buf.Length);
        n == |r.chunk| && buf[..n] == r.chunk && err == r.err && pending == r.rest
    {
      var r := NextRead(pending, buf.Length);
      n := |r.chunk|;
      var i := 0;
      while i < n
        invariant 0 <= i <= n <= buf.Length
        invariant forall k :: 0 <= k < i ==> buf[k] == r.chunk[k]
      {
        buf[i] := r.chunk[i];
        i := i + 1;
      }
      err := r.err;
      pending := r.rest;
    }
  }

  /**
   * A destination (`io.Writer`): the bytes it has accepted. A failing writer
   * rejects every write and keeps nothing.
   */
  class Sink {
    var written: Bytes
    const failing: bool

    constructor (failing: bool)
      ensures written == [] && this.failing == failing
    {
      written := [];
      this.failing := failing;
    }

    method Write(p: Bytes) returns (ok: bool)
      modifies this
      ensures ok == !failing
      ensures written == old(written) + (if failing then [] else p)
    {
      ok := !failing;
      if ok {
        written := written + p;
      }
    }
  }

  /** What `readIntoWriters` returns for the error that ended its source: `io.EOF` becomes nil. */
  function Returned(e: ReadError): (r: Option<ReadError>)
    ensures r.None? <==> e == EOF
    ensures r.Some? ==> r.value == e
  {
    if e == EOF then None else Some(e)
  }

  /** The chunks read, concatenated in order. */
  function Flatten(chunks: seq<Bytes>): Bytes {
    if chunks == [] then [] else Flatten(chunks[..|chunks| - 1]) + chunks[|chunks| - 1]
  }

  /** The observable steps of a copy: a read of a chunk, a write of a chunk to destination `dest`. */
  datatype Event = ReadEvent(chunk: Bytes) | WriteEvent(dest: nat, chunk: Bytes)

  /** Writes of `c` to destinations `0` to `n - 1`, in order. */
  function WriteEvents(c: Bytes, n: nat): (r: seq<Event>)
    ensures |r| == n && forall j :: 0 <= j < n ==> r[j] == WriteEvent(j, c)
  {
    seq(n, j requires 0 <= j => WriteEvent(j, c))
  }

  lemma WriteEventsSnoc(c: Bytes, n: nat)
    ensures WriteEvents(c, n + 1) == WriteEvents(c, n) + [WriteEvent(n, c)]
  {
  }

  /** One read followed, when it returned bytes, by a write of them to each of `n` destinations in order. */
  function Round(c: Bytes, n: nat): seq<Event> {
    [ReadEvent(c)] + (if |c| > 0 then WriteEvents(c, n) else [])
  }

  /** A round is its read, then, when the chunk is not empty, one write per destination. */
  lemma RoundShape(c: Bytes, n: nat)
    ensures var r := Round(c, n);
      && |r| == (if |c| > 0 then n + 1 else 1)
      && r[0] == ReadEvent(c)
      && (|c| > 0 ==> forall j :: 0 <= j < n ==> r[j + 1] == WriteEvent(j, c))
  {
    if |c| > 0 {
      var r, w := Round(c, n), WriteEvents(c, n);
      assert r == [ReadEvent(c)] + w;
      forall j | 0 <= j < n
        ensures r[j + 1] == WriteEvent(j, c)
      {
        assert r[j + 1] == w[j];
      }
    }
  }

  /** The order in which a copy of `chunks` to `n` destinations reads and writes. */
  function Schedule(chunks: seq<Bytes>, n: nat): seq<Event> {
    if chunks == [] then []
    else Schedule(chunks[..|chunks| - 1], n) + Round(chunks[|chunks| - 1], n)
  }

  lemma FlattenSnoc(chunks: seq<Bytes>, c: Bytes)
    ensures Flatten(chunks + [c]) == Flatten(chunks) + c
  {
    assert (chunks + [c])[..|chunks|] == chunks;
  }

  lemma ScheduleSnoc(chunks: seq<Bytes>, c: Bytes, n: nat)
    ensures Schedule(chunks + [c], n) == Schedule(chunks, n) + Round(c, n)
  {
    assert (chunks + [c])[..|chunks|] == chunks;
  }

  /**
   * One read keeps the copy's account straight: what was read so far plus what
   * the source still holds is the source's whole payload, and once the read
   * reports an error everything has been read.
   */
  lemma ReadAccount(script: seq<ReadStep>, copied: Bytes, before: seq<ReadStep>, capacity: nat)
    requires capacity > 0
    requires Payload(script) == copied + Payload(before)
    requires Ending(before) == Ending(script)
    ensures var r := NextRead(before, capacity);
      && (r.err.None? ==> Payload(script) == (copied + r.chunk) + Payload(r.rest)
                          && Ending(r.rest) == Ending(script))
      && (r.err.Some? ==> Payload(script) == copied + r.chunk && r.err.value == Ending(script))
  {
    var r := NextRead(before, capacity);
    if r.err.None? {
      AppendAssoc(copied, r.chunk, Payload(r.rest));
    }
  }

  lemma AppendAssoc(a: Bytes, b: Bytes, c: Bytes)
    ensures a + (b + c) == (a + b) + c
  {
  }

  /**
   * The inner loop of `readIntoWriters`: write one chunk to each destination
   * in turn, ignoring the outcome of every write.
   */
  method WriteAll(dst: seq<Sink>, p: Bytes) returns (ghost events: seq<Event>)
    requires |p| > 0
    requires forall i, j :: 0 <= i < j < |dst| ==> dst[i] != dst[j]
    modifies set s | s in dst
    ensures [ReadEvent(p)] + events == Round(p, |dst|)
    ensures forall j :: 0 <= j < |dst| ==>
      dst[j].written == old(dst[j].written) + (if dst[j].failing then [] else p)
  {
    events := [];
    var j := 0;
    while j < |dst|
      invariant 0 <= j <= |dst|
      invariant events == WriteEvents(p, j)
      invariant forall k :: 0 <= k < j ==>
        dst[k].written == old(dst[k].written) + (if dst[k].failing then [] else p)
      invariant forall k :: j <= k < |dst| ==> dst[k].written == old(dst[k].written)
    {
      var _ := dst[j].Write(p);
      WriteEventsSnoc(p, j);
      events := events + [WriteEvent(j, p)];
      j := j + 1;
    }
  }

  /**
   * One pass of the copy loop: a read into `buf`, then, when it returned
   * bytes, a write of them to every destination in turn.
   */
  method CopyChunk(dst: seq<Sink>, src: Reader, buf: array<Byte>, ghost base: seq<Bytes>, ghost copied: Bytes)
      returns (chunk: Bytes, rerr: Option<ReadError>, ghost events: seq<Event>)
    requires buf.Length > 0 && |base| == |dst|
    requires forall i, j :: 0 <= i < j < |dst| ==> dst[i] != dst[j]
    requires forall j :: 0 <= j < |dst| ==> dst[j].written == base[j] + (if dst[j].failing then [] else copied)
    modifies src, buf, set s | s in dst
    ensures var r := NextRead(old(src.pending), buf.Length);
      chunk == r.chunk && rerr == r.err && src.pending == r.rest
    ensures events == Round(chunk, |dst|)
    ensures forall j :: 0 <= j < |dst| ==>
      dst[j].written == base[j] + (if dst[j].failing then [] else copied + chunk)
  {
    var nr;
    nr, rerr := src.Read(buf);
    chunk := buf[..nr];
    if nr > 0 {
      var writes := WriteAll(dst, chunk);
      events := [ReadEvent(chunk)] + writes;
      forall j | 0 <= j < |dst|
        ensures dst[j].written == base[j] + (if dst[j].failing then [] else copied + chunk)
      {
        if !dst[j].failing {
          AppendAssoc(base[j], copied, chunk);
        }
      }
    } else {
      events := [ReadEvent(chunk)];
    }
  }

  /**
   * `readIntoWriters(dst, src)`: read `src` into one buffer of `BufferSize`
   * bytes and write each chunk to every destination before reading the next.
   * Write errors are ignored, so a failing destination does not stop the copy
   * and the others still receive everything. Bytes that come with an error are
   * written before the error ends the loop. `io.EOF` ends it with no error;
   * any other error is returned (a cancellation is returned like any other).
   * The ghost results record the chunks read and the order of the reads and
   * writes.
   */
  method ReadIntoWriters(dst: seq<Sink>, src: Reader)
      returns (err: Option<ReadError>, ghost chunks: seq<Bytes>, ghost trace: seq<Event>)
    requires forall i, j :: 0 <= i < j < |dst| ==> dst[i] != dst[j]
    modifies src, set s | s in dst
    ensures err == Returned(Ending(old(src.pending)))
    ensures forall j :: 0 <= j < |dst| ==>
      dst[j].written == old(dst[j].written) + (if dst[j].failing then [] else Payload(old(src.pending)))
    ensures Flatten(chunks) == Payload(old(src.pending))
    ensures forall i :: 0 <= i < |chunks| ==> |chunks[i]| <= BufferSize
    ensures trace == Schedule(chunks, |dst|)
  {
    ghost var script := src.pending;
    var buf := new Byte[BufferSize];
    var written := 0;
    chunks, trace := [], [];
    ghost var copied: Bytes := [];
    ghost var base := seq(|dst|, j requires 0 <= j < |dst| reads dst => dst[j].written);
    assert forall j :: 0 <= j < |dst| ==> base[j] == old(dst[j].written);
    while true
      invariant |base| == |dst| && forall j :: 0 <= j < |dst| ==> base[j] == old(dst[j].written)
      invariant Payload(script) == copied + Payload(src.pending)
      invariant Ending(src.pending) == Ending(script)
      invariant copied == Flatten(chunks)
      invariant written == |copied|
      invariant forall i :: 0 <= i < |chunks| ==> |chunks[i]| <= BufferSize
      invariant trace == Schedule(chunks, |dst|)
      invariant forall j :: 0 <= j < |dst| ==>
        dst[j].written == base[j] + (if dst[j].failing then [] else copied)
      decreases Weight(src.pending)
    {
      ghost var before := src.pending;
      ghost var done := chunks;
      ghost var soFar := copied;
      var chunk, rerr, events := CopyChunk(dst, src, buf, base, copied);
      ReadAccount(script, soFar, before, buf.Length);
      FlattenSnoc(done, chunk);
      ScheduleSnoc(done, chunk, |dst|);
      chunks := chunks + [chunk];
      copied := copied + chunk;
      written := written + |chunk|;
      trace := trace + events;
      if rerr.Some? {
        assert Payload(script) == copied && rerr.value == Ending(script);
        if rerr == Some(EOF) {
          rerr := None;
        }
        return rerr, chunks, trace;
      }
    }
  }
}
