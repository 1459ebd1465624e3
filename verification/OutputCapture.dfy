/** The byte-capped capture of two output streams in packages/crew/src/adapters/commandRunner.ts
    (the `take` callback of the supervisor), for any interleaving of chunks. */
module OutputCapture {
  datatype Stream = Stdout | Stderr

  type Bytes = seq<bv8>

  datatype Chunk = Chunk(stream: Stream, bytes: Bytes)

  /** One byte, tagged with the stream it arrived on. */
  datatype Arrived = Arrived(stream: Stream, byte: bv8)

  function Tagged(c: Chunk): seq<Arrived> {
    seq(|c.bytes|, i requires 0 <= i < |c.bytes| => Arrived(c.stream, c.bytes[i]))
  }

  /** All bytes of a run, in arrival order. */
  function Arrivals(chunks: seq<Chunk>): seq<Arrived> {
    if chunks == [] then [] else Arrivals(chunks[..|chunks| - 1]) + Tagged(chunks[|chunks| - 1])
  }

  function OnStream(log: seq<Arrived>, stream: Stream): Bytes {
    if log == [] then []
    else OnStream(log[..|log| - 1], stream) + if log[|log| - 1].stream == stream then [log[|log| - 1].byte] else []
  }

  function UpTo(log: seq<Arrived>, max: nat): seq<Arrived> {
    if |log| <= max then log else log[..max]
  }

  lemma {:induction false} OnStreamAppends(a: seq<Arrived>, b: seq<Arrived>, stream: Stream)
    ensures OnStream(a + b, stream) == OnStream(a, stream) + OnStream(b, stream)
  {
    if b == [] {
      assert a + b == a;
    } else {
      OnStreamAppends(a, b[..|b| - 1], stream);
      assert (a + b)[..|a + b| - 1] == a + b[..|b| - 1];
    }
  }

  lemma {:induction false} OnStreamOfChunk(c: Chunk, n: nat, stream: Stream)
    requires n <= |c.bytes|
    ensures OnStream(Tagged(c)[..n], stream) == if stream == c.stream then c.bytes[..n] else []
  {
    if n > 0 {
      OnStreamOfChunk(c, n - 1, stream);
      assert Tagged(c)[..n][..n - 1] == Tagged(c)[..n - 1];
      assert c.bytes[..n] == c.bytes[..n - 1] + [c.bytes[n - 1]];
    }
  }

  /** The two streams share out the log. */
  lemma {:induction false} StreamsShareLog(log: seq<Arrived>)
    ensures |OnStream(log, Stdout)| + |OnStream(log, Stderr)| == |log|
  {
    if log != [] { StreamsShareLog(log[..|log| - 1]); }
  }

  /** One more chunk: what fits of it is appended to what is kept of its own stream. */
  lemma ChunkIsKept(log: seq<Arrived>, c: Chunk, max: nat, n: nat)
    requires n == if |c.bytes| <= max - |UpTo(log, max)| then |c.bytes| else max - |UpTo(log, max)|
    ensures UpTo(log + Tagged(c), max) == UpTo(log, max) + Tagged(c)[..n]
    ensures forall stream :: OnStream(UpTo(log + Tagged(c), max), stream) ==
                             OnStream(UpTo(log, max), stream) + if stream == c.stream then c.bytes[..n] else []
  {
    assert UpTo(log + Tagged(c), max) == UpTo(log, max) + Tagged(c)[..n];
    forall stream
      ensures OnStream(UpTo(log + Tagged(c), max), stream) ==
              OnStream(UpTo(log, max), stream) + if stream == c.stream then c.bytes[..n] else []
    {
      OnStreamAppends(UpTo(log, max), Tagged(c)[..n], stream);
      OnStreamOfChunk(c, n, stream);
    }
  }

  class Capture {
    const maxBuffer: nat
    var size: nat
    var truncated: bool
    var killed: bool
    var out: Bytes
    var err: Bytes

    constructor (maxBuffer: nat)
      ensures this.maxBuffer == maxBuffer && Holds([])
    {
      this.maxBuffer := maxBuffer;
      size, truncated, killed, out, err := 0, false, false, [], [];
    }

    /** The buffers hold the first `maxBuffer` bytes of `log`, split by stream. */
    ghost predicate Holds(log: seq<Arrived>)
      reads this
    {
      && size == |UpTo(log, maxBuffer)|
      && (truncated <==> |log| > maxBuffer) && (killed <==> truncated)
      && out == OnStream(UpTo(log, maxBuffer), Stdout)
      && err == OnStream(UpTo(log, maxBuffer), Stderr)
    }

    method Take(c: Chunk, ghost log: seq<Arrived>)
      requires Holds(log)
      modifies this
      ensures Holds(log + Tagged(c))
    {
      ghost var room := maxBuffer - size;
      ghost var n := if |c.bytes| <= room then |c.bytes| else room;
      ChunkIsKept(log, c, maxBuffer, n);
      if truncated { return; }
      var piece := c.bytes;
      if size + |c.bytes| > maxBuffer {
        truncated := true;
        piece := c.bytes[..maxBuffer - size];
        size := maxBuffer;
        killed := true;
      } else {
        size := size + |c.bytes|;
      }
      assert piece == c.bytes[..n];
      if c.stream == Stdout { out := out + piece; } else { err := err + piece; }
    }
  }

  datatype CommandResult = CommandResult(stdout: Bytes, exitCode: int, timedOut: bool, truncated: bool)

  /** A whole run: every chunk in arrival order, then the exit code and the timer. Stdout alone
      on success, stdout and stderr on failure; a run that was cut or timed out is a failure. */
  method RunCommand(chunks: seq<Chunk>, maxBuffer: nat, code: int, timedOut: bool) returns (r: CommandResult)
    ensures var kept := UpTo(Arrivals(chunks), maxBuffer);
      && (r.truncated <==> |Arrivals(chunks)| > maxBuffer) && r.timedOut == timedOut
      && (r.exitCode == 0 <==> code == 0 && !timedOut && |Arrivals(chunks)| <= maxBuffer)
      && (code != 0 ==> r.exitCode == code)
      && r.stdout == if r.exitCode == 0 then OnStream(kept, Stdout) else OnStream(kept, Stdout) + OnStream(kept, Stderr)
    ensures |r.stdout| <= maxBuffer
  {
    var capture := new Capture(maxBuffer);
    for i := 0 to |chunks|
      invariant capture.maxBuffer == maxBuffer && capture.Holds(Arrivals(chunks[..i]))
    {
      capture.Take(chunks[i], Arrivals(chunks[..i]));
      assert chunks[..i + 1][..i] == chunks[..i];
    }
    assert chunks[..|chunks|] == chunks;
    StreamsShareLog(UpTo(Arrivals(chunks), maxBuffer));
    var failed := code != 0 || timedOut || capture.truncated;
    r := CommandResult(if failed then capture.out + capture.err else capture.out,
                       if code != 0 then code else if failed then 1 else 0, timedOut, capture.truncated);
  }

  /** Nothing is lost below the cap, and above it each stream keeps a prefix of its own output. */
  lemma {:induction false} KeptIsPrefixPerStream(log: seq<Arrived>, max: nat, stream: Stream)
    ensures OnStream(UpTo(log, max), stream) <= OnStream(log, stream)
    ensures |log| <= max ==> OnStream(UpTo(log, max), stream) == OnStream(log, stream)
  {
    if |log| > max {
      OnStreamAppends(log[..max], log[max..], stream);
      assert log[..max] + log[max..] == log;
    }
  }
}
