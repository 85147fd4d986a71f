/** The writer and the reader of the encrypted backup stream (internal/backup/envelope.go). */
module EnvelopeStream {
  import opened Option
  import opened Envelope

  function Min(a: int, b: int): int {
    if a < b then a else b
  }

  // Between calls: the full chunks of `written` that more data followed are sealed, the rest is in buf.
  ghost predicate Buffered(c: Cipher, prefix: bytes, written: bytes, log: Log, buf: bytes, counter: int, started: bool, sink: bytes) {
    && |log| * CHUNK <= |written|
    && buf == written[|log| * CHUNK..]
    && |buf| <= CHUNK
    && counter == |log| % COUNTERS
    && log == FullLog(c, prefix, written, |log|)
    && (started <==> log != [])
    && sink == if started then HeaderOf(prefix) + Ciphertext(log) else []
  }

  // What Flush makes of a sink.
  ghost function Emitted(prefix: bytes, started: bool, sink: bytes, ct: bytes): bytes {
    (if started then sink else sink + HeaderOf(prefix)) + ct
  }

  lemma FlushKeepsBuffered(c: Cipher, prefix: bytes, written: bytes, log: Log, buf: bytes, counter: int, started: bool, sink: bytes)
    requires Buffered(c, prefix, written, log, buf, counter, started, sink) && |buf| == CHUNK
    ensures var r := SealChunk(c, prefix, buf, counter, false);
            Buffered(c, prefix, written, log + [r], [], (counter + 1) % COUNTERS, true, Emitted(prefix, started, sink, r.ct))
  {
    hide Nonce, Ciphertext, SealChunk, HeaderOf;
    FlushedChunk(c, prefix, written, log);
    SameCounter(c, prefix, buf, |log|, false);
    EmittedGrows(prefix, log, SealChunk(c, prefix, buf, counter, false), started, sink);
  }

  lemma AppendKeepsBuffered(c: Cipher, prefix: bytes, written: bytes, log: Log, buf: bytes, counter: int, started: bool,
          sink: bytes, more: bytes)
    requires Buffered(c, prefix, written, log, buf, counter, started, sink) && |buf| + |more| <= CHUNK
    ensures Buffered(c, prefix, written + more, log, buf + more, counter, started, sink)
  {
    FullLogIsStable(c, prefix, written, written + more, |log|);
  }

  lemma CloseCompletes(c: Cipher, prefix: bytes, written: bytes, log: Log, buf: bytes, counter: int, started: bool, sink: bytes)
    requires Buffered(c, prefix, written, log, buf, counter, started, sink) && (log != [] ==> buf != [])
    ensures var r := SealChunk(c, prefix, buf, counter, true);
            && StreamLog(c, prefix, written) == log + [r]
            && Stream(c, prefix, written) == Emitted(prefix, started, sink, r.ct)
  {
    hide Nonce, Ciphertext, SealChunk, HeaderOf;
    LastChunk(c, prefix, written, log, buf);
    SameCounter(c, prefix, buf, |log|, true);
    EmittedGrows(prefix, log, SealChunk(c, prefix, buf, counter, true), started, sink);
  }

  lemma {:induction false} EmittedGrows(prefix: bytes, log: Log, r: Record, started: bool, sink: bytes)
    requires (started <==> log != []) && sink == if started then HeaderOf(prefix) + Ciphertext(log) else []
    ensures Emitted(prefix, started, sink, r.ct) == HeaderOf(prefix) + Ciphertext(log + [r])
  {
    assert (log + [r])[..|log|] == log;
  }

  /** Encrypts everything written to it; Close emits the last chunk. `sink` is what reached the underlying writer. */
  class EncryptWriter {
    const cipher: Cipher
    const prefix: bytes
    var sink: bytes
    var buf: bytes
    var counter: int
    var started: bool
    var closed: bool
    ghost var written: bytes
    ghost var log: Log

    ghost predicate Open()
      reads this
    {
      !closed && Buffered(cipher, prefix, written, log, buf, counter, started, sink) && (log != [] ==> buf != [])
    }

    ghost predicate Closed()
      reads this
    {
      closed && log == StreamLog(cipher, prefix, written) && sink == Stream(cipher, prefix, written)
    }

    constructor (cipher: Cipher, prefix: bytes)
      requires |prefix| == PREFIX
      ensures Open() && written == [] && this.cipher == cipher && this.prefix == prefix
    {
      this.cipher, this.prefix := cipher, prefix;
      sink, buf, counter, started, closed := [], [], 0, false, false;
      written, log := [], [];
    }

    method Start()
      modifies this`started, this`sink
      ensures started && sink == if old(started) then old(sink) else old(sink) + HeaderOf(prefix)
    {
      if !started {
        started := true;
        sink := sink + HeaderOf(prefix);
      }
    }

    method Flush(last: bool)
      modifies this`started, this`sink, this`buf, this`counter, this`log
      requires 0 <= counter < COUNTERS
      ensures started && buf == [] && counter == (old(counter) + 1) % COUNTERS
      ensures var r := SealChunk(cipher, prefix, old(buf), old(counter), last);
              && log == old(log) + [r]
              && sink == Emitted(prefix, old(started), old(sink), r.ct)
    {
      Start();
      ghost var r := SealChunk(cipher, prefix, buf, counter, last);
      var ct := cipher.seal(Nonce(prefix, counter, last), buf, HeaderOf(prefix));
      log := log + [r];
      counter := (counter + 1) % COUNTERS;
      buf := [];
      sink := sink + ct;
    }

    /** Takes all of p, sealing a full chunk only once more data has arrived; refuses after Close. */
    method Write(p: bytes) returns (n: nat, ok: bool)
      requires Open() || Closed()
      modifies this
      ensures ok <==> old(!closed)
      ensures ok ==> Open() && written == old(written) + p && n == |p|
      ensures !ok ==> Closed() && written == old(written) && sink == old(sink) && n == 0
    {
      if closed {
        return 0, false;
      }
      var rest := p;
      while rest != []
        invariant Open() && written + rest == old(written) + p
        decreases |rest|
      {
        hide *;
        ghost var before := written;
        var n := Take(rest);
        assert before + rest == before + rest[..n] + rest[n..];
        rest := rest[n..];
      }
      return |p|, true;
    }

    // Moves the front of rest into the buffer, making room first when it is full.
    method Take(rest: bytes) returns (n: nat)
      requires Open() && rest != []
      modifies this
      ensures Open() && 0 < n <= |rest| && written == old(written) + rest[..n]
    {
      hide Buffered, SealChunk, Emitted;
      BufferFits(this);
      if |buf| == CHUNK {
        FlushKeepsBuffered(cipher, prefix, written, log, buf, counter, started, sink);
        Flush(false);
      }
      n := Min(CHUNK - |buf|, |rest|);
      AppendKeepsBuffered(cipher, prefix, written, log, buf, counter, started, sink, rest[..n]);
      buf := buf + rest[..n];
      written := written + rest[..n];
    }

    /** Writes the final chunk, empty when nothing was written; a second Close does nothing. */
    method Close()
      requires Open() || Closed()
      modifies this
      ensures Closed() && written == old(written)
      ensures old(closed) ==> sink == old(sink)
    {
      if closed {
        return;
      }
      hide Buffered, SealChunk, Emitted, StreamLog, Stream;
      BufferFits(this);
      CloseCompletes(cipher, prefix, written, log, buf, counter, started, sink);
      closed := true;
      Flush(true);
    }
  }

  lemma BufferFits(w: EncryptWriter)
    requires w.Open()
    ensures |w.buf| <= CHUNK && 0 <= w.counter < COUNTERS
  {
  }

  // The nonce depends on the position only modulo 2^32, so the wrapped counter serves.
  lemma SameCounter(c: Cipher, prefix: bytes, chunk: bytes, index: nat, last: bool)
    ensures SealChunk(c, prefix, chunk, index % COUNTERS, last) == SealChunk(c, prefix, chunk, index, last)
  {
  }

  lemma {:induction false} FlushedChunk(c: Cipher, prefix: bytes, p: bytes, log: Log)
    requires |log| * CHUNK <= |p| && |p| - |log| * CHUNK == CHUNK
    requires log == FullLog(c, prefix, p, |log|)
    ensures FullLog(c, prefix, p, |log| + 1) == log + [SealChunk(c, prefix, p[|log| * CHUNK..], |log|, false)]
  {
    assert p[|log| * CHUNK..(|log| + 1) * CHUNK] == p[|log| * CHUNK..];
  }

  lemma {:induction false} LastChunk(c: Cipher, prefix: bytes, p: bytes, log: Log, buf: bytes)
    requires |log| * CHUNK <= |p| && buf == p[|log| * CHUNK..] && |buf| <= CHUNK && (|log| > 0 ==> buf != [])
    requires log == FullLog(c, prefix, p, |log|)
    ensures |log| == FullChunks(|p|)
    ensures StreamLog(c, prefix, p) == log + [SealChunk(c, prefix, buf, |log|, true)]
  {
  }

  datatype Chunk = Failure(v: Verdict) | Opened(plain: bytes)

  // Reads and opens the chunk at the front of src; n bytes of src are consumed.
  method OpenNext(log: Log, header: bytes, prefix: bytes, src: bytes, ghost index: nat, counter: int, ending: Ending)
    returns (n: nat, last: bool, r: Chunk)
    requires TagsAdd(log) && counter == index % COUNTERS
    ensures n <= |src|
    ensures r.Failure? ==> r.v != CleanEnd && DecodeChunks(log, header, prefix, src, index, ending) == ([], r.v)
    ensures r.Opened? ==>
              && (r.plain == [] ==> last)
              && DecodeChunks(log, header, prefix, src, index, ending)
                 == Then(r.plain, if last then ([], CleanEnd) else DecodeChunks(log, header, prefix, src[n..], index + 1, ending))
  {
    hide Envelope.Open, Nonce, DecodeChunks, Then;
    NoChunk(log, header, prefix, src, index, ending);
    n, last := Min(|src|, CHUNK + TAG), false;
    if n == CHUNK + TAG {
      if |src| > n {
        last := false;
      } else if ending == AtEOF {
        last := true;
      } else {
        return n, last, Failure(SourceFailed);
      }
    } else if ending == AtEOF {
      if n == 0 {
        return n, last, Failure(Truncated);
      }
      last := true;
    } else {
      return n, last, Failure(SourceFailed);
    }
    DecodeOne(log, header, prefix, src, index, ending, n, last);
    if n < TAG {
      return n, last, Failure(Truncated);
    }
    SameNonce(prefix, index, last);
    var pt := Envelope.Open(log, Nonce(prefix, counter, last), src[..n], header);
    OpenedSize(log, Nonce(prefix, counter, last), src[..n], header);
    r := if pt.None? then Failure(AuthFailed) else Opened(pt.value);
  }

  // First the bytes of front, then r.
  ghost function Then(front: bytes, r: (bytes, Verdict)): (bytes, Verdict) {
    (front + r.0, r.1)
  }

  lemma NothingThen(r: (bytes, Verdict))
    ensures Then([], r) == r
  {
    assert [] + r.0 == r.0;
  }

  lemma ThenInPieces(a: bytes, b: bytes, r: (bytes, Verdict))
    ensures Then(a + b, r) == Then(a, Then(b, r))
  {
    assert (a + b) + r.0 == a + (b + r.0);
  }

  datatype ReadResult = Data | EndOfFile | Failed(v: Verdict)

  /** Yields the plaintext of a stream, read from `src` by an ideal cipher that knows the records in `log`. */
  class DecryptReader {
    const log: Log
    const ending: Ending
    var src: bytes
    var header: bytes
    var prefix: bytes
    var plain: bytes
    var counter: int
    var done: bool
    var err: Option<Verdict>
    var started: bool
    ghost var index: nat

    // All that is still to come: the plaintext and how it ends.
    ghost function Rest(): (bytes, Verdict)
      reads this
    {
      if err.Some? then Then(plain, ([], err.value))
      else if done then Then(plain, ([], CleanEnd))
      else if !started then Decode(log, src, ending)
      else Then(plain, DecodeChunks(log, header, prefix, src, index, ending))
    }

    ghost predicate Valid()
      reads this
    {
      && TagsAdd(log)
      && counter == index % COUNTERS
      && (!started ==> plain == [] && err == None && !done && index == 0)
      && (err.Some? ==> err.value != CleanEnd && plain == [])
    }

    constructor (log: Log, src: bytes, ending: Ending)
      requires TagsAdd(log)
      ensures Valid() && Rest() == Decode(log, src, ending)
    {
      this.log, this.src, this.ending := log, src, ending;
      header, prefix, plain, counter, done, err, started, index := [], [], [], 0, false, None, false, 0;
    }

    method ReadHeader() returns (e: Option<Verdict>)
      requires Valid() && !started
      modifies this
      ensures Valid() && started && plain == []
      ensures e.None? ==> err == None && !done && Rest() == old(Rest())
      ensures e.Some? ==> err == None && e.value != CleanEnd && old(Rest()) == ([], e.value)
    {
      started := true;
      if |src| < HEADER {
        return Some(Truncated);
      }
      var h := src[..HEADER];
      if !(h[..4] == MAGIC && h[4] == VERSION && h[5..9] == BigEndian32(CHUNK)) {
        return Some(NotABackup);
      }
      assert src[9..HEADER] == h[9..HEADER];
      NothingThen(DecodeChunks(log, h, h[9..HEADER], src[HEADER..], 0, ending));
      header, prefix, src := h, h[9..HEADER], src[HEADER..];
      return None;
    }

    // Opens the next chunk into plain.
    method Next() returns (e: Option<Verdict>)
      requires Valid() && plain == [] && err == None && !done
      modifies this
      ensures Valid()
      ensures started
      ensures e.None? ==> err == None && Rest() == old(Rest()) && (plain == [] ==> done)
      ensures e.Some? ==> err == None && plain == [] && e.value != CleanEnd && old(Rest()) == ([], e.value)
    {
      if !started {
        e := ReadHeader();
        if e.Some? {
          return;
        }
      }
      e := NextOpened();
    }

    // Opens the next chunk, the header having been read.
    method NextOpened() returns (e: Option<Verdict>)
      requires Valid() && started && plain == [] && err == None && !done
      modifies this
      ensures Valid() && started && err == None
      ensures e.None? ==> Rest() == old(Rest()) && (plain == [] ==> done)
      ensures e.Some? ==> plain == [] && e.value != CleanEnd && old(Rest()) == ([], e.value)
    {
      hide DecodeChunks, Then, Decode, TagsAdd;
      NothingThen(DecodeChunks(log, header, prefix, src, index, ending));
      var n, last, chunk := OpenNext(log, header, prefix, src, index, counter, ending);
      match chunk
      case Failure(v) =>
        return Some(v);
      case Opened(pt) =>
        counter := (counter + 1) % COUNTERS;
        index := index + 1;
        plain, done, src := pt, last, src[n..];
        return None;
    }

    /**
     Reads up to n bytes. What is delivered is the front of what was still to come, and the end is
     reported only when nothing was; the loop runs at most twice.
     */
    method Read(n: nat) returns (data: bytes, r: ReadResult, ghost rounds: nat)
      requires Valid()
      modifies this
      ensures Valid() && rounds <= 2
      ensures r == Data ==> |data| <= n && old(Rest()) == Then(data, Rest()) && (n > 0 ==> data != [])
      ensures r == EndOfFile ==> data == [] && old(Rest()) == ([], CleanEnd) && Rest() == old(Rest())
      ensures r.Failed? ==> data == [] && r.v != CleanEnd && old(Rest()) == ([], r.v) && Rest() == old(Rest())
    {
      rounds := 0;
      while |plain| == 0
        invariant Valid() && Rest() == old(Rest())
        invariant rounds == 0 || (rounds == 1 && (plain == [] ==> done && err == None))
        decreases 2 - rounds
      {
        rounds := rounds + 1;
        if err.Some? {
          return [], Failed(err.value), rounds;
        }
        if done {
          return [], EndOfFile, rounds;
        }
        var e := Next();
        if e.Some? {
          err := e;
          return [], Failed(e.value), rounds;
        }
      }
      var k := Min(n, |plain|);
      data := plain[..k];
      assert plain == plain[..k] + plain[k..];
      ghost var after := if err.Some? then ([], err.value) else if done then ([], CleanEnd)
                         else DecodeChunks(log, header, prefix, src, index, ending);
      ThenInPieces(plain[..k], plain[k..], after);
      plain := plain[k..];
      r := Data;
    }
  }

  lemma {:induction false} NoChunk(log: Log, header: bytes, prefix: bytes, src: bytes, index: nat, ending: Ending)
    ensures NextChunk(src, ending) == None ==> DecodeChunks(log, header, prefix, src, index, ending) == ([], SourceFailed)
    ensures src == [] && ending == AtEOF ==> DecodeChunks(log, header, prefix, src, index, ending) == ([], Truncated)
  {
  }

  lemma DecodeOne(log: Log, header: bytes, prefix: bytes, src: bytes, index: nat, ending: Ending, n: nat, last: bool)
    requires NextChunk(src, ending) == Some((n, last))
    ensures n < TAG ==> DecodeChunks(log, header, prefix, src, index, ending) == ([], Truncated)
    ensures n >= TAG ==>
              DecodeChunks(log, header, prefix, src, index, ending)
              == match Envelope.Open(log, Nonce(prefix, index, last), src[..n], header)
                 case None => ([], AuthFailed)
                 case Some(pt) =>
                   Then(pt, if last then ([], CleanEnd) else DecodeChunks(log, header, prefix, src[n..], index + 1, ending))
  {
    hide Envelope.Open, Nonce;
    if n >= TAG {
      var o := Envelope.Open(log, Nonce(prefix, index, last), src[..n], header);
      assert o.Some? ==> o.value + [] == o.value;
    }
  }

  lemma SameNonce(prefix: bytes, index: nat, last: bool)
    ensures Nonce(prefix, index % COUNTERS, last) == Nonce(prefix, index, last)
  {
  }

  ghost predicate TagsAdd(log: Log) {
    forall i :: 0 <= i < |log| ==> |log[i].ct| == |log[i].plain| + TAG
  }

  lemma {:induction false} OpenedSize(log: Log, nonce: bytes, ct: bytes, header: bytes)
    requires TagsAdd(log)
    ensures Envelope.Open(log, nonce, ct, header).Some? ==> |ct| == |Envelope.Open(log, nonce, ct, header).value| + TAG
  {
    if log != [] && !Matches(log[0], nonce, ct, header) {
      forall i | 0 <= i < |log[1..]| ensures |log[1..][i].ct| == |log[1..][i].plain| + TAG {
        assert log[1..][i] == log[i + 1];
      }
      OpenedSize(log[1..], nonce, ct, header);
    }
  }

  // ---- writing in any pieces, reading in any sizes -----------------------------------------------------------

  function Joined(pieces: seq<bytes>): bytes {
    if pieces == [] then [] else Joined(pieces[..|pieces| - 1]) + pieces[|pieces| - 1]
  }

  /** However the plaintext is split into writes, the stream is the canonical one. */
  method EncryptAll(cipher: Cipher, prefix: bytes, pieces: seq<bytes>) returns (stream: bytes, ghost log: Log)
    requires |prefix| == PREFIX
    ensures stream == Stream(cipher, prefix, Joined(pieces))
    ensures log == StreamLog(cipher, prefix, Joined(pieces))
  {
    var w := new EncryptWriter(cipher, prefix);
    for i := 0 to |pieces|
      invariant w.Open() && w.written == Joined(pieces[..i]) && fresh(w)
    {
      assert pieces[..i + 1][..i] == pieces[..i];
      var _, ok := w.Write(pieces[i]);
    }
    assert pieces[..|pieces|] == pieces;
    w.Close();
    return w.sink, w.log;
  }

  /** However the reads are sized, they deliver the decoded plaintext in order, and its verdict only at its end. */
  method DecryptAll(log: Log, src: bytes, ending: Ending, sizes: seq<nat>) returns (out: bytes, r: ReadResult)
    requires TagsAdd(log)
    ensures out <= Decode(log, src, ending).0
    ensures r == EndOfFile ==> Decode(log, src, ending) == (out, CleanEnd)
    ensures r.Failed? ==> Decode(log, src, ending) == (out, r.v) && r.v != CleanEnd
    ensures (forall i :: 0 <= i < |sizes| ==> sizes[i] > 0) && |sizes| > |Decode(log, src, ending).0| ==> r != Data
  {
    var d := new DecryptReader(log, src, ending);
    ghost var all := Decode(log, src, ending);
    out, r := [], Data;
    for i := 0 to |sizes|
      invariant d.Valid() && fresh(d)
      invariant out + d.Rest().0 == all.0 && d.Rest().1 == all.1
      invariant r == Data
      invariant (forall j :: 0 <= j < i ==> sizes[j] > 0) ==> |out| >= i
    {
      var data, result, _ := d.Read(sizes[i]);
      r := result;
      if r != Data {
        assert out + [] == out;
        return;
      }
      out := out + data;
    }
  }

  /** Writing in any pieces and reading back in any sizes returns the plaintext, then a clean end. */
  method RoundTrip(cipher: Cipher, prefix: bytes, pieces: seq<bytes>, sizes: seq<nat>) returns (out: bytes, r: ReadResult)
    requires AddsTag(cipher) && |prefix| == PREFIX && FullChunks(|Joined(pieces)|) < COUNTERS
    ensures out <= Joined(pieces) && !r.Failed?
    ensures r == EndOfFile ==> out == Joined(pieces)
    ensures (forall i :: 0 <= i < |sizes| ==> sizes[i] > 0) && |sizes| > |Joined(pieces)| ==> r == EndOfFile
  {
    var stream, log := EncryptAll(cipher, prefix, pieces);
    var p := Joined(pieces);
    StreamRecords(cipher, prefix, p);
    OnlyTheStreamReadsCleanly(cipher, prefix, p, stream, AtEOF);
    out, r := DecryptAll(StreamLog(cipher, prefix, p), stream, AtEOF, sizes);
  }
}
