/**
 The encrypted backup stream (internal/backup/envelope.go): its format, what an ideal authenticated
 cipher accepts of it, and the plaintext a reader is entitled to.

 The cipher is an ideal AEAD: sealing records (nonce, header, plaintext, ciphertext) in a log, and
 opening succeeds only on a recorded triple of nonce, ciphertext and header.
 */
module Envelope {
  import opened Option

  type byte = x: int | 0 <= x < 256
  type bytes = seq<byte>

  const CHUNK := 1_048_576
  const TAG := 16
  const HEADER := 16
  const PREFIX := 7
  const VERSION: byte := 1
  const MAGIC: bytes := [67, 66, 75, 80]
  // The counter in the nonce is 32 bits wide and wraps.
  const COUNTERS := 0x1_0000_0000

  // ---- format --------------------------------------------------------------------------------------

  function BigEndian16(n: int): bytes
    requires 0 <= n < 0x1_0000
  {
    [n / 256, n % 256]
  }

  function BigEndian32(n: int): bytes
    requires 0 <= n < COUNTERS
  {
    BigEndian16(n / 0x1_0000) + BigEndian16(n % 0x1_0000)
  }

  function Nonce(prefix: bytes, index: nat, last: bool): bytes {
    prefix + BigEndian32(index % COUNTERS) + [if last then 1 else 0]
  }

  function HeaderOf(prefix: bytes): bytes {
    MAGIC + [VERSION] + BigEndian32(CHUNK) + prefix
  }

  /** The header: "CBKP", version 1, the chunk size 1 MiB with its most significant byte first, and the prefix. */
  lemma {:induction false} HeaderBytes(prefix: bytes)
    ensures HeaderOf(prefix) == [67, 66, 75, 80, 1, 0, 16, 0, 0] + prefix
  {
  }

  /** A nonce: the prefix, the position modulo 2^32 with its most significant byte first, and the last flag. */
  lemma {:induction false} NonceBytes(prefix: bytes, index: nat, last: bool)
    requires |prefix| == 7
    ensures var n := Nonce(prefix, index, last);
            && |n| == 12 && n[..7] == prefix && n[11] == (if last then 1 else 0)
            && n[7] as int * 16_777_216 + n[8] as int * 65_536 + n[9] as int * 256 + n[10] as int == index % 4_294_967_296
  {
    var v := index % COUNTERS;
    var x := BigEndian32(v);
    assert x[0] == v / 0x1_0000 / 256 && x[1] == v / 0x1_0000 % 256 && x[2] == v % 0x1_0000 / 256 && x[3] == v % 0x1_0000 % 256;
    var n := Nonce(prefix, index, last);
    assert n[7..11] == x;
    assert n[7] == x[0] && n[8] == x[1] && n[9] == x[2] && n[10] == x[3];
  }

  // seal(nonce, plaintext, header)
  datatype Cipher = Cipher(seal: (bytes, bytes, bytes) -> bytes)

  ghost predicate AddsTag(c: Cipher) {
    forall n, p, a :: |c.seal(n, p, a)| == |p| + TAG
  }

  datatype Record = Record(nonce: bytes, header: bytes, plain: bytes, ct: bytes)

  type Log = seq<Record>

  function SealChunk(c: Cipher, prefix: bytes, chunk: bytes, index: nat, last: bool): Record {
    var nonce, header := Nonce(prefix, index, last), HeaderOf(prefix);
    Record(nonce, header, chunk, c.seal(nonce, chunk, header))
  }

  // The number of chunks before the last one: every one of them is full and more data followed.
  function FullChunks(n: nat): nat {
    if n == 0 then 0 else (n - 1) / CHUNK
  }

  // The records of the first k full chunks of p.
  function FullLog(c: Cipher, prefix: bytes, p: bytes, k: nat): (log: Log)
    requires k * CHUNK <= |p|
    ensures |log| == k
  {
    if k == 0 then []
    else FullLog(c, prefix, p, k - 1) + [SealChunk(c, prefix, p[(k - 1) * CHUNK..k * CHUNK], k - 1, false)]
  }

  function StreamLog(c: Cipher, prefix: bytes, p: bytes): (log: Log)
    ensures |log| == FullChunks(|p|) + 1
  {
    var k := FullChunks(|p|);
    FullLog(c, prefix, p, k) + [SealChunk(c, prefix, p[k * CHUNK..], k, true)]
  }

  function Ciphertext(log: Log): bytes {
    if log == [] then [] else Ciphertext(log[..|log| - 1]) + log[|log| - 1].ct
  }

  function Stream(c: Cipher, prefix: bytes, p: bytes): bytes {
    HeaderOf(prefix) + Ciphertext(StreamLog(c, prefix, p))
  }

  // ---- the ideal cipher and the reader's result --------------------------------------------------------

  predicate Matches(r: Record, nonce: bytes, ct: bytes, header: bytes) {
    r.nonce == nonce && r.ct == ct && r.header == header
  }

  function Open(log: Log, nonce: bytes, ct: bytes, header: bytes): Option<bytes> {
    if log == [] then None
    else if Matches(log[0], nonce, ct, header) then Some(log[0].plain)
    else Open(log[1..], nonce, ct, header)
  }

  // How a source of bytes ends: cleanly, or with a read error.
  datatype Ending = AtEOF | AtError

  datatype Verdict = CleanEnd | Truncated | AuthFailed | NotABackup | SourceFailed

  predicate HeaderAccepted(h: bytes) {
    |h| == HEADER && h[..4] == MAGIC && h[4] == VERSION && h[5..9] == BigEndian32(CHUNK)
  }

  // The chunk at the front of rest, and whether it is the last: None when the source fails instead.
  function NextChunk(rest: bytes, ending: Ending): Option<(nat, bool)> {
    if |rest| >= CHUNK + TAG then
      if |rest| > CHUNK + TAG then Some((CHUNK + TAG, false))
      else if ending == AtEOF then Some((CHUNK + TAG, true))
      else None
    else if ending == AtEOF then Some((|rest|, true))
    else None
  }

  function DecodeChunks(log: Log, header: bytes, prefix: bytes, rest: bytes, index: nat, ending: Ending): (r: (bytes, Verdict))
    decreases |rest|
  {
    match NextChunk(rest, ending)
    case None => ([], SourceFailed)
    case Some((n, last)) =>
      if n < TAG then ([], Truncated)
      else
        match Open(log, Nonce(prefix, index, last), rest[..n], header)
        case None => ([], AuthFailed)
        case Some(plain) =>
          if last then (plain, CleanEnd)
          else
            var (more, v) := DecodeChunks(log, header, prefix, rest[n..], index + 1, ending);
            (plain + more, v)
  }

  function Decode(log: Log, s: bytes, ending: Ending): (bytes, Verdict) {
    if |s| < HEADER then ([], Truncated)
    else if !HeaderAccepted(s[..HEADER]) then ([], NotABackup)
    else DecodeChunks(log, s[..HEADER], s[9..HEADER], s[HEADER..], 0, ending)
  }

  /** What is no backup: 16 bytes that do not begin with the fixed nine. Fewer bytes are a truncated one. */
  lemma {:induction false} NotABackupExactly(log: Log, s: bytes, ending: Ending)
    ensures |s| < 16 ==> Decode(log, s, ending) == ([], Truncated)
    ensures Decode(log, s, ending).1 == NotABackup <==> |s| >= 16 && s[..9] != [67, 66, 75, 80, 1, 0, 16, 0, 0]
  {
    if |s| >= 16 {
      var h := s[..16];
      assert BigEndian32(CHUNK) == [0, 16, 0, 0];
      assert s[..9] == h[..4] + [h[4]] + h[5..9];
      if s[..9] == [67, 66, 75, 80, 1, 0, 16, 0, 0] {
        assert h[..4] == s[..9][..4] && h[4] == s[..9][4] && h[5..9] == s[..9][5..9];
      }
      HowItEnds(log, h, s[9..16], s[16..], 0, ending);
    }
  }

  /**
   Which verdict a body of chunks gets. A source that fails ends the reading with its failure or with a chunk
   that does not open; only a source that ends can be found truncated, and it is when less than a tag follows.
   */
  lemma {:induction false} HowItEnds(log: Log, header: bytes, prefix: bytes, rest: bytes, index: nat, ending: Ending)
    ensures var v := DecodeChunks(log, header, prefix, rest, index, ending).1;
            && v in (if ending == AtError then {SourceFailed, AuthFailed} else {CleanEnd, Truncated, AuthFailed})
            && (ending == AtError && |rest| <= 1_048_592 ==> v == SourceFailed)
            && (ending == AtEOF && |rest| <= 1_048_592 ==> (v == Truncated <==> |rest| < 16))
    decreases |rest|
  {
    hide Open, Nonce;
    if |rest| > 1_048_592 {
      HowItEnds(log, header, prefix, rest[1_048_592..], index + 1, ending);
    }
  }

  // ---- canonical chunking ------------------------------------------------------------------------------

  lemma {:induction false} FullLogLength(c: Cipher, prefix: bytes, p: bytes, k: nat)
    requires k * CHUNK <= |p|
    ensures |FullLog(c, prefix, p, k)| == k
    ensures forall i :: 0 <= i < k ==> FullLog(c, prefix, p, k)[i] == SealChunk(c, prefix, p[i * CHUNK..(i + 1) * CHUNK], i, false)
  {
    if k > 0 {
      FullLogLength(c, prefix, p, k - 1);
    }
  }

  // Later data does not change the chunks already cut.
  lemma {:induction false} FullLogIsStable(c: Cipher, prefix: bytes, p: bytes, q: bytes, k: nat)
    requires k * CHUNK <= |p| && p <= q
    ensures FullLog(c, prefix, q, k) == FullLog(c, prefix, p, k)
  {
    if k > 0 {
      FullLogIsStable(c, prefix, p, q, k - 1);
      assert q[(k - 1) * CHUNK..k * CHUNK] == p[(k - 1) * CHUNK..k * CHUNK];
    }
  }

  function ChunkAt(p: bytes, i: nat): bytes
    requires i <= FullChunks(|p|)
  {
    if i < FullChunks(|p|) then p[i * CHUNK..(i + 1) * CHUNK] else p[i * CHUNK..]
  }

  /** The stream's records, chunk by chunk: full chunks, then one last chunk, empty only for no data. */
  lemma StreamRecords(c: Cipher, prefix: bytes, p: bytes)
    ensures var k := FullChunks(|p|);
            && |StreamLog(c, prefix, p)| == k + 1
            && (forall i :: 0 <= i <= k ==> StreamLog(c, prefix, p)[i] == SealChunk(c, prefix, ChunkAt(p, i), i, i == k))
            && (forall i :: 0 <= i < k ==> |ChunkAt(p, i)| == 1_048_576)
            && |ChunkAt(p, k)| <= 1_048_576
            && (|ChunkAt(p, k)| == 0 <==> p == [])
  {
    FullLogLength(c, prefix, p, FullChunks(|p|));
  }

  // ---- nonces --------------------------------------------------------------------------------------------

  lemma BigEndianInjective(a: int, b: int)
    requires 0 <= a < COUNTERS && 0 <= b < COUNTERS && BigEndian32(a) == BigEndian32(b)
    ensures a == b
  {
    var x, y := BigEndian32(a), BigEndian32(b);
    assert x[0] == a / 0x1_0000 / 256 && x[1] == a / 0x1_0000 % 256 && x[2] == a % 0x1_0000 / 256 && x[3] == a % 0x1_0000 % 256;
    assert y[0] == b / 0x1_0000 / 256 && y[1] == b / 0x1_0000 % 256 && y[2] == b % 0x1_0000 / 256 && y[3] == b % 0x1_0000 % 256;
    SameDigits(a / 0x1_0000, b / 0x1_0000, 256);
    SameDigits(a % 0x1_0000, b % 0x1_0000, 256);
    SameDigits(a, b, 0x1_0000);
  }

  lemma SameDigits(a: int, b: int, base: int)
    requires base > 0 && a / base == b / base && a % base == b % base
    ensures a == b
  {
    assert a == base * (a / base) + a % base && b == base * (b / base) + b % base;
  }

  /** Two nonces under one prefix agree exactly when their counters agree modulo 2^32 and so do their last flags. */
  lemma NonceCollision(prefix: bytes, i: nat, j: nat, iLast: bool, jLast: bool)
    ensures Nonce(prefix, i, iLast) == Nonce(prefix, j, jLast) <==> i % COUNTERS == j % COUNTERS && iLast == jLast
  {
    var a, b := Nonce(prefix, i, iLast), Nonce(prefix, j, jLast);
    if a == b {
      var n := |prefix|;
      assert a[n..n + 4] == BigEndian32(i % COUNTERS) && b[n..n + 4] == BigEndian32(j % COUNTERS);
      BigEndianInjective(i % COUNTERS, j % COUNTERS);
      assert a[n + 4] == b[n + 4];
    }
  }

  ghost predicate DistinctNonces(log: Log) {
    forall i, j :: 0 <= i < j < |log| ==> log[i].nonce != log[j].nonce
  }

  /** The nonces of one stream are all different exactly when it has at most 2^32 + 1 chunks. */
  lemma NoncesAreDistinct(c: Cipher, prefix: bytes, p: bytes)
    ensures DistinctNonces(StreamLog(c, prefix, p)) <==> FullChunks(|p|) <= COUNTERS
  {
    hide Nonce, StreamLog, ChunkAt;
    var log, k := StreamLog(c, prefix, p), FullChunks(|p|);
    StreamRecords(c, prefix, p);
    if k <= COUNTERS {
      forall i, j | 0 <= i < j < |log| ensures log[i].nonce != log[j].nonce {
        NonceCollision(prefix, i, j, i == k, j == k);
      }
    } else {
      NonceCollision(prefix, 0, COUNTERS, false, false);
      assert log[0].nonce == log[COUNTERS].nonce;
    }
  }

  // ---- what a reader gets out of a stream, or of anything else -----------------------------------------------

  lemma {:induction false} OpenFinds(log: Log, i: nat, nonce: bytes, ct: bytes, header: bytes)
    requires DistinctNonces(log) && i < |log| && log[i].nonce == nonce
    ensures Open(log, nonce, ct, header) == if log[i].ct == ct && log[i].header == header then Some(log[i].plain) else None
  {
    if i == 0 {
      if !Matches(log[0], nonce, ct, header) {
        forall j | 1 <= j < |log| ensures !Matches(log[j], nonce, ct, header) {
          assert log[0].nonce != log[j].nonce;
        }
        OpenMisses(log[1..], nonce, ct, header);
      }
    } else {
      assert log[0].nonce != log[i].nonce;
      assert log[1..][i - 1] == log[i];
      OpenFinds(log[1..], i - 1, nonce, ct, header);
    }
  }

  lemma {:induction false} OpenMisses(log: Log, nonce: bytes, ct: bytes, header: bytes)
    requires forall j :: 0 <= j < |log| ==> !Matches(log[j], nonce, ct, header)
    ensures Open(log, nonce, ct, header) == None
  {
    if log != [] {
      forall j | 0 <= j < |log[1..]| ensures !Matches(log[1..][j], nonce, ct, header) {
        assert log[1..][j] == log[j + 1];
      }
      OpenMisses(log[1..], nonce, ct, header);
    }
  }

  // At chunk position i of a stream of at most 2^32 chunks, exactly that stream's chunk i opens.
  lemma {:induction false} OpensOnlyInPlace(c: Cipher, prefix: bytes, p: bytes, i: nat, last: bool, ct: bytes)
    requires FullChunks(|p|) < COUNTERS && i <= FullChunks(|p|)
    ensures var k := FullChunks(|p|);
            var r := SealChunk(c, prefix, ChunkAt(p, i), i, i == k);
            Open(StreamLog(c, prefix, p), Nonce(prefix, i, last), ct, HeaderOf(prefix))
              == if last == (i == k) && ct == r.ct then Some(ChunkAt(p, i)) else None
  {
    hide Nonce, StreamLog, ChunkAt, Open, DistinctNonces, HeaderOf;
    var log, k := StreamLog(c, prefix, p), FullChunks(|p|);
    StreamRecords(c, prefix, p);
    NoncesAreDistinct(c, prefix, p);
    if last == (i == k) {
      OpenFinds(log, i, Nonce(prefix, i, last), ct, HeaderOf(prefix));
    } else {
      forall j | 0 <= j < |log| ensures !Matches(log[j], Nonce(prefix, i, last), ct, HeaderOf(prefix)) {
        NonceCollision(prefix, i, j, last, j == k);
      }
      OpenMisses(log, Nonce(prefix, i, last), ct, HeaderOf(prefix));
    }
  }

  lemma {:induction false} OtherHeaderNeverOpens(c: Cipher, prefix: bytes, p: bytes, header: bytes, nonce: bytes, ct: bytes)
    requires header != HeaderOf(prefix)
    ensures Open(StreamLog(c, prefix, p), nonce, ct, header) == None
  {
    StreamRecords(c, prefix, p);
    OpenMisses(StreamLog(c, prefix, p), nonce, ct, header);
  }

  lemma {:induction false} CiphertextSplits(log: Log, i: nat)
    requires i < |log|
    ensures Ciphertext(log[i..]) == log[i].ct + Ciphertext(log[i + 1..])
    decreases |log|
  {
    var n := |log| - 1;
    if i == n {
      assert log[i..] == [log[i]] && log[i + 1..] == [];
      assert Ciphertext(log[i..]) == Ciphertext([]) + log[i].ct;
    } else {
      assert log[i..][..|log[i..]| - 1] == log[..n][i..];
      assert log[i + 1..][..|log[i + 1..]| - 1] == log[..n][i + 1..];
      CiphertextSplits(log[..n], i);
    }
  }

  // The reader at chunk i, over any remaining bytes.
  ghost predicate ReadsRight(p: bytes, i: nat, expected: bytes, rest: bytes, ending: Ending, got: (bytes, Verdict))
    requires i * CHUNK <= |p|
  {
    && got.0 <= p[i * CHUNK..]
    && (got.1 == CleanEnd <==> rest == expected && ending == AtEOF)
    && (got.1 == CleanEnd ==> got.0 == p[i * CHUNK..])
  }

  lemma {:induction false} DecodesInPlace(c: Cipher, prefix: bytes, p: bytes, rest: bytes, i: nat, ending: Ending)
    requires AddsTag(c) && FullChunks(|p|) < COUNTERS && i <= FullChunks(|p|)
    ensures ReadsRight(p, i, Ciphertext(StreamLog(c, prefix, p)[i..]), rest, ending,
                       DecodeChunks(StreamLog(c, prefix, p), HeaderOf(prefix), prefix, rest, i, ending))
    decreases |rest|
  {
    hide Open, Nonce, Ciphertext, StreamLog;
    var log, k := StreamLog(c, prefix, p), FullChunks(|p|);
    var r := SealChunk(c, prefix, ChunkAt(p, i), i, i == k);
    var expected := Ciphertext(log[i..]);
    StreamRecords(c, prefix, p);
    CiphertextSplits(log, i);
    assert |r.ct| == |ChunkAt(p, i)| + TAG;
    if i == k {
      assert log[i + 1..] == [];
      NoCiphertext();
    } else {
      MoreFollows(c, prefix, p, i);
    }
    match NextChunk(rest, ending) {
      case None =>
      case Some((n, last)) =>
        if n >= TAG {
          OpensOnlyInPlace(c, prefix, p, i, last, rest[..n]);
          if last == (i == k) && rest[..n] == r.ct && !last {
            DecodesInPlace(c, prefix, p, rest[n..], i + 1, ending);
            assert p[i * CHUNK..] == ChunkAt(p, i) + p[(i + 1) * CHUNK..];
            assert rest == rest[..n] + rest[n..];
          }
        }
    }
  }

  lemma NoCiphertext()
    ensures Ciphertext([]) == []
  {
  }

  // Every chunk but the last is followed by at least a tag.
  lemma MoreFollows(c: Cipher, prefix: bytes, p: bytes, i: nat)
    requires AddsTag(c) && i < FullChunks(|p|)
    ensures |Ciphertext(StreamLog(c, prefix, p)[i + 1..])| >= TAG
  {
    StreamRecords(c, prefix, p);
    CiphertextSplits(StreamLog(c, prefix, p), i + 1);
  }

  lemma HeaderIsAccepted(prefix: bytes)
    requires |prefix| == PREFIX
    ensures |HeaderOf(prefix)| == HEADER && HeaderAccepted(HeaderOf(prefix)) && HeaderOf(prefix)[9..HEADER] == prefix
  {
  }

  /**
   Whatever bytes are presented under the key of one stream of at most 2^32 chunks, the reader hands
   out a prefix of that stream's plaintext, and ends cleanly exactly on the stream itself, having
   then handed out all of it. Truncating, reordering, extending or altering ends in an error.
   */
  lemma OnlyTheStreamReadsCleanly(c: Cipher, prefix: bytes, p: bytes, s: bytes, ending: Ending)
    requires AddsTag(c) && |prefix| == PREFIX && FullChunks(|p|) < COUNTERS
    ensures var (got, v) := Decode(StreamLog(c, prefix, p), s, ending);
            && got <= p
            && (v == CleanEnd <==> s == Stream(c, prefix, p) && ending == AtEOF)
            && (v == CleanEnd ==> got == p)
  {
    hide Open, Nonce, Ciphertext, StreamLog;
    var log := StreamLog(c, prefix, p);
    HeaderIsAccepted(prefix);
    assert log[0..] == log && p[0 * CHUNK..] == p;
    if |s| >= HEADER && HeaderAccepted(s[..HEADER]) {
      if s[..HEADER] == HeaderOf(prefix) {
        assert s[9..HEADER] == s[..HEADER][9..HEADER];
        DecodesInPlace(c, prefix, p, s[HEADER..], 0, ending);
        assert s == s[..HEADER] + s[HEADER..];
        assert Stream(c, prefix, p)[..HEADER] == HeaderOf(prefix) && Stream(c, prefix, p)[HEADER..] == Ciphertext(log);
      } else {
        ForeignHeader(c, prefix, p, s[..HEADER], s[9..HEADER], s[HEADER..], ending);
        assert Stream(c, prefix, p)[..HEADER] == HeaderOf(prefix);
      }
    }
  }

  lemma {:induction false} ForeignHeader(c: Cipher, prefix: bytes, p: bytes, header: bytes, other: bytes, rest: bytes,
          ending: Ending)
    requires header != HeaderOf(prefix)
    ensures DecodeChunks(StreamLog(c, prefix, p), header, other, rest, 0, ending).0 == []
    ensures DecodeChunks(StreamLog(c, prefix, p), header, other, rest, 0, ending).1 != CleanEnd
  {
    hide Open, StreamLog;
    match NextChunk(rest, ending)
    case None =>
    case Some((n, last)) =>
      if n >= TAG {
        OtherHeaderNeverOpens(c, prefix, p, header, Nonce(other, 0, last), rest[..n]);
      }
  }

  /**
   Past 2^32 chunks the promise fails: the position 2^32 accepts the stream's first chunk again,
   because the counter has come round.
   */
  lemma CounterComesRound(c: Cipher, prefix: bytes, p: bytes)
    requires FullChunks(|p|) >= COUNTERS
    ensures var log := StreamLog(c, prefix, p);
            && |log| > COUNTERS
            && Open(log, Nonce(prefix, COUNTERS, false), log[0].ct, HeaderOf(prefix)) == Some(ChunkAt(p, 0))
  {
    var log := StreamLog(c, prefix, p);
    StreamRecords(c, prefix, p);
    NonceCollision(prefix, 0, COUNTERS, false, false);
    assert Matches(log[0], Nonce(prefix, COUNTERS, false), log[0].ct, HeaderOf(prefix));
  }

  // Decryption gives the plaintext back, so two plaintexts never have the same ciphertext.
  ghost predicate Injective(c: Cipher) {
    forall n, p, q, a :: c.seal(n, p, a) == c.seal(n, q, a) ==> p == q
  }

  lemma {:induction false} OpenAgrees(log: Log, i: nat, nonce: bytes, ct: bytes, header: bytes)
    requires i < |log| && Matches(log[i], nonce, ct, header)
    requires forall j :: 0 <= j < |log| && Matches(log[j], nonce, ct, header) ==> log[j].plain == log[i].plain
    ensures Open(log, nonce, ct, header) == Some(log[i].plain)
  {
    if !Matches(log[0], nonce, ct, header) {
      assert log[1..][i - 1] == log[i];
      OpenAgrees(log[1..], i - 1, nonce, ct, header);
    }
  }

  // A chunk opens at every position with the same counter.
  lemma {:induction false} OpensAgain(c: Cipher, prefix: bytes, p: bytes, i: nat, pos: nat)
    requires Injective(c) && i <= FullChunks(|p|) && pos % COUNTERS == i % COUNTERS
    ensures var log := StreamLog(c, prefix, p);
            Open(log, Nonce(prefix, pos, i == FullChunks(|p|)), log[i].ct, HeaderOf(prefix)) == Some(ChunkAt(p, i))
  {
    hide Nonce, StreamLog, ChunkAt, Open, HeaderOf;
    var log, last := StreamLog(c, prefix, p), i == FullChunks(|p|);
    var nonce := Nonce(prefix, pos, last);
    StreamRecords(c, prefix, p);
    NonceCollision(prefix, i, pos, last, last);
    forall j | 0 <= j < |log| && Matches(log[j], nonce, log[i].ct, HeaderOf(prefix)) ensures log[j].plain == log[i].plain {
      assert c.seal(nonce, log[j].plain, HeaderOf(prefix)) == c.seal(nonce, log[i].plain, HeaderOf(prefix));
    }
    OpenAgrees(log, i, nonce, log[i].ct, HeaderOf(prefix));
  }

  // Where the counter fits, the reader takes the stream from chunk i to its end.
  lemma {:induction false} DecodesAgain(c: Cipher, prefix: bytes, p: bytes, i: nat, pos: nat)
    requires AddsTag(c) && Injective(c) && i <= FullChunks(|p|) && pos % COUNTERS == i % COUNTERS
    ensures var log := StreamLog(c, prefix, p);
            DecodeChunks(log, HeaderOf(prefix), prefix, Ciphertext(log[i..]), pos, AtEOF) == (p[i * CHUNK..], CleanEnd)
    decreases FullChunks(|p|) - i
  {
    hide Open, Nonce, Ciphertext, StreamLog, HeaderOf;
    var log, k := StreamLog(c, prefix, p), FullChunks(|p|);
    StreamRecords(c, prefix, p);
    CiphertextSplits(log, i);
    OpensAgain(c, prefix, p, i, pos);
    var rest, more := Ciphertext(log[i..]), Ciphertext(log[i + 1..]);
    assert |log[i].ct| == |ChunkAt(p, i)| + TAG;
    assert rest[..|log[i].ct|] == log[i].ct && rest[|log[i].ct|..] == more;
    if i == k {
      assert log[i + 1..] == [];
      NoCiphertext();
    } else {
      MoreFollows(c, prefix, p, i);
      SameCounterNext(i, pos);
      DecodesAgain(c, prefix, p, i + 1, pos + 1);
      assert p[i * CHUNK..] == ChunkAt(p, i) + p[(i + 1) * CHUNK..];
    }
  }

  lemma SameCounterNext(i: nat, pos: nat)
    requires pos % COUNTERS == i % COUNTERS
    ensures (pos + 1) % COUNTERS == (i + 1) % COUNTERS
  {
  }

  // The chunks from i up to 2^32, and then the whole stream once more.
  lemma {:induction false} DecodesTwice(c: Cipher, prefix: bytes, p: bytes, i: nat)
    requires AddsTag(c) && Injective(c) && i <= COUNTERS <= FullChunks(|p|)
    ensures var log := StreamLog(c, prefix, p);
            DecodeChunks(log, HeaderOf(prefix), prefix, Ciphertext(log[i..COUNTERS]) + Ciphertext(log), i, AtEOF)
              == (p[i * CHUNK..COUNTERS * CHUNK] + p, CleanEnd)
    decreases COUNTERS - i
  {
    hide Open, Nonce, Ciphertext, StreamLog, HeaderOf;
    var log := StreamLog(c, prefix, p);
    StreamRecords(c, prefix, p);
    if i == COUNTERS {
      NoCiphertext();
      assert log[i..COUNTERS] == [] && log[0..] == log && p[0 * CHUNK..] == p;
      DecodesAgain(c, prefix, p, 0, COUNTERS);
      assert Ciphertext(log[i..COUNTERS]) + Ciphertext(log) == Ciphertext(log[0..]);
      assert p[i * CHUNK..COUNTERS * CHUNK] + p == p;
    } else {
      var rest, more := Ciphertext(log[i..COUNTERS]) + Ciphertext(log), Ciphertext(log[i + 1..COUNTERS]) + Ciphertext(log);
      CiphertextSplits(log[..COUNTERS], i);
      assert log[..COUNTERS][i..] == log[i..COUNTERS] && log[..COUNTERS][i + 1..] == log[i + 1..COUNTERS];
      OpensAgain(c, prefix, p, i, i);
      assert |log[i].ct| == CHUNK + TAG;
      assert rest[..CHUNK + TAG] == log[i].ct && rest[CHUNK + TAG..] == more;
      StreamIsLong(c, prefix, p);
      DecodesTwice(c, prefix, p, i + 1);
      assert p[i * CHUNK..COUNTERS * CHUNK] + p == ChunkAt(p, i) + (p[(i + 1) * CHUNK..COUNTERS * CHUNK] + p);
    }
  }

  lemma StreamIsLong(c: Cipher, prefix: bytes, p: bytes)
    requires AddsTag(c)
    ensures |Ciphertext(StreamLog(c, prefix, p))| >= TAG
  {
    StreamRecords(c, prefix, p);
    CiphertextSplits(StreamLog(c, prefix, p), 0);
  }

  // The first 2^32 chunks, and then the whole stream once more.
  function Repeated(c: Cipher, prefix: bytes, p: bytes): bytes
    requires FullChunks(|p|) >= COUNTERS
  {
    HeaderOf(prefix) + (Ciphertext(StreamLog(c, prefix, p)[..COUNTERS]) + Ciphertext(StreamLog(c, prefix, p)))
  }

  lemma {:induction false} RepeatedReadsCleanly(c: Cipher, prefix: bytes, p: bytes)
    requires AddsTag(c) && Injective(c) && |prefix| == PREFIX && FullChunks(|p|) >= COUNTERS
    ensures Decode(StreamLog(c, prefix, p), Repeated(c, prefix, p), AtEOF) == (p[..COUNTERS * CHUNK] + p, CleanEnd)
    ensures Repeated(c, prefix, p) != Stream(c, prefix, p)
  {
    hide Open, Nonce, Ciphertext, StreamLog, HeaderOf, HeaderAccepted;
    var log, s := StreamLog(c, prefix, p), Repeated(c, prefix, p);
    HeaderIsAccepted(prefix);
    DecodesTwice(c, prefix, p, 0);
    assert log[0..COUNTERS] == log[..COUNTERS] && p[0 * CHUNK..COUNTERS * CHUNK] == p[..COUNTERS * CHUNK];
    assert s[..HEADER] == HeaderOf(prefix) && s[9..HEADER] == s[..HEADER][9..HEADER];
    assert s[HEADER..] == Ciphertext(log[..COUNTERS]) + Ciphertext(log);
    StreamRecords(c, prefix, p);
    CiphertextSplits(log[..COUNTERS], 0);
    assert log[..COUNTERS][0..] == log[..COUNTERS];
  }

  /** A clean end proves the stream exactly as long as it has at most 2^32 chunks. */
  lemma {:induction false} CleanEndProvesStream(c: Cipher, prefix: bytes, p: bytes)
    requires AddsTag(c) && Injective(c) && |prefix| == PREFIX
    ensures (forall s, ending :: Decode(StreamLog(c, prefix, p), s, ending).1 == CleanEnd ==> s == Stream(c, prefix, p))
            <==> FullChunks(|p|) < COUNTERS
  {
    hide Decode, StreamLog, Stream, Repeated;
    if FullChunks(|p|) < COUNTERS {
      forall s, ending | Decode(StreamLog(c, prefix, p), s, ending).1 == CleanEnd ensures s == Stream(c, prefix, p) {
        OnlyTheStreamReadsCleanly(c, prefix, p, s, ending);
      }
    } else {
      RepeatedReadsCleanly(c, prefix, p);
    }
  }
}
