/**
 The WAV writer and chunk parser (internal/aimm/sonic.go). The layout is that of RIFF files in
 Multimedia Programming Interface and Data Specifications 1.0, chapters 2 and 3.
 */
module Wav {
  type byte = b: int | 0 <= b < 256
  type bytes = seq<byte>

  datatype Result = Pcm(pcm: bytes, rate: int) | NotWav | BrokenHeader | NotPcm16Mono | DataBeforeFormat | NoData

  // "RIFF", "WAVE", "fmt " and "data".
  const RIFF: bytes := [82, 73, 70, 70]
  const WAVE: bytes := [87, 65, 86, 69]
  const FMT: bytes := [102, 109, 116, 32]
  const DATA: bytes := [100, 97, 116, 97]

  // Little-endian; wider values are cut off.
  function Le16(v: int): (r: bytes)
    ensures |r| == 2
  {
    [v % 256, v / 256 % 256]
  }

  function Le32(v: int): (r: bytes)
    ensures |r| == 4
  {
    [v % 256, v / 256 % 256, v / 65536 % 256, v / 16777216 % 256]
  }

  function Read16(b: bytes, o: nat): nat
    requires o + 2 <= |b|
  {
    b[o] as int + b[o + 1] as int * 256
  }

  function Read32(b: bytes, o: nat): nat
    requires o + 4 <= |b|
  {
    Read16(b, o) + Read16(b, o + 2) * 65536
  }

  // A fmt chunk for 16-bit mono PCM at a rate, and a data chunk's header.
  function FmtChunk(rate: int): bytes {
    FMT + Le32(16) + Le16(1) + Le16(1) + Le32(rate) + Le32(rate * 2) + Le16(2) + Le16(16)
  }

  function DataChunk(pcm: bytes): bytes {
    DATA + Le32(|pcm|) + pcm
  }

  function Riff(size: int): bytes {
    RIFF + Le32(size) + WAVE
  }

  // Writes v at o, little-endian.
  method Put32(h: array<byte>, o: nat, v: int)
    requires o + 4 <= h.Length
    modifies h
    ensures h[..o + 4] == old(h[..o]) + Le32(v)
  {
    h[o], h[o + 1], h[o + 2], h[o + 3] := v % 256, v / 256 % 256, v / 65536 % 256, v / 16777216 % 256;
    assert h[..o] == old(h[..o]) && h[o..o + 4] == Le32(v);
    assert h[..o + 4] == h[..o] + h[o..o + 4];
  }

  method Put16(h: array<byte>, o: nat, v: int)
    requires o + 2 <= h.Length
    modifies h
    ensures h[..o + 2] == old(h[..o]) + Le16(v)
  {
    h[o], h[o + 1] := v % 256, v / 256 % 256;
  }

  method Copy(h: array<byte>, o: nat, s: bytes)
    requires o + |s| <= h.Length
    modifies h
    ensures h[..o + |s|] == old(h[..o]) + s
  {
    forall k | 0 <= k < |s| {
      h[o + k] := s[k];
    }
  }

  function WavOf(pcm: bytes, rate: int): bytes {
    Riff(36 + |pcm|) + FmtChunk(rate) + DataChunk(pcm)
  }

  /** Fills the 44-byte header in place, field by field, and appends the samples. */
  method WAV(pcm: bytes, rate: int) returns (r: bytes)
    ensures r == WavOf(pcm, rate)
  {
    hide Le16, Le32, WavOf;
    var h := new byte[44](i => 0);
    Copy(h, 0, RIFF);
    Put32(h, 4, 36 + |pcm|);
    Copy(h, 8, WAVE + FMT);
    Put32(h, 16, 16);
    Put16(h, 20, 1);
    Put16(h, 22, 1);
    Put32(h, 24, rate);
    Put32(h, 28, rate * 2);
    Put16(h, 32, 2);
    Put16(h, 34, 16);
    Copy(h, 36, DATA);
    Put32(h, 40, |pcm|);
    assert h[..] == h[..44] && h[..0] == [];
    Assembled(pcm, rate);
    r := h[..] + pcm;
  }

  // The fields, written one after the other.
  lemma {:induction false} Assembled(pcm: bytes, rate: int)
    ensures [] + RIFF + Le32(36 + |pcm|) + (WAVE + FMT) + Le32(16) + Le16(1) + Le16(1) + Le32(rate) + Le32(rate * 2) + Le16(2)
            + Le16(16) + DATA + Le32(|pcm|) + pcm == WavOf(pcm, rate)
  {
    hide Le16, Le32;
  }

  /**
   The file byte by byte: little-endian sizes and rates, cut to 32 bits, around the fixed names and the
   numbers of 16-bit mono PCM.
   */
  lemma {:induction false} HeaderFields(pcm: bytes, rate: int)
    ensures var b := WavOf(pcm, rate);
            && |b| == 44 + |pcm| && b[44..] == pcm
            && b[..4] == [82, 73, 70, 70] && Number(b[4..8]) == (36 + |pcm|) % 0x1_0000_0000
            && b[8..24] == [87, 65, 86, 69, 102, 109, 116, 32, 16, 0, 0, 0, 1, 0, 1, 0]
            && Number(b[24..28]) == rate % 0x1_0000_0000 && Number(b[28..32]) == 2 * rate % 0x1_0000_0000
            && b[32..40] == [2, 0, 16, 0, 100, 97, 116, 97] && Number(b[40..44]) == |pcm| % 0x1_0000_0000
  {
    hide *;
    FixedBytes(pcm, rate);
    var b := WavOf(pcm, rate);
    var names: bytes := [87, 65, 86, 69, 102, 109, 116, 32, 16, 0, 0, 0, 1, 0, 1, 0];
    Layout([82, 73, 70, 70], Le32(36 + |pcm|), names, Le32(rate), Le32(2 * rate), [2, 0, 16, 0, 100, 97, 116, 97], Le32(|pcm|), pcm);
    LeNumber(36 + |pcm|);
    LeNumber(rate);
    LeNumber(2 * rate);
    LeNumber(|pcm|);
  }

  lemma {:induction false} FixedBytes(pcm: bytes, rate: int)
    ensures WavOf(pcm, rate) == [82, 73, 70, 70] + Le32(36 + |pcm|) + [87, 65, 86, 69, 102, 109, 116, 32, 16, 0, 0, 0, 1, 0, 1, 0]
                                + Le32(rate) + Le32(2 * rate) + [2, 0, 16, 0, 100, 97, 116, 97] + Le32(|pcm|) + pcm
  {
    hide Le32, Le16;
    var size, fast, slow, n := Le32(36 + |pcm|), Le32(rate), Le32(rate * 2), Le32(|pcm|);
    assert WavOf(pcm, rate) == RIFF + size + (WAVE + FMT + Le32(16) + Le16(1) + Le16(1)) + fast + slow + (Le16(2) + Le16(16) + DATA) + n + pcm;
    FixedNumbers();
  }

  lemma {:induction false} FixedNumbers()
    ensures WAVE + FMT + Le32(16) + Le16(1) + Le16(1) == [87, 65, 86, 69, 102, 109, 116, 32, 16, 0, 0, 0, 1, 0, 1, 0]
    ensures Le16(2) + Le16(16) + DATA == [2, 0, 16, 0, 100, 97, 116, 97]
  {
  }

  lemma {:induction false} Layout(a: bytes, b: bytes, c: bytes, d: bytes, e: bytes, f: bytes, g: bytes, p: bytes)
    requires |a| == |b| == |d| == |e| == |g| == 4 && |c| == 16 && |f| == 8
    ensures var x := a + b + c + d + e + f + g + p;
            && x[..4] == a && x[4..8] == b && x[8..24] == c && x[24..28] == d && x[28..32] == e && x[32..40] == f && x[40..44] == g
            && x[44..] == p
  {
  }

  function Number(d: bytes): int
    requires |d| == 4
  {
    d[0] as int + 256 * d[1] as int + 65536 * d[2] as int + 16777216 * d[3] as int
  }

  lemma {:induction false} LeNumber(v: int)
    ensures Number(Le32(v)) == v % 0x1_0000_0000
  {
    Digits(v);
  }

  // The chunk at pos: its name and its size.
  function ChunkName(b: bytes, pos: nat): bytes
    requires pos + 8 <= |b|
  {
    b[pos..pos + 4]
  }

  function ChunkSize(b: bytes, pos: nat): nat
    requires pos + 8 <= |b|
  {
    Read32(b, pos + 4)
  }

  // Where the chunk after the one at pos begins: chunks are padded to an even size.
  function NextChunk(b: bytes, pos: nat): nat
    requires pos + 8 <= |b|
  {
    pos + 8 + ChunkSize(b, pos) + ChunkSize(b, pos) % 2
  }

  // Parsing from a chunk on; the rate is known once a fmt chunk was seen.
  function ParseFrom(b: bytes, pos: nat, rate: int, fmtOK: bool): Result
    decreases |b| - pos
  {
    if pos + 8 > |b| then NoData
    else
      var name, size, body := ChunkName(b, pos), ChunkSize(b, pos), pos + 8;
      if name == FMT then
        if size < 16 || body + 16 > |b| then BrokenHeader
        else if Read16(b, body) != 1 || Read16(b, body + 2) != 1 || Read16(b, body + 14) != 16 then NotPcm16Mono
        else ParseFrom(b, NextChunk(b, pos), Read32(b, body + 4), true)
      else if name == DATA then
        if !fmtOK then DataBeforeFormat
        else Pcm(b[body..if body + size > |b| then |b| else body + size], rate)
      else ParseFrom(b, NextChunk(b, pos), rate, fmtOK)
  }

  function Parse(b: bytes): Result {
    if |b| < 44 || b[0..4] != RIFF || b[8..12] != WAVE then NotWav else ParseFrom(b, 12, 0, false)
  }

  lemma {:induction false} ParseStep(b: bytes, pos: nat, rate: int, fmtOK: bool)
    ensures pos + 8 > |b| ==> ParseFrom(b, pos, rate, fmtOK) == NoData
    ensures pos + 8 <= |b| ==>
              var id, size, body := b[pos..pos + 4], Read32(b, pos + 4), pos + 8;
              ParseFrom(b, pos, rate, fmtOK) ==
              if id == FMT then
                if size < 16 || body + 16 > |b| then BrokenHeader
                else if Read16(b, body) != 1 || Read16(b, body + 2) != 1 || Read16(b, body + 14) != 16 then NotPcm16Mono
                else ParseFrom(b, body + size + size % 2, Read32(b, body + 4), true)
              else if id == DATA then
                if !fmtOK then DataBeforeFormat else Pcm(b[body..if body + size > |b| then |b| else body + size], rate)
              else ParseFrom(b, body + size + size % 2, rate, fmtOK)
  {
  }

  /** What is not taken for a WAV file at all. */
  lemma {:induction false} NotWavExactly(b: bytes)
    ensures Parse(b) == NotWav <==> |b| < 44 || b[..4] != [82, 73, 70, 70] || b[8..12] != [87, 65, 86, 69]
  {
    if |b| >= 44 {
      assert b[0..4] == b[..4];
      NeverNotWav(b, 12, 0, false);
    }
  }

  lemma {:induction false} NeverNotWav(b: bytes, pos: nat, rate: int, fmtOK: bool)
    ensures ParseFrom(b, pos, rate, fmtOK) != NotWav
    decreases |b| - pos
  {
    if pos + 8 <= |b| {
      NeverNotWav(b, NextChunk(b, pos), rate, fmtOK);
      if pos + 24 <= |b| {
        NeverNotWav(b, NextChunk(b, pos), Read32(b, pos + 12), true);
      }
    }
  }

  /** Walks the chunks; it ends and stays inside the file for every byte string. */
  method PCMFromWAV(b: bytes) returns (r: Result)
    ensures r == Parse(b)
  {
    hide ParseFrom, Read16, Read32;
    if |b| < 44 || b[0..4] != RIFF || b[8..12] != WAVE {
      return NotWav;
    }
    var pos: nat, rate, fmtOK := 12, 0, false;
    ghost var parsed := Parse(b);
    while pos + 8 <= |b|
      invariant pos >= 12 && ParseFrom(b, pos, rate, fmtOK) == parsed
      decreases |b| - pos
    {
      ParseStep(b, pos, rate, fmtOK);
      var id, size := b[pos..pos + 4], Read32(b, pos + 4);
      var body := pos + 8;
      if id == FMT {
        if size < 16 || body + 16 > |b| {
          return BrokenHeader;
        }
        if Read16(b, body) != 1 || Read16(b, body + 2) != 1 || Read16(b, body + 14) != 16 {
          return NotPcm16Mono;
        }
        rate, fmtOK := Read32(b, body + 4), true;
      } else if id == DATA {
        if !fmtOK {
          return DataBeforeFormat;
        }
        var end := body + size;
        if end > |b| || size < 0 {
          end := |b|;
        }
        return Pcm(b[body..end], rate);
      }
      pos := body + size + size % 2;
    }
    ParseStep(b, pos, rate, fmtOK);
    return NoData;
  }

  // ---- files with other chunks in them -----------------------------------------------------------------

  // A chunk the parser does not know.
  datatype Chunk = Chunk(name: bytes, body: bytes)

  predicate WellFormed(c: Chunk) {
    |c.name| == 4 && c.name != FMT && c.name != DATA && |c.body| < 0x1_0000_0000
  }

  function Padding(n: nat): bytes {
    if n % 2 == 1 then [0] else []
  }

  function ChunkBytes(c: Chunk): bytes {
    c.name + Le32(|c.body|) + c.body + Padding(|c.body|)
  }

  function AllChunks(cs: seq<Chunk>): bytes {
    if cs == [] then [] else ChunkBytes(cs[0]) + AllChunks(cs[1..])
  }

  // A file with any chunks before and after the fmt chunk and any bytes after the samples.
  function File(size: int, before: seq<Chunk>, rate: int, between: seq<Chunk>, pcm: bytes, after: bytes): bytes {
    Riff(size) + AllChunks(before) + FmtChunk(rate) + AllChunks(between) + DataChunk(pcm) + after
  }

  lemma {:induction false} Digits(v: int)
    ensures v % 256 + v / 256 % 256 * 256 + (v / 65536 % 256 + v / 16777216 % 256 * 256) * 65536 == v % 0x1_0000_0000
  {
    var a, b, c := v / 256, v / 65536, v / 16777216;
    assert b == a / 256 && c == b / 256;
    assert v / 0x1_0000_0000 == c / 256;
  }

  // The middle of three pieces.
  lemma {:induction false} Middle(x: bytes, y: bytes, z: bytes)
    ensures (x + y + z)[|x|..|x| + |y|] == y
  {
  }

  lemma {:induction false} Read32At(b: bytes, o: nat, v: int)
    requires o + 4 <= |b| && b[o..o + 4] == Le32(v)
    ensures Read32(b, o) == v % 0x1_0000_0000
  {
    Digits(v);
    var d := Le32(v);
    assert b[o] == d[0] && b[o + 1] == d[1] && b[o + 2] == d[2] && b[o + 3] == d[3];
  }

  // The header of a chunk: its name and its size.
  lemma {:induction false} ReadsHeader(x: bytes, name: bytes, size: int, y: bytes)
    requires |name| == 4
    ensures var b := x + (name + Le32(size)) + y;
            ChunkName(b, |x|) == name && ChunkSize(b, |x|) == size % 0x1_0000_0000
  {
    hide Le32;
    var b := x + (name + Le32(size)) + y;
    assert b == x + name + (Le32(size) + y) == (x + name) + Le32(size) + y;
    Middle(x, name, Le32(size) + y);
    Middle(x + name, Le32(size), y);
    Read32At(b, |x| + 4, size);
  }

  // A chunk that is not known is skipped.
  lemma {:induction false} SkipsChunk(x: bytes, c: Chunk, y: bytes, rate: int, fmtOK: bool)
    requires WellFormed(c)
    ensures ParseFrom(x + ChunkBytes(c) + y, |x|, rate, fmtOK) == ParseFrom(x + ChunkBytes(c) + y, |x| + |ChunkBytes(c)|, rate, fmtOK)
  {
    hide Le32, ChunkName, ChunkSize;
    var b := x + ChunkBytes(c) + y;
    var rest := c.body + Padding(|c.body|) + y;
    assert b == x + (c.name + Le32(|c.body|)) + rest;
    ReadsHeader(x, c.name, |c.body|, rest);
  }

  lemma {:induction false} SkipsChunks(x: bytes, cs: seq<Chunk>, y: bytes, rate: int, fmtOK: bool)
    requires forall c :: c in cs ==> WellFormed(c)
    ensures ParseFrom(x + AllChunks(cs) + y, |x|, rate, fmtOK) == ParseFrom(x + AllChunks(cs) + y, |x| + |AllChunks(cs)|, rate, fmtOK)
    decreases |cs|
  {
    hide *;
    if cs == [] {
      NoChunks();
    } else {
      FirstChunk(cs);
      var first, rest := ChunkBytes(cs[0]), AllChunks(cs[1..]);
      Regroup(x, first, rest, y);
      SkipsChunk(x, cs[0], rest + y, rate, fmtOK);
      SkipsChunks(x + first, cs[1..], y, rate, fmtOK);
    }
  }

  lemma {:induction false} NoChunks()
    ensures AllChunks([]) == []
  {
  }

  lemma {:induction false} FirstChunk(cs: seq<Chunk>)
    requires cs != []
    ensures AllChunks(cs) == ChunkBytes(cs[0]) + AllChunks(cs[1..])
  {
  }

  lemma {:induction false} Regroup(x: bytes, a: bytes, b: bytes, y: bytes)
    ensures x + (a + b) + y == x + a + (b + y) == (x + a) + b + y
  {
  }

  lemma {:induction false} Read16At(x: bytes, v: int, y: bytes)
    requires 0 <= v < 65536
    ensures Read16(x + Le16(v) + y, |x|) == v
  {
    Middle(x, Le16(v), y);
    assert (x + Le16(v) + y)[|x|] == Le16(v)[0] && (x + Le16(v) + y)[|x| + 1] == Le16(v)[1];
  }

  // The fields of a fmt chunk that are looked at.
  lemma {:induction false} FormatFields(x: bytes, rate: int, y: bytes)
    ensures var b := x + FmtChunk(rate) + y;
            && ChunkName(b, |x|) == FMT && ChunkSize(b, |x|) == 16
            && Read16(b, |x| + 8) == 1 && Read16(b, |x| + 10) == 1 && Read16(b, |x| + 22) == 16
            && Read32(b, |x| + 12) == rate % 0x1_0000_0000
  {
    hide Le16, Le32, ChunkName, ChunkSize, Read16, Read32;
    var b := x + FmtChunk(rate) + y;
    var x8 := x + (FMT + Le32(16));
    var y12 := Le32(rate) + Le32(rate * 2) + Le16(2) + Le16(16) + y;
    assert b == x8 + (Le16(1) + (Le16(1) + y12));
    ReadsHeader(x, FMT, 16, Le16(1) + (Le16(1) + y12));
    assert b == x8 + Le16(1) + (Le16(1) + y12) == (x8 + Le16(1)) + Le16(1) + y12;
    Read16At(x8, 1, Le16(1) + y12);
    Read16At(x8 + Le16(1), 1, y12);
    var x12 := x8 + Le16(1) + Le16(1);
    assert b == x12 + Le32(rate) + (Le32(rate * 2) + Le16(2) + Le16(16) + y);
    Middle(x12, Le32(rate), Le32(rate * 2) + Le16(2) + Le16(16) + y);
    Read32At(b, |x| + 12, rate);
    var x22 := x12 + Le32(rate) + Le32(rate * 2) + Le16(2);
    assert b == x22 + Le16(16) + y;
    Read16At(x22, 16, y);
  }

  lemma {:induction false} ReadsFormat(x: bytes, rate: int, y: bytes, r0: int, ok: bool)
    ensures var b := x + FmtChunk(rate) + y;
            ParseFrom(b, |x|, r0, ok) == ParseFrom(b, |x| + 24, rate % 0x1_0000_0000, true)
  {
    hide Le16, Le32, ParseFrom, Read16, Read32;
    FormatFields(x, rate, y);
    ParseStep(x + FmtChunk(rate) + y, |x|, r0, ok);
  }

  lemma {:induction false} ReadsData(x: bytes, pcm: bytes, y: bytes, rate: int)
    ensures var n := |pcm| % 0x1_0000_0000;
            ParseFrom(x + DataChunk(pcm) + y, |x|, rate, true) == Pcm(pcm[..n], rate)
  {
    hide Le32, ChunkName, ChunkSize;
    var b, n := x + DataChunk(pcm) + y, |pcm| % 0x1_0000_0000;
    assert b == x + (DATA + Le32(|pcm|)) + (pcm + y);
    ReadsHeader(x, DATA, |pcm|, pcm + y);
    assert b[|x| + 8..|x| + 8 + n] == pcm[..n];
  }

  /**
   Well-formed chunks that are not known, before the format or between it and the data, and anything
   after the data change nothing. The sizes are 32 bits wide: more samples than that are cut off.
   */
  lemma {:induction false} ParsesFile(size: int, before: seq<Chunk>, rate: int, between: seq<Chunk>, pcm: bytes, after: bytes)
    requires forall c :: c in before + between ==> WellFormed(c)
    ensures Parse(File(size, before, rate, between, pcm, after)) == Pcm(pcm[..|pcm| % 0x1_0000_0000], rate % 0x1_0000_0000)
  {
    var b := File(size, before, rate, between, pcm, after);
    var head, x, y := Riff(size), AllChunks(before), AllChunks(between);
    var f, d := FmtChunk(rate), DataChunk(pcm);
    hide AllChunks, FmtChunk, DataChunk, ParseFrom, Le32;
    assert forall c :: c in before ==> c in before + between;
    assert forall c :: c in between ==> c in before + between;
    assert b == head + x + (f + y + d + after);
    SkipsChunks(head, before, f + y + d + after, 0, false);
    assert b == (head + x) + f + (y + d + after);
    ReadsFormat(head + x, rate, y + d + after, 0, false);
    FmtLength(rate);
    assert b == (head + x + f) + y + (d + after);
    SkipsChunks(head + x + f, between, d + after, rate % 0x1_0000_0000, true);
    assert b == (head + x + f + y) + d + after;
    ReadsData(head + x + f + y, pcm, after, rate % 0x1_0000_0000);
    DataLength(pcm);
  }

  lemma {:induction false} FmtLength(rate: int)
    ensures |FmtChunk(rate)| == 24
  {
  }

  lemma {:induction false} DataLength(pcm: bytes)
    ensures |DataChunk(pcm)| >= 8
  {
  }

  /** Reading back what WAV wrote gives the samples and the rate exactly when both fit 32-bit sizes. */
  lemma {:induction false} RoundTrip(pcm: bytes, rate: int)
    ensures Parse(WavOf(pcm, rate)) == Pcm(pcm, rate) <==> |pcm| < 0x1_0000_0000 && 0 <= rate < 0x1_0000_0000
  {
    hide Parse, FmtChunk, DataChunk, Riff;
    ParsesFile(36 + |pcm|, [], rate, [], pcm, []);
    assert WavOf(pcm, rate) == File(36 + |pcm|, [], rate, [], pcm, []);
    if |pcm| < 0x1_0000_0000 {
      assert pcm[..|pcm|] == pcm;
    }
  }
}
