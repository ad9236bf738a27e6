/** WAV files: the gateway's writer and readers, and the handheld's writer. */
module Wav {
  import opened Bytes
  import opened Common

  /** Packing fails with an exception when a value does not fit its field. */
  datatype File = File(data: bytes) | StructError

  const RIFF: bytes := [0x52, 0x49, 0x46, 0x46]
  const WAVE: bytes := [0x57, 0x41, 0x56, 0x45]
  const FMT: bytes := [0x66, 0x6D, 0x74, 0x20]
  const DATA: bytes := [0x64, 0x61, 0x74, 0x61]

  predicate FitsU16(v: int) {
    0 <= v < 0x1_0000
  }

  predicate FitsU32(v: int) {
    0 <= v < 0x1_0000_0000
  }

  /** Little-endian, as `struct.pack` writes "<H" and "<I". */
  function U16(v: int): bytes
    requires FitsU16(v)
  {
    [v % 0x100, v / 0x100]
  }

  function U32(v: int): bytes
    requires FitsU32(v)
  {
    [v % 0x100, v / 0x100 % 0x100, v / 0x1_0000 % 0x100, v / 0x100_0000]
  }

  function ReadU32(b: bytes): int
    requires |b| == 4
  {
    var b0: int, b1: int, b2: int, b3: int := b[0], b[1], b[2], b[3];
    b0 + 0x100 * b1 + 0x1_0000 * b2 + 0x100_0000 * b3
  }

  lemma ReadWhatWasWritten(v: int)
    requires FitsU32(v)
    ensures ReadU32(U32(v)) == v
  {
    assert v == 0x1_0000 * (v / 0x1_0000) + v % 0x1_0000;
    assert v / 0x1_0000 == 0x100 * (v / 0x100_0000) + v / 0x1_0000 % 0x100;
    assert v / 0x100 == 0x100 * (v / 0x1_0000) + v / 0x100 % 0x100;
  }

  // ----- The file layout -----

  predicate Fits(size: int, rate: int, channels: int, bits: int) {
    && FitsU32(36 + size) && FitsU32(rate) && FitsU16(channels) && FitsU16(bits)
    && FitsU32(rate * channels * bits / 8) && FitsU16(channels * bits / 8)
  }

  /** Format code 1 (PCM), channels, sample rate, byte rate, block align, bits. */
  function Format(rate: int, channels: int, bits: int): (f: bytes)
    requires Fits(0, rate, channels, bits)
    ensures |f| == 16
  {
    U16(1) + U16(channels) + U32(rate) + U32(rate * channels * bits / 8) + U16(channels * bits / 8) + U16(bits)
  }

  /** The file as the "Waveform Audio File Format (WAVE)" section of Multimedia
      Programming Interface and Data Specifications 1.0 lays it out. */
  function Layout(pcm: bytes, rate: int, channels: int, bits: int): bytes
    requires Fits(|pcm|, rate, channels, bits)
  {
    RIFF + (U32(36 + |pcm|) + (WAVE + (FMT + (U32(16) + (Format(rate, channels, bits) + (DATA + (U32(|pcm|) + pcm)))))))
  }

  function WavFile(pcm: bytes, rate: int, channels: int, bits: int): File {
    if Fits(|pcm|, rate, channels, bits) then File(Layout(pcm, rate, channels, bits)) else StructError
  }

  /** The gateway's writer appends field after field. */
  method PcmToWav(pcm: bytes, rate: int, channels: int, bits: int) returns (file: File)
    ensures file == WavFile(pcm, rate, channels, bits)
  {
    var byteRate := rate * channels * bits / 8;
    var blockAlign := channels * bits / 8;
    if !(FitsU16(channels) && FitsU32(rate) && FitsU32(byteRate) && FitsU16(blockAlign) && FitsU16(bits)) {
      return StructError;
    }
    var fmtChunk := U16(1) + U16(channels) + U32(rate) + U32(byteRate) + U16(blockAlign) + U16(bits);
    var dataSize := |pcm|;
    var fileSize := 36 + dataSize;
    if !FitsU32(fileSize) {
      return StructError;
    }
    var wav := RIFF;
    wav := wav + U32(fileSize);
    wav := wav + WAVE;
    wav := wav + FMT;
    wav := wav + U32(|fmtChunk|);
    wav := wav + fmtChunk;
    wav := wav + DATA;
    wav := wav + U32(dataSize);
    wav := wav + pcm;
    assert wav == Layout(pcm, rate, channels, bits) by {
      RegroupAll(RIFF, U32(fileSize), WAVE, FMT, U32(16), fmtChunk, DATA, U32(dataSize), pcm);
    }
    file := File(wav);
  }

  lemma RegroupAll(a: bytes, b: bytes, c: bytes, d: bytes, e: bytes, f: bytes, g: bytes, h: bytes, i: bytes)
    ensures a + b + c + d + e + f + g + h + i == a + (b + (c + (d + (e + (f + (g + (h + i)))))))
  {}

  /** The handheld's writer packs one header, for 16-bit samples, and writes it before the samples. */
  method SaveWav(pcm16: bytes, rate: int, channels: int) returns (file: File)
    ensures file == WavFile(pcm16, rate, channels, 16)
  {
    SixteenBits(rate, channels);
    var dataSize := |pcm16|;
    if !(FitsU32(dataSize + 36) && FitsU16(channels) && FitsU32(rate) && FitsU32(rate * channels * 2)
          && FitsU16(channels * 2) && FitsU32(dataSize)) {
      return StructError;
    }
    hide U16, U32;
    var header := RIFF + U32(dataSize + 36) + WAVE + FMT + U32(16)
      + (U16(1) + U16(channels) + U32(rate) + U32(rate * channels * 2) + U16(channels * 2) + U16(16))
      + DATA + U32(dataSize);
    RegroupAll(RIFF, U32(dataSize + 36), WAVE, FMT, U32(16), Format(rate, channels, 16), DATA, U32(dataSize), pcm16);
    file := File(header + pcm16);
  }

  lemma SixteenBits(rate: int, channels: int)
    ensures rate * channels * 16 / 8 == rate * channels * 2
    ensures channels * 16 / 8 == channels * 2
  {
    var product := rate * channels;
    assert product * 16 / 8 == product * 2;
  }

  // ----- Reading -----

  predicate Occurs(data: bytes, mark: bytes, i: int) {
    0 <= i && i + |mark| <= |data| && data[i..i + |mark|] == mark
  }

  /** The first occurrence of mark at i or later, or -1. */
  function FindFrom(data: bytes, mark: bytes, i: nat): (r: int)
    ensures r == -1 || (i <= r && Occurs(data, mark, r))
    ensures forall k | Occurs(data, mark, k) && i <= k :: 0 <= r <= k
    decreases |data| - i
  {
    if i + |mark| > |data| then -1
    else if Occurs(data, mark, i) then i
    else if i == |data| then -1
    else FindFrom(data, mark, i + 1)
  }

  /** The samples of a file: what follows the first "data" and its size field. */
  function ExtractPcm(wav: bytes): bytes {
    var at := FindFrom(wav, DATA, 0);
    if at == -1 then []
    else if at + 8 > |wav| then []
    else wav[at + 8..]
  }

  function SampleRateOf(wav: bytes): int {
    var at := FindFrom(wav, FMT, 0);
    if at == -1 || |wav| < at + 24 then 22050
    else ReadU32(wav[at + 12..at + 16])
  }

  // ----- Chunks -----

  /** The pieces of n bytes of a byte string; the last may be shorter. */
  function Pieces(pcm: bytes, n: nat): (r: seq<bytes>)
    requires n >= 1
    ensures Join(r) == pcm
    ensures r == [] <==> pcm == []
    ensures forall i | 0 <= i < |r| :: 1 <= |r[i]| <= n && (i < |r| - 1 ==> |r[i]| == n)
    decreases |pcm|
  {
    if pcm == [] then []
    else if |pcm| <= n then [pcm]
    else
      var more := Pieces(pcm[n..], n);
      assert pcm == pcm[..n] + pcm[n..];
      [pcm[..n]] + more
  }

  /** What is left from position i on; the loop may step past the end. */
  function From(pcm: bytes, i: nat): bytes {
    if i < |pcm| then pcm[i..] else []
  }

  /** The slice pcm[i:i+n], which the end of the bytes may cut short. */
  function Slice(pcm: bytes, i: nat, n: nat): bytes
    requires i < |pcm|
  {
    if i + n <= |pcm| then pcm[i..i + n] else pcm[i..]
  }

  method WavToPcmChunks(wav: bytes, chunkSize: nat) returns (chunks: seq<bytes>)
    requires chunkSize >= 1
    ensures chunks == Pieces(ExtractPcm(wav), chunkSize)
  {
    hide ExtractPcm, Pieces, Slice;
    var pcm := ExtractPcm(wav);
    if pcm == [] {
      return [];
    }
    chunks := [];
    var i := 0;
    assert From(pcm, 0) == pcm;
    hide From;
    while i < |pcm|
      invariant 0 <= i
      invariant chunks + Pieces(From(pcm, i), chunkSize) == Pieces(pcm, chunkSize)
    {
      FirstPiece(pcm, i, chunkSize);
      Regroup(chunks, [Slice(pcm, i, chunkSize)], Pieces(From(pcm, i + chunkSize), chunkSize));
      chunks := chunks + [Slice(pcm, i, chunkSize)];
      i := i + chunkSize;
    }
    NothingFrom(pcm, i);
  }

  lemma NothingFrom(pcm: bytes, i: nat)
    requires i >= |pcm|
    ensures From(pcm, i) == []
  {}

  lemma PiecesFirst(pcm: bytes, n: nat)
    requires n >= 1 && pcm != []
    ensures Pieces(pcm, n) == if |pcm| > n then [pcm[..n]] + Pieces(pcm[n..], n) else [pcm] + Pieces([], n)
  {}

  lemma FirstPiece(pcm: bytes, i: nat, n: nat)
    requires n >= 1 && i < |pcm|
    ensures Pieces(From(pcm, i), n) == [Slice(pcm, i, n)] + Pieces(From(pcm, i + n), n)
  {
    hide Pieces;
    var rest := pcm[i..];
    PiecesFirst(rest, n);
    if |rest| > n {
      assert rest[..n] == pcm[i..i + n] && rest[n..] == pcm[i + n..];
    } else if |rest| == n {
      assert pcm[i..i + n] == rest;
    }
  }
}
