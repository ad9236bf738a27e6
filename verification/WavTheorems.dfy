/** When reading a WAV file gives back what was written. */
module WavTheorems {
  import opened Bytes
  import opened Wav

  /** A header value whose bytes spell "data" where the search for the samples meets them
      first: the RIFF size, the sample rate, the byte rate, or the end of the one and the
      beginning of the other. */
  predicate HidesData(size: nat, rate: int) {
    || 36 + size == 0x6174_6164
    || rate == 0x6174_6164
    || rate == 0x30BA_30B2
    || rate == 0x6164_30BA
    || rate == 0x6164_B0BA
  }

  // ----- The bytes of a header -----

  /** The bytes of a mono 16-bit file up to its samples. */
  ghost predicate HeaderBytes(w: bytes, size: int, rate: int)
    requires FitsU32(36 + size) && FitsU32(rate) && FitsU32(2 * rate)
  {
    && |w| == 44 + size && 0 <= size
    && w[0..4] == RIFF && w[4..8] == U32(36 + size) && w[8..12] == WAVE
    && w[12..16] == FMT && w[16..20] == U32(16)
    && w[20..24] == [1, 0, 1, 0] && w[24..28] == U32(rate) && w[28..32] == U32(2 * rate) && w[32..36] == [2, 0, 16, 0]
    && w[36..40] == DATA
  }

  lemma FormatBytes(rate: int, channels: int)
    requires Fits(0, rate, channels, 16)
    ensures var f := Format(rate, channels, 16); f[4..8] == U32(rate) && |f| == 16
    ensures channels == 1 ==>
              (var f := Format(rate, channels, 16);
               && FitsU32(2 * rate)
               && f[0..4] == [1, 0, 1, 0] && f[8..12] == U32(2 * rate) && f[12..16] == [2, 0, 16, 0])
  {
    SixteenBits(rate, channels);
    var byteRate := rate * channels * 16 / 8;
    hide U32;
    assert Format(rate, channels, 16)
        == U16(1) + U16(channels) + U32(rate) + U32(byteRate) + U16(channels * 16 / 8) + U16(16);
  }

  lemma SliceOfSlice(w: bytes, a: nat, b: nat, c: nat, d: nat)
    requires a <= b <= |w| && c <= d <= b - a
    ensures w[a..b][c..d] == w[a + c..a + d]
  {
    var x, y := w[a..b][c..d], w[a + c..a + d];
    forall i | 0 <= i < |x| ensures x[i] == y[i] {
      assert x[i] == w[a..b][c + i];
    }
  }

  /** Field positions of a file, for any channel count. */
  lemma Positions(pcm: bytes, rate: int, channels: int)
    requires Fits(|pcm|, rate, channels, 16)
    ensures var w := Layout(pcm, rate, channels, 16);
            && |w| == 44 + |pcm|
            && w[0..4] == RIFF && w[4..8] == U32(36 + |pcm|) && w[8..12] == WAVE
            && w[12..16] == FMT && w[16..20] == U32(16)
            && w[20..36] == Format(rate, channels, 16)
            && w[36..40] == DATA && w[44..] == pcm
  {
    hide U32, Format;
    var i := U32(|pcm|) + pcm;
    var h := DATA + i;
    var g := Format(rate, channels, 16) + h;
    var f := U32(16) + g;
    var e := FMT + f;
    var d := WAVE + e;
    var c := U32(36 + |pcm|) + d;
    var w := RIFF + c;
    assert |U32(16)| == 4 && |U32(36 + |pcm|)| == 4 && |U32(|pcm|)| == 4 by {
      U32Size(16);
      U32Size(36 + |pcm|);
      U32Size(|pcm|);
    }
    assert w[4..] == c && c[4..] == d && d[4..] == e && e[4..] == f && f[4..] == g && g[16..] == h && h[4..] == i
          && i[4..] == pcm;
    assert w[8..] == d && w[12..] == e && w[16..] == f && w[20..] == g && w[36..] == h;
  }

  lemma U32Size(v: int)
    requires FitsU32(v)
    ensures |U32(v)| == 4
  {}

  lemma MonoHeader(pcm: bytes, rate: int)
    requires Fits(|pcm|, rate, 1, 16)
    ensures FitsU32(2 * rate) && HeaderBytes(Layout(pcm, rate, 1, 16), |pcm|, rate)
    ensures Layout(pcm, rate, 1, 16)[44..] == pcm
  {
    hide U32, Layout, Format;
    FormatBytes(rate, 1);
    Positions(pcm, rate, 1);
    var w, f := Layout(pcm, rate, 1, 16), Format(rate, 1, 16);
    assert w[20..36] == f;
    SliceOfSlice(w, 20, 36, 0, 4);
    SliceOfSlice(w, 20, 36, 4, 8);
    SliceOfSlice(w, 20, 36, 8, 12);
    SliceOfSlice(w, 20, 36, 12, 16);
  }

  // ----- Where "data" first occurs -----

  lemma OccursMeans(w: bytes, i: int)
    requires 0 <= i && i + 4 <= |w|
    ensures Occurs(w, DATA, i) <==> w[i] == 0x64 && w[i + 1] == 0x61 && w[i + 2] == 0x74 && w[i + 3] == 0x61
  {
    assert w[i..i + 4][0] == w[i] && w[i..i + 4][1] == w[i + 1] && w[i..i + 4][2] == w[i + 2]
          && w[i..i + 4][3] == w[i + 3];
    assert w[i..i + 4] == [w[i], w[i + 1], w[i + 2], w[i + 3]];
  }

  /** The four bytes of a field, by position. */
  lemma FieldAt(w: bytes, at: nat, field: bytes)
    requires at + 4 <= |w| && w[at..at + 4] == field
    ensures |field| == 4 && w[at] == field[0] && w[at + 1] == field[1] && w[at + 2] == field[2] && w[at + 3] == field[3]
  {}

  /** "d" only occurs in the RIFF size, the sample rate and the byte rate. */
  lemma WhereDIs(w: bytes, size: int, rate: int, i: int)
    requires FitsU32(36 + size) && FitsU32(rate) && FitsU32(2 * rate) && HeaderBytes(w, size, rate)
    requires 0 <= i < 36 && w[i] == 0x64
    ensures 4 <= i < 8 || 24 <= i < 32
  {
    hide U32;
    FieldAt(w, 0, RIFF);
    FieldAt(w, 8, WAVE);
    FieldAt(w, 12, FMT);
    assert U32(16) == [16, 0, 0, 0] by { U32Of16(); }
    FieldAt(w, 16, U32(16));
    FieldAt(w, 20, [1, 0, 1, 0]);
    FieldAt(w, 32, [2, 0, 16, 0]);
  }

  lemma U32Of16()
    ensures U32(16) == [16, 0, 0, 0]
  {}

  lemma EarlyDataMeans(w: bytes, size: int, rate: int, i: int)
    requires FitsU32(36 + size) && FitsU32(rate) && FitsU32(2 * rate) && HeaderBytes(w, size, rate)
    requires 0 <= i < 36 && Occurs(w, DATA, i)
    ensures HidesData(size, rate)
  {
    hide U32;
    OccursMeans(w, i);
    WhereDIs(w, size, rate, i);
    if i < 8 {
      FieldAt(w, 4, U32(36 + size));
      FieldAt(w, 8, WAVE);
      ReadWhatWasWritten(36 + size);
    } else {
      FieldAt(w, 24, U32(rate));
      FieldAt(w, 28, U32(2 * rate));
      FieldAt(w, 32, [2, 0, 16, 0]);
      ReadWhatWasWritten(rate);
      ReadWhatWasWritten(2 * rate);
    }
  }

  lemma HiddenDataIsEarly(w: bytes, size: int, rate: int) returns (i: int)
    requires FitsU32(36 + size) && FitsU32(rate) && FitsU32(2 * rate) && HeaderBytes(w, size, rate)
    requires HidesData(size, rate)
    ensures 0 <= i < 36 && Occurs(w, DATA, i)
  {
    hide U32;
    SpellsData();
    if 36 + size == 0x6174_6164 {
      i := 4;
    } else if rate == 0x6174_6164 {
      i := 24;
    } else if rate == 0x30BA_30B2 {
      i := 28;
    } else {
      i := 26;
      HiddenAcrossFields(rate);
      FieldAt(w, 24, U32(rate));
      FieldAt(w, 28, U32(2 * rate));
      OccursMeans(w, 26);
    }
  }

  lemma SpellsData()
    ensures FitsU32(0x6174_6164) && U32(0x6174_6164) == DATA
  {}

  lemma HiddenAcrossFields(rate: int)
    requires rate == 0x6164_30BA || rate == 0x6164_B0BA
    ensures U32(rate)[2..] == [0x64, 0x61] && U32(2 * rate)[..2] == [0x74, 0x61]
    ensures U32(rate)[2] == 0x64 && U32(rate)[3] == 0x61 && U32(2 * rate)[0] == 0x74 && U32(2 * rate)[1] == 0x61
  {}

  /** Extraction inverts the writer, for mono 16-bit samples, exactly when no header value
      spells "data" too early. */
  lemma ExtractInvertsWrite(pcm: bytes, rate: int)
    requires Fits(|pcm|, rate, 1, 16)
    ensures ExtractPcm(Layout(pcm, rate, 1, 16)) == pcm <==> !HidesData(|pcm|, rate)
  {
    hide Layout, HeaderBytes;
    MonoHeader(pcm, rate);
    var w := Layout(pcm, rate, 1, 16);
    var at := FindFrom(w, DATA, 0);
    assert Occurs(w, DATA, 36) && |w| == 44 + |pcm| by { DataAt36(w, |pcm|, rate); }
    if HidesData(|pcm|, rate) {
      var i := HiddenDataIsEarly(w, |pcm|, rate);
      assert |ExtractPcm(w)| > |pcm|;
    } else if at < 36 {
      EarlyDataMeans(w, |pcm|, rate, at);
    }
  }

  lemma DataAt36(w: bytes, size: int, rate: int)
    requires FitsU32(36 + size) && FitsU32(rate) && FitsU32(2 * rate) && HeaderBytes(w, size, rate)
    ensures Occurs(w, DATA, 36) && |w| == 44 + size
  {}

  /** In particular for sizes and rates below 2^24. */
  lemma SmallFilesRoundTrip(pcm: bytes, rate: int)
    requires 36 + |pcm| < 0x100_0000 && 0 <= rate < 0x100_0000
    ensures WavFile(pcm, rate, 1, 16).File? && ExtractPcm(WavFile(pcm, rate, 1, 16).data) == pcm
  {
    SixteenBits(rate, 1);
    ExtractInvertsWrite(pcm, rate);
  }

  // ----- The sample rate -----

  /** Reading the sample rate back, for any channel count: exactly when the RIFF size does
      not spell "fmt ", or the rate happens to be the size of the format chunk. */
  lemma SampleRateIsReadBack(pcm: bytes, rate: int, channels: int)
    requires Fits(|pcm|, rate, channels, 16)
    ensures SampleRateOf(Layout(pcm, rate, channels, 16)) == rate <==> (36 + |pcm| != 0x2074_6D66 || rate == 16)
  {
    hide Layout, Format;
    Positions(pcm, rate, channels);
    FormatBytes(rate, channels);
    var w, f := Layout(pcm, rate, channels, 16), Format(rate, channels, 16);
    var at := FindFrom(w, FMT, 0);
    assert Occurs(w, FMT, 12);
    SliceOfSlice(w, 20, 36, 4, 8);
    ReadWhatWasWritten(rate);
    ReadWhatWasWritten(36 + |pcm|);
    ReadWhatWasWritten(16);
    assert U32(0x2074_6D66) == FMT;
    if 36 + |pcm| == 0x2074_6D66 {
      assert Occurs(w, FMT, 4);
      FieldAt(w, 0, RIFF);
      assert forall i | 0 <= i < 4 :: !Occurs(w, FMT, i) by {
        forall i | 0 <= i < 4 ensures !Occurs(w, FMT, i) { assert w[i..i + 4][0] == w[i]; }
      }
      assert at == 4;
    } else {
      FieldAt(w, 0, RIFF);
      FieldAt(w, 8, WAVE);
      FieldAt(w, 4, U32(36 + |pcm|));
      forall i | 0 <= i < 12 ensures !Occurs(w, FMT, i) {
        var b := w[i..i + 4];
        assert b[0] == w[i] && b[1] == w[i + 1] && b[2] == w[i + 2] && b[3] == w[i + 3];
      }
      assert at == 12;
    }
  }

  // ----- The sizes -----

  lemma DataPart(pcm: bytes, rate: int, channels: int)
    requires Fits(|pcm|, rate, channels, 16)
    ensures Layout(pcm, rate, channels, 16)[36..] == DATA + (U32(|pcm|) + pcm)
  {
    hide U32, Format;
    var h := DATA + (U32(|pcm|) + pcm);
    var g := Format(rate, channels, 16) + h;
    var f := U32(16) + g;
    var d := WAVE + (FMT + f);
    var w := RIFF + (U32(36 + |pcm|) + d);
    U32Size(16);
    U32Size(36 + |pcm|);
    assert w[8..] == d && d[8..] == f && f[4..] == g && g[16..] == h;
    assert w[16..] == f && w[20..] == g;
  }

  /** The two sizes of a file are those of what follows them, for any channel count. */
  lemma SizesAreReadBack(pcm: bytes, rate: int, channels: int)
    requires Fits(|pcm|, rate, channels, 16)
    ensures var w := Layout(pcm, rate, channels, 16);
            && ReadU32(w[40..44]) == |w[44..]| == |pcm|
            && ReadU32(w[4..8]) == |w[8..]|
            && ReadU32(w[16..20]) == |w[20..36]|
  {
    hide Layout, Format, U32, ReadU32;
    Positions(pcm, rate, channels);
    DataPart(pcm, rate, channels);
    var w := Layout(pcm, rate, channels, 16);
    U32Size(|pcm|);
    assert w[40..44] == w[36..][4..8] == U32(|pcm|);
    ReadWhatWasWritten(|pcm|);
    ReadWhatWasWritten(36 + |pcm|);
    ReadWhatWasWritten(16);
  }

  // ----- The format -----

  function ReadU16(b: bytes): int
    requires |b| == 2
  {
    b[0] + 0x100 * b[1] as int
  }

  lemma ReadShort(v: int)
    requires FitsU16(v)
    ensures |U16(v)| == 2 && ReadU16(U16(v)) == v
  {}

  /** The format chunk says what was asked for, and a second takes as many bytes as frames of
      that size at that rate, when samples are whole bytes. */
  lemma FormatIsReadBack(rate: int, channels: int, bits: int)
    requires Fits(0, rate, channels, bits)
    ensures var f := Format(rate, channels, bits);
            && ReadU16(f[0..2]) == 1 && ReadU16(f[2..4]) == channels && ReadU32(f[4..8]) == rate
            && ReadU16(f[14..16]) == bits
            && (bits % 8 == 0 ==> && ReadU16(f[12..14]) == channels * (bits / 8)
                                  && ReadU32(f[8..12]) == rate * ReadU16(f[12..14]))
  {
    hide U16, U32, ReadU16, ReadU32;
    var byteRate, align := rate * channels * bits / 8, channels * bits / 8;
    ReadShort(1);
    ReadShort(channels);
    ReadShort(align);
    ReadShort(bits);
    ReadWhatWasWritten(rate);
    ReadWhatWasWritten(byteRate);
    U32Size(rate);
    U32Size(byteRate);
    var f := Format(rate, channels, bits);
    assert f == U16(1) + U16(channels) + U32(rate) + U32(byteRate) + U16(align) + U16(bits);
    assert f[0..2] == U16(1) && f[2..4] == U16(channels) && f[4..8] == U32(rate) && f[8..12] == U32(byteRate)
          && f[12..14] == U16(align) && f[14..16] == U16(bits);
    if bits % 8 == 0 {
      WholeBytes(channels, bits);
      WholeBytes(rate * channels, bits);
      assert rate * channels * (bits / 8) == rate * (channels * (bits / 8));
    }
  }

  lemma WholeBytes(a: int, bits: int)
    requires bits % 8 == 0
    ensures a * bits / 8 == a * (bits / 8)
  {
    assert a * bits == 8 * (a * (bits / 8));
  }

  /** Without the marks there are no samples, and the rate is taken to be 22050. */
  lemma WithoutMarks(wav: bytes)
    ensures (forall i :: !Occurs(wav, DATA, i)) ==> ExtractPcm(wav) == []
    ensures (forall i :: !Occurs(wav, FMT, i)) ==> SampleRateOf(wav) == 22050
  {}
}
