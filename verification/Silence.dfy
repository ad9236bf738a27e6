/** Finding and trimming silence in 16-bit samples. Loudness is compared as a sum of squares
    against the squared threshold, and times are exact quotients. */
module Silence {
  import opened Arithmetic
  import opened Bytes
  import opened Common

  type sample = x: int | -0x8000 <= x < 0x8000

  // ----- Samples -----

  function Decode(lo: byte, hi: byte): sample {
    var v: int := lo + 0x100 * hi as int;
    if v < 0x8000 then v else v - 0x1_0000
  }

  function Encode(s: sample): bytes {
    var v: int := if s < 0 then s + 0x1_0000 else s;
    [v % 0x100, v / 0x100]
  }

  function Unpack(pcm: bytes): (r: seq<sample>)
    requires |pcm| % 2 == 0
    ensures |r| == |pcm| / 2
  {
    if pcm == [] then [] else [Decode(pcm[0], pcm[1])] + Unpack(pcm[2..])
  }

  function Pack(samples: seq<sample>): bytes {
    if samples == [] then [] else Encode(samples[0]) + Pack(samples[1..])
  }

  lemma EncodeDecode(lo: byte, hi: byte)
    ensures Encode(Decode(lo, hi)) == [lo, hi]
  {
    var v: int := lo + 0x100 * hi as int;
    Quotient(v, 0x100, hi, lo);
  }

  lemma {:induction false} UnpackTail(pcm: bytes, s: nat)
    requires |pcm| % 2 == 0 && 2 * s <= |pcm|
    ensures Unpack(pcm[2 * s..]) == Unpack(pcm)[s..]
  {
    if s == 0 {
      assert pcm[0..] == pcm;
    } else {
      UnpackTail(pcm[2..], s - 1);
      assert pcm[2..][2 * (s - 1)..] == pcm[2 * s..];
      assert Unpack(pcm)[s..] == Unpack(pcm[2..])[s - 1..];
    }
  }

  lemma {:induction false} PackHead(pcm: bytes, e: nat)
    requires |pcm| % 2 == 0 && 2 * e <= |pcm|
    ensures Pack(Unpack(pcm)[..e]) == pcm[..2 * e]
  {
    if e > 0 {
      PackHead(pcm[2..], e - 1);
      var samples := Unpack(pcm);
      assert samples[..e][0] == samples[0] && samples[..e][1..] == Unpack(pcm[2..])[..e - 1];
      EncodeDecode(pcm[0], pcm[1]);
      assert pcm[..2 * e] == [pcm[0], pcm[1]] + pcm[2..][..2 * (e - 1)];
    }
  }

  /** Packing a stretch of the samples gives the bytes they came from. */
  lemma PackSlice(pcm: bytes, s: nat, e: nat)
    requires |pcm| % 2 == 0 && s <= e && 2 * e <= |pcm|
    ensures Pack(Unpack(pcm)[s..e]) == pcm[2 * s..2 * e]
  {
    hide Pack, Unpack;
    UnpackTail(pcm, s);
    PackHead(pcm[2 * s..], e - s);
    assert Unpack(pcm)[s..][..e - s] == Unpack(pcm)[s..e];
    assert pcm[2 * s..][..2 * (e - s)] == pcm[2 * s..2 * e];
  }

  // ----- Loudness -----

  function Energy(window: seq<sample>): int {
    if window == [] then 0 else window[|window| - 1] * window[|window| - 1] + Energy(window[..|window| - 1])
  }

  /** The root mean square is below the threshold. */
  predicate Silent(window: seq<sample>, threshold: nat) {
    Energy(window) < threshold * threshold * |window|
  }

  function Window(samples: seq<sample>, i: nat, size: nat): seq<sample>
    requires i <= |samples|
  {
    samples[i..Min(i + size, |samples|)]
  }

  // ----- detect_silence -----

  datatype Run = Run(first: nat, end: nat)

  datatype Region = Region(start: real, end: real)

  predicate On(flags: seq<bool>, i: int) {
    0 <= i < |flags| && flags[i]
  }

  /** A stretch of silent windows that cannot be extended on either side. */
  ghost predicate MaximalRun(flags: seq<bool>, r: Run) {
    && r.first < r.end <= |flags|
    && (forall i | r.first <= i < r.end :: On(flags, i))
    && !On(flags, r.first - 1)
    && !On(flags, r.end)
  }

  function RunEnd(flags: seq<bool>, i: nat): (e: nat)
    requires i <= |flags|
    ensures i <= e <= |flags|
    ensures forall k | i <= k < e :: On(flags, k)
    ensures !On(flags, e)
    decreases |flags| - i
  {
    if i < |flags| && flags[i] then RunEnd(flags, i + 1) else i
  }

  /** The runs from window i on. */
  function Runs(flags: seq<bool>, i: nat): seq<Run>
    requires i <= |flags|
    decreases |flags| - i
  {
    if i == |flags| then []
    else if flags[i] then [Run(i, RunEnd(flags, i))] + Runs(flags, RunEnd(flags, i))
    else Runs(flags, i + 1)
  }

  /** The time of a run: a run that reaches the last window ends with the last sample. */
  function TimeOf(r: Run, windows: nat, window: nat, samples: nat, rate: nat): Region
    requires rate > 0
  {
    Region((r.first * window) as real / rate as real,
           (if r.end == windows then samples else r.end * window) as real / rate as real)
  }

  function Long(runs: seq<Run>, windows: nat, window: nat, samples: nat, rate: nat, minDuration: real): seq<Region>
    requires rate > 0
  {
    if runs == [] then []
    else
      var t := TimeOf(runs[0], windows, window, samples, rate);
      (if t.end - t.start >= minDuration then [t] else [])
      + Long(runs[1..], windows, window, samples, rate, minDuration)
  }

  function FlagsFrom(samples: seq<sample>, i: nat, window: nat, threshold: nat): seq<bool>
    requires window > 0
    decreases |samples| - i
  {
    if i >= |samples| then []
    else [Silent(Window(samples, i, window), threshold)] + FlagsFrom(samples, i + window, window, threshold)
  }

  /** A zero window size makes the range of windows fail. */
  datatype Detected = Detected(regions: seq<Region>) | RangeError

  function DetectedIn(pcm: bytes, rate: nat, threshold: nat, minDuration: real): Detected {
    if pcm == [] || rate == 0 || |pcm| % 2 != 0 then Detected([])
    else if rate / 20 == 0 then RangeError
    else
      var samples := Unpack(pcm);
      var flags := FlagsFrom(samples, 0, rate / 20, threshold);
      Detected(Long(Runs(flags, 0), |flags|, rate / 20, |samples|, rate, minDuration))
  }

  method DetectSilence(pcm: bytes, rate: nat, threshold: nat, minDuration: real) returns (r: Detected)
    ensures r == DetectedIn(pcm, rate, threshold, minDuration)
  {
    hide Silent, Long, Unpack;
    if pcm == [] || rate == 0 {
      return Detected([]);
    }
    if |pcm| % 2 != 0 {
      return Detected([]);
    }
    var samples := Unpack(pcm);
    var windowSize := rate / 20;
    if windowSize == 0 {
      return RangeError;
    }
    var isSilent := SilentWindows(samples, windowSize, threshold);
    var regions := SilentRegions(isSilent, windowSize, |samples|, rate, minDuration);
    r := Detected(regions);
  }

  method SilentWindows(samples: seq<sample>, windowSize: nat, threshold: nat) returns (isSilent: seq<bool>)
    requires windowSize > 0
    ensures isSilent == FlagsFrom(samples, 0, windowSize, threshold)
  {
    hide Silent, Window;
    isSilent := [];
    var i := 0;
    while i < |samples|
      invariant 0 <= i
      invariant isSilent + FlagsFrom(samples, i, windowSize, threshold) == FlagsFrom(samples, 0, windowSize, threshold)
    {
      var flag := Silent(Window(samples, i, windowSize), threshold);
      Regroup(isSilent, [flag], FlagsFrom(samples, i + windowSize, windowSize, threshold));
      isSilent := isSilent + [flag];
      i := i + windowSize;
    }
  }

  /** Collects the silent stretches in one pass. */
  method SilentRegions(isSilent: seq<bool>, windowSize: nat, count: nat, rate: nat, minDuration: real)
      returns (regions: seq<Region>)
    requires rate > 0
    ensures regions == Long(Runs(isSilent, 0), |isSilent|, windowSize, count, rate, minDuration)
  {
    hide TimeOf, Long;
    regions := [];
    var startIdx: Option<nat> := None;
    for i := 0 to |isSilent|
      invariant startIdx.Some? ==>
                  startIdx.value < i && isSilent[startIdx.value] && RunEnd(isSilent, startIdx.value) >= i
      invariant var from := if startIdx.Some? then startIdx.value else i;
                regions + Long(Runs(isSilent, from), |isSilent|, windowSize, count, rate, minDuration)
                == Long(Runs(isSilent, 0), |isSilent|, windowSize, count, rate, minDuration)
    {
      if isSilent[i] && startIdx.None? {
        startIdx := Some(i);
        assert RunEnd(isSilent, i) >= i + 1;
      } else if !isSilent[i] && startIdx.Some? {
        var run := Run(startIdx.value, i);
        assert !On(isSilent, i) && RunEnd(isSilent, startIdx.value) == i;
        var t := TimeOf(run, |isSilent|, windowSize, count, rate);
        LongStep(isSilent, run, |isSilent|, windowSize, count, rate, minDuration);
        assert Runs(isSilent, i) == Runs(isSilent, i + 1);
        if t.end - t.start >= minDuration {
          Regroup(regions, [t], Long(Runs(isSilent, i), |isSilent|, windowSize, count, rate, minDuration));
          regions := regions + [t];
        }
        startIdx := None;
      }
    }
    if startIdx.Some? {
      var run := Run(startIdx.value, |isSilent|);
      var t := TimeOf(run, |isSilent|, windowSize, count, rate);
      LongStep(isSilent, run, |isSilent|, windowSize, count, rate, minDuration);
      if t.end - t.start >= minDuration {
        regions := regions + [t];
      }
    }
    NoneLong(isSilent, windowSize, count, rate, minDuration);
  }

  lemma NoneLong(flags: seq<bool>, window: nat, samples: nat, rate: nat, minDuration: real)
    requires rate > 0
    ensures Long(Runs(flags, |flags|), |flags|, window, samples, rate, minDuration) == []
  {}

  lemma LongStep(flags: seq<bool>, run: Run, windows: nat, window: nat, samples: nat, rate: nat, minDuration: real)
    requires rate > 0 && run.first < |flags| && flags[run.first] && run.end == RunEnd(flags, run.first)
    ensures var t := TimeOf(run, windows, window, samples, rate);
            Long(Runs(flags, run.first), windows, window, samples, rate, minDuration)
            == (if t.end - t.start >= minDuration then [t] else [])
               + Long(Runs(flags, run.end), windows, window, samples, rate, minDuration)
  {
    hide TimeOf;
    assert Runs(flags, run.first) == [run] + Runs(flags, run.end);
    assert Runs(flags, run.first)[1..] == Runs(flags, run.end);
  }

  // ----- trim_silence -----

  /** The first window start at i or later, below the limit, that is not silent; else 0. */
  function LoudFrom(samples: seq<sample>, i: nat, limit: int, window: nat, threshold: nat): nat
    requires window > 0 && limit <= |samples|
    decreases limit - i
  {
    if i >= limit then 0
    else if !Silent(Window(samples, i, window), threshold) then i
    else LoudFrom(samples, i + window, limit, window, threshold)
  }

  function Before(samples: seq<sample>, i: int, window: nat): seq<sample>
    requires 0 <= i <= |samples|
  {
    samples[if i - window < 0 then 0 else i - window..i]
  }

  /** Going down from i, the first position above the limit with a loud window before it;
      else the end. */
  function LoudUntil(samples: seq<sample>, i: int, limit: int, window: nat, threshold: nat): int
    requires window > 0 && 0 <= limit && i <= |samples|
    decreases i - limit
  {
    if i <= limit then |samples|
    else if !Silent(Before(samples, i, window), threshold) then i
    else LoudUntil(samples, i - window, limit, window, threshold)
  }

  /** The stretch of samples that is kept. */
  function Kept(samples: seq<sample>, rate: nat, threshold: nat, maxTrim: int): Run
    requires rate / 100 > 0
  {
    var window := Min(512, rate / 100);
    var first := LoudFrom(samples, 0, Min(maxTrim, |samples|), window, threshold);
    var last := LoudUntil(samples, |samples| - 1, Max(|samples| - maxTrim, first), window, threshold);
    Run(first, if last < 0 then 0 else last)
  }

  datatype Trimmed = Trimmed(pcm: bytes) | TrimError

  method TrimSilence(pcm: bytes, rate: nat, threshold: nat, maxTrim: int) returns (r: Trimmed)
    ensures pcm == [] || rate == 0 || |pcm| % 2 != 0 ==> r == Trimmed(pcm)
    ensures pcm != [] && 0 < rate < 100 && |pcm| % 2 == 0 ==> r == TrimError
    ensures pcm != [] && rate >= 100 && |pcm| % 2 == 0 ==>
              var kept := Kept(Unpack(pcm), rate, threshold, maxTrim);
              kept.first < kept.end <= |pcm| / 2 && r == Trimmed(pcm[2 * kept.first..2 * kept.end])
  {
    hide Silent;
    if pcm == [] || rate == 0 {
      return Trimmed(pcm);
    }
    if |pcm| % 2 != 0 {
      return Trimmed(pcm);
    }
    var samples := Unpack(pcm);
    var windowSize := Min(512, rate / 100);
    if windowSize == 0 {
      return TrimError;
    }
    var startIdx := FirstLoud(samples, windowSize, threshold, maxTrim);
    LoudFromBounds(samples, 0, Min(maxTrim, |samples|), windowSize, threshold);
    var endIdx := LastLoud(samples, windowSize, threshold, Max(|samples| - maxTrim, startIdx));
    PackSlice(pcm, startIdx, endIdx);
    r := Trimmed(Pack(samples[startIdx..endIdx]));
  }

  method LastLoud(samples: seq<sample>, windowSize: nat, threshold: nat, limit: nat) returns (endIdx: nat)
    requires windowSize > 0
    ensures endIdx == LoudUntil(samples, |samples| - 1, limit, windowSize, threshold)
    ensures endIdx == |samples| || limit < endIdx < |samples|
  {
    hide Silent;
    endIdx := |samples|;
    var i := |samples| - 1;
    while i > limit
      invariant i <= |samples| - 1
      invariant LoudUntil(samples, i, limit, windowSize, threshold)
            == LoudUntil(samples, |samples| - 1, limit, windowSize, threshold)
    {
      if !Silent(Before(samples, i, windowSize), threshold) {
        return i;
      }
      i := i - windowSize;
    }
  }

  method FirstLoud(samples: seq<sample>, windowSize: nat, threshold: nat, maxTrim: int) returns (startIdx: nat)
    requires windowSize > 0
    ensures startIdx == LoudFrom(samples, 0, Min(maxTrim, |samples|), windowSize, threshold)
  {
    hide Silent;
    startIdx := 0;
    var i := 0;
    while i < Min(maxTrim, |samples|)
      invariant 0 <= i
      invariant LoudFrom(samples, i, Min(maxTrim, |samples|), windowSize, threshold)
             == LoudFrom(samples, 0, Min(maxTrim, |samples|), windowSize, threshold)
    {
      if !Silent(Window(samples, i, windowSize), threshold) {
        return i;
      }
      i := i + windowSize;
    }
  }

  lemma {:induction false} LoudFromBounds(samples: seq<sample>, i: nat, limit: int, window: nat, threshold: nat)
    requires window > 0 && limit <= |samples|
    ensures var s := LoudFrom(samples, i, limit, window, threshold); s == 0 || (i <= s < limit)
    decreases limit - i
  {
    hide Silent;
    if i < limit && Silent(Window(samples, i, window), threshold) {
      LoudFromBounds(samples, i + window, limit, window, threshold);
    }
  }
}
