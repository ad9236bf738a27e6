/** What silence detection finds, and what trimming takes away. */
module SilenceTheorems {
  import opened Arithmetic
  import opened Bytes
  import opened Silence

  // ----- Detection -----

  lemma {:induction false} RunsAreMaximal(flags: seq<bool>, i: nat)
    requires i <= |flags| && (!On(flags, i - 1) || !On(flags, i))
    ensures forall r :: r in Runs(flags, i) <==> MaximalRun(flags, r) && i <= r.first
    ensures forall j, k | 0 <= j < k < |Runs(flags, i)| :: Runs(flags, i)[j].end < Runs(flags, i)[k].first
    ensures forall j | 0 <= j < |Runs(flags, i)| :: Runs(flags, i)[j].first < Runs(flags, i)[j].end <= |flags|
    decreases |flags| - i
  {
    if i < |flags| {
      if flags[i] {
        var e := RunEnd(flags, i);
        var rest := Runs(flags, e);
        RunsAreMaximal(flags, e);
        assert Runs(flags, i) == [Run(i, e)] + rest;
        forall r ensures r in Runs(flags, i) <==> MaximalRun(flags, r) && i <= r.first {
          assert r in Runs(flags, i) <==> r == Run(i, e) || r in rest;
          if MaximalRun(flags, r) && i <= r.first < e {
            OneRun(flags, i, r);
          }
          assert MaximalRun(flags, Run(i, e));
        }
        forall k | 0 <= k < |rest| ensures e < rest[k].first {
          assert rest[k] in rest;
        }
      } else {
        RunsAreMaximal(flags, i + 1);
      }
    }
  }

  /** A maximal run that begins inside a run is that run. */
  lemma OneRun(flags: seq<bool>, i: nat, r: Run)
    requires On(flags, i) && !On(flags, i - 1)
    requires MaximalRun(flags, r) && i <= r.first < RunEnd(flags, i)
    ensures r == Run(i, RunEnd(flags, i))
  {
    var e := RunEnd(flags, i);
    assert r.first > i ==> On(flags, r.first - 1);
    assert r.first == i;
    assert r.end < e ==> On(flags, r.end);
    assert r.end > e ==> On(flags, e);
  }

  /** The times of a run. */
  lemma TimesAreOrdered(q: Run, r: Run, windows: nat, window: nat, samples: nat, rate: nat)
    requires rate > 0 && window > 0 && q.end < r.first && r.first < r.end <= windows
    ensures TimeOf(q, windows, window, samples, rate).end < TimeOf(r, windows, window, samples, rate).start
  {
    Multiples(q.end, r.first, window);
    Divide(q.end * window, r.first * window, rate);
  }

  lemma Divide(a: nat, b: nat, rate: nat)
    requires rate > 0 && a < b
    ensures a as real / rate as real < b as real / rate as real
  {}

  lemma {:induction false} LongKeeps(runs: seq<Run>, windows: nat, window: nat, samples: nat, rate: nat,
      minDuration: real)
    requires rate > 0
    ensures forall t :: t in Long(runs, windows, window, samples, rate, minDuration) <==>
              exists r :: r in runs && t == TimeOf(r, windows, window, samples, rate) && t.end - t.start >= minDuration
    decreases |runs|
  {
    hide TimeOf;
    if runs != [] {
      LongKeeps(runs[1..], windows, window, samples, rate, minDuration);
      assert runs == [runs[0]] + runs[1..];
    }
  }

  lemma {:induction false} LongIsOrdered(runs: seq<Run>, windows: nat, window: nat, samples: nat, rate: nat,
      minDuration: real)
    requires rate > 0 && window > 0
    requires forall j | 0 <= j < |runs| :: runs[j].first < runs[j].end <= windows
    requires forall j, k | 0 <= j < k < |runs| :: runs[j].end < runs[k].first
    ensures Ascending(Long(runs, windows, window, samples, rate, minDuration))
    decreases |runs|
  {
    hide TimeOf, Ascending;
    if runs == [] {
      assert Ascending([]) by { NothingAscends(); }
    } else {
      var rest := Long(runs[1..], windows, window, samples, rate, minDuration);
      LongIsOrdered(runs[1..], windows, window, samples, rate, minDuration);
      var t := TimeOf(runs[0], windows, window, samples, rate);
      forall k | 0 <= k < |rest| ensures t.end < rest[k].start {
        LongKeeps(runs[1..], windows, window, samples, rate, minDuration);
        assert rest[k] in rest;
        var r :| r in runs[1..] && rest[k] == TimeOf(r, windows, window, samples, rate);
        TimesAreOrdered(runs[0], r, windows, window, samples, rate);
      }
      assert [] + rest == rest;
      AscendingCons(t, rest);
    }
  }

  ghost predicate Ascending(regions: seq<Region>) {
    forall j, k | 0 <= j < k < |regions| :: regions[j].end < regions[k].start
  }

  lemma NothingAscends()
    ensures Ascending([])
  {}

  lemma AscendingCons(t: Region, rest: seq<Region>)
    requires Ascending(rest) && forall k | 0 <= k < |rest| :: t.end < rest[k].start
    ensures Ascending([t] + rest)
  {
    var all := [t] + rest;
    forall j, k | 0 <= j < k < |all| ensures all[j].end < all[k].start {
      assert all[k] == rest[k - 1];
      if j > 0 {
        assert all[j] == rest[j - 1];
      }
    }
  }

  /** There is one flag for every window start below the end, and it tells whether that
      window is silent. */
  lemma {:induction false} FlagAt(samples: seq<sample>, i: nat, window: nat, threshold: nat, k: nat)
    requires window > 0
    ensures k < |FlagsFrom(samples, i, window, threshold)| <==> i + k * window < |samples|
    ensures i + k * window < |samples| ==>
              FlagsFrom(samples, i, window, threshold)[k] == Silent(Window(samples, i + k * window, window), threshold)
    decreases k
  {
    hide Silent, Window;
    Product(k, window);
    if k > 0 {
      FlagAt(samples, i + window, window, threshold, k - 1);
      assert (k - 1) * window + window == k * window;
    }
  }

  /** The k-th window of the clip, and whether it is silent. */
  ghost function WindowFlags(pcm: bytes, rate: nat, threshold: nat): seq<bool>
    requires rate >= 20 && |pcm| % 2 == 0
  {
    FlagsFrom(Unpack(pcm), 0, rate / 20, threshold)
  }

  /** Detection reports, in order and without overlap, exactly the maximal runs of silent
      windows that last long enough; the last one ends with the last sample. */
  lemma DetectionIsExact(pcm: bytes, rate: nat, threshold: nat, minDuration: real)
    requires pcm != [] && |pcm| % 2 == 0 && rate >= 20
    ensures var flags := WindowFlags(pcm, rate, threshold);
            var d := DetectedIn(pcm, rate, threshold, minDuration);
            && d.Detected?
            && (forall t :: t in d.regions <==>
                  exists r :: && MaximalRun(flags, r)
                              && t == TimeOf(r, |flags|, rate / 20, |pcm| / 2, rate)
                              && t.end - t.start >= minDuration)
            && Ascending(d.regions)
  {
    hide TimeOf, Silent, FlagsFrom, Long, Runs, Unpack, MaximalRun;
    var flags := WindowFlags(pcm, rate, threshold);
    assert |Unpack(pcm)| == |pcm| / 2 && rate / 20 > 0;
    assert DetectedIn(pcm, rate, threshold, minDuration)
        == Detected(Long(Runs(flags, 0), |flags|, rate / 20, |pcm| / 2, rate, minDuration));
    RunsReported(flags, rate / 20, |pcm| / 2, rate, minDuration);
  }

  lemma RunsReported(flags: seq<bool>, window: nat, samples: nat, rate: nat, minDuration: real)
    requires rate > 0 && window > 0
    ensures var regions := Long(Runs(flags, 0), |flags|, window, samples, rate, minDuration);
            && (forall t :: t in regions <==>
                  exists r :: && MaximalRun(flags, r)
                              && t == TimeOf(r, |flags|, window, samples, rate)
                              && t.end - t.start >= minDuration)
            && Ascending(regions)
  {
    hide TimeOf, Long, Runs, MaximalRun;
    RunsAreMaximal(flags, 0);
    LongKeeps(Runs(flags, 0), |flags|, window, samples, rate, minDuration);
    LongIsOrdered(Runs(flags, 0), |flags|, window, samples, rate, minDuration);
  }

  // ----- Trimming -----

  lemma {:induction false} LoudUntilBounds(samples: seq<sample>, i: int, limit: int, window: nat, threshold: nat)
    requires window > 0 && 0 <= limit && i <= |samples|
    ensures var e := LoudUntil(samples, i, limit, window, threshold); e == |samples| || limit < e <= i
    decreases i - limit
  {
    hide Silent, Before;
    if i > limit && Silent(Before(samples, i, window), threshold) {
      LoudUntilBounds(samples, i - window, limit, window, threshold);
    }
  }

  /** Something is always kept, and fewer than `maxTrim` samples go at each end. */
  lemma TrimmingIsBounded(samples: seq<sample>, rate: nat, threshold: nat, maxTrim: int)
    requires samples != [] && rate >= 100
    ensures var kept := Kept(samples, rate, threshold, maxTrim);
            && kept.first < kept.end <= |samples|
            && (maxTrim >= 1 ==> kept.first < maxTrim && |samples| - kept.end < maxTrim)
            && (maxTrim < 2 ==> kept == Run(0, |samples|))
  {
    hide Silent;
    var window := Min(512, rate / 100);
    var first := LoudFrom(samples, 0, Min(maxTrim, |samples|), window, threshold);
    LoudFromBounds(samples, 0, Min(maxTrim, |samples|), window, threshold);
    LoudUntilBounds(samples, |samples| - 1, Max(|samples| - maxTrim, first), window, threshold);
  }

  lemma {:induction false} LeadIsSilent(samples: seq<sample>, i: nat, limit: int, window: nat, threshold: nat, j: nat)
    requires window > 0 && limit <= |samples| && i <= j < LoudFrom(samples, i, limit, window, threshold)
    ensures exists k: nat :: k <= j < k + window && k <= |samples| && Silent(Window(samples, k, window), threshold)
    decreases limit - i
  {
    hide Silent, Window;
    if j < i + window {
      assert i <= j < i + window && Silent(Window(samples, i, window), threshold);
    } else {
      LeadIsSilent(samples, i + window, limit, window, threshold, j);
    }
  }

  lemma {:induction false} TailIsSilent(samples: seq<sample>, i: int, limit: int, window: nat, threshold: nat, j: int)
    requires window > 0 && 0 <= limit && i <= |samples|
    requires var e := LoudUntil(samples, i, limit, window, threshold); e < |samples| && e <= j < i
    ensures exists k :: 0 <= k <= |samples| && k - window <= j < k && Silent(Before(samples, k, window), threshold)
    decreases i - limit
  {
    hide Silent, Before;
    if i - window <= j {
      assert i - window <= j < i && Silent(Before(samples, i, window), threshold);
    } else {
      TailIsSilent(samples, i - window, limit, window, threshold, j);
    }
  }

  /** A sample lies in a window of at most this length that is silent. */
  ghost predicate InSilence(samples: seq<sample>, window: nat, threshold: nat, j: nat) {
    exists a: nat, b: nat :: a <= j < b <= |samples| && b - a <= window && Silent(samples[a..b], threshold)
  }

  /** Every dropped sample lies in a silent window, except the very last one of the clip,
      which no window covers. */
  lemma OnlySilenceIsTrimmed(samples: seq<sample>, rate: nat, threshold: nat, maxTrim: int, j: nat)
    requires samples != [] && rate >= 100 && j < |samples| - 1
    requires var kept := Kept(samples, rate, threshold, maxTrim); j < kept.first || kept.end <= j
    ensures InSilence(samples, Min(512, rate / 100), threshold, j)
  {
    hide Silent;
    var window := Min(512, rate / 100);
    var first := LoudFrom(samples, 0, Min(maxTrim, |samples|), window, threshold);
    var limit := Max(|samples| - maxTrim, first);
    LoudFromBounds(samples, 0, Min(maxTrim, |samples|), window, threshold);
    LoudUntilBounds(samples, |samples| - 1, limit, window, threshold);
    if j < first {
      LeadIsSilent(samples, 0, Min(maxTrim, |samples|), window, threshold, j);
      var k: nat :| k <= j < k + window && k <= |samples| && Silent(Window(samples, k, window), threshold);
      assert Silent(samples[k..Min(k + window, |samples|)], threshold);
    } else {
      TailIsSilent(samples, |samples| - 1, limit, window, threshold, j);
      var k :| 0 <= k <= |samples| && k - window <= j < k && Silent(Before(samples, k, window), threshold);
      assert Silent(samples[if k - window < 0 then 0 else k - window..k], threshold);
    }
  }

  /** The k-th window of the scan from the end is looked at and loud. */
  ghost predicate LoudStep(samples: seq<sample>, from: int, k: nat, limit: int, window: nat, threshold: nat)
    requires 0 <= limit && from <= |samples|
  {
    Product(k, window);
    var at := from - k * window;
    at > limit && !Silent(Before(samples, at, window), threshold)
  }

  /** Some window of the scan down from here is loud. */
  ghost predicate ScanIsLoud(samples: seq<sample>, from: int, limit: int, window: nat, threshold: nat)
    requires 0 <= limit && from <= |samples|
  {
    exists k: nat :: LoudStep(samples, from, k, limit, window, threshold)
  }

  lemma {:induction false} ScanStops(samples: seq<sample>, i: int, limit: int, window: nat, threshold: nat)
    requires window > 0 && 0 <= limit && i < |samples|
    ensures LoudUntil(samples, i, limit, window, threshold) < |samples|
       <==> ScanIsLoud(samples, i, limit, window, threshold)
    decreases i - limit
  {
    hide Silent, Before;
    assert 0 * window == 0;
    if i <= limit {
      forall k: nat ensures !LoudStep(samples, i, k, limit, window, threshold) {
        Product(k, window);
      }
    } else if !Silent(Before(samples, i, window), threshold) {
      assert LoudStep(samples, i, 0, limit, window, threshold);
    } else {
      ScanStops(samples, i - window, limit, window, threshold);
      ScanStep(samples, i, i - window, limit, window, threshold);
    }
  }

  lemma ScanStep(samples: seq<sample>, i: int, next: int, limit: int, window: nat, threshold: nat)
    requires window > 0 && 0 <= limit < i < |samples| && next == i - window
    requires Silent(Before(samples, i, window), threshold)
    ensures ScanIsLoud(samples, i, limit, window, threshold) <==> ScanIsLoud(samples, next, limit, window, threshold)
  {
    hide Silent, Before;
    assert 0 * window == 0;
    if k: nat :| LoudStep(samples, i, k, limit, window, threshold) {
      assert k * window == (k - 1) * window + window;
      assert k > 0 && LoudStep(samples, next, k - 1, limit, window, threshold);
    }
    if k: nat :| LoudStep(samples, next, k, limit, window, threshold) {
      assert (k + 1) * window == k * window + window;
      assert LoudStep(samples, i, k + 1, limit, window, threshold);
    }
  }

  /** Some window of the scan from the end is loud. */
  ghost predicate FindsLoudEnd(samples: seq<sample>, rate: nat, threshold: nat, maxTrim: int)
    requires rate >= 100
  {
    var limit := Max(|samples| - maxTrim, Kept(samples, rate, threshold, maxTrim).first);
    ScanIsLoud(samples, |samples| - 1, limit, Min(512, rate / 100), threshold)
  }

  /** The last sample is dropped exactly when a window of the scan from the end is loud, wherever
      it is: the scan begins with the window before that sample. */
  lemma LastSampleIsDropped(samples: seq<sample>, rate: nat, threshold: nat, maxTrim: int)
    requires rate >= 100
    ensures Kept(samples, rate, threshold, maxTrim).end < |samples| <==> FindsLoudEnd(samples, rate, threshold, maxTrim)
  {
    hide Silent, LoudStep;
    var window := Min(512, rate / 100);
    var limit := Max(|samples| - maxTrim, Kept(samples, rate, threshold, maxTrim).first);
    LoudUntilBounds(samples, |samples| - 1, limit, window, threshold);
    ScanStops(samples, |samples| - 1, limit, window, threshold);
  }

  /** Trimming removes only silence exactly when no window of the scan from the end is loud, or
      the last sample is the end of a silent stretch of at most a window. */
  lemma WhenOnlySilenceGoes(samples: seq<sample>, rate: nat, threshold: nat, maxTrim: int)
    requires samples != [] && rate >= 100
    ensures var kept, window := Kept(samples, rate, threshold, maxTrim), Min(512, rate / 100);
            (forall j: nat | j < |samples| && (j < kept.first || kept.end <= j) ::
               InSilence(samples, window, threshold, j))
            <==> (!FindsLoudEnd(samples, rate, threshold, maxTrim)
                  || exists a: nat :: a < |samples| <= a + window && Silent(samples[a..], threshold))
  {
    hide Silent, FindsLoudEnd, Kept;
    var kept, window, last := Kept(samples, rate, threshold, maxTrim), Min(512, rate / 100), |samples| - 1;
    TrimmingIsBounded(samples, rate, threshold, maxTrim);
    LastSampleIsDropped(samples, rate, threshold, maxTrim);
    LastInSilence(samples, window, threshold);
    forall j: nat | j < last && (j < kept.first || kept.end <= j) ensures InSilence(samples, window, threshold, j) {
      OnlySilenceIsTrimmed(samples, rate, threshold, maxTrim, j);
    }
  }

  lemma LastInSilence(samples: seq<sample>, window: nat, threshold: nat)
    requires samples != []
    ensures InSilence(samples, window, threshold, |samples| - 1)
       <==> exists a: nat :: a < |samples| <= a + window && Silent(samples[a..], threshold)
  {
    hide Silent;
    forall a: nat | a <= |samples| ensures samples[a..|samples|] == samples[a..] {
    }
    if a: nat :| a < |samples| <= a + window && Silent(samples[a..], threshold) {
      assert Silent(samples[a..|samples|], threshold);
    }
  }

  /** A clip whose last sample is loud, and dropped although the window before it is silent. */
  lemma SilentEndLosesALoudSample()
    ensures var samples := [1000, 1000, 0, 0, 30000];
            var kept := Kept(samples, 200, 100, 5);
            && kept.end == 2 && Silent(Before(samples, 4, 2), 100)
            && !InSilence(samples, 2, 100, 4)
  {
    var samples: seq<sample> := [1000, 1000, 0, 0, 30000];
    EnergyOfTwo(1000, 1000);
    EnergyOfTwo(0, 0);
    EnergyOfTwo(0, 30000);
    assert Window(samples, 0, 2) == [1000, 1000] && Before(samples, 2, 2) == [1000, 1000];
    assert Before(samples, 4, 2) == [0, 0];
    assert LoudFrom(samples, 0, 5, 2, 100) == 0;
    assert LoudUntil(samples, 4, 0, 2, 100) == LoudUntil(samples, 2, 0, 2, 100) == 2;
    EnergyOfOne(30000);
    forall a: nat, b: nat | a <= 4 < b <= 5 && b - a <= 2 ensures !Silent(samples[a..b], 100) {
      assert b == 5 && (a == 3 || a == 4);
      assert samples[3..5] == [0, 30000] && samples[4..5] == [30000];
    }
  }

  lemma EnergyOfTwo(a: sample, b: sample)
    ensures Energy([a, b]) == a * a + b * b
  {
    EnergyOfOne(a);
    assert [a, b][..1] == [a];
  }

  lemma EnergyOfOne(a: sample)
    ensures Energy([a]) == a * a
  {
    assert [a][..0] == [];
  }

  /** Exactly the last sample goes at the end, however loud it is, exactly when the scan looks at
      the window before it and finds it loud. */
  lemma LoudEndLosesASample(samples: seq<sample>, rate: nat, threshold: nat, maxTrim: int)
    requires samples != [] && rate >= 100
    ensures var kept := Kept(samples, rate, threshold, maxTrim);
            Max(|samples| - maxTrim, kept.first) < |samples| - 1
            && !Silent(Before(samples, |samples| - 1, Min(512, rate / 100)), threshold)
            <==> kept.end == |samples| - 1
  {
    hide Silent, Before;
    var window := Min(512, rate / 100);
    var first := LoudFrom(samples, 0, Min(maxTrim, |samples|), window, threshold);
    var limit := Max(|samples| - maxTrim, first);
    LoudFromBounds(samples, 0, Min(maxTrim, |samples|), window, threshold);
    LoudUntilBounds(samples, |samples| - 1, limit, window, threshold);
    if limit < |samples| - 1 && Silent(Before(samples, |samples| - 1, window), threshold) {
      LoudUntilBounds(samples, |samples| - 1 - window, limit, window, threshold);
    }
  }
}
