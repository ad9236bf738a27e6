/** What counts as silence, told on the samples themselves, and what that means for whole clips. */
module Loudness {
  import opened Arithmetic
  import opened Bytes
  import opened Silence
  import opened SilenceTheorems

  // ----- Windows -----

  /** The sample keeps strictly between the threshold and its negative. */
  ghost predicate Under(s: int, threshold: int) {
    -threshold < s < threshold
  }

  ghost predicate Quiet(window: seq<sample>, threshold: nat) {
    forall i | 0 <= i < |window| :: Under(window[i], threshold)
  }

  ghost predicate Loud(window: seq<sample>, threshold: nat) {
    forall i | 0 <= i < |window| :: !Under(window[i], threshold)
  }

  lemma SquareBound(s: int, t: nat)
    ensures Under(s, t) <==> s * s < t * t
  {
    var a := if s < 0 then -s else s;
    assert s * s == a * a;
    if a < t {
      Product(a, t - a);
      Product(t, t - a - 1);
      assert a * (t - a) + t * (t - a - 1) + t == t * t - a * a;
    } else {
      Product(t, a - t);
      Product(a, a - t);
      assert t * (a - t) + a * (a - t) == a * a - t * t;
    }
  }

  function Square(s: int): int {
    s * s
  }

  lemma {:induction false} EnergyBounds(w: seq<sample>, t: nat)
    ensures Quiet(w, t) && w != [] ==> Energy(w) < t * t * |w|
    ensures Loud(w, t) ==> t * t * |w| <= Energy(w)
  {
    if w != [] {
      var head, last := w[..|w| - 1], w[|w| - 1];
      EnergyBounds(head, t);
      SquareBound(last, t);
      assert t * t * |w| == t * t * |head| + t * t;
    }
  }

  /** A window of samples below the threshold is silent, one of samples at or above it is not. */
  lemma QuietIsSilent(w: seq<sample>, t: nat)
    ensures Quiet(w, t) && w != [] ==> Silent(w, t)
    ensures Loud(w, t) ==> !Silent(w, t)
  {
    EnergyBounds(w, t);
  }

  lemma {:induction false} EnergyAppend(a: seq<sample>, b: seq<sample>)
    ensures Energy(a + b) == Energy(a) + Energy(b)
  {
    if b == [] {
      assert a + b == a;
    } else {
      var head := b[..|b| - 1];
      EnergyAppend(a, head);
      assert (a + b)[..|a + b| - 1] == a + head;
    }
  }

  /** Silence is a matter of the mean: a window and twice that window are the same. */
  lemma TwiceIsTheSame(w: seq<sample>, t: nat)
    ensures Silent(w + w, t) <==> Silent(w, t)
  {
    EnergyAppend(w, w);
    assert t * t * |w + w| == 2 * (t * t * |w|);
  }

  lemma EnergySplit(w: seq<sample>, i: nat)
    requires i < |w|
    ensures Energy(w) == Energy(w[..i] + w[i + 1..]) + Square(w[i])
  {
    EnergyAppend(w[..i], w[i + 1..]);
    EnergyAppend(w[..i + 1], w[i + 1..]);
    assert w == w[..i + 1] + w[i + 1..] && w[..i + 1][..i] == w[..i];
  }

  lemma {:induction false} EnergyOfPermuted(a: seq<sample>, b: seq<sample>)
    requires multiset(a) == multiset(b)
    ensures Energy(a) == Energy(b) && |a| == |b|
  {
    assert |multiset(a)| == |a| && |multiset(b)| == |b|;
    if a != [] {
      var head, last := a[..|a| - 1], a[|a| - 1];
      var j := Without(a, b);
      var rest := b[..j] + b[j + 1..];
      EnergyOfPermuted(head, rest);
      EnergySplit(b, j);
    }
  }

  /** The last element of one order is somewhere in the other, and the others are the same without it. */
  lemma Without<T>(a: seq<T>, b: seq<T>) returns (j: nat)
    requires a != [] && multiset(a) == multiset(b)
    ensures j < |b| && b[j] == a[|a| - 1] && multiset(a[..|a| - 1]) == multiset(b[..j] + b[j + 1..])
  {
    var head, last := a[..|a| - 1], a[|a| - 1];
    assert a == head + [last];
    assert last in multiset(b);
    j :| j < |b| && b[j] == last;
    var left, right := b[..j], b[j + 1..];
    assert b == left + [last] + right;
    assert multiset(left + right) + multiset{last} == multiset(b) == multiset(head) + multiset{last};
    forall x: T ensures multiset(head)[x] == multiset(left + right)[x] {
      assert (multiset(head) + multiset{last})[x] == (multiset(left + right) + multiset{last})[x];
    }
  }

  /** The order of the samples does not matter. */
  lemma OrderDoesNotMatter(a: seq<sample>, b: seq<sample>, t: nat)
    requires multiset(a) == multiset(b)
    ensures Silent(a, t) <==> Silent(b, t)
  {
    EnergyOfPermuted(a, b);
  }

  /** Two samples may be exchanged for two others with the same sum of squares. */
  lemma SquaresMatter(w: seq<sample>, i: nat, j: nat, a: sample, b: sample, t: nat)
    requires i < j < |w| && Square(w[i]) + Square(w[j]) == Square(a) + Square(b)
    ensures Silent(w[i := a][j := b], t) <==> Silent(w, t)
  {
    EnergyUpdate(w, i, a);
    EnergyUpdate(w[i := a], j, b);
  }

  lemma EnergyUpdate(w: seq<sample>, i: nat, a: sample)
    requires i < |w|
    ensures Energy(w[i := a]) == Energy(w) - Square(w[i]) + Square(a)
  {
    EnergySplit(w, i);
    EnergySplit(w[i := a], i);
    assert w[i := a][..i] == w[..i] && w[i := a][i + 1..] == w[i + 1..];
  }

  // ----- Whole clips -----

  /** The k-th pair of bytes, low byte first, is a number between the bounds modulo 2^16. */
  ghost predicate PairIs(pcm: bytes, k: nat, s: int)
    requires 2 * k + 1 < |pcm|
  {
    -0x8000 <= s < 0x8000 && (pcm[2 * k] + 0x100 * pcm[2 * k + 1] - s) % 0x1_0000 == 0
  }

  ghost predicate QuietClip(pcm: bytes, threshold: nat) {
    forall k: nat, s: int | 2 * k + 1 < |pcm| && PairIs(pcm, k, s) :: Under(s, threshold)
  }

  ghost predicate LoudClip(pcm: bytes, threshold: nat) {
    forall k: nat, s: int | 2 * k + 1 < |pcm| && PairIs(pcm, k, s) :: !Under(s, threshold)
  }

  lemma SampleIsThePair(pcm: bytes, k: nat)
    requires |pcm| % 2 == 0 && 2 * k + 1 < |pcm|
    ensures PairIs(pcm, k, Unpack(pcm)[k])
  {
    hide Unpack;
    UnpackTail(pcm, k);
    var lo, hi := pcm[2 * k], pcm[2 * k + 1];
    assert pcm[2 * k..][0] == lo && pcm[2 * k..][1] == hi;
    FirstSample(pcm[2 * k..]);
  }

  lemma FirstSample(pcm: bytes)
    requires |pcm| % 2 == 0 && pcm != []
    ensures Unpack(pcm) != [] && Unpack(pcm)[0] == Decode(pcm[0], pcm[1])
  {}

  lemma ClipLevel(pcm: bytes, threshold: nat)
    requires |pcm| % 2 == 0
    ensures QuietClip(pcm, threshold) ==> Quiet(Unpack(pcm), threshold)
    ensures LoudClip(pcm, threshold) ==> Loud(Unpack(pcm), threshold)
  {
    hide Unpack, PairIs;
    forall k: nat | k < |Unpack(pcm)| ensures 2 * k + 1 < |pcm| && PairIs(pcm, k, Unpack(pcm)[k]) {
      SampleIsThePair(pcm, k);
    }
  }

  lemma {:induction false} FlagsOfLevel(samples: seq<sample>, i: nat, window: nat, threshold: nat)
    requires window > 0 && i <= |samples| + window
    ensures var flags := FlagsFrom(samples, i, window, threshold);
            && (i < |samples| ==> flags != [])
            && (Quiet(samples, threshold) ==> forall k | 0 <= k < |flags| :: flags[k])
            && (Loud(samples, threshold) ==> forall k | 0 <= k < |flags| :: !flags[k])
    decreases |samples| + window - i
  {
    hide Silent;
    if i < |samples| {
      QuietIsSilent(Window(samples, i, window), threshold);
      FlagsOfLevel(samples, i + window, window, threshold);
    }
  }

  lemma AllOn(flags: seq<bool>)
    requires flags != [] && forall k | 0 <= k < |flags| :: flags[k]
    ensures Runs(flags, 0) == [Run(0, |flags|)]
  {
    assert On(flags, 0) && !On(flags, |flags|);
    var e := RunEnd(flags, 0);
    assert e < |flags| ==> On(flags, e);
    assert Runs(flags, e) == [];
  }

  lemma {:induction false} AllOff(flags: seq<bool>, i: nat)
    requires i <= |flags| && forall k | 0 <= k < |flags| :: !flags[k]
    ensures Runs(flags, i) == []
    decreases |flags| - i
  {
    if i < |flags| {
      AllOff(flags, i + 1);
    }
  }

  /** A quiet clip that lasts long enough is one silent region from its start to its end. */
  lemma QuietClipIsOneRegion(pcm: bytes, rate: nat, threshold: nat, minDuration: real)
    requires pcm != [] && |pcm| % 2 == 0 && rate >= 20 && QuietClip(pcm, threshold)
    ensures var duration := (|pcm| / 2) as real / rate as real;
            DetectedIn(pcm, rate, threshold, minDuration)
            == Detected(if duration >= minDuration then [Region(0.0, duration)] else [])
  {
    hide Unpack, QuietClip, Quiet, FlagsFrom, Runs;
    var flags := WindowFlags(pcm, rate, threshold);
    ClipLevel(pcm, threshold);
    FlagsOfLevel(Unpack(pcm), 0, rate / 20, threshold);
    assert |Unpack(pcm)| == |pcm| / 2 > 0;
    AllOn(flags);
    assert DetectedIn(pcm, rate, threshold, minDuration)
        == Detected(Long([Run(0, |flags|)], |flags|, rate / 20, |pcm| / 2, rate, minDuration));
    WholeRun(|flags|, rate / 20, |pcm| / 2, rate, minDuration);
  }

  lemma WholeRun(windows: nat, window: nat, samples: nat, rate: nat, minDuration: real)
    requires rate > 0
    ensures var duration := samples as real / rate as real;
            Long([Run(0, windows)], windows, window, samples, rate, minDuration)
            == if duration >= minDuration then [Region(0.0, duration)] else []
  {
    var whole := Run(0, windows);
    assert 0 * window == 0;
    assert TimeOf(whole, windows, window, samples, rate) == Region(0.0, samples as real / rate as real);
    assert Long([whole][1..], windows, window, samples, rate, minDuration) == [];
  }

  /** A loud clip has no silent region. */
  lemma LoudClipHasNoRegion(pcm: bytes, rate: nat, threshold: nat, minDuration: real)
    requires |pcm| % 2 == 0 && rate >= 20 && LoudClip(pcm, threshold)
    ensures DetectedIn(pcm, rate, threshold, minDuration) == Detected([])
  {
    hide Unpack, LoudClip, Loud, FlagsFrom, Runs;
    ClipLevel(pcm, threshold);
    FlagsOfLevel(Unpack(pcm), 0, rate / 20, threshold);
    AllOff(FlagsFrom(Unpack(pcm), 0, rate / 20, threshold), 0);
  }

  // ----- Where trimming stops -----

  /** The k-th window of the scan from the start is looked at and loud. */
  ghost predicate LoudLead(samples: seq<sample>, from: nat, k: nat, limit: int, window: nat, threshold: nat)
    requires limit <= |samples|
  {
    Product(k, window);
    var at := from + k * window;
    at < limit && !Silent(Window(samples, at, window), threshold)
  }

  /** The k-th window is the first loud one from the start. */
  ghost predicate LeadsTo(samples: seq<sample>, from: nat, k: nat, limit: int, window: nat, threshold: nat)
    requires limit <= |samples|
  {
    && LoudLead(samples, from, k, limit, window, threshold)
    && forall j: nat | j < k :: !LoudLead(samples, from, j, limit, window, threshold)
  }

  /** The k-th window is the first loud one of the scan from the end. */
  ghost predicate TailsTo(samples: seq<sample>, from: int, k: nat, limit: int, window: nat, threshold: nat)
    requires 0 <= limit && from <= |samples|
  {
    && LoudStep(samples, from, k, limit, window, threshold)
    && forall j: nat | j < k :: !LoudStep(samples, from, j, limit, window, threshold)
  }

  lemma {:induction false} LeadScan(samples: seq<sample>, from: nat, k: nat, limit: int, window: nat, threshold: nat)
    requires window > 0 && limit <= |samples| && LeadsTo(samples, from, k, limit, window, threshold)
    ensures LoudFrom(samples, from, limit, window, threshold) == from + k * window
    decreases k
  {
    hide Silent, Window;
    Product(k, window);
    assert 0 * window == 0;
    if k > 0 {
      assert !LoudLead(samples, from, 0, limit, window, threshold);
      var next := from + window;
      forall j: nat ensures LoudLead(samples, next, j, limit, window, threshold)
                       <==> LoudLead(samples, from, j + 1, limit, window, threshold) {
        assert (j + 1) * window == j * window + window;
      }
      assert (k - 1) + 1 == k;
      LeadScan(samples, next, k - 1, limit, window, threshold);
      assert (k - 1) * window + window == k * window;
    }
  }

  lemma {:induction false} TailScan(samples: seq<sample>, from: int, k: nat, limit: int, window: nat, threshold: nat)
    requires window > 0 && 0 <= limit && from <= |samples| && TailsTo(samples, from, k, limit, window, threshold)
    ensures LoudUntil(samples, from, limit, window, threshold) == from - k * window
    decreases k
  {
    hide Silent, Before;
    Product(k, window);
    assert 0 * window == 0;
    if k > 0 {
      assert !LoudStep(samples, from, 0, limit, window, threshold);
      var next := from - window;
      forall j: nat ensures LoudStep(samples, next, j, limit, window, threshold)
                       <==> LoudStep(samples, from, j + 1, limit, window, threshold) {
        assert (j + 1) * window == j * window + window;
      }
      assert (k - 1) + 1 == k;
      TailScan(samples, next, k - 1, limit, window, threshold);
      assert (k - 1) * window + window == k * window;
    }
  }

  /** Trimming goes to the first loud window from either end, and takes every window before it. */
  lemma TrimsToTheLoudWindow(samples: seq<sample>, rate: nat, threshold: nat, maxTrim: int, k: nat)
    requires samples != [] && rate >= 100
    ensures var kept, window, last := Kept(samples, rate, threshold, maxTrim), Min(512, rate / 100), |samples| - 1;
            && (LeadsTo(samples, 0, k, Min(maxTrim, |samples|), window, threshold) ==> kept.first == k * window)
            && (TailsTo(samples, last, k, Max(|samples| - maxTrim, kept.first), window, threshold)
                ==> kept.end == last - k * window)
  {
    hide Silent, Before, Window;
    var kept, window, last := Kept(samples, rate, threshold, maxTrim), Min(512, rate / 100), |samples| - 1;
    if LeadsTo(samples, 0, k, Min(maxTrim, |samples|), window, threshold) {
      LeadScan(samples, 0, k, Min(maxTrim, |samples|), window, threshold);
    }
    if TailsTo(samples, last, k, Max(|samples| - maxTrim, kept.first), window, threshold) {
      TailScan(samples, last, k, Max(|samples| - maxTrim, kept.first), window, threshold);
    }
  }

  /** A clip that is quiet all through is kept whole: there is no loud window to trim to. */
  lemma QuietClipIsKept(samples: seq<sample>, rate: nat, threshold: nat, maxTrim: int)
    requires samples != [] && rate >= 100 && Quiet(samples, threshold)
    ensures Kept(samples, rate, threshold, maxTrim) == Run(0, |samples|)
  {
    hide Silent;
    var window := Min(512, rate / 100);
    NoLead(samples, 0, Min(maxTrim, |samples|), window, threshold);
    NoTail(samples, |samples| - 1, Max(|samples| - maxTrim, 0), window, threshold);
  }

  lemma {:induction false} NoLead(samples: seq<sample>, i: nat, limit: int, window: nat, threshold: nat)
    requires window > 0 && limit <= |samples| && Quiet(samples, threshold)
    ensures LoudFrom(samples, i, limit, window, threshold) == 0
    decreases limit - i
  {
    hide Silent;
    if i < limit {
      QuietIsSilent(Window(samples, i, window), threshold);
      NoLead(samples, i + window, limit, window, threshold);
    }
  }

  lemma {:induction false} NoTail(samples: seq<sample>, i: int, limit: int, window: nat, threshold: nat)
    requires window > 0 && 0 <= limit && i <= |samples| && Quiet(samples, threshold)
    ensures LoudUntil(samples, i, limit, window, threshold) == |samples|
    decreases i - limit
  {
    hide Silent;
    if i > limit {
      QuietIsSilent(Before(samples, i, window), threshold);
      NoTail(samples, i - window, limit, window, threshold);
    }
  }

  // ----- Times -----

  /** The times of a reported region are those of its first sample and of the end of its last
      window, or of the clip. */
  lemma RegionIsItsSamples(pcm: bytes, rate: nat, threshold: nat, r: Run)
    requires pcm != [] && |pcm| % 2 == 0 && rate >= 20 && MaximalRun(WindowFlags(pcm, rate, threshold), r)
    ensures var window, count := rate / 20, |pcm| / 2;
            var t := TimeOf(r, |WindowFlags(pcm, rate, threshold)|, window, count, rate);
            && t.start * rate as real == (r.first * window) as real
            && t.end * rate as real == Min(r.end * window, count) as real
  {
    hide FlagsFrom, Unpack, TimeOf;
    var flags, window, count := WindowFlags(pcm, rate, threshold), rate / 20, |pcm| / 2;
    assert |Unpack(pcm)| == count;
    FlagAt(Unpack(pcm), 0, window, threshold, r.end);
    Product(r.end, window);
    TimesOfRun(r, |flags|, window, count, rate, r.first * window, r.end * window);
  }

  lemma TimesOfRun(r: Run, windows: nat, window: nat, count: nat, rate: nat, first: nat, end: nat)
    requires rate > 0 && r.end <= windows && first == r.first * window && end == r.end * window
    requires r.end < windows <==> end < count
    ensures var t := TimeOf(r, windows, window, count, rate);
            t.start * rate as real == first as real && t.end * rate as real == Min(end, count) as real
  {
    Over(first as real, rate);
    Over(end as real, rate);
    Over(count as real, rate);
  }

  lemma Over(a: real, rate: nat)
    requires rate > 0
    ensures a / rate as real * rate as real == a
  {}
}
