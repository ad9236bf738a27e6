/** What cutting text into speech units promises for every stream of deltas. */
module SegmenterTheorems {
  import opened Text
  import opened Segmenter

  /** The text is the segments in order, each after some white space, then more
      white space and the rest: nothing else was lost, added or moved. */
  ghost predicate Splits(text: string, segments: seq<string>, rest: string)
    decreases |segments|, 1
  {
    exists k: nat :: SplitsAfter(text, k, segments, rest)
  }

  ghost predicate SplitsAfter(text: string, k: nat, segments: seq<string>, rest: string)
    decreases |segments|, 0
  {
    && k <= |text|
    && AllSpace(text[..k])
    && (if segments == [] then text[k..] == rest
        else segments[0] <= text[k..] && Splits(text[k + |segments[0]|..], segments[1..], rest))
  }

  lemma SpaceBefore(space: string, text: string, segments: seq<string>, rest: string)
    requires AllSpace(space) && Splits(text, segments, rest)
    ensures Splits(space + text, segments, rest)
  {
    var k: nat :| SplitsAfter(text, k, segments, rest);
    var whole := space + text;
    var m := |space| + k;
    assert whole[..m] == space + text[..k];
    assert whole[m..] == text[k..];
    if segments != [] {
      assert whole[m + |segments[0]|..] == text[k + |segments[0]|..];
    }
    assert SplitsAfter(whole, m, segments, rest);
  }

  lemma SegmentBefore(segment: string, text: string, segments: seq<string>, rest: string)
    requires Splits(text, segments, rest)
    ensures Splits(segment + text, [segment] + segments, rest)
  {
    var all := [segment] + segments;
    assert (segment + text)[0..] == segment + text;
    assert (segment + text)[0 + |segment|..] == text && all[1..] == segments;
    assert SplitsAfter(segment + text, 0, all, rest);
  }

  lemma NothingCut(text: string)
    ensures Splits(text, [], text)
  {
    assert text[0..] == text && SplitsAfter(text, 0, [], text);
  }

  lemma PeelSpace(text: string, rest: string) returns (space: string)
    requires Splits(text, [], rest)
    ensures AllSpace(space) && text == space + rest
  {
    var k: nat :| SplitsAfter(text, k, [], rest);
    space := text[..k];
  }

  lemma Peel(text: string, segments: seq<string>, rest: string) returns (space: string, tail: string)
    requires segments != [] && Splits(text, segments, rest)
    ensures AllSpace(space) && text == space + (segments[0] + tail) && Splits(tail, segments[1..], rest)
  {
    var k: nat :| SplitsAfter(text, k, segments, rest);
    space, tail := text[..k], text[k + |segments[0]|..];
    assert text[k..] == segments[0] + tail;
  }

  lemma {:induction false} SplitsCompose(a: string, s1: seq<string>, r1: string, b: string, s2: seq<string>, r2: string)
    requires Splits(a, s1, r1) && Splits(r1 + b, s2, r2)
    ensures Splits(a + b, s1 + s2, r2)
    decreases |s1|
  {
    hide Splits;
    if s1 == [] {
      var space := PeelSpace(a, r1);
      SpaceBefore(space, r1 + b, s2, r2);
      assert space + (r1 + b) == a + b && s1 + s2 == s2;
    } else {
      var space, tail := Peel(a, s1, r1);
      SplitsCompose(tail, s1[1..], r1, b, s2, r2);
      SegmentBefore(s1[0], tail + b, s1[1..] + s2, r2);
      SpaceBefore(space, s1[0] + (tail + b), [s1[0]] + (s1[1..] + s2), r2);
      assert [s1[0]] + (s1[1..] + s2) == s1 + s2;
      assert space + (s1[0] + (tail + b)) == a + b;
    }
  }

  /** In particular the characters that are not white space are all kept, in order. */
  lemma {:induction false} SplitsKeepsInk(text: string, segments: seq<string>, rest: string)
    requires Splits(text, segments, rest)
    ensures Ink(text) == Ink(Concat(segments)) + Ink(rest)
    decreases |segments|
  {
    hide Ink, Splits;
    if segments == [] {
      var space := PeelSpace(text, rest);
      InkOfSpace(space);
      InkOfSpace("");
      InkAppend(space, rest);
    } else {
      var space, tail := Peel(text, segments, rest);
      SplitsKeepsInk(tail, segments[1..], rest);
      InkOfSpace(space);
      InkAppend(space, segments[0] + tail);
      InkAppend(segments[0], tail);
      InkAppend(segments[0], Concat(segments[1..]));
    }
  }

  // ----- One delta -----

  /** A speech unit: not empty, no white space at its ends, not longer than allowed. */
  ghost predicate Unit(segment: string, limit: int) {
    segment != "" && Trimmed(segment) && |segment| <= limit
  }

  /** One cut: what is before the boundary becomes the segment, the white space around it goes. */
  lemma CutSplits(s: string, at: nat, segments: seq<string>, rest: string)
    requires at <= |s| && Splits(TrimLeft(s[at..]), segments, rest)
    ensures var segment := Trim(s[..at]);
            Splits(s, if segment == "" then segments else [segment] + segments, rest)
  {
    hide Splits, Trim, TrimLeft, AllSpace;
    var next := TrimLeftSplits(s[at..]);
    SpaceBefore(next, TrimLeft(s[at..]), segments, rest);
    var left, right := TrimSplits(s[..at]);
    SpaceBefore(right, s[at..], segments, rest);
    var segment := Trim(s[..at]);
    assert s == s[..at] + s[at..] == left + (segment + (right + s[at..]));
    if segment == "" {
      assert segment + (right + s[at..]) == right + s[at..];
      SpaceBefore(left, right + s[at..], segments, rest);
    } else {
      SegmentBefore(segment, right + s[at..], segments, rest);
      SpaceBefore(left, segment + (right + s[at..]), [segment] + segments, rest);
    }
  }

  lemma {:induction false} PopReadySplits(s: string, minChars: nat, maxChars: nat)
    requires 1 <= maxChars
    ensures var cut := PopReady(s, minChars, maxChars);
            && Splits(s, cut.segments, cut.rest)
            && (forall x | x in cut.segments :: Unit(x, |s|))
    decreases |s|
  {
    hide Settled, CutAt, Trim, Splits, Trimmed;
    if Settled(s, minChars, maxChars) {
      NothingCut(s);
    } else {
      var at := CutAt(s, minChars, maxChars);
      PopReadySplits(TrimLeft(s[at..]), minChars, maxChars);
      var cut := PopReady(TrimLeft(s[at..]), minChars, maxChars);
      CutSplits(s, at, cut.segments, cut.rest);
      TrimIsTrimmed(s[..at]);
    }
  }

  lemma PushSplits(buffer: string, delta: string, minChars: nat, maxChars: nat)
    requires 1 <= maxChars && Settled(buffer, minChars, maxChars)
    ensures var cut := PushText(buffer, delta, minChars, maxChars);
            && Splits(buffer + delta, cut.segments, cut.rest)
            && Settled(cut.rest, minChars, maxChars)
            && (forall x | x in cut.segments :: Unit(x, maxChars + |delta|))
  {
    if delta == "" {
      assert buffer + delta == buffer;
      NothingCut(buffer);
    } else {
      PopReadySplits(buffer + delta, minChars, maxChars);
    }
  }

  // ----- A whole stream -----

  /** The segments a fresh segmenter gives for a list of deltas, and what it still holds. */
  ghost function PushAll(deltas: seq<string>, minChars: nat, maxChars: nat): Cut
    requires 1 <= maxChars
    decreases |deltas|
  {
    if deltas == [] then Cut([], "")
    else
      var before := PushAll(deltas[..|deltas| - 1], minChars, maxChars);
      var last := PushText(before.rest, deltas[|deltas| - 1], minChars, maxChars);
      Cut(before.segments + last.segments, last.rest)
  }

  lemma NothingBeforeFirst(minChars: nat, maxChars: nat)
    ensures Settled("", minChars, maxChars)
  {}

  /** Every stream: the buffer never holds a ready boundary nor more than the maximum,
      and segments and buffer together are the text that arrived. */
  lemma {:induction false} StreamSplits(deltas: seq<string>, minChars: nat, maxChars: nat)
    requires 1 <= maxChars
    ensures var cut := PushAll(deltas, minChars, maxChars);
            && Splits(Concat(deltas), cut.segments, cut.rest)
            && Settled(cut.rest, minChars, maxChars)
            && (forall x | x in cut.segments :: x != "" && Trimmed(x))
    decreases |deltas|
  {
    hide Settled, Splits, Trimmed, PushText;
    if deltas == [] {
      NothingBeforeFirst(minChars, maxChars);
      NothingCut("");
    } else {
      var initial, last := deltas[..|deltas| - 1], deltas[|deltas| - 1];
      StreamSplits(initial, minChars, maxChars);
      var before := PushAll(initial, minChars, maxChars);
      PushSplits(before.rest, last, minChars, maxChars);
      var cut := PushText(before.rest, last, minChars, maxChars);
      SplitsCompose(Concat(initial), before.segments, before.rest, last, cut.segments, cut.rest);
      ConcatSnoc(initial, last);
      assert deltas == initial + [last];
    }
  }

  /** The spoken units of a finished stream: what was cut, and what flush still gives. */
  ghost function Spoken(deltas: seq<string>, minChars: nat, maxChars: nat): seq<string>
    requires 1 <= maxChars
  {
    var cut := PushAll(deltas, minChars, maxChars);
    cut.segments + (if Trim(cut.rest) == "" then [] else [Trim(cut.rest)])
  }

  /** A finished stream is spoken whole: the units are the text, up to white space around them. */
  lemma SpokenIsTheText(deltas: seq<string>, minChars: nat, maxChars: nat)
    requires 1 <= maxChars
    ensures Splits(Concat(deltas), Spoken(deltas, minChars, maxChars), "")
    ensures Ink(Concat(Spoken(deltas, minChars, maxChars))) == Ink(Concat(deltas))
  {
    hide Settled, Splits, Trim, Trimmed;
    var cut := PushAll(deltas, minChars, maxChars);
    StreamSplits(deltas, minChars, maxChars);
    var last := if Trim(cut.rest) == "" then [] else [Trim(cut.rest)];
    assert Splits(cut.rest + "", last, "") by {
      assert cut.rest[|cut.rest|..] == "" && cut.rest[..|cut.rest|] == cut.rest == cut.rest + "";
      assert Leading("") == 0 && TrimLeft("") == "";
      NothingCut("");
      CutSplits(cut.rest, |cut.rest|, [], "");
      assert [Trim(cut.rest)] + [] == [Trim(cut.rest)];
    }
    SplitsCompose(Concat(deltas), cut.segments, cut.rest, "", last, "");
    assert Concat(deltas) + "" == Concat(deltas);
    SplitsKeepsInk(Concat(deltas), Spoken(deltas, minChars, maxChars), "");
  }
}
