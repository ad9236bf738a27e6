/** Where streamed text is cut, told on the text itself. */
module SegmenterCuts {
  import opened Arithmetic
  import opened Common
  import opened Text
  import opened Segmenter

  // ----- Where a cut belongs -----

  /** White space t[p..e], all of its run, behind a full stop, exclamation mark, question mark or comma. */
  ghost predicate StopThenSpace(t: string, p: nat, e: nat) {
    && 0 < p < e <= |t|
    && t[p - 1] in ".!?,"
    && (forall i | p <= i < e :: IsSpace(t[i]))
    && (e < |t| ==> !IsSpace(t[e]))
  }

  /** A boundary that leaves enough text before it. */
  ghost predicate IsReady(t: string, b: nat, minChars: nat) {
    minChars <= b && exists p :: StopThenSpace(t, p, b)
  }

  /** The last blank or newline among the first `max` characters. */
  ghost predicate LastBlankAt(t: string, max: nat, at: nat) {
    && at < max <= |t|
    && (t[at] == ' ' || t[at] == '\n')
    && (forall i | at < i < max :: t[i] != ' ' && t[i] != '\n')
  }

  /** An overlong text is cut behind that blank when it comes late enough, else at the maximum. */
  ghost predicate CutsWindow(t: string, k: nat, minChars: nat, maxChars: nat) {
    || (exists at: nat :: LastBlankAt(t, maxChars, at) && minChars <= at && k == at + 1)
    || ((forall at: nat | LastBlankAt(t, maxChars, at) :: at < minChars) && k == maxChars)
  }

  ghost predicate NothingReady(t: string, minChars: nat) {
    forall b: nat :: !IsReady(t, b, minChars)
  }

  /** The text is cut at k: at its least ready boundary, or without one because it is too long. */
  ghost predicate IsCut(t: string, k: nat, minChars: nat, maxChars: nat) {
    || (IsReady(t, k, minChars) && forall b: nat | IsReady(t, b, minChars) :: k <= b)
    || (NothingReady(t, minChars) && |t| > maxChars && CutsWindow(t, k, minChars, maxChars))
  }

  /** These are the pieces of the text, cut one after the other, and what is left. */
  ghost predicate Cuts(t: string, segments: seq<string>, rest: string, minChars: nat, maxChars: nat)
    decreases |t|, 1
  {
    if NothingReady(t, minChars) && |t| <= maxChars then segments == [] && rest == t
    else exists k: nat :: CutsAt(t, k, segments, rest, minChars, maxChars)
  }

  ghost predicate CutsAt(t: string, k: nat, segments: seq<string>, rest: string, minChars: nat, maxChars: nat)
    decreases |t|, 0
  {
    && 0 < k <= |t| && IsCut(t, k, minChars, maxChars)
    && var piece, next := Trim(t[..k]), TrimLeft(t[k..]);
    if piece == "" then Cuts(next, segments, rest, minChars, maxChars)
    else segments != [] && segments[0] == piece && Cuts(next, segments[1..], rest, minChars, maxChars)
  }

  // ----- The segmenter cuts there -----

  lemma SameBoundaries(t: string, b: nat)
    ensures IsBoundary(t, b) <==> exists p :: StopThenSpace(t, p, b)
  {
    forall p: nat ensures StopThenSpace(t, p, b) <==> Match(t, p, b) {
      if 0 < p < b <= |t| {
        assert t[p - 1] in ".!?," <==> IsStop(t[p - 1]);
        assert forall i | p <= i < b :: SpaceAt(t, i) <==> IsSpace(t[i]);
      }
    }
    if p :| StopThenSpace(t, p, b) {
      assert Match(t, p, b);
    }
    if p :| Match(t, p, b) {
      assert StopThenSpace(t, p, b);
    }
  }

  lemma FirstReady(t: string, minChars: nat)
    ensures match FirstBoundary(t, minChars)
            case Some(e) => IsReady(t, e, minChars) && forall b: nat | IsReady(t, b, minChars) :: e <= b
            case None => NothingReady(t, minChars)
  {
    forall b: nat ensures IsReady(t, b, minChars) <==> minChars <= b && IsBoundary(t, b) {
      SameBoundaries(t, b);
    }
  }

  lemma LastBlankIsUnique(t: string, max: nat, a: nat, b: nat)
    requires LastBlankAt(t, max, a) && LastBlankAt(t, max, b)
    ensures a == b
  {}

  lemma WindowIsCut(t: string, minChars: nat, maxChars: nat)
    requires maxChars < |t|
    ensures CutsWindow(t, Fallback(t, minChars, maxChars), minChars, maxChars)
  {
    var window := t[..maxChars];
    var at := Max(LastIndex(window, ' '), LastIndex(window, '\n'));
    assert forall i | 0 <= i < maxChars :: window[i] == t[i];
    if at >= 0 {
      assert LastBlankAt(t, maxChars, at);
    }
    forall other: nat | LastBlankAt(t, maxChars, other) ensures other == at {
      assert t[other] == window[other];
      LastBlankIsUnique(t, maxChars, at, other);
    }
  }

  lemma CutIsThere(t: string, minChars: nat, maxChars: nat)
    requires 1 <= maxChars && !Settled(t, minChars, maxChars)
    ensures IsCut(t, CutAt(t, minChars, maxChars), minChars, maxChars)
  {
    hide IsReady, NothingReady, CutsWindow, Fallback;
    FirstReady(t, minChars);
    if FirstBoundary(t, minChars).None? {
      WindowIsCut(t, minChars, maxChars);
    }
  }

  /** There is one place to cut. */
  lemma CutIsUnique(t: string, j: nat, k: nat, minChars: nat, maxChars: nat)
    requires IsCut(t, j, minChars, maxChars) && IsCut(t, k, minChars, maxChars)
    ensures j == k
  {
    hide IsReady;
    forall a: nat, b: nat | LastBlankAt(t, maxChars, a) && LastBlankAt(t, maxChars, b) ensures a == b {
      LastBlankIsUnique(t, maxChars, a, b);
    }
  }

  lemma SettledMeans(t: string, minChars: nat, maxChars: nat)
    ensures Settled(t, minChars, maxChars) <==> NothingReady(t, minChars) && |t| <= maxChars
  {
    hide IsReady;
    FirstReady(t, minChars);
  }

  lemma {:induction false} PopReadyCuts(t: string, minChars: nat, maxChars: nat)
    requires 1 <= maxChars
    ensures var cut := PopReady(t, minChars, maxChars); Cuts(t, cut.segments, cut.rest, minChars, maxChars)
    decreases |t|
  {
    hide IsCut, NothingReady, Settled, CutAt, Trim, TrimLeft;
    SettledMeans(t, minChars, maxChars);
    if !Settled(t, minChars, maxChars) {
      var k := CutAt(t, minChars, maxChars);
      var cut := PopReady(t, minChars, maxChars);
      CutIsThere(t, minChars, maxChars);
      TrimmedIsShorter(t[k..]);
      PopReadyCuts(TrimLeft(t[k..]), minChars, maxChars);
      if Trim(t[..k]) != "" {
        assert cut.segments[1..] == PopReady(TrimLeft(t[k..]), minChars, maxChars).segments;
      }
      assert CutsAt(t, k, cut.segments, cut.rest, minChars, maxChars);
    }
  }

  lemma TrimmedIsShorter(s: string)
    ensures |TrimLeft(s)| <= |s|
  {}

  lemma {:induction false} CutsAreUnique(t: string, a: Cut, b: Cut, minChars: nat, maxChars: nat)
    requires Cuts(t, a.segments, a.rest, minChars, maxChars) && Cuts(t, b.segments, b.rest, minChars, maxChars)
    ensures a == b
    decreases |t|
  {
    hide IsCut, NothingReady, Trim, TrimLeft;
    if !(NothingReady(t, minChars) && |t| <= maxChars) {
      var j: nat :| CutsAt(t, j, a.segments, a.rest, minChars, maxChars);
      var k: nat :| CutsAt(t, k, b.segments, b.rest, minChars, maxChars);
      CutIsUnique(t, j, k, minChars, maxChars);
      var next := TrimLeft(t[k..]);
      TrimmedIsShorter(t[k..]);
      if Trim(t[..k]) == "" {
        CutsAreUnique(next, a, b, minChars, maxChars);
      } else {
        CutsAreUnique(next, Cut(a.segments[1..], a.rest), Cut(b.segments[1..], b.rest), minChars, maxChars);
        assert a.segments == [a.segments[0]] + a.segments[1..] && b.segments == [b.segments[0]] + b.segments[1..];
      }
    }
  }

  /** What a push makes of the buffer and a delta is exactly the pieces of the two together. */
  lemma PushCuts(buffer: string, delta: string, minChars: nat, maxChars: nat, cut: Cut)
    requires 1 <= maxChars
    ensures PushText(buffer, delta, minChars, maxChars) == cut <==>
              if delta == "" then cut == Cut([], buffer)
              else Cuts(buffer + delta, cut.segments, cut.rest, minChars, maxChars)
  {
    hide Cuts, PopReady;
    if delta != "" {
      PopReadyCuts(buffer + delta, minChars, maxChars);
      if Cuts(buffer + delta, cut.segments, cut.rest, minChars, maxChars) {
        CutsAreUnique(buffer + delta, cut, PopReady(buffer + delta, minChars, maxChars), minChars, maxChars);
      }
    }
  }

  /** For instance a sentence goes with its stop, and what follows waits. */
  lemma HelloIsCut()
    ensures PushText("Hel", "lo. World", 5, 180) == Cut(["Hello."], "World")
  {
    hide Cuts, IsCut, PushText, Trim, TrimLeft;
    var t := "Hello. World";
    assert "Hel" + "lo. World" == t && t[..7] == "Hello. " && t[7..] == "World";
    HelloBoundary();
    TrimHello();
    WorldWaits();
    assert ["Hello."][1..] == [];
    assert CutsAt(t, 7, ["Hello."], "World", 5, 180);
    CutsFrom(t, 7, ["Hello."], "World", 5, 180);
    PushCuts("Hel", "lo. World", 5, 180, Cut(["Hello."], "World"));
  }

  lemma CutsFrom(t: string, k: nat, segments: seq<string>, rest: string, minChars: nat, maxChars: nat)
    requires CutsAt(t, k, segments, rest, minChars, maxChars) && !NothingReady(t, minChars)
    ensures Cuts(t, segments, rest, minChars, maxChars)
  {}

  lemma HelloBoundary()
    ensures IsCut("Hello. World", 7, 5, 180) && !NothingReady("Hello. World", 5)
  {
    var t := "Hello. World";
    assert StopThenSpace(t, 6, 7) && IsReady(t, 7, 5);
    forall b: nat | IsReady(t, b, 5) ensures 7 <= b {
      var p :| StopThenSpace(t, p, b);
      assert p == 6;
    }
  }

  lemma WorldWaits()
    ensures Cuts("World", [], "World", 5, 180)
  {
    var t := "World";
    forall b: nat ensures !IsReady(t, b, 5) {
      forall p: nat ensures !StopThenSpace(t, p, b) {
        if 0 < p <= |t| {
          assert t[p - 1] !in ".!?,";
        }
      }
    }
  }

  lemma TrimHello()
    ensures Trim("Hello. ") == "Hello." && TrimLeft("World") == "World"
  {
    hide TrailingFrom;
    assert TrimLeft("Hello. ") == "Hello. " && TrimLeft("World") == "World";
    TrimEnd("Hello.", " ");
    assert "Hello." + " " == "Hello. ";
  }

  lemma TrimEnd(s: string, space: string)
    requires s != "" && !IsSpace(s[|s| - 1]) && AllSpace(space)
    ensures TrimRight(s + space) == s
  {
    var t := s + space;
    assert forall i | |s| <= i < |t| :: IsSpace(t[i]);
    assert !IsSpace(t[|s| - 1]);
    assert TrailingFrom(t) == |s|;
  }
}
