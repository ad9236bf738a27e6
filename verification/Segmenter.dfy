/** Cutting streamed reply text into speech units. */
module Segmenter {
  import opened Arithmetic
  import opened Common
  import opened Text

  predicate IsStop(c: char) {
    c == '.' || c == '!' || c == '?' || c == ','
  }

  // ----- What a boundary is -----

  ghost predicate SpaceAt(s: string, i: nat) {
    i < |s| && IsSpace(s[i])
  }

  /** A run of white space s[p..e], taken to its end, after a stop character. */
  ghost predicate Match(s: string, p: nat, e: nat) {
    && 0 < p < e <= |s|
    && IsStop(s[p - 1])
    && (forall i | p <= i < e :: SpaceAt(s, i))
    && !SpaceAt(s, e)
  }

  ghost predicate IsBoundary(s: string, e: nat) {
    exists p :: Match(s, p, e)
  }

  /** The first boundary at e or later. */
  ghost function FirstBoundary(s: string, e: nat): (r: Option<nat>)
    ensures r.Some? ==> e <= r.value <= |s| && IsBoundary(s, r.value)
    ensures r.Some? ==> forall b: nat | IsBoundary(s, b) && e <= b :: r.value <= b
    ensures r.None? ==> forall b: nat | IsBoundary(s, b) :: b < e
    decreases |s| + 1 - e
  {
    if e > |s| then None
    else if IsBoundary(s, e) then Some(e)
    else FirstBoundary(s, e + 1)
  }

  /** The position of the last occurrence of c, or -1. */
  function LastIndex(s: string, c: char): (r: int)
    ensures -1 <= r < |s|
    ensures r >= 0 ==> s[r] == c
    ensures forall i | r < i < |s| :: s[i] != c
  {
    if s == "" then -1
    else if s[|s| - 1] == c then |s| - 1
    else LastIndex(s[..|s| - 1], c)
  }

  /** Where an overlong buffer is cut: after the last blank or newline of the
      window, if that leaves enough, else at the end of the window. */
  function Fallback(s: string, minChars: nat, maxChars: nat): (r: nat)
    requires maxChars < |s|
    ensures r <= maxChars && (r == 0 <==> maxChars == 0)
  {
    var window := s[..maxChars];
    var at := Max(LastIndex(window, ' '), LastIndex(window, '\n'));
    if at < minChars then maxChars else at + 1
  }

  // ----- What cutting does -----

  datatype Cut = Cut(segments: seq<string>, rest: string)

  /** No boundary left that is far enough, and not too long. */
  ghost predicate Settled(s: string, minChars: nat, maxChars: nat) {
    FirstBoundary(s, minChars).None? && |s| <= maxChars
  }

  ghost function CutAt(s: string, minChars: nat, maxChars: nat): (r: nat)
    requires !Settled(s, minChars, maxChars)
    ensures r <= |s| && (1 <= maxChars ==> 0 < r)
  {
    match FirstBoundary(s, minChars)
    case Some(e) => e
    case None => Fallback(s, minChars, maxChars)
  }

  /** A pass of the loop shortens the buffer, unless the maximum is 0, no boundary is ready and
      the buffer does not begin with white space: then it changes nothing and the loop never ends. */
  lemma PassesShorten(s: string, minChars: nat, maxChars: nat)
    requires !Settled(s, minChars, maxChars)
    ensures var next := TrimLeft(s[CutAt(s, minChars, maxChars)..]);
            var stuck := maxChars == 0 && FirstBoundary(s, minChars).None? && !SpaceAt(s, 0);
            if stuck then next == s else |next| < |s|
  {
    if CutAt(s, minChars, maxChars) == 0 {
      assert s[0..] == s;
    }
  }

  ghost function PopReady(s: string, minChars: nat, maxChars: nat): (r: Cut)
    requires 1 <= maxChars
    ensures Settled(r.rest, minChars, maxChars)
    decreases |s|
  {
    if Settled(s, minChars, maxChars) then Cut([], s)
    else
      var at := CutAt(s, minChars, maxChars);
      var segment := Trim(s[..at]);
      var more := PopReady(TrimLeft(s[at..]), minChars, maxChars);
      if segment == "" then more else Cut([segment] + more.segments, more.rest)
  }

  ghost function PushText(buffer: string, delta: string, minChars: nat, maxChars: nat): Cut
    requires 1 <= maxChars
  {
    if delta == "" then Cut([], buffer) else PopReady(buffer + delta, minChars, maxChars)
  }

  // ----- The segmenter -----

  class ResponseTextSegmenter {
    const minChars: nat
    const maxBufferChars: nat
    var buffer: string

    ghost predicate Valid()
      reads this
    {
      1 <= maxBufferChars && Settled(buffer, minChars, maxBufferChars)
    }

    constructor (minChars: nat, maxBufferChars: nat)
      requires 1 <= maxBufferChars
      ensures Valid() && buffer == ""
      ensures this.minChars == minChars && this.maxBufferChars == maxBufferChars
    {
      this.minChars, this.maxBufferChars, this.buffer := minChars, maxBufferChars, "";
    }

    method Push(textDelta: string) returns (segments: seq<string>)
      requires Valid()
      modifies this`buffer
      ensures Valid()
      ensures Cut(segments, buffer) == PushText(old(buffer), textDelta, minChars, maxBufferChars)
    {
      if textDelta == "" {
        return [];
      }
      buffer := buffer + textDelta;
      segments := PopReadySegments();
    }

    method Flush() returns (text: string)
      requires Valid()
      modifies this`buffer
      ensures Valid() && buffer == "" && text == Trim(old(buffer))
    {
      text := Trim(buffer);
      buffer := "";
    }

    method PopReadySegments() returns (segments: seq<string>)
      requires 1 <= maxBufferChars
      modifies this`buffer
      ensures Cut(segments, buffer) == PopReady(old(buffer), minChars, maxBufferChars)
    {
      segments := [];
      while true
        invariant Pending(old(buffer), segments, buffer, minChars, maxBufferChars)
        decreases |buffer|
      {
        var boundary: nat;
        var found := FindBoundary();
        if found.None? {
          if |buffer| <= maxBufferChars {
            break;
          }
          boundary := FallbackBoundary();
        } else {
          boundary := found.value;
        }
        var segment := Trim(buffer[..boundary]);
        PendingStep(old(buffer), segments, buffer, minChars, maxBufferChars);
        buffer := TrimLeft(buffer[boundary..]);
        if segment != "" {
          segments := segments + [segment];
        }
      }
    }

    /** Scans the matches of a stop followed by white space, left to right. */
    method FindBoundary() returns (found: Option<nat>)
      ensures found == FirstBoundary(buffer, minChars)
    {
      var pos := 0;
      while pos < |buffer|
        invariant pos <= |buffer|
        invariant forall p: nat, e: nat | Match(buffer, p, e) && minChars <= e :: pos < p
      {
        var start := pos + 1;
        if start < |buffer| && IsStop(buffer[pos]) && IsSpace(buffer[start]) {
          var end := start + Leading(buffer[start..]);
          assert forall i | start <= i < end :: buffer[i] == buffer[start..][i - start];
          assert Match(buffer, start, end);
          forall p: nat, e: nat | Match(buffer, p, e) && pos < p ensures (p == start && e == end) || end < p {
            OneMatchPerRun(buffer, start, end, p, e);
          }
          if minChars <= end {
            assert IsBoundary(buffer, end);
            assert FirstBoundary(buffer, minChars).Some?;
            return Some(end);
          }
          pos := end;
        } else {
          assert !IsStop(buffer[pos]) || !SpaceAt(buffer, start);
          pos := pos + 1;
        }
      }
      found := None;
    }

    method FallbackBoundary() returns (boundary: nat)
      requires maxBufferChars < |buffer|
      ensures boundary == Fallback(buffer, minChars, maxBufferChars)
    {
      var window := buffer[..maxBufferChars];
      var splitAt := Max(LastIndex(window, ' '), LastIndex(window, '\n'));
      if splitAt < minChars {
        return maxBufferChars;
      }
      boundary := splitAt + 1;
    }
  }

  /** Inside a run of white space there is no stop, so the next match starts after it. */
  lemma OneMatchPerRun(s: string, start: nat, end: nat, p: nat, e: nat)
    requires Match(s, start, end) && Match(s, p, e) && start <= p
    ensures (p == start && e == end) || end < p
  {
    assert p == start && e < end ==> SpaceAt(s, e);
    assert p == start && end < e ==> SpaceAt(s, end);
    assert start < p <= end ==> SpaceAt(s, p - 1);
  }

  /** What is cut already, with what the buffer still yields, is what the whole text yields. */
  ghost predicate Pending(text: string, segments: seq<string>, buffer: string, minChars: nat, maxChars: nat)
    requires 1 <= maxChars
  {
    var all, now := PopReady(text, minChars, maxChars), PopReady(buffer, minChars, maxChars);
    all.segments == segments + now.segments && all.rest == now.rest
  }

  lemma PendingStep(text: string, segments: seq<string>, buffer: string, minChars: nat, maxChars: nat)
    requires 1 <= maxChars && !Settled(buffer, minChars, maxChars)
    requires Pending(text, segments, buffer, minChars, maxChars)
    ensures var at := CutAt(buffer, minChars, maxChars);
            var segment := Trim(buffer[..at]);
            Pending(text, if segment == "" then segments else segments + [segment],
                    TrimLeft(buffer[at..]), minChars, maxChars)
  {
    hide Trim, TrimLeft, Settled, CutAt;
    var at := CutAt(buffer, minChars, maxChars);
    var segment := Trim(buffer[..at]);
    var more := PopReady(TrimLeft(buffer[at..]), minChars, maxChars);
    assert segments + ([segment] + more.segments) == segments + [segment] + more.segments;
  }
}
