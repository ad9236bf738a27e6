/** A push button with long-hold detection, sampled by the main loop. */
module Button {
  import opened Common

  datatype Callback = Pressed | Released | HoldStart(ms: int) | HoldEnd(ms: int)

  /** A button is idle, or down since some tick, possibly with its long hold reported. */
  datatype ButtonState = Idle | Down(since: int, held: bool)

  /** One sample of the pin; `elapsed` is how the clock subtracts ticks. */
  function Sample(b: ButtonState, down: bool, now: int, threshold: int, elapsed: (int, int) -> int): (seq<Callback>,
      ButtonState) {
    match b
    case Idle => if down then ([Pressed], Down(now, false)) else ([], Idle)
    case Down(since, held) =>
      if down then
        if !held && elapsed(now, since) >= threshold then ([HoldStart(elapsed(now, since))], Down(since, true))
        else ([], b)
      else
        (if held then [HoldEnd(elapsed(now, since))] else [Released], Idle)
  }

  class PushButton {
    const longHoldMs: int
    const elapsed: (int, int) -> int
    var pressed: bool
    var pressStart: Option<int>
    var longHoldFired: bool

    ghost predicate Valid()
      reads this
    {
      && (pressed <==> pressStart.Some?)
      && (longHoldFired ==> pressed)
    }

    ghost function View(): ButtonState
      requires Valid()
      reads this
    {
      if pressed then Down(pressStart.value, longHoldFired) else Idle
    }

    constructor (longHoldMs: int, elapsed: (int, int) -> int)
      ensures Valid() && View() == Idle && this.longHoldMs == longHoldMs && this.elapsed == elapsed
    {
      this.longHoldMs, this.elapsed := longHoldMs, elapsed;
      pressed, pressStart, longHoldFired := false, None, false;
    }

    /** Returns the callbacks it fires, in order. */
    method Update(currentlyPressed: bool, now: int) returns (fired: seq<Callback>)
      requires Valid()
      modifies this
      ensures Valid()
      ensures (fired, View()) == Sample(old(View()), currentlyPressed, now, longHoldMs, elapsed)
    {
      fired := [];
      if currentlyPressed && !pressed {
        pressed, pressStart, longHoldFired := true, Some(now), false;
        fired := [Pressed];
      } else if currentlyPressed && pressed {
        if !longHoldFired {
          var holdTime := elapsed(now, pressStart.value);
          if holdTime >= longHoldMs {
            longHoldFired := true;
            fired := [HoldStart(holdTime)];
          }
        }
      } else if !currentlyPressed && pressed {
        if longHoldFired {
          fired := [HoldEnd(elapsed(now, pressStart.value))];
        }
        if !longHoldFired {
          fired := [Released];
        }
        pressed, pressStart, longHoldFired := false, None, false;
      }
    }
  }

  // ----- Every run -----

  function SampleAll(b: ButtonState, pins: seq<(bool, int)>, threshold: int, elapsed: (int, int) -> int): seq<Callback>
    decreases |pins|
  {
    if pins == [] then []
    else
      var (fired, next) := Sample(b, pins[0].0, pins[0].1, threshold, elapsed);
      fired + SampleAll(next, pins[1..], threshold, elapsed)
  }

  /** A beginning of (pressed (released | hold start, hold end))*, where a hold is only
      reported once it has lasted long enough. */
  predicate Cycles(events: seq<Callback>, threshold: int) {
    if events == [] then true
    else if !events[0].Pressed? then false
    else if |events| == 1 then true
    else if events[1].Released? then Cycles(events[2..], threshold)
    else if !(events[1].HoldStart? && events[1].ms >= threshold) then false
    else if |events| == 2 then true
    else events[2].HoldEnd? && Cycles(events[3..], threshold)
  }

  /** Whatever the pin does and whatever the times are, the callbacks of a button are press
      cycles, each ended by a release or by the end of a hold, never by both. */
  lemma {:induction false} CallbacksAreCycles(b: ButtonState, pins: seq<(bool, int)>, threshold: int,
      elapsed: (int, int) -> int, ms: int)
    requires ms >= threshold
    ensures var events := SampleAll(b, pins, threshold, elapsed);
            Cycles((match b
                    case Idle => []
                    case Down(_, held) => if held then [Pressed, HoldStart(ms)] else [Pressed]) + events, threshold)
    decreases |pins|
  {
    if pins != [] {
      var (fired, next) := Sample(b, pins[0].0, pins[0].1, threshold, elapsed);
      var more := SampleAll(next, pins[1..], threshold, elapsed);
      var ms' := if fired != [] && fired[0].HoldStart? then fired[0].ms else ms;
      CallbacksAreCycles(next, pins[1..], threshold, elapsed, ms');
      var start := match b case Idle => [] case Down(_, held) => if held then [Pressed, HoldStart(ms)] else [Pressed];
      var all := start + (fired + more);
      if next.Idle? && b.Down? {
        assert all[if b.held then 3 else 2..] == more == [] + more;
      } else if fired == [] {
        assert all == start + more;
      } else if b.Idle? {
        assert all == [Pressed] + more;
      } else {
        assert all == [Pressed, HoldStart(ms')] + more;
      }
    }
  }

  // ----- When a callback is due -----

  ghost predicate DownAt(pins: seq<(bool, int)>, i: int) {
    0 <= i < |pins| && pins[i].0
  }

  /** The first sample of the stretch in which the pin is down. */
  ghost function PressedAt(pins: seq<(bool, int)>, i: nat): (j: nat)
    requires i < |pins|
    ensures j <= i
  {
    if i > 0 && DownAt(pins, i - 1) then PressedAt(pins, i - 1) else i
  }

  /** A sample after j and before i finds the pin down for the threshold since j. */
  ghost predicate HeldBetween(pins: seq<(bool, int)>, j: nat, i: nat, threshold: int, elapsed: (int, int) -> int)
    requires j <= i <= |pins|
  {
    exists k: nat :: j < k < i && elapsed(pins[k].1, pins[j].1) >= threshold
  }

  /** What the i-th sample should report, told on the samples alone: the first of a stretch is a
      press, the first that finds it long enough begins a hold, and the one after the stretch ends
      the hold if there was one and is a release if not. */
  ghost function Due(pins: seq<(bool, int)>, i: nat, threshold: int, elapsed: (int, int) -> int): seq<Callback>
    requires i < |pins|
  {
    if !DownAt(pins, i - 1) then if DownAt(pins, i) then [Pressed] else []
    else
      var j := PressedAt(pins, i - 1);
      var lasted := elapsed(pins[i].1, pins[j].1);
      var held := HeldBetween(pins, j, i, threshold, elapsed);
      if !DownAt(pins, i) then if held then [HoldEnd(lasted)] else [Released]
      else if !held && lasted >= threshold then [HoldStart(lasted)]
      else []
  }

  ghost function StateAfter(pins: seq<(bool, int)>, i: nat, threshold: int, elapsed: (int, int) -> int): ButtonState
    requires i <= |pins|
  {
    if !DownAt(pins, i - 1) then Idle
    else
      var j := PressedAt(pins, i - 1);
      Down(pins[j].1, HeldBetween(pins, j, i, threshold, elapsed))
  }

  lemma SampleIsDue(pins: seq<(bool, int)>, i: nat, threshold: int, elapsed: (int, int) -> int)
    requires i < |pins|
    ensures Sample(StateAfter(pins, i, threshold, elapsed), pins[i].0, pins[i].1, threshold, elapsed)
         == (Due(pins, i, threshold, elapsed), StateAfter(pins, i + 1, threshold, elapsed))
  {
    if DownAt(pins, i) {
      var j := PressedAt(pins, i);
      if DownAt(pins, i - 1) {
        HeldLonger(pins, j, i, threshold, elapsed);
      } else {
        assert !HeldBetween(pins, i, i + 1, threshold, elapsed);
      }
    }
  }

  lemma HeldLonger(pins: seq<(bool, int)>, j: nat, i: nat, threshold: int, elapsed: (int, int) -> int)
    requires j < i < |pins|
    ensures HeldBetween(pins, j, i + 1, threshold, elapsed)
       <==> HeldBetween(pins, j, i, threshold, elapsed) || elapsed(pins[i].1, pins[j].1) >= threshold
  {
    assert j < i < i + 1;
  }

  /** The callbacks of samples that begin at the i-th. */
  ghost function AllDue(pins: seq<(bool, int)>, i: nat, threshold: int, elapsed: (int, int) -> int): seq<Callback>
    requires i <= |pins|
    decreases |pins| - i
  {
    if i == |pins| then [] else Due(pins, i, threshold, elapsed) + AllDue(pins, i + 1, threshold, elapsed)
  }

  lemma {:induction false} RestIsDue(pins: seq<(bool, int)>, i: nat, threshold: int, elapsed: (int, int) -> int)
    requires i <= |pins|
    ensures SampleAll(StateAfter(pins, i, threshold, elapsed), pins[i..], threshold, elapsed)
         == AllDue(pins, i, threshold, elapsed)
    decreases |pins| - i
  {
    hide Sample, Due, StateAfter;
    if i < |pins| {
      assert pins[i..][0] == pins[i] && pins[i..][1..] == pins[i + 1..];
      SampleIsDue(pins, i, threshold, elapsed);
      RestIsDue(pins, i + 1, threshold, elapsed);
    }
  }

  /** Every sample of every run reports exactly what is due. */
  lemma CallbacksAreDue(pins: seq<(bool, int)>, threshold: int, elapsed: (int, int) -> int)
    ensures SampleAll(Idle, pins, threshold, elapsed) == AllDue(pins, 0, threshold, elapsed)
  {
    assert pins[0..] == pins;
    RestIsDue(pins, 0, threshold, elapsed);
  }
}
