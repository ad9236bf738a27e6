/** Where a pi run ends, told on its events alone. */
module PiRuns {
  import opened Common
  import opened PiStream
  import Strings = Text

  ghost predicate Inked(s: string) {
    exists j :: 0 <= j < |s| && !Strings.IsSpace(s[j])
  }

  lemma InkedIsHasInk(s: string)
    ensures HasInk(s) <==> Inked(s)
  {
    hide Strings.Trim;
    var left, right := Strings.TrimSplits(s);
    Strings.TrimIsTrimmed(s);
    var trimmed := Strings.Trim(s);
    if trimmed != "" {
      assert s[|left|] == trimmed[0];
    } else {
      assert s == left + right;
    }
  }

  /** The text that was sent once these events were read, none of which ends the run: an
      incremental text that does not continue it is added, a snapshot takes its place. */
  ghost function Sent(sent: string, events: seq<Event>): string
    decreases |events|
  {
    if events == [] then sent
    else
      var next := match events[0].content
                  case NoText => sent
                  case Text(text, incremental) =>
                    if incremental && !(sent <= text) then sent + text else text;
      Sent(next, events[1..])
  }

  /** This event ends the run: it is of a terminal type, and has a text or comes after one. */
  ghost predicate EndsAt(sent: string, events: seq<Event>, i: nat) {
    i < |events| && events[i].terminal && (events[i].content.Text? || Inked(Sent(sent, events[..i])))
  }

  ghost predicate FirstEnd(sent: string, events: seq<Event>, i: nat) {
    EndsAt(sent, events, i) && forall j: nat | j < i :: !EndsAt(sent, events, j)
  }

  /** The first event either ends the run, or is followed by the run from the text sent then. */
  lemma FirstEvent(s: StreamState, events: seq<Event>)
    requires events != [] && !s.responded
    ensures var out := OnEvent(s, events[0]);
            && (out.stop <==> EndsAt(s.sentText, events, 0))
            && (out.stop ==> |out.chunks| > 0 && Ends(out, s.sentText, events[0]))
            && (!out.stop ==> !out.state.responded && out.state.sentText == Sent(s.sentText, events[..1]))
            && (!out.stop ==> forall i: nat ::
                  EndsAt(s.sentText, events, i + 1) <==> EndsAt(out.state.sentText, events[1..], i))
  {
    hide HasInk, Inked;
    InkedIsHasInk(s.sentText);
    var out := OnEvent(s, events[0]);
    assert events[..1][1..] == [] && events[..0] == [];
    if !out.stop {
      forall i: nat ensures EndsAt(s.sentText, events, i + 1) <==> EndsAt(out.state.sentText, events[1..], i) {
        if i + 1 < |events| {
          SentStep(s.sentText, events, i + 1);
        }
      }
    }
  }

  lemma SentStep(sent: string, events: seq<Event>, i: nat)
    requires 0 < i <= |events|
    ensures Sent(sent, events[..i]) == Sent(Sent(sent, events[..1]), events[1..][..i - 1])
  {
    assert events[..i][0] == events[..1][0] == events[0] && events[..1][1..] == [];
    assert events[..i][1..] == events[1..][..i - 1];
  }

  /** The last chunk is final and without text if the event had none, and the text is then the
      event's, or what was sent before it. */
  ghost predicate Ends(out: Outcome, sent: string, e: Event) {
    && out.stop && out.chunks != []
    && out.chunks[|out.chunks| - 1].isFinal
    && (e.content.NoText? ==> out.chunks[|out.chunks| - 1].textDelta == "" && out.state.sentText == sent)
    && (e.content.Text? ==> out.state.sentText == e.content.text)
  }

  lemma {:induction false} EndIsThere(s: StreamState, events: seq<Event>, i: nat)
    requires !s.responded && i < |events| && FirstEnd(s.sentText, events, i)
    ensures ReadFrom(s, events) == ReadFrom(s, events[..i + 1])
    ensures Ends(ReadFrom(s, events), Sent(s.sentText, events[..i]), events[i])
    decreases |events|
  {
    hide OnEvent, Sent, EndsAt;
    FirstEvent(s, events);
    var out := OnEvent(s, events[0]);
    if i == 0 {
      assert events[..1][0] == events[0] && events[..0] == [];
      SentNothing(s.sentText);
    } else {
      var tail := events[1..];
      assert !EndsAt(s.sentText, events, 0);
      assert EndsAt(s.sentText, events, (i - 1) + 1);
      forall j: nat | j < i - 1 ensures !EndsAt(out.state.sentText, tail, j) {
        assert !EndsAt(s.sentText, events, j + 1);
      }
      EndIsThere(out.state, tail, i - 1);
      SentStep(s.sentText, events, i);
      assert events[..i + 1][0] == events[0] && events[..i + 1][1..] == tail[..i];
      assert i < |events| && tail[i - 1] == events[i];
    }
  }

  lemma SentNothing(sent: string)
    ensures Sent(sent, []) == sent
  {}

  lemma {:induction false} NoEndIsThere(s: StreamState, events: seq<Event>)
    requires !s.responded && forall i: nat :: !EndsAt(s.sentText, events, i)
    ensures !ReadFrom(s, events).stop && ReadFrom(s, events).state.sentText == Sent(s.sentText, events)
    decreases |events|
  {
    hide OnEvent, Sent, EndsAt;
    if events == [] {
      SentNothing(s.sentText);
    } else {
      FirstEvent(s, events);
      var out := OnEvent(s, events[0]);
      assert !EndsAt(s.sentText, events, 0);
      forall i: nat ensures !EndsAt(out.state.sentText, events[1..], i) {
        assert !EndsAt(s.sentText, events, i + 1);
      }
      NoEndIsThere(out.state, events[1..]);
      SentStep(s.sentText, events, |events|);
      assert events[..|events|] == events && events[1..][..|events| - 1] == events[1..];
    }
  }

  /** A run is stopped exactly by an event of a terminal type that has a text or comes after one
      with ink. The first such event ends it, whatever follows. Without one the text is the sum
      of all the events. */
  lemma WhereARunEnds(events: seq<Event>)
    ensures var out := ReadFrom(FRESH, events);
            && (out.stop <==> exists i: nat :: EndsAt("", events, i))
            && (!out.stop ==> FinalText(events) == Sent("", events))
            && (forall i: nat | i < |events| && FirstEnd("", events, i) ::
                  out == ReadFrom(FRESH, events[..i + 1]) && Ends(out, Sent("", events[..i]), events[i]))
  {
    hide EndsAt, Sent, ReadFrom;
    forall i: nat | i < |events| && FirstEnd("", events, i)
      ensures ReadFrom(FRESH, events) == ReadFrom(FRESH, events[..i + 1])
      ensures Ends(ReadFrom(FRESH, events), Sent("", events[..i]), events[i])
    {
      EndIsThere(FRESH, events, i);
    }
    if i: nat :| EndsAt("", events, i) {
      var first := Least(events, i);
    } else {
      NoEndIsThere(FRESH, events);
    }
  }

  lemma {:induction false} Least(events: seq<Event>, i: nat) returns (first: nat)
    requires EndsAt("", events, i)
    ensures first < |events| && FirstEnd("", events, first)
  {
    if j: nat :| j < i && EndsAt("", events, j) {
      first := Least(events, j);
    } else {
      first := i;
    }
  }

  /** An incremental text and then an end without text: the text is sent once. */
  lemma HelloIsSentOnce()
    ensures ReadFrom(FRESH, [Event(Text("Hello", true), false, false), Event(NoText, true, false)]).chunks
         == [Chunk("Hello", false), Chunk("", true)]
  {
    InkedIsHasInk("Hello");
    assert "Hello"[0] == 'H' && Inked("Hello");
    var end := Event(NoText, true, false);
    var events := [Event(Text("Hello", true), false, false), end];
    assert events[1..] == [end];
    var s := StreamState("Hello", "Hello", false);
    assert OnEvent(s, end) == Outcome([Chunk("", true)], StreamState("Hello", "Hello", true), true);
  }

  // ----- Progress -----

  ghost function ProgressCount(events: seq<Event>): nat {
    if events == [] then 0 else (if events[0].progress then 1 else 0) + ProgressCount(events[1..])
  }

  lemma ProgressStep(s: StreamState, e: Event)
    requires e.content.NoText? && !e.terminal
    ensures OnEvent(s, e) == Outcome(if e.progress then [Chunk("", false)] else [], s, false)
  {}

  function Reports(n: nat): seq<Chunk> {
    seq(n, _ => Chunk("", false))
  }

  /** While no text comes, each report of progress gives one chunk without text. */
  lemma {:induction false} ProgressIsReported(s: StreamState, events: seq<Event>, rest: seq<Event>)
    requires forall e | e in events :: e.content.NoText? && !e.terminal
    ensures ReadFrom(s, events + rest).chunks == Reports(ProgressCount(events)) + ReadFrom(s, rest).chunks
    ensures ReadFrom(s, events + rest).state == ReadFrom(s, rest).state
    decreases |events|
  {
    hide HasInk, OnEvent;
    if events == [] {
      assert events + rest == rest;
    } else {
      assert events[0] in events && (events + rest)[0] == events[0] && (events + rest)[1..] == events[1..] + rest;
      ProgressStep(s, events[0]);
      ProgressIsReported(s, events[1..], rest);
    }
  }
}
