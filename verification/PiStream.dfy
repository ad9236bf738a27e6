/** Turning the text events of a pi run into deltas: incremental pieces and whole
    snapshots are reconciled against what was already sent. */
module PiStream {
  import opened Common
  import Strings = Text

  datatype Text = NoText | Text(text: string, incremental: bool)

  /** One event of the run: its text if it has any, whether its type ends the run,
      and whether it only reports progress. */
  datatype Event = Event(content: Text, terminal: bool, progress: bool)

  datatype Chunk = Chunk(textDelta: string, isFinal: bool)

  datatype StreamState = StreamState(sentText: string, responseText: string, responded: bool)

  const FRESH := StreamState("", "", false)

  /** The part of text beyond what was sent, or all of it when it is no continuation. */
  function Beyond(text: string, sent: string): string {
    if sent <= text then text[|sent|..] else text
  }

  // ----- One event -----

  function ConsumeText(s: StreamState, text: string, incremental: bool): (r: (string, StreamState)) {
    if incremental then
      var sent := if s.sentText <= text then text else s.sentText + text;
      (Beyond(text, s.sentText), StreamState(sent, sent, s.responded))
    else
      (Beyond(text, s.sentText), StreamState(text, text, s.responded))
  }

  predicate HasInk(s: string) {
    Strings.Trim(s) != ""
  }

  /** What an event makes the reader yield, the state after it, and whether it ends the run. */
  datatype Outcome = Outcome(chunks: seq<Chunk>, state: StreamState, stop: bool)

  function TextChunk(s: StreamState, e: Event): (r: (seq<Chunk>, StreamState)) {
    if e.content.NoText? then ([], s)
    else
      var (delta, next) := ConsumeText(s, e.content.text, e.content.incremental);
      (if delta == "" then [] else [Chunk(delta, e.terminal)], next)
  }

  function TerminalChunk(s: StreamState, e: Event): (r: (seq<Chunk>, StreamState)) {
    if !e.terminal then ([], s)
    else if e.content.Text? then
      var final := e.content.text;
      ([Chunk(Beyond(final, s.sentText), true)], StreamState(final, final, true))
    else if HasInk(s.sentText) && !s.responded then
      ([Chunk("", true)], StreamState(s.sentText, s.sentText, true))
    else ([], s)
  }

  function OnEvent(s: StreamState, e: Event): Outcome {
    var (first, s1) := TextChunk(s, e);
    var (second, s2) := TerminalChunk(s1, e);
    if second != [] then Outcome(first + second, s2, true)
    else if first == [] && e.progress then Outcome([Chunk("", false)], s2, false)
    else Outcome(first, s2, false)
  }

  /** A whole run; when the output ends without a terminal event the text is sent once more. */
  function ReadFrom(s: StreamState, events: seq<Event>): Outcome
    decreases |events|
  {
    if events == [] then
      var response := if HasInk(s.sentText) then s.sentText else s.responseText;
      Outcome(if response != "" && !s.responded then [Chunk(response, true)] else [], s, false)
    else
      var out := OnEvent(s, events[0]);
      if out.stop then out
      else
        var more := ReadFrom(out.state, events[1..]);
        Outcome(out.chunks + more.chunks, more.state, more.stop)
  }

  // ----- The reader -----

  class PiReader {
    var sentText: string
    var responseText: string
    var responded: bool

    ghost function View(): StreamState
      reads this
    {
      StreamState(sentText, responseText, responded)
    }

    constructor ()
      ensures View() == FRESH
    {
      sentText, responseText, responded := "", "", false;
    }

    method Consume(text: string, isIncremental: bool) returns (delta: string)
      modifies this
      ensures (delta, View()) == ConsumeText(old(View()), text, isIncremental)
    {
      if isIncremental {
        if sentText <= text {
          delta := text[|sentText|..];
          sentText := text;
        } else {
          delta := text;
          sentText := sentText + delta;
        }
        responseText := sentText;
        return;
      }
      if sentText <= text {
        delta := text[|sentText|..];
      } else {
        delta := text;
      }
      sentText := text;
      responseText := text;
    }

    method Finalize(finalText: string) returns (delta: string)
      modifies this`sentText
      ensures delta == Beyond(finalText, old(sentText)) && sentText == finalText
    {
      if sentText <= finalText {
        delta := finalText[|sentText|..];
      } else {
        delta := finalText;
      }
      sentText := finalText;
    }

    method BuildTextChunk(e: Event) returns (chunks: seq<Chunk>)
      modifies this
      ensures (chunks, View()) == TextChunk(old(View()), e)
    {
      if e.content.NoText? {
        return [];
      }
      var delta := Consume(e.content.text, e.content.incremental);
      if delta == "" {
        return [];
      }
      chunks := [Chunk(delta, e.terminal)];
    }

    method BuildTerminalChunk(e: Event) returns (chunks: seq<Chunk>)
      modifies this
      ensures (chunks, View()) == TerminalChunk(old(View()), e)
    {
      if !e.terminal {
        return [];
      }
      if e.content.Text? {
        responded := true;
        responseText := e.content.text;
        var delta := Finalize(e.content.text);
        return [Chunk(delta, true)];
      }
      if HasInk(sentText) && !responded {
        responded := true;
        responseText := sentText;
        return [Chunk("", true)];
      }
      chunks := [];
    }

    /** One pass of the read loop. */
    method HandleEvent(e: Event) returns (chunks: seq<Chunk>, stop: bool)
      modifies this
      ensures Outcome(chunks, View(), stop) == OnEvent(old(View()), e)
    {
      hide TextChunk, TerminalChunk;
      chunks := BuildTextChunk(e);
      var terminal := BuildTerminalChunk(e);
      if terminal != [] {
        return chunks + terminal, true;
      }
      stop := false;
      if chunks == [] && e.progress {
        chunks := [Chunk("", false)];
      }
    }

    /** Reads the events of a run until a terminal one, or all of them. */
    method ReadEvents(events: seq<Event>) returns (chunks: seq<Chunk>)
      modifies this
      ensures chunks == ReadFrom(old(View()), events).chunks
    {
      hide OnEvent, HasInk;
      chunks := [];
      var i := 0;
      assert events[0..] == events;
      while i < |events|
        invariant 0 <= i <= |events|
        invariant chunks + ReadFrom(View(), events[i..]).chunks == ReadFrom(old(View()), events).chunks
      {
        ghost var before, was := View(), chunks;
        ReadFromStep(before, events, i);
        var more, stop := HandleEvent(events[i]);
        chunks := chunks + more;
        if stop {
          return;
        }
        Regroup(was, more, ReadFrom(View(), events[i + 1..]).chunks);
        i := i + 1;
      }
      var ending := Ending();
      chunks := chunks + ending;
    }

    /** After the last event. */
    method Ending() returns (chunks: seq<Chunk>)
      modifies this`responseText
      ensures chunks == ReadFrom(old(View()), []).chunks
    {
      hide HasInk;
      if HasInk(sentText) {
        responseText := sentText;
      }
      chunks := if responseText != "" && !responded then [Chunk(responseText, true)] else [];
    }
  }

  lemma ReadFromStep(s: StreamState, events: seq<Event>, i: nat)
    requires i < |events|
    ensures var out := OnEvent(s, events[i]);
            ReadFrom(s, events[i..]) ==
            if out.stop then out
            else
              var more := ReadFrom(out.state, events[i + 1..]);
              Outcome(out.chunks + more.chunks, more.state, more.stop)
  {
    hide OnEvent, HasInk;
    assert events[i..][0] == events[i] && events[i..][1..] == events[i + 1..];
  }

  // ----- What the deltas add up to -----

  function TextOf(chunks: seq<Chunk>): string {
    if chunks == [] then "" else chunks[0].textDelta + TextOf(chunks[1..])
  }

  lemma {:induction false} TextOfAppend(a: seq<Chunk>, b: seq<Chunk>)
    ensures TextOf(a + b) == TextOf(a) + TextOf(b)
  {
    if a == [] {
      assert a + b == b;
    } else {
      TextOfAppend(a[1..], b);
      assert (a + b)[0] == a[0] && (a + b)[1..] == a[1..] + b;
      Regroup(a[0].textDelta, TextOf(a[1..]), TextOf(b));
    }
  }

  /** Every snapshot, the text of a terminal event included, continues what was sent by then. */
  predicate Continues(s: StreamState, events: seq<Event>)
    decreases |events|
  {
    events == [] ||
    (var e := events[0];
     && (e.content.Text? && !e.content.incremental ==> s.sentText <= e.content.text)
     && (e.content.Text? && e.terminal ==> TextChunk(s, e).1.sentText <= e.content.text)
     && (OnEvent(s, e).stop || Continues(OnEvent(s, e).state, events[1..])))
  }

  lemma TextOfOne(delta: string, final: bool)
    ensures TextOf([Chunk(delta, final)]) == delta
  {
    assert [Chunk(delta, final)][1..] == [];
  }

  lemma TextChunkAbandons(s: StreamState, e: Event) returns (lost: string)
    ensures var (chunks, next) := TextChunk(s, e); s.sentText + TextOf(chunks) == lost + next.sentText
    ensures lost == "" <==> (e.content.Text? && !e.content.incremental ==> s.sentText <= e.content.text)
  {
    lost := "";
    if e.content.Text? {
      TextOfOne(ConsumeText(s, e.content.text, e.content.incremental).0, e.terminal);
      if !e.content.incremental && !(s.sentText <= e.content.text) {
        lost := s.sentText;
      }
    }
  }

  lemma TerminalChunkAbandons(s: StreamState, e: Event) returns (lost: string)
    ensures var (chunks, next) := TerminalChunk(s, e); s.sentText + TextOf(chunks) == lost + next.sentText
    ensures lost == "" <==> (e.content.Text? && e.terminal ==> s.sentText <= e.content.text)
  {
    hide HasInk;
    lost := "";
    TextOfOne("", true);
    if e.content.Text? && e.terminal {
      TextOfOne(Beyond(e.content.text, s.sentText), true);
      if !(s.sentText <= e.content.text) {
        lost := s.sentText;
      }
    }
  }

  /** One event: what was sent before and what is sent now is the new state, after the
      texts that were abandoned because a snapshot did not continue them. */
  lemma EventAbandons(s: StreamState, e: Event) returns (lost: string)
    ensures var out := OnEvent(s, e);
            s.sentText + TextOf(out.chunks) == lost + out.state.sentText
    ensures lost == "" <==>
              && (e.content.Text? && !e.content.incremental ==> s.sentText <= e.content.text)
              && (e.content.Text? && e.terminal ==> TextChunk(s, e).1.sentText <= e.content.text)
  {
    hide TextChunk, TerminalChunk;
    var (first, s1) := TextChunk(s, e);
    var (second, s2) := TerminalChunk(s1, e);
    var lost1 := TextChunkAbandons(s, e);
    var lost2 := TerminalChunkAbandons(s1, e);
    TextOfAppend(first, second);
    TextOfOne("", false);
    assert second == [] ==> first + second == first;
    Regroup(s.sentText, TextOf(first), TextOf(second));
    Regroup(lost1, s1.sentText, TextOf(second));
    Regroup(lost1, lost2, s2.sentText);
    lost := lost1 + lost2;
  }

  lemma {:induction false} RunAbandons(s: StreamState, events: seq<Event>) returns (lost: string)
    requires ReadFrom(s, events).stop
    ensures s.sentText + TextOf(ReadFrom(s, events).chunks) == lost + ReadFrom(s, events).state.sentText
    ensures lost == "" <==> Continues(s, events)
    decreases |events|
  {
    hide OnEvent, TextChunk, HasInk;
    var out := OnEvent(s, events[0]);
    lost := EventAbandons(s, events[0]);
    if !out.stop {
      var more := RunAbandons(out.state, events[1..]);
      var rest := ReadFrom(out.state, events[1..]);
      TextOfAppend(out.chunks, rest.chunks);
      Regroup(s.sentText, TextOf(out.chunks), TextOf(rest.chunks));
      Regroup(lost, out.state.sentText, TextOf(rest.chunks));
      Regroup(lost, more, rest.state.sentText);
      lost := lost + more;
    }
  }

  /** The text a run ended with. */
  function FinalText(events: seq<Event>): string {
    ReadFrom(FRESH, events).state.sentText
  }

  /** The deltas of a run that a terminal event ended add up to its final text exactly when
      every snapshot continued what was sent: then nothing is lost and nothing is repeated. */
  lemma DeltasAreTheText(events: seq<Event>)
    requires ReadFrom(FRESH, events).stop
    ensures TextOf(ReadFrom(FRESH, events).chunks) == FinalText(events) <==> Continues(FRESH, events)
  {
    var lost := RunAbandons(FRESH, events);
    var text := TextOf(ReadFrom(FRESH, events).chunks);
    assert "" + text == text;
    if text == FinalText(events) {
      assert |lost| == 0;
    }
  }

  /** The final text is the text of the event that ended the run, when it carried any. */
  lemma {:induction false} FinalTextIsTheLastEvents(s: StreamState, events: seq<Event>) returns (last: nat)
    requires ReadFrom(s, events).stop
    ensures last < |events| && events[last].terminal
    ensures events[last].content.Text? ==> ReadFrom(s, events).state.sentText == events[last].content.text
    decreases |events|
  {
    var out := OnEvent(s, events[0]);
    if out.stop {
      last := 0;
    } else {
      var more := FinalTextIsTheLastEvents(out.state, events[1..]);
      last := more + 1;
    }
  }

  /** A run that no event stopped sends its text a second time: what was abandoned is followed by
      the whole text twice. */
  lemma {:induction false} EndOfOutputRepeats(s: StreamState, events: seq<Event>) returns (lost: string)
    requires !ReadFrom(s, events).stop
    requires !s.responded && s.responseText == s.sentText
    ensures var out := ReadFrom(s, events);
            s.sentText + TextOf(out.chunks) == lost + (out.state.sentText + out.state.sentText)
    ensures lost == "" <==> Continues(s, events)
    decreases |events|
  {
    hide OnEvent, TextChunk, HasInk, TextOf;
    if events == [] {
      lost := "";
      TextOfOne(s.sentText, true);
      NoText();
    } else {
      NoEnd(s, events[0]);
      var out := OnEvent(s, events[0]);
      lost := EventAbandons(s, events[0]);
      var more := EndOfOutputRepeats(out.state, events[1..]);
      var rest := ReadFrom(out.state, events[1..]);
      TextOfAppend(out.chunks, rest.chunks);
      Regroup(s.sentText, TextOf(out.chunks), TextOf(rest.chunks));
      Regroup(lost, out.state.sentText, TextOf(rest.chunks));
      Regroup(lost, more, rest.state.sentText + rest.state.sentText);
      lost := lost + more;
    }
  }

  /** So the deltas of a run without an end are its text only when there is none at all. */
  lemma WithoutAnEnd(events: seq<Event>)
    requires !ReadFrom(FRESH, events).stop
    ensures TextOf(ReadFrom(FRESH, events).chunks) == FinalText(events)
          <==> FinalText(events) == "" && Continues(FRESH, events)
  {
    var lost := EndOfOutputRepeats(FRESH, events);
    var text, final := TextOf(ReadFrom(FRESH, events).chunks), FinalText(events);
    assert "" + text == text;
    assert |text| == |lost| + |final| + |final|;
    if lost == "" && final == "" {
      assert lost + (final + final) == "";
    }
  }

  lemma NoText()
    ensures TextOf([]) == ""
  {}

  lemma NoEnd(s: StreamState, e: Event)
    requires !OnEvent(s, e).stop && !s.responded && s.responseText == s.sentText
    ensures var out := OnEvent(s, e); !out.state.responded && out.state.responseText == out.state.sentText
  {}
}
