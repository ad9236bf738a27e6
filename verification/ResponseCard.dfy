/** How the handheld shows a streamed reply on its card. */
module ResponseCard {
  import opened Common
  import opened PiStream

  datatype Mode = Waiting | CardMode | Other

  /** The parts of the screen a delta can change; `celebrate` is a setting. */
  datatype Screen = Screen(mode: Mode, title: string, body: string, celebrate: bool)

  const RESPONSE := "Response"

  const NOTES := [
    "\U{2728} Fresh from the gateway",
    "\U{1F31F} Pocket wisdom acquired",
    "\U{1F389} Response cache warmed",
    "\U{1FA84} Tiny triumph unlocked"]

  predicate Contains(s: string, part: string) {
    exists i :: 0 <= i <= |s| && part <= s[i..]
  }

  /** The note is chosen by the length of the body, and added unless it is there. */
  function WithNote(body: string): string {
    var note := NOTES[|body| % |NOTES|];
    if Contains(body, note) then body else body + "\n\n" + note
  }

  function Show(s: Screen, c: Chunk): Screen {
    var body :=
      if c.textDelta == "" then s.body
      else if s.mode != CardMode || s.title != RESPONSE then c.textDelta
      else s.body + c.textDelta;
    var title := if c.textDelta == "" then s.title else RESPONSE;
    if c.isFinal then
      Screen(CardMode, title, if s.celebrate then WithNote(body) else body, s.celebrate)
    else
      Screen(if s.mode == Waiting && c.textDelta != "" then CardMode else s.mode, title, body, s.celebrate)
  }

  class Handheld {
    var mode: Mode
    var title: string
    var body: string
    const showCelebrations: bool

    ghost function View(): Screen
      reads this
    {
      Screen(mode, title, body, showCelebrations)
    }

    constructor (mode: Mode, title: string, body: string, showCelebrations: bool)
      ensures View() == Screen(mode, title, body, showCelebrations)
    {
      this.mode, this.title, this.body, this.showCelebrations := mode, title, body, showCelebrations;
    }

    method ShowResponseDelta(c: Chunk)
      modifies this
      ensures View() == Show(old(View()), c)
    {
      if c.textDelta != "" {
        if mode != CardMode || title != RESPONSE {
          title := RESPONSE;
          body := "";
        }
        body := body + c.textDelta;
        assert "" + c.textDelta == c.textDelta;
      }
      if c.isFinal {
        if showCelebrations {
          var note := NOTES[|body| % |NOTES|];
          if !Contains(body, note) {
            body := body + "\n\n" + note;
          }
        }
        mode := CardMode;
      } else if mode == Waiting && c.textDelta != "" {
        mode := CardMode;
      }
    }
  }

  // ----- A whole reply -----

  function ShowAll(s: Screen, chunks: seq<Chunk>): Screen
    decreases |chunks|
  {
    if chunks == [] then s else ShowAll(Show(s, chunks[0]), chunks[1..])
  }

  /** How many texts come up to and including the first final chunk. */
  function TextsBeforeFinal(chunks: seq<Chunk>): nat {
    if chunks == [] then 0
    else
      (if chunks[0].textDelta == "" then 0 else 1)
      + (if chunks[0].isFinal then 0 else TextsBeforeFinal(chunks[1..]))
  }

  /** The card holds no earlier reply that new text would be added to. */
  predicate Clean(s: Screen) {
    s.title != RESPONSE || s.body == ""
  }

  /** The screen shows these chunks as one fresh card. */
  predicate Ready(s: Screen, chunks: seq<Chunk>) {
    if s.mode == CardMode || TextsBeforeFinal(chunks) == 0 then Clean(s)
    else s.mode == Waiting || TextsBeforeFinal(chunks) == 1
  }

  lemma {:induction false} AppendsFromHere(s: Screen, chunks: seq<Chunk>)
    requires s.mode == CardMode && s.title == RESPONSE && !s.celebrate
    ensures ShowAll(s, chunks).body == s.body + TextOf(chunks)
    decreases |chunks|
  {
    if chunks == [] {
      assert s.body + "" == s.body;
    } else {
      AppendsFromHere(Show(s, chunks[0]), chunks[1..]);
      Regroup(s.body, chunks[0].textDelta, TextOf(chunks[1..]));
      assert s.body + "" == s.body;
    }
  }

  lemma {:induction false} SomeText(chunks: seq<Chunk>)
    requires TextsBeforeFinal(chunks) > 0
    ensures TextOf(chunks) != ""
  {
    if chunks[0].textDelta == "" {
      SomeText(chunks[1..]);
    }
  }

  /** Where the text of a reply goes, for every screen it can find. */
  lemma {:induction false} WhatTheCardShows(s: Screen, chunks: seq<Chunk>)
    requires !s.celebrate
    ensures Ready(s, chunks) && TextOf(chunks) != "" ==> ShowAll(s, chunks).body == TextOf(chunks)
    ensures !Ready(s, chunks) && (s.mode == CardMode || TextsBeforeFinal(chunks) == 0) ==>
              ShowAll(s, chunks).body == s.body + TextOf(chunks) && s.body != ""
    ensures s.mode == Other && TextsBeforeFinal(chunks) > 1 ==> |ShowAll(s, chunks).body| < |TextOf(chunks)|
    decreases |chunks|
  {
    if chunks == [] {
      assert s.body + "" == s.body;
    } else {
      var c, rest := chunks[0], chunks[1..];
      var next := Show(s, c);
      Regroup(s.body, c.textDelta, TextOf(rest));
      assert s.body + "" == s.body && "" + TextOf(rest) == TextOf(rest);
      if next.mode == CardMode && next.title == RESPONSE {
        AppendsFromHere(next, rest);
      } else {
        WhatTheCardShows(next, rest);
        if TextsBeforeFinal(rest) > 0 { SomeText(rest); }
      }
    }
  }

  /** With celebrations on, whatever is added comes after the text: a chunk without text
      only ever lengthens the body. */
  lemma {:induction false} NotesComeAfter(s: Screen, chunks: seq<Chunk>)
    requires TextOf(chunks) == ""
    ensures s.body <= ShowAll(s, chunks).body
    decreases |chunks|
  {
    hide Contains;
    if chunks != [] {
      NotesComeAfter(Show(s, chunks[0]), chunks[1..]);
    }
  }

  /** Before the first final chunk celebrations make no difference. */
  lemma {:induction false} SameUntilFinal(s: Screen, plain: Screen, chunks: seq<Chunk>)
    requires plain == s.(celebrate := false)
    requires forall i | 0 <= i < |chunks| :: !chunks[i].isFinal
    ensures ShowAll(plain, chunks) == ShowAll(s, chunks).(celebrate := false)
    decreases |chunks|
  {
    if chunks != [] {
      SameUntilFinal(Show(s, chunks[0]), Show(plain, chunks[0]), chunks[1..]);
    }
  }

  lemma {:induction false} ShowAllAppend(s: Screen, a: seq<Chunk>, b: seq<Chunk>)
    ensures ShowAll(s, a + b) == ShowAll(ShowAll(s, a), b)
    decreases |a|
  {
    hide Show;
    if a == [] {
      assert a + b == b;
    } else {
      ShowAllAppend(Show(s, a[0]), a[1..], b);
      assert (a + b)[0] == a[0] && (a + b)[1..] == a[1..] + b;
    }
  }

  /** A reply whose text is complete with its first final chunk is shown whole, whether or
      not notes are added after it. */
  lemma TextThenNotes(s: Screen, before: seq<Chunk>, final: Chunk, after: seq<Chunk>)
    requires Ready(s, before + [final]) && final.isFinal && (forall i | 0 <= i < |before| :: !before[i].isFinal)
    requires TextOf(after) == "" && TextOf(before + [final]) != ""
    ensures TextOf(before + [final]) <= ShowAll(s, before + [final] + after).body
  {
    hide Contains, Show, ShowAll, Ready;
    var plain := s.(celebrate := false);
    ReadyForNotes(s, before + [final]);
    WhatTheCardShows(plain, before + [final]);
    SameUntilFinal(s, plain, before);
    ShowAllAppend(plain, before, [final]);
    ShowAllAppend(s, before, [final]);
    ShowAllAppend(s, before + [final], after);
    var t, u := ShowAll(s, before), ShowAll(plain, before);
    ShowOne(t, final);
    ShowOne(u, final);
    NoteComesLast(t, final);
    NotesComeAfter(ShowAll(s, before + [final]), after);
  }

  lemma NoteComesLast(s: Screen, c: Chunk)
    ensures Show(s.(celebrate := false), c).body <= Show(s, c).body
  {
    hide Contains;
  }

  lemma ReadyForNotes(s: Screen, chunks: seq<Chunk>)
    requires Ready(s, chunks)
    ensures Ready(s.(celebrate := false), chunks)
  {}

  lemma ShowOne(s: Screen, c: Chunk)
    ensures ShowAll(s, [c]) == Show(s, c)
  {
    assert [c][1..] == [];
  }

  // ----- With notes -----

  /** No text comes after the first final chunk. */
  predicate TextEnds(chunks: seq<Chunk>) {
    chunks == [] || (if chunks[0].isFinal then TextOf(chunks[1..]) == "" else TextEnds(chunks[1..]))
  }

  /** No final chunk adds a note to a card that shows the reply. */
  predicate Unnoted(s: Screen, chunks: seq<Chunk>)
    decreases |chunks|
  {
    chunks == [] ||
    (var next := Show(s, chunks[0]);
     && (chunks[0].isFinal && next.title == RESPONSE ==> next.body == Show(s.(celebrate := false), chunks[0]).body)
     && Unnoted(next, chunks[1..]))
  }

  lemma NoteLengthens(body: string)
    ensures WithNote(body) == body || |body| < |WithNote(body)|
  {
    hide Contains;
  }

  lemma {:induction false} NotesStay(s: Screen, p: Screen, chunks: seq<Chunk>)
    requires s.mode == p.mode == CardMode && s.title == p.title == RESPONSE && !p.celebrate && |p.body| < |s.body|
    ensures |ShowAll(p, chunks).body| < |ShowAll(s, chunks).body|
    decreases |chunks|
  {
    hide WithNote;
    if chunks != [] {
      NoteLengthens(s.body);
      NoteLengthens(s.body + chunks[0].textDelta);
      NotesStay(Show(s, chunks[0]), Show(p, chunks[0]), chunks[1..]);
    }
  }

  /** A note on the reply stays; a note on an older card goes with the card. */
  lemma {:induction false} NotesShow(s: Screen, p: Screen, chunks: seq<Chunk>)
    requires s.celebrate && !p.celebrate && s.mode == p.mode && s.title == p.title
    requires s.title == RESPONSE ==> s.body == p.body
    requires TextOf(chunks) == "" ==> s.title == RESPONSE
    ensures if Unnoted(s, chunks) then ShowAll(s, chunks).body == ShowAll(p, chunks).body
            else |ShowAll(p, chunks).body| < |ShowAll(s, chunks).body|
    decreases |chunks|
  {
    hide WithNote;
    if chunks != [] {
      var c := chunks[0];
      var t, q := Show(s, c), Show(p, c);
      NoteLengthens(s.body);
      NoteLengthens(c.textDelta);
      NoteLengthens(s.body + c.textDelta);
      assert t.mode == q.mode && t.title == q.title;
      if t.title == RESPONSE && t.body != q.body {
        assert !Unnoted(s, chunks);
        NotesStay(t, q, chunks[1..]);
      } else {
        assert c.textDelta == "" ==> TextOf(chunks) == TextOf(chunks[1..]);
        NotesShow(t, q, chunks[1..]);
      }
    }
  }

  /** The chunks up to the first final one and the others. */
  lemma {:induction false} SplitAtFinal(chunks: seq<Chunk>) returns (before: seq<Chunk>, rest: seq<Chunk>)
    requires TextEnds(chunks)
    ensures chunks == before + rest && forall i | 0 <= i < |before| :: !before[i].isFinal
    ensures rest != [] ==> rest[0].isFinal && TextOf(rest[1..]) == ""
    ensures TextsBeforeFinal(chunks) == TextsBeforeFinal(if rest == [] then before else before + [rest[0]])
    decreases |chunks|
  {
    if chunks == [] || chunks[0].isFinal {
      before, rest := [], chunks;
      if rest != [] {
        assert before + [rest[0]] == [rest[0]];
      }
    } else {
      var more, last := SplitAtFinal(chunks[1..]);
      before, rest := [chunks[0]] + more, last;
      assert chunks == [chunks[0]] + chunks[1..];
      assert before[1..] == more;
      if rest != [] {
        assert (before + [rest[0]])[1..] == more + [rest[0]];
      }
    }
  }

  lemma TextComesFirst(s: Screen, chunks: seq<Chunk>)
    requires Ready(s, chunks) && TextEnds(chunks) && TextOf(chunks) != ""
    ensures TextOf(chunks) <= ShowAll(s, chunks).body
  {
    hide Contains, Show, ShowAll;
    var before, rest := SplitAtFinal(chunks);
    var plain := s.(celebrate := false);
    if rest == [] {
      assert chunks == before;
      SameUntilFinal(s, plain, chunks);
      WhatTheCardShows(plain, chunks);
    } else {
      var until, after := before + [rest[0]], rest[1..];
      assert chunks == until + after;
      TextOfAppend(until, after);
      assert TextOf(until) + "" == TextOf(until);
      TextThenNotes(s, before, rest[0], after);
    }
  }

  /** A reply with text ends up as the body of the card, notes apart, exactly when the screen is
      ready for it: a card without an earlier reply, or the waiting screen when some text comes by
      the first final chunk, or another screen when exactly one text does. With celebrations on,
      the body of a ready screen is the text alone exactly when no note is added on the card, and
      begins with the text when none of it comes after the first final chunk. */
  lemma CardShowsTheText(s: Screen, chunks: seq<Chunk>)
    requires TextOf(chunks) != ""
    ensures ShowAll(s.(celebrate := false), chunks).body == TextOf(chunks) <==> Ready(s, chunks)
    ensures Ready(s, chunks) ==> (ShowAll(s, chunks).body == TextOf(chunks) <==> !s.celebrate || Unnoted(s, chunks))
    ensures Ready(s, chunks) && TextEnds(chunks) ==> TextOf(chunks) <= ShowAll(s, chunks).body
  {
    hide Contains, Show, ShowAll, Unnoted, TextEnds;
    var plain := s.(celebrate := false);
    WhatTheCardShows(plain, chunks);
    assert |s.body + TextOf(chunks)| == |s.body| + |TextOf(chunks)|;
    if s.celebrate {
      NotesShow(s, plain, chunks);
    } else {
      assert s == plain;
    }
    if Ready(s, chunks) && TextEnds(chunks) {
      TextComesFirst(s, chunks);
    }
  }

  /** A run whose snapshots continue sends no text after its first final chunk. */
  lemma {:induction false} TextOfRunEnds(s: StreamState, events: seq<Event>)
    requires ReadFrom(s, events).stop && Continues(s, events)
    ensures TextEnds(ReadFrom(s, events).chunks)
    decreases |events|
  {
    hide OnEvent, TextChunk;
    var out := OnEvent(s, events[0]);
    if out.stop {
      LastChunks(s, events[0]);
    } else {
      TextOfRunEnds(out.state, events[1..]);
      EarlierChunks(s, events[0]);
      EndsLater(out.chunks, ReadFrom(out.state, events[1..]).chunks);
    }
  }

  lemma EarlierChunks(s: StreamState, e: Event)
    requires !OnEvent(s, e).stop
    ensures forall i | 0 <= i < |OnEvent(s, e).chunks| :: !OnEvent(s, e).chunks[i].isFinal
  {
    hide HasInk;
  }

  lemma LastChunks(s: StreamState, e: Event)
    requires OnEvent(s, e).stop
    requires e.content.Text? && !e.content.incremental ==> s.sentText <= e.content.text
    requires e.content.Text? && e.terminal ==> TextChunk(s, e).1.sentText <= e.content.text
    ensures TextEnds(OnEvent(s, e).chunks)
  {
    hide HasInk;
    var (first, s1) := TextChunk(s, e);
    var (second, s2) := TerminalChunk(s1, e);
    assert |second| == 1 && second[1..] == [];
    assert second == [second[0]];
    if first == [] {
      assert first + second == second;
    } else {
      assert first == [first[0]] && (first + second)[0] == first[0] && (first + second)[1..] == second;
      assert first[0].isFinal;
      assert |e.content.text| <= |s1.sentText| && s1.sentText == e.content.text;
      assert Beyond(e.content.text, s1.sentText) == "";
      assert second == [Chunk("", true)];
      TextOfOne("", true);
    }
  }

  lemma {:induction false} EndsLater(a: seq<Chunk>, b: seq<Chunk>)
    requires TextEnds(b) && forall i | 0 <= i < |a| :: !a[i].isFinal
    ensures TextEnds(a + b)
    decreases |a|
  {
    if a == [] {
      assert a + b == b;
    } else {
      EndsLater(a[1..], b);
      assert (a + b)[0] == a[0] && (a + b)[1..] == a[1..] + b;
    }
  }

  /** From pi to the card, on a screen that is ready for the run: notes apart, the body is the
      final text exactly when the snapshots continued what was sent. With notes it then begins
      with the final text, and is that text alone exactly when no note is added. */
  lemma RunEndsUpOnTheCard(s: Screen, events: seq<Event>)
    requires ReadFrom(FRESH, events).stop && TextOf(ReadFrom(FRESH, events).chunks) != ""
    requires Ready(s, ReadFrom(FRESH, events).chunks)
    ensures var chunks, final := ReadFrom(FRESH, events).chunks, FinalText(events);
            && (ShowAll(s.(celebrate := false), chunks).body == final <==> Continues(FRESH, events))
            && (Continues(FRESH, events) ==>
                  && final <= ShowAll(s, chunks).body
                  && (ShowAll(s, chunks).body == final <==> !s.celebrate || Unnoted(s, chunks)))
  {
    hide Show, ShowAll, Unnoted, TextEnds;
    DeltasAreTheText(events);
    CardShowsTheText(s, ReadFrom(FRESH, events).chunks);
    if Continues(FRESH, events) {
      TextOfRunEnds(FRESH, events);
    }
  }

  /** After a final chunk the body has the note for its length: it is added, on lines of its own,
      exactly when the body did not have it, so a final chunk never repeats a note. */
  lemma FinalChunkHasANote(s: Screen, c: Chunk)
    requires s.celebrate && c.isFinal
    ensures var plain, body := Show(s.(celebrate := false), c).body, Show(s, c).body;
            var note := NOTES[|plain| % 4];
            && Contains(body, note)
            && body == if Contains(plain, note) then plain else plain + "\n\n" + note
  {
    var plain := Show(s.(celebrate := false), c).body;
    var body := plain + "\n\n" + NOTES[|plain| % 4];
    assert body[|plain| + 2..] == NOTES[|plain| % 4];
  }

  /** With notes, as by default, a reply can be shown with one. */
  lemma ANoteIsAdded()
    ensures var s := Screen(Waiting, "", "", true);
            && Ready(s, [Chunk("hi", true)])
            && ShowAll(s, [Chunk("hi", true)]).body == "hi" + "\n\n" + NOTES[2]
  {
    ShowOne(Screen(Waiting, "", "", true), Chunk("hi", true));
    ShortTextLacks("hi", NOTES[2]);
  }

  lemma ShortTextLacks(s: string, part: string)
    requires |s| < |part|
    ensures !Contains(s, part)
  {}
}
