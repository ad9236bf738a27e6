/** The incremental parser of server-sent events in the PiClaw backend. */
module Sse {
  import opened Common
  import opened Text

  /** A decoded event. `data` is what JSON decoding makes of the joined data lines. */
  datatype Payload<D> = Payload(event: Option<string>, data: Option<D>)

  /** The event under construction. */
  datatype Pending = Pending(event: Option<string>, lines: seq<string>)

  const NOTHING := Pending(None, [])

  // ----- Lines -----

  function IndexOf(s: string, c: char): (r: int)
    ensures -1 <= r < |s|
    ensures r >= 0 ==> s[r] == c && forall i | 0 <= i < r :: s[i] != c
    ensures r < 0 ==> forall i | 0 <= i < |s| :: s[i] != c
  {
    if s == "" then -1
    else if s[0] == c then 0
    else
      var r := IndexOf(s[1..], c);
      assert forall i | 1 <= i < |s| :: s[i] == s[1..][i - 1];
      if r < 0 then -1 else r + 1
  }

  /** A line without its carriage returns at the end. */
  function Chomp(s: string): string {
    if s != "" && s[|s| - 1] == '\r' then Chomp(s[..|s| - 1]) else s
  }

  function NameOf(s: string): Option<string> {
    var name := Trim(s);
    if name == "" then None else Some(name)
  }

  function JoinLines(lines: seq<string>): string {
    if lines == [] then ""
    else if |lines| == 1 then lines[0]
    else lines[0] + "\n" + JoinLines(lines[1..])
  }

  function Decode<D>(p: Pending, loads: string -> D): seq<Payload<D>> {
    if p.event.None? && p.lines == [] then []
    else
      var raw := JoinLines(p.lines);
      [Payload(p.event, if raw == "" then None else Some(loads(raw)))]
  }

  /** A field line; comments and other fields change nothing. */
  function Field(p: Pending, line: string): Pending {
    if "event:" <= line then p.(event := NameOf(line[6..]))
    else if "data:" <= line then p.(lines := p.lines + [TrimLeft(line[5..])])
    else p
  }

  /** One complete line: a blank one dispatches the event. */
  function Line<D>(p: Pending, raw: string, loads: string -> D): (r: (seq<Payload<D>>, Pending)) {
    var line := Chomp(raw);
    if line == "" then (Decode(p, loads), NOTHING)
    else if line[0] == ':' then ([], p)
    else ([], Field(p, line))
  }

  // ----- Text -----

  datatype Parsed<D> = Parsed(events: seq<Payload<D>>, pending: Pending, buffer: string)

  /** All complete lines of a text; what follows the last newline stays in the buffer. */
  function Parse<D>(p: Pending, text: string, loads: string -> D): Parsed<D>
    decreases |text|
  {
    var at := IndexOf(text, '\n');
    if at < 0 then Parsed([], p, text)
    else
      var (now, next) := Line(p, text[..at], loads);
      var more := Parse(next, text[at + 1..], loads);
      Parsed(now + more.events, more.pending, more.buffer)
  }

  /** The end of the stream: a last line without a newline counts, and so does an event
      that no blank line ended. */
  function Finish<D>(p: Pending, buffer: string, loads: string -> D): seq<Payload<D>> {
    var line := Chomp(buffer);
    Decode(if buffer == "" then p else LastField(p, line), loads)
  }

  function LastField(p: Pending, line: string): Pending {
    if "data:" <= line then p.(lines := p.lines + [TrimLeft(line[5..])])
    else if "event:" <= line then p.(event := NameOf(line[6..]))
    else p
  }

  /** The events of a whole stream. */
  function ParseAll<D>(text: string, loads: string -> D): seq<Payload<D>> {
    var parsed := Parse(NOTHING, text, loads);
    parsed.events + Finish(parsed.pending, parsed.buffer, loads)
  }

  // ----- The parser -----

  /** The events of a stream that arrives in chunks: they depend on the text alone, not on
      where it was cut. */
  method IterSseEvents<D>(content: seq<string>, loads: string -> D) returns (events: seq<Payload<D>>)
    ensures events == ParseAll(Concat(content), loads)
  {
    hide Parse, Finish;
    var eventType: Option<string> := None;
    var dataLines: seq<string> := [];
    var buffer := "";
    events := [];
    assert content[..0] == [];
    NothingParses(NOTHING, loads);
    for k := 0 to |content|
      invariant Parsed(events, Pending(eventType, dataLines), buffer) == Parse(NOTHING, Concat(content[..k]), loads)
    {
      assert content[..k + 1] == content[..k] + [content[k]];
      ConcatSnoc(content[..k], content[k]);
      ParseInSteps(NOTHING, Concat(content[..k]), content[k], loads);
      buffer := buffer + content[k];
      var more;
      more, eventType, dataLines, buffer := HandleLines(eventType, dataLines, buffer, loads);
      events := events + more;
    }
    assert content[..|content|] == content;
    var last := HandleEnd(eventType, dataLines, buffer, loads);
    events := events + last;
  }

  lemma NothingParses<D>(p: Pending, loads: string -> D)
    ensures Concat([]) == "" && Parse(p, "", loads) == Parsed([], p, "")
  {}

  /** The whole lines of the buffer; what is left has no newline. */
  method HandleLines<D>(pendingType: Option<string>, pendingLines: seq<string>, text: string, loads: string -> D)
    returns (events: seq<Payload<D>>, eventType: Option<string>, dataLines: seq<string>, buffer: string)
    ensures Parsed(events, Pending(eventType, dataLines), buffer)
         == Parse(Pending(pendingType, pendingLines), text, loads)
  {
    hide Line;
    ghost var whole := Parse(Pending(pendingType, pendingLines), text, loads);
    events, eventType, dataLines, buffer := [], pendingType, pendingLines, text;
    while true
      invariant var rest := Parse(Pending(eventType, dataLines), buffer, loads);
                whole == Parsed(events + rest.events, rest.pending, rest.buffer)
      decreases |buffer|
    {
      var newline := IndexOf(buffer, '\n');
      if newline < 0 {
        break;
      }
      var more, nextType, nextLines := HandleLine(eventType, dataLines, buffer[..newline], loads);
      ghost var rest := Parse(Pending(nextType, nextLines), buffer[newline + 1..], loads);
      assert events + (more + rest.events) == (events + more) + rest.events;
      events, eventType, dataLines := events + more, nextType, nextLines;
      buffer := buffer[newline + 1..];
    }
  }

  method HandleLine<D>(eventType: Option<string>, dataLines: seq<string>, raw: string, loads: string -> D)
    returns (events: seq<Payload<D>>, nextType: Option<string>, nextLines: seq<string>)
    ensures (events, Pending(nextType, nextLines)) == Line(Pending(eventType, dataLines), raw, loads)
  {
    events, nextType, nextLines := [], eventType, dataLines;
    var line := Chomp(raw);
    if line == "" {
      events := Decode(Pending(eventType, dataLines), loads);
      nextType, nextLines := None, [];
      return;
    }
    if ":" <= line {
      return;
    }
    if "event:" <= line {
      nextType := NameOf(line[6..]);
      return;
    }
    if "data:" <= line {
      nextLines := dataLines + [TrimLeft(line[5..])];
    }
  }

  method HandleEnd<D>(eventType: Option<string>, dataLines: seq<string>, buffer: string, loads: string -> D)
    returns (events: seq<Payload<D>>)
    ensures events == Finish(Pending(eventType, dataLines), buffer, loads)
  {
    var name, lines := eventType, dataLines;
    if buffer != "" {
      var line := Chomp(buffer);
      if "data:" <= line {
        lines := lines + [TrimLeft(line[5..])];
      } else if "event:" <= line {
        name := NameOf(line[6..]);
      }
    }
    events := Decode(Pending(name, lines), loads);
  }

  /** Parsing may stop anywhere and go on with the buffer. */
  lemma {:induction false} ParseInSteps<D>(p: Pending, a: string, b: string, loads: string -> D)
    ensures var first := Parse(p, a, loads);
            var second := Parse(first.pending, first.buffer + b, loads);
            Parse(p, a + b, loads) == Parsed(first.events + second.events, second.pending, second.buffer)
    decreases |a|
  {
    hide Line;
    var at := IndexOf(a, '\n');
    var first := Parse(p, a, loads);
    if at < 0 {
      var second := Parse(p, a + b, loads);
      assert [] + second.events == second.events;
    } else {
      var (now, next) := Line(p, a[..at], loads);
      ParseInSteps(next, a[at + 1..], b, loads);
      NewlineStays(a, b, at);
      ParseLine(p, a + b, at, loads);
      ParseLine(p, a, at, loads);
      var tail := Parse(next, a[at + 1..], loads);
      hide Parse;
      Regroup(now, tail.events, Parse(first.pending, first.buffer + b, loads).events);
    }
  }

  lemma ParseLine<D>(p: Pending, text: string, at: nat, loads: string -> D)
    requires IndexOf(text, '\n') == at
    ensures var (now, next) := Line(p, text[..at], loads);
            var more := Parse(next, text[at + 1..], loads);
            Parse(p, text, loads) == Parsed(now + more.events, more.pending, more.buffer)
  {
    hide Line;
  }

  lemma NewlineStays(a: string, b: string, at: nat)
    requires IndexOf(a, '\n') == at
    ensures IndexOf(a + b, '\n') == at
    ensures (a + b)[..at] == a[..at] && (a + b)[at + 1..] == a[at + 1..] + b
  {
    assert (a + b)[at] == '\n';
    assert forall i | 0 <= i < at :: (a + b)[i] == a[i];
  }

  // ----- Printing -----

  /** A frame as the server writes it: a named or unnamed event, or a keep-alive comment. */
  datatype Frame = Event(name: Option<string>, lines: seq<string>) | Ping

  function PrintLines(lines: seq<string>): string {
    if lines == [] then "" else "data: " + (lines[0] + ("\n" + PrintLines(lines[1..])))
  }

  function PrintFrame(f: Frame): string {
    match f
    case Ping => ": ping\n" + "\n"
    case Event(name, lines) =>
      (if name.Some? then "event: " + (name.value + "\n") else "") + (PrintLines(lines) + "\n")
  }

  function PrintAll(frames: seq<Frame>): string {
    if frames == [] then "" else PrintFrame(frames[0]) + PrintAll(frames[1..])
  }

  predicate OneLine(s: string) {
    forall i | 0 <= i < |s| :: s[i] != '\n'
  }

  /** A data line that survives: no newline, no white space before it, no carriage return after it. */
  predicate GoodLine(s: string) {
    OneLine(s) && TrimLeft(s) == s && Chomp(s) == s
  }

  predicate GoodFrame(f: Frame) {
    f.Event? ==>
      && (f.name.Some? ==> f.name.value != "" && OneLine(f.name.value) && Trim(f.name.value) == f.name.value)
      && (forall i | 0 <= i < |f.lines| :: GoodLine(f.lines[i]))
  }

  function DecodeFrames<D>(frames: seq<Frame>, loads: string -> D): seq<Payload<D>> {
    if frames == [] then []
    else
      (if frames[0].Ping? then [] else Decode(Pending(frames[0].name, frames[0].lines), loads))
      + DecodeFrames(frames[1..], loads)
  }

  lemma ParseOneLine<D>(p: Pending, line: string, rest: string, loads: string -> D)
    requires OneLine(line)
    ensures var (now, next) := Line(p, line, loads);
            var more := Parse(next, rest, loads);
            Parse(p, line + ("\n" + rest), loads) == Parsed(now + more.events, more.pending, more.buffer)
  {
    hide Line;
    var text := line + ("\n" + rest);
    var at := IndexOf(text, '\n');
    assert text[|line|] == '\n';
    assert forall i | 0 <= i < |line| :: text[i] == line[i];
    assert at == |line|;
    assert text[..at] == line && text[at + 1..] == rest;
  }

  lemma ChompPrefixed(prefix: string, s: string)
    requires prefix != "" && prefix[|prefix| - 1] != '\r' && Chomp(s) == s
    ensures Chomp(prefix + s) == prefix + s
  {
    if s == "" {
      assert prefix + s == prefix;
    } else if s[|s| - 1] == '\r' {
      ChompShorter(s);
    } else {
      assert (prefix + s)[|prefix + s| - 1] == s[|s| - 1];
    }
  }

  lemma ChompShorter(s: string)
    requires s != "" && s[|s| - 1] == '\r'
    ensures Chomp(s) != s
  {
    ChompNotLonger(s[..|s| - 1]);
  }

  lemma ChompNotLonger(s: string)
    ensures |Chomp(s)| <= |s|
  {}

  lemma TrimmedLine(s: string)
    requires Trim(s) == s && s != ""
    ensures Chomp(s) == s
  {
    TrimIsTrimmed(s);
  }

  /** A printed data line adds its text. */
  lemma DataLine<D>(p: Pending, s: string, loads: string -> D)
    requires GoodLine(s)
    ensures OneLine("data: " + s)
    ensures Line(p, "data: " + s, loads) == ([], p.(lines := p.lines + [s]))
  {
    hide Chomp, Leading, TrimLeft, Decode;
    var line := "data: " + s;
    ChompPrefixed("data: ", s);
    assert "data:" <= line && !("event:" <= line) by { assert line[0] == 'd'; }
    assert line[5..] == " " + s;
    SpaceBefore(s);
  }

  lemma SpaceBefore(s: string)
    ensures TrimLeft(" " + s) == TrimLeft(s)
  {
    assert (" " + s)[1..] == s;
    assert Leading(" " + s) == 1 + Leading(s);
    assert (" " + s)[1 + Leading(s)..] == s[Leading(s)..];
  }

  lemma NameLine<D>(p: Pending, name: string, loads: string -> D)
    requires name != "" && OneLine(name) && Trim(name) == name
    ensures OneLine("event: " + name)
    ensures Line(p, "event: " + name, loads) == ([], p.(event := Some(name)))
  {
    var line := "event: " + name;
    TrimmedLine(name);
    ChompPrefixed("event: ", name);
    assert "event:" <= line by { assert line[..6] == "event:"; }
    assert line[6..] == " " + name;
    SpaceBefore(name);
    TrimIsTrimmed(name);
    TrimmedIsKept(name);
  }

  lemma {:induction false} ParseLines<D>(p: Pending, lines: seq<string>, rest: string, loads: string -> D)
    requires forall i | 0 <= i < |lines| :: GoodLine(lines[i])
    ensures Parse(p, PrintLines(lines) + rest, loads) == Parse(p.(lines := p.lines + lines), rest, loads)
    decreases |lines|
  {
    hide Line, GoodLine, Parse;
    if lines == [] {
      assert PrintLines(lines) + rest == rest && p.lines + lines == p.lines;
    } else {
      DataLine(p, lines[0], loads);
      var more := PrintLines(lines[1..]) + rest;
      assert PrintLines(lines) + rest == ("data: " + lines[0]) + ("\n" + more);
      ParseOneLine(p, "data: " + lines[0], more, loads);
      ParseLines(p.(lines := p.lines + [lines[0]]), lines[1..], rest, loads);
      assert p.lines + [lines[0]] + lines[1..] == p.lines + lines;
      var parsed := Parse(p.(lines := p.lines + [lines[0]]), more, loads);
      assert [] + parsed.events == parsed.events;
    }
  }

  lemma ParseFrame<D>(f: Frame, rest: string, loads: string -> D)
    requires GoodFrame(f)
    ensures var more := Parse(NOTHING, rest, loads);
            var now := if f.Ping? then [] else Decode(Pending(f.name, f.lines), loads);
            Parse(NOTHING, PrintFrame(f) + rest, loads) == Parsed(now + more.events, more.pending, more.buffer)
  {
    hide Parse, GoodLine;
    var more := Parse(NOTHING, rest, loads);
    if f.Ping? {
      assert PrintFrame(f) + rest == ": ping" + ("\n" + ("" + ("\n" + rest)));
      ParseOneLine(NOTHING, ": ping", "" + ("\n" + rest), loads);
      ParseOneLine(NOTHING, "", rest, loads);
      assert Decode(NOTHING, loads) == [];
    } else {
      ParseEvent(f.name, f.lines, rest, loads);
    }
  }

  /** The data lines of an event and the blank line that ends it. */
  lemma ParseBody<D>(name: Option<string>, lines: seq<string>, rest: string, loads: string -> D)
    requires forall i | 0 <= i < |lines| :: GoodLine(lines[i])
    ensures var more := Parse(NOTHING, rest, loads);
            Parse(Pending(name, []), PrintLines(lines) + ("" + ("\n" + rest)), loads)
            == Parsed(Decode(Pending(name, lines), loads) + more.events, more.pending, more.buffer)
  {
    hide Parse, GoodLine, Decode, PrintLines;
    ParseLines(Pending(name, []), lines, "" + ("\n" + rest), loads);
    assert [] + lines == lines;
    ParseOneLine(Pending(name, lines), "", rest, loads);
  }

  lemma ParseEvent<D>(name: Option<string>, lines: seq<string>, rest: string, loads: string -> D)
    requires GoodFrame(Event(name, lines))
    ensures var more := Parse(NOTHING, rest, loads);
            Parse(NOTHING, PrintFrame(Event(name, lines)) + rest, loads)
            == Parsed(Decode(Pending(name, lines), loads) + more.events, more.pending, more.buffer)
  {
    hide Parse, GoodLine, Decode, PrintLines, Line;
    var tail := PrintLines(lines) + ("" + ("\n" + rest));
    ParseBody(name, lines, rest, loads);
    if name.Some? {
      NameLine(NOTHING, name.value, loads);
      NamedFrame(name.value, lines, rest);
      ParseOneLine(NOTHING, "event: " + name.value, tail, loads);
      var parsed := Parse(Pending(name, []), tail, loads);
      assert [] + parsed.events == parsed.events;
    } else {
      assert PrintFrame(Event(name, lines)) + rest == tail;
    }
  }

  lemma NamedFrame(name: string, lines: seq<string>, rest: string)
    ensures PrintFrame(Event(Some(name), lines)) + rest
         == ("event: " + name) + ("\n" + (PrintLines(lines) + ("" + ("\n" + rest))))
  {}

  /** Printing events and parsing them gives the events back, with keep-alives anywhere between. */
  lemma {:induction false} PrintParses<D>(frames: seq<Frame>, loads: string -> D)
    requires forall i | 0 <= i < |frames| :: GoodFrame(frames[i])
    ensures Parse(NOTHING, PrintAll(frames), loads) == Parsed(DecodeFrames(frames, loads), NOTHING, "")
    ensures ParseAll(PrintAll(frames), loads) == DecodeFrames(frames, loads)
    decreases |frames|
  {
    hide GoodFrame, PrintFrame;
    if frames != [] {
      PrintParses(frames[1..], loads);
      ParseFrame(frames[0], PrintAll(frames[1..]), loads);
    }
  }

  // ----- The end of the stream -----

  lemma {:induction false} BufferIsOneLine<D>(p: Pending, text: string, loads: string -> D)
    ensures OneLine(Parse(p, text, loads).buffer)
    decreases |text|
  {
    hide Line;
    var at := IndexOf(text, '\n');
    if at >= 0 {
      BufferIsOneLine(Line(p, text[..at], loads).1, text[at + 1..], loads);
    }
  }

  /** The last line and then a blank one do what the end of the stream does. */
  lemma LineThenBlank<D>(p: Pending, line: string, loads: string -> D)
    ensures var (now, next) := Line(p, line, loads); now + Decode(next, loads) == Finish(p, line, loads)
  {
    assert Chomp("") == "" && Decode(NOTHING, loads) == [];
  }

  lemma BlankLast<D>(p: Pending, loads: string -> D)
    ensures Parse(p, "\n", loads) == Parsed(Decode(p, loads), NOTHING, "")
    ensures Finish(NOTHING, "", loads) == []
  {
    ParseOneLine(p, "", "", loads);
    assert "" + ("\n" + "") == "\n" && Chomp("") == "";
    NothingParses(NOTHING, loads);
  }

  /** A stream may end anywhere: its events are those it would have if its last line were ended
      and followed by a blank one. */
  lemma EndIsABlankLine<D>(text: string, loads: string -> D)
    ensures ParseAll(text, loads) == ParseAll(text + "\n\n", loads)
  {
    hide Line, Parse, Finish, Decode;
    var parsed := Parse(NOTHING, text, loads);
    BufferIsOneLine(NOTHING, text, loads);
    ParseInSteps(NOTHING, text, "\n\n", loads);
    assert parsed.buffer + "\n\n" == parsed.buffer + ("\n" + "\n");
    ParseOneLine(parsed.pending, parsed.buffer, "\n", loads);
    var (now, next) := Line(parsed.pending, parsed.buffer, loads);
    BlankLast(next, loads);
    LineThenBlank(parsed.pending, parsed.buffer, loads);
    var all := Parse(NOTHING, text + "\n\n", loads);
    assert all == Parsed(parsed.events + (now + Decode(next, loads)), NOTHING, "");
  }
}
