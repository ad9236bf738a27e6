/** The event-stream format of the WHATWG HTML Standard (sections 9.2.5 and 9.2.6), and exactly
    where the PiClaw parser departs from it. Both start from decoded text: a leading byte order
    mark, which the standard drops, belongs to the decoding. */
module SseStandard {
  import opened Common
  import opened Text
  import opened Sse

  // ----- Where lines end -----

  datatype Split = Split(lines: seq<string>, rest: string)

  /** As the parser cuts a text: at line feeds, without the carriage returns before them. */
  function CodeLines(text: string): Split
    decreases |text|
  {
    var at := IndexOf(text, '\n');
    if at < 0 then Split([], text)
    else
      var more := CodeLines(text[at + 1..]);
      Split([Chomp(text[..at])] + more.lines, more.rest)
  }

  function EndOf(text: string): (r: int)
    ensures -1 <= r < |text|
    ensures r >= 0 ==>
              (text[r] == '\n' || text[r] == '\r') && forall i | 0 <= i < r :: text[i] != '\n' && text[i] != '\r'
    ensures r < 0 ==> forall i | 0 <= i < |text| :: text[i] != '\n' && text[i] != '\r'
  {
    var lf, cr := IndexOf(text, '\n'), IndexOf(text, '\r');
    if lf < 0 then cr else if cr < 0 || lf < cr then lf else cr
  }

  /** A line ends at a line feed, a carriage return, or the two in a row. */
  function StandardLines(text: string): Split
    decreases |text|
  {
    var at := EndOf(text);
    if at < 0 then Split([], text)
    else
      var next := if text[at] == '\r' && at + 1 < |text| && text[at + 1] == '\n' then at + 2 else at + 1;
      var more := StandardLines(text[next..]);
      Split([text[..at]] + more.lines, more.rest)
  }

  /** Every carriage return has its line feed. */
  ghost predicate Paired(text: string) {
    forall i | 0 <= i < |text| && text[i] == '\r' :: i + 1 < |text| && text[i + 1] == '\n'
  }

  lemma PairedTail(text: string, next: nat)
    requires next <= |text|
    requires forall i | 0 <= i < next && text[i] == '\r' :: i + 1 < next && text[i + 1] == '\n'
    ensures Paired(text) <==> Paired(text[next..])
  {
    var tail := text[next..];
    assert forall i | 0 <= i < |tail| :: tail[i] == text[next + i];
    if Paired(tail) {
      forall i | 0 <= i < |text| && text[i] == '\r' ensures i + 1 < |text| && text[i + 1] == '\n' {
        if i >= next { assert tail[i - next] == '\r'; }
      }
    }
  }

  lemma NoReturns(text: string)
    requires forall i | 0 <= i < |text| :: text[i] != '\r'
    ensures Paired(text)
  {}

  lemma LoneReturn(text: string, at: nat)
    requires at < |text| && text[at] == '\r' && (at + 1 < |text| ==> text[at + 1] != '\n')
    ensures !Paired(text)
  {}

  /** Dropping characters before the first line feed loses no line of the parser. */
  lemma SameCount(text: string, n: nat)
    requires n <= |text| && forall i | 0 <= i < n :: text[i] != '\n'
    ensures |CodeLines(text[n..]).lines| == |CodeLines(text).lines|
  {
    hide Chomp, IndexOf;
    var at, tail := IndexOf(text, '\n'), text[n..];
    assert forall i | 0 <= i < |tail| :: tail[i] == text[n + i];
    if at >= 0 {
      assert n <= at && tail[at - n] == '\n';
      assert IndexOf(tail, '\n') == at - n;
      assert tail[at - n + 1..] == text[at + 1..];
    } else {
      assert IndexOf(tail, '\n') < 0;
    }
  }

  lemma ChompPlain(s: string)
    requires forall i | 0 <= i < |s| :: s[i] != '\r'
    ensures Chomp(s) == s && Chomp(s + "\r") == s
  {
    assert (s + "\r")[..|s|] == s;
  }

  /** The two cut a text into the same lines exactly when every carriage return has its line feed. */
  lemma LinesAgree(text: string)
    ensures CodeLines(text) == StandardLines(text) <==> Paired(text)
  {
    LinesAgreeOrAreMore(text);
  }

  lemma {:induction false} LinesAgreeOrAreMore(text: string)
    ensures Paired(text) ==> CodeLines(text) == StandardLines(text)
    ensures !Paired(text) ==> |CodeLines(text).lines| < |StandardLines(text).lines|
    decreases |text|
  {
    hide Chomp, Paired, CodeLines, StandardLines;
    var at := EndOf(text);
    if at < 0 {
      NoReturns(text);
      NoEnd(text);
    } else if text[at] == '\n' {
      CodeFirst(text, at);
      StandardFirst(text, at, at + 1);
      ChompPlain(text[..at]);
      PairedTail(text, at + 1);
      LinesAgreeOrAreMore(text[at + 1..]);
    } else if at + 1 < |text| && text[at + 1] == '\n' {
      CodeFirst(text, at + 1);
      StandardFirst(text, at, at + 2);
      assert text[..at + 1] == text[..at] + "\r";
      ChompPlain(text[..at]);
      PairedTail(text, at + 2);
      LinesAgreeOrAreMore(text[at + 2..]);
    } else {
      StandardFirst(text, at, at + 1);
      LoneReturn(text, at);
      SameCount(text, at + 1);
      LinesAgreeOrAreMore(text[at + 1..]);
    }
  }

  lemma NoEnd(text: string)
    requires EndOf(text) < 0
    ensures CodeLines(text) == StandardLines(text) == Split([], text)
  {}

  lemma CodeFirst(text: string, at: nat)
    requires at < |text| && text[at] == '\n' && forall i | 0 <= i < at :: text[i] != '\n'
    ensures var more := CodeLines(text[at + 1..]); CodeLines(text) == Split([Chomp(text[..at])] + more.lines, more.rest)
  {
    hide Chomp;
    assert IndexOf(text, '\n') == at;
  }

  lemma StandardFirst(text: string, at: nat, next: nat)
    requires EndOf(text) == at < next <= |text|
    requires next == if text[at] == '\r' && at + 1 < |text| && text[at + 1] == '\n' then at + 2 else at + 1
    ensures var more := StandardLines(text[next..]); StandardLines(text) == Split([text[..at]] + more.lines, more.rest)
  {}

  // ----- What a line does -----

  datatype Message = Message(kind: string, data: string, lastId: string)

  /** The buffers for the event type, the data and the last event id, and the reconnection time,
      as it was written; it is empty until one is set. */
  datatype Buffers = Buffers(kind: string, data: string, lastId: string, retry: string)

  const EMPTY := Buffers("", "", "", "")

  function WithoutBlank(value: string): string {
    if value != "" && value[0] == ' ' then value[1..] else value
  }

  function StandardField(b: Buffers, name: string, value: string): Buffers {
    if name == "event" then b.(kind := value)
    else if name == "data" then b.(data := b.data + value + "\n")
    else if name == "id" then (if '\0' in value then b else b.(lastId := value))
    else if name == "retry" then (if Digits(value) then b.(retry := value) else b)
    else b
  }

  predicate Digits(value: string) {
    value != "" && forall i | 0 <= i < |value| :: '0' <= value[i] <= '9'
  }

  function Dispatch(b: Buffers): seq<Message> {
    if b.data == "" then []
    else
      var data := if b.data[|b.data| - 1] == '\n' then b.data[..|b.data| - 1] else b.data;
      [Message(if b.kind == "" then "message" else b.kind, data, b.lastId)]
  }

  function StandardLine(b: Buffers, line: string): (seq<Message>, Buffers) {
    if line == "" then (Dispatch(b), b.(kind := "", data := ""))
    else
      var colon := IndexOf(line, ':');
      if colon == 0 then ([], b)
      else if colon < 0 then ([], StandardField(b, line, ""))
      else ([], StandardField(b, line[..colon], WithoutBlank(line[colon + 1..])))
  }

  // ----- Line by line -----

  function Same(data: string): string {
    data
  }

  function Kind(event: Option<string>): string {
    if event.Some? then event.value else ""
  }

  /** The data buffer for these lines. */
  function Ended(lines: seq<string>): string {
    if lines == [] then "" else Ended(lines[..|lines| - 1]) + lines[|lines| - 1] + "\n"
  }

  function BuffersOf(p: Pending): Buffers {
    Buffers(Kind(p.event), Ended(p.lines), "", "")
  }

  /** A payload as a message; JSON is not decoded here, and the parser knows no ids. */
  function MessageOf(m: Payload<string>): Message {
    Message(if Kind(m.event) == "" then "message" else Kind(m.event), if m.data.Some? then m.data.value else "", "")
  }

  function MessagesOf(ms: seq<Payload<string>>): (r: seq<Message>)
    ensures |r| == |ms|
  {
    if ms == [] then [] else [MessageOf(ms[0])] + MessagesOf(ms[1..])
  }

  /** What a line may be for the parser to follow the standard: a blank line only when there are
      data to dispatch or no name to forget; no data or event field without a colon that would
      change something; no white space in a value but one blank before it; no id and no
      reconnection time that would be set. */
  ghost predicate Conforms(p: Pending, line: string) {
    if line == "" then p.lines == [] ==> p.event.None?
    else if "event:" <= line then Trim(line[6..]) == WithoutBlank(line[6..])
    else if "data:" <= line then TrimLeft(line[5..]) == WithoutBlank(line[5..])
    else if "id:" <= line then WithoutBlank(line[3..]) == "" || '\0' in WithoutBlank(line[3..])
    else if "retry:" <= line then !Digits(WithoutBlank(line[6..]))
    else line != "data" && (line == "event" ==> p.event.None?)
  }

  lemma {:induction false} JoinedIsEnded(lines: seq<string>)
    requires lines != []
    ensures JoinLines(lines) + "\n" == Ended(lines)
  {
    hide Ended;
    EndedOne(lines[0]);
    if |lines| == 1 {
      assert lines == [lines[0]];
    } else {
      var rest := lines[1..];
      JoinedIsEnded(rest);
      EndedCons(lines[0], rest);
      assert lines == [lines[0]] + rest;
    }
  }

  lemma EndedOne(line: string)
    ensures Ended([line]) == line + "\n"
  {
    assert [line][..0] == [] && "" + line == line;
  }

  lemma {:induction false} EndedCons(first: string, rest: seq<string>)
    ensures Ended([first] + rest) == first + "\n" + Ended(rest)
  {
    var all := [first] + rest;
    if rest == [] {
      EndedOne(first);
      assert all == [first];
      assert first + "\n" + "" == first + "\n";
    } else {
      EndedCons(first, rest[..|rest| - 1]);
      Regroup(first + "\n", Ended(rest[..|rest| - 1]), rest[|rest| - 1] + "\n");
      Regroup(first + "\n" + Ended(rest[..|rest| - 1]), rest[|rest| - 1], "\n");
      Regroup(Ended(rest[..|rest| - 1]), rest[|rest| - 1], "\n");
      assert all[..|all| - 1] == [first] + rest[..|rest| - 1];
    }
  }

  lemma DispatchAgrees(p: Pending)
    requires p.event != Some("")
    ensures MessagesOf(Decode(p, Same)) == Dispatch(BuffersOf(p)) <==> (p.lines == [] ==> p.event.None?)
    ensures BuffersOf(NOTHING) == EMPTY
  {
    if p.lines == [] {
      assert MessagesOf(Decode(p, Same)) == [] <==> p.event.None?;
    } else {
      JoinedIsEnded(p.lines);
      var data := Ended(p.lines);
      assert data[..|data| - 1] == JoinLines(p.lines);
      var raw := JoinLines(p.lines);
      assert Decode(p, Same) == [Payload(p.event, if raw == "" then None else Some(raw))];
      assert MessagesOf(Decode(p, Same)) == [MessageOf(Decode(p, Same)[0])] + MessagesOf([]);
    }
  }

  lemma ValuesAgree(lines: seq<string>, a: string, b: string)
    ensures Ended(lines + [a]) == Ended(lines) + b + "\n" <==> a == b
  {
    assert (lines + [a])[..|lines|] == lines;
    var base := Ended(lines);
    if base + a + "\n" == base + b + "\n" {
      assert |a| == |b|;
      assert a == (base + a + "\n")[|base|..|base| + |a|] && b == (base + b + "\n")[|base|..|base| + |b|];
    }
  }

  /** One line makes the same messages and the same buffers exactly when it conforms. */
  lemma LineAgrees(p: Pending, line: string)
    requires p.event != Some("") && forall i | 0 <= i < |line| :: line[i] != '\r'
    ensures var (now, next) := Line(p, line, Same);
            (MessagesOf(now), BuffersOf(next)) == StandardLine(BuffersOf(p), line) <==> Conforms(p, line)
    ensures Line(p, line, Same).1.event != Some("")
  {
    hide Decode, Dispatch, Trim, TrimLeft, Ended, IndexOf, Chomp, StandardField, Field, WithoutBlank, Digits;
    ChompPlain(line);
    if line == "" {
      DispatchAgrees(p);
    } else if "event:" <= line {
      EventLine(p, line);
    } else if "data:" <= line {
      DataLine(p, line);
    } else if "id:" <= line {
      IdLine(p, line);
    } else if "retry:" <= line {
      RetryLine(p, line);
    } else {
      OtherLine(p, line);
    }
  }

  lemma EventLine(p: Pending, line: string)
    requires "event:" <= line && Chomp(line) == line
    ensures Line(p, line, Same) == ([], p.(event := NameOf(line[6..])))
    ensures StandardLine(BuffersOf(p), line) == ([], BuffersOf(p).(kind := WithoutBlank(line[6..])))
    ensures Kind(NameOf(line[6..])) == Trim(line[6..]) && NameOf(line[6..]) != Some("")
  {
    hide Decode, Trim, Ended, IndexOf, Chomp, WithoutBlank;
    FieldAt(line, "event");
  }

  lemma DataLine(p: Pending, line: string)
    requires "data:" <= line && Chomp(line) == line
    ensures Line(p, line, Same) == ([], p.(lines := p.lines + [TrimLeft(line[5..])]))
    ensures StandardLine(BuffersOf(p), line)
          == ([], BuffersOf(p).(data := Ended(p.lines) + WithoutBlank(line[5..]) + "\n"))
    ensures Ended(p.lines + [TrimLeft(line[5..])]) == Ended(p.lines) + WithoutBlank(line[5..]) + "\n"
       <==> TrimLeft(line[5..]) == WithoutBlank(line[5..])
  {
    hide Decode, TrimLeft, Ended, IndexOf, Chomp, WithoutBlank;
    FieldAt(line, "data");
    ValuesAgree(p.lines, TrimLeft(line[5..]), WithoutBlank(line[5..]));
    assert !("event:" <= line) by { assert line[0] == 'd'; }
  }

  lemma IdLine(p: Pending, line: string)
    requires "id:" <= line && Chomp(line) == line
    ensures Line(p, line, Same) == ([], p)
    ensures var b, value := BuffersOf(p), WithoutBlank(line[3..]);
            StandardLine(b, line) == ([], if '\0' in value then b else b.(lastId := value))
  {
    hide Decode, Ended, IndexOf, Chomp, WithoutBlank;
    FieldAt(line, "id");
    assert !("event:" <= line) && !("data:" <= line) by { assert line[0] == 'i'; }
  }

  lemma RetryLine(p: Pending, line: string)
    requires "retry:" <= line && Chomp(line) == line
    ensures Line(p, line, Same) == ([], p)
    ensures var b, value := BuffersOf(p), WithoutBlank(line[6..]);
            StandardLine(b, line) == ([], if Digits(value) then b.(retry := value) else b)
                  && (Digits(value) ==> value != "")
  {
    hide Decode, Ended, IndexOf, Chomp, WithoutBlank;
    FieldAt(line, "retry");
    assert !("event:" <= line) && !("data:" <= line) by { assert line[0] == 'r'; }
  }

  lemma OtherLine(p: Pending, line: string)
    requires line != "" && Chomp(line) == line && !("event:" <= line) && !("data:" <= line)
    requires !("id:" <= line) && !("retry:" <= line)
    ensures Line(p, line, Same) == ([], p)
    ensures var b := BuffersOf(p);
            StandardLine(b, line) == ([], b) <==> line != "data" && (line == "event" ==> b.kind == "")
  {
    hide Decode, Ended, IndexOf, Chomp, StandardLine;
    OtherField(BuffersOf(p), line);
    var data := Ended(p.lines);
    assert |data + "" + "\n"| == |data| + 1;
  }

  lemma FieldAt(line: string, name: string)
    requires name == "event" || name == "data" || name == "id" || name == "retry"
    requires name + ":" <= line
    ensures IndexOf(line, ':') == |name| && line[..|name|] == name
  {
    assert line[|name|] == (name + ":")[|name|] == ':';
    assert forall i | 0 <= i < |name| :: line[i] == (name + ":")[i] == name[i];
  }

  lemma OtherField(b: Buffers, line: string)
    requires line != "" && b.lastId == ""
    requires !("event:" <= line) && !("data:" <= line) && !("id:" <= line) && !("retry:" <= line)
    ensures StandardLine(b, line) ==
      ([], if line == "event" then b.(kind := "") else if line == "data" then b.(data := b.data + "" + "\n") else b)
  {
    var colon := IndexOf(line, ':');
    if colon >= 0 {
      assert line[..colon] + ":" <= line;
    }
  }

  // ----- Whole streams -----

  function StandardAll(b: Buffers, lines: seq<string>): (seq<Message>, Buffers)
    decreases |lines|
  {
    if lines == [] then ([], b)
    else
      var (now, next) := StandardLine(b, lines[0]);
      var (more, last) := StandardAll(next, lines[1..]);
      (now + more, last)
  }

  ghost predicate AllConform(p: Pending, lines: seq<string>)
    decreases |lines|
  {
    lines == [] || (Conforms(p, lines[0]) && AllConform(Line(p, lines[0], Same).1, lines[1..]))
  }

  lemma {:induction false} MessagesAppend(a: seq<Payload<string>>, b: seq<Payload<string>>)
    ensures MessagesOf(a + b) == MessagesOf(a) + MessagesOf(b)
  {
    hide MessageOf;
    if a == [] {
      assert a + b == b;
    } else {
      MessagesAppend(a[1..], b);
      Regroup([MessageOf(a[0])], MessagesOf(a[1..]), MessagesOf(b));
      assert (a + b)[0] == a[0] && (a + b)[1..] == a[1..] + b;
    }
  }

  ghost predicate Plain(lines: seq<string>) {
    forall k, i | 0 <= k < |lines| && 0 <= i < |lines[k]| :: lines[k][i] != '\r'
  }

  lemma {:induction false} NoReturnsInside(text: string)
    requires Paired(text)
    ensures Plain(CodeLines(text).lines)
    decreases |text|
  {
    hide Chomp, IndexOf;
    var at := IndexOf(text, '\n');
    if at >= 0 {
      forall i | 0 <= i < at - 1 ensures text[i] != '\r' {
        assert text[i + 1] != '\n';
      }
      if at > 0 && text[at - 1] == '\r' {
        assert text[..at] == text[..at - 1] + "\r";
        ChompPlain(text[..at - 1]);
      } else {
        ChompPlain(text[..at]);
      }
      PairedTail(text, at + 1);
      NoReturnsInside(text[at + 1..]);
    }
  }

  lemma {:induction false} ChompTwice(s: string)
    ensures Chomp(Chomp(s)) == Chomp(s)
  {
    if s != "" && s[|s| - 1] == '\r' {
      ChompTwice(s[..|s| - 1]);
    }
  }

  /** The parser takes the lines of a text one by one. */
  lemma ParseTakesLines(p: Pending, text: string)
    requires IndexOf(text, '\n') >= 0
    ensures var at := IndexOf(text, '\n');
            var (now, next) := Line(p, Chomp(text[..at]), Same);
            var more := Parse(next, text[at + 1..], Same);
            && Parse(p, text, Same) == Parsed(now + more.events, more.pending, more.buffer)
            && CodeLines(text).lines == [Chomp(text[..at])] + CodeLines(text[at + 1..]).lines
  {
    hide Decode, Field;
    var at := IndexOf(text, '\n');
    ChompTwice(text[..at]);
  }

  lemma {:induction false} LinesMakeTheMessages(p: Pending, text: string)
    requires p.event != Some("") && Paired(text) && AllConform(p, CodeLines(text).lines)
    ensures var parsed := Parse(p, text, Same);
            (MessagesOf(parsed.events), BuffersOf(parsed.pending)) == StandardAll(BuffersOf(p), CodeLines(text).lines)
    decreases |text|
  {
    hide Line, StandardLine, Conforms, CodeLines, Parse, BuffersOf;
    var at := IndexOf(text, '\n');
    if at < 0 {
      NoLines(p, text);
    } else {
      ParseTakesLines(p, text);
      NoReturnsInside(text);
      var lines := CodeLines(text).lines;
      var first, rest := Chomp(text[..at]), text[at + 1..];
      assert lines[0] == first && lines[1..] == CodeLines(rest).lines;
      LineAgrees(p, first);
      var (now, next) := Line(p, first, Same);
      PairedRest(text, at);
      LinesMakeTheMessages(next, rest);
      MessagesAppend(now, Parse(next, rest, Same).events);
    }
  }

  lemma NoLines(p: Pending, text: string)
    requires IndexOf(text, '\n') < 0
    ensures CodeLines(text).lines == [] && Parse(p, text, Same) == Parsed([], p, text)
  {}

  lemma PairedRest(text: string, at: nat)
    requires Paired(text) && IndexOf(text, '\n') == at
    ensures Paired(text[at + 1..])
  {
    PairedTail(text, at + 1);
  }

  /** Line after line the parser and the standard make the same messages and buffers. */
  ghost predicate StepsAgree(p: Pending, b: Buffers, lines: seq<string>)
    decreases |lines|
  {
    && BuffersOf(p) == b
    && (lines == [] ||
        var ((now, next), (messages, after)) := (Line(p, lines[0], Same), StandardLine(b, lines[0]));
        MessagesOf(now) == messages && StepsAgree(next, after, lines[1..]))
  }

  lemma {:induction false} StepsAgreeWhenAllConform(p: Pending, lines: seq<string>)
    requires p.event != Some("")
    requires Plain(lines)
    ensures StepsAgree(p, BuffersOf(p), lines) <==> AllConform(p, lines)
    decreases |lines|
  {
    hide Line, StandardLine, Conforms, BuffersOf;
    if lines != [] {
      LineAgrees(p, lines[0]);
      var rest := lines[1..];
      forall k, i | 0 <= k < |rest| && 0 <= i < |rest[k]| ensures rest[k][i] != '\r' {
        assert rest[k] == lines[k + 1];
      }
      StepsAgreeWhenAllConform(Line(p, lines[0], Same).1, rest);
    }
  }

  /** The parser and the standard cut a text into the same lines and do the same with each of them
      exactly when every carriage return has its line feed and every line conforms. */
  lemma TextsAgree(text: string)
    ensures CodeLines(text) == StandardLines(text) && StepsAgree(NOTHING, EMPTY, CodeLines(text).lines)
       <==> Paired(text) && AllConform(NOTHING, CodeLines(text).lines)
  {
    hide CodeLines, StandardLines, Paired, StepsAgree, AllConform;
    LinesAgree(text);
    if Paired(text) {
      NoReturnsInside(text);
      StepsAgreeWhenAllConform(NOTHING, CodeLines(text).lines);
      assert BuffersOf(NOTHING) == EMPTY;
    }
  }

  /** On a text whose line ends agree and whose lines conform, the parser makes the messages of
      the standard, and besides them only an event that the end of the stream left unfinished,
      which the standard discards: nothing is added if and only if nothing was pending. */
  lemma StreamsAgree(text: string)
    requires Paired(text) && AllConform(NOTHING, CodeLines(text).lines)
    ensures var standard := StandardAll(EMPTY, StandardLines(text).lines).0;
            var parsed := Parse(NOTHING, text, Same);
            var unfinished := Finish(parsed.pending, parsed.buffer, Same);
            && MessagesOf(ParseAll(text, Same)) == standard + MessagesOf(unfinished)
            && (MessagesOf(ParseAll(text, Same)) == standard <==> unfinished == [])
  {
    hide Parse, Finish, CodeLines, StandardLines, StandardAll;
    LinesAgree(text);
    LinesMakeTheMessages(NOTHING, text);
    var parsed := Parse(NOTHING, text, Same);
    MessagesAppend(parsed.events, Finish(parsed.pending, parsed.buffer, Same));
  }
}
