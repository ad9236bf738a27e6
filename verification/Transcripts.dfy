/** The dashboard's transcript list, and merging what a poll reports into it. */
module Transcripts {
  import opened Common

  datatype Entry = Entry(
    timestamp: string,
    device: string,
    transcript: string,
    response: string,
    stream: string,
    conversation: string)

  /** A polled item; a missing field is the empty string. */
  datatype Item = Item(
    device: string,
    cleaned: string,
    text: string,
    transcript: string,
    response: string,
    responseText: string,
    stream: string,
    conversation: string,
    correlation: string)

  datatype Event =
    | TranscriptEvent(device: string, transcript: string, stream: string, conversation: string)
    | ResponseEvent(entry: Entry)

  function Or(a: string, b: string): string {
    if a != "" then a else b
  }

  function TranscriptOf(i: Item): string {
    Or(i.cleaned, Or(i.text, i.transcript))
  }

  function ResponseOf(i: Item): string {
    Or(i.response, i.responseText)
  }

  function ConversationOf(i: Item): string {
    Or(i.conversation, Or(i.correlation, i.stream))
  }

  // ----- Looking up and recording -----

  predicate Matches(e: Entry, device: string, conversation: string, stream: string) {
    e.device == device
    && ((conversation != "" && e.conversation == conversation) || (stream != "" && e.stream == stream))
  }

  /** The last matching entry, or -1. */
  function Find(entries: seq<Entry>, device: string, conversation: string, stream: string): (r: int)
    ensures -1 <= r < |entries|
    ensures r >= 0 ==> Matches(entries[r], device, conversation, stream)
    ensures forall k | r < k < |entries| :: !Matches(entries[k], device, conversation, stream)
  {
    if entries == [] then -1
    else if Matches(entries[|entries| - 1], device, conversation, stream) then |entries| - 1
    else Find(entries[..|entries| - 1], device, conversation, stream)
  }

  /** At most `max` entries are kept, the newest ones. */
  function Trim(entries: seq<Entry>, max: int): seq<Entry> {
    if |entries| <= max then entries
    else if max <= 0 then []
    else entries[|entries| - max..]
  }

  function NewEntry(device: string, transcript: string, stream: string, conversation: string, now: string): Entry {
    Entry(now, device, transcript, "", stream, Or(conversation, Or(stream, device + ":" + now)))
  }

  function Record(entries: seq<Entry>, max: int, device: string, transcript: string, stream: string,
      conversation: string, now: string): (seq<Entry>, seq<Event>) {
    if transcript == "" then (entries, [])
    else
      var e := NewEntry(device, transcript, stream, conversation, now);
      (Trim(entries + [e], max), [TranscriptEvent(device, transcript, e.stream, e.conversation)])
  }

  /** The response goes to the last entry of the conversation; without one it is only announced. */
  function Respond(entries: seq<Entry>, i: Item, now: string): (seq<Entry>, seq<Event>) {
    var at := Find(entries, i.device, ConversationOf(i), "");
    if at >= 0 then
      var e := entries[at].(response := ResponseOf(i));
      (entries[at := e], [ResponseEvent(e)])
    else
      (entries, [ResponseEvent(Entry(now, i.device, i.transcript, ResponseOf(i), i.stream,
                                     Or(ConversationOf(i), i.device + ":" + now)))])
  }

  function Merge(entries: seq<Entry>, max: int, i: Item, now: string): (seq<Entry>, seq<Event>) {
    if i.device == "" then (entries, [])
    else
      var at := Find(entries, i.device, ConversationOf(i), i.stream);
      var (recorded, first) :=
        if at >= 0 then (entries, [])
        else Record(entries, max, i.device, TranscriptOf(i), i.stream, ConversationOf(i), now);
      var at' := if at >= 0 || first == [] then at else Find(recorded, i.device, ConversationOf(i), i.stream);
      if at' >= 0 && ResponseOf(i) != "" && recorded[at'].response != ResponseOf(i) then
        var (done, second) := Respond(recorded, i, now);
        (done, first + second)
      else (recorded, first)
  }

  function MergeAll(entries: seq<Entry>, max: int, items: seq<Item>, now: string): (seq<Entry>, seq<Event>)
    decreases |items|
  {
    if items == [] then (entries, [])
    else
      var (next, first) := Merge(entries, max, items[0], now);
      var (last, more) := MergeAll(next, max, items[1..], now);
      (last, first + more)
  }

  class TranscriptLog {
    const maxTranscripts: int
    var transcripts: seq<Entry>

    constructor (maxTranscripts: int)
      ensures transcripts == [] && this.maxTranscripts == maxTranscripts
    {
      this.maxTranscripts, this.transcripts := maxTranscripts, [];
    }

    /** Scans from the newest entry back. */
    method FindEntry(device: string, conversation: string, stream: string) returns (at: int)
      ensures at == Find(transcripts, device, conversation, stream)
    {
      at := |transcripts| - 1;
      assert transcripts[..|transcripts|] == transcripts;
      while at >= 0
        invariant -1 <= at < |transcripts|
        invariant Find(transcripts[..at + 1], device, conversation, stream)
              == Find(transcripts, device, conversation, stream)
      {
        var e := transcripts[at];
        assert transcripts[..at + 1][..at] == transcripts[..at];
        if e.device == device {
          if conversation != "" && e.conversation == conversation {
            return;
          }
          if stream != "" && e.stream == stream {
            return;
          }
        }
        at := at - 1;
      }
    }

    method RecordTranscript(device: string, transcript: string, stream: string, conversation: string, now: string)
        returns (events: seq<Event>)
      modifies this
      ensures (transcripts, events)
            == Record(old(transcripts), maxTranscripts, device, transcript, stream, conversation, now)
    {
      if transcript == "" {
        return [];
      }
      var entry := NewEntry(device, transcript, stream, conversation, now);
      transcripts := transcripts + [entry];
      var overflow := |transcripts| - maxTranscripts;
      if overflow > 0 {
        transcripts := if overflow >= |transcripts| then [] else transcripts[overflow..];
      }
      events := [TranscriptEvent(device, transcript, entry.stream, entry.conversation)];
    }

    method RecordAgentResponse(i: Item, now: string) returns (events: seq<Event>)
      modifies this
      ensures (transcripts, events) == Respond(old(transcripts), i, now)
    {
      var at := FindEntry(i.device, ConversationOf(i), "");
      if at >= 0 {
        var entry := transcripts[at].(response := ResponseOf(i));
        transcripts := transcripts[at := entry];
        return [ResponseEvent(entry)];
      }
      events := [ResponseEvent(Entry(now, i.device, i.transcript, ResponseOf(i), i.stream,
                                     Or(ConversationOf(i), i.device + ":" + now)))];
    }

    method ApplyPolledTranscripts(items: seq<Item>, now: string) returns (events: seq<Event>)
      modifies this
      ensures (transcripts, events) == MergeAll(old(transcripts), maxTranscripts, items, now)
    {
      hide Merge;
      events := [];
      var k := 0;
      assert items[0..] == items;
      assert [] + MergeAll(transcripts, maxTranscripts, items, now).1
            == MergeAll(transcripts, maxTranscripts, items, now).1;
      while k < |items|
        invariant 0 <= k <= |items|
        invariant var (last, more) := MergeAll(transcripts, maxTranscripts, items[k..], now);
                  MergeAll(old(transcripts), maxTranscripts, items, now) == (last, events + more)
      {
        assert items[k..][0] == items[k] && items[k..][1..] == items[k + 1..];
        var some := MergeOne(items[k], now);
        Regroup(events, some, MergeAll(transcripts, maxTranscripts, items[k + 1..], now).1);
        events := events + some;
        k := k + 1;
      }
      assert events + [] == events;
    }

    method MergeOne(i: Item, now: string) returns (events: seq<Event>)
      modifies this
      ensures (transcripts, events) == Merge(old(transcripts), maxTranscripts, i, now)
    {
      hide Find, Record, Respond;
      events := [];
      if i.device == "" {
        return;
      }
      var at := FindEntry(i.device, ConversationOf(i), i.stream);
      if at < 0 {
        events := RecordTranscript(i.device, TranscriptOf(i), i.stream, ConversationOf(i), now);
        if events != [] {
          at := FindEntry(i.device, ConversationOf(i), i.stream);
        }
      }
      if at >= 0 && ResponseOf(i) != "" {
        if transcripts[at].response != ResponseOf(i) {
          var more := RecordAgentResponse(i, now);
          events := events + more;
        }
      }
    }
  }
}
