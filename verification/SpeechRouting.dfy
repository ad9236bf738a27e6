/** One segmenter per (device, stream): how text deltas become scheduled speech. */
module SpeechRouting {
  import opened Common
  import opened Text
  import opened Segmenter
  import opened SegmenterTheorems

  datatype Key = Key(device: string, stream: string)

  /** An `agent_response_delta` payload; a missing field is the empty string. */
  datatype Delta = Delta(device: string, streamId: string, correlationId: string, text: string, isFinal: bool)

  function KeyOf(d: Delta): Key {
    Key(d.device,
        if d.streamId != "" then d.streamId
        else if d.correlationId != "" then d.correlationId
        else "default")
  }

  /** What one delta schedules on a stream whose buffer is known, and the buffer it leaves;
      a finished stream leaves none. */
  ghost function Advance(buffer: string, text: string, isFinal: bool, minChars: nat,
      maxChars: nat): (r: (seq<string>, string))
    requires 1 <= maxChars
  {
    var cut := PushText(buffer, text, minChars, maxChars);
    if !isFinal then (cut.segments, cut.rest)
    else (cut.segments + (if Trim(cut.rest) == "" then [] else [Trim(cut.rest)]), "")
  }

  ghost function BufferOf(buffers: map<Key, string>, key: Key): string {
    if key in buffers then buffers[key] else ""
  }

  class SpeechRouter {
    const minChars: nat
    const maxChars: nat
    var streams: map<Key, ResponseTextSegmenter>

    ghost predicate Valid()
      reads this, streams.Values
    {
      && 1 <= maxChars
      && (forall k | k in streams ::
            && streams[k].Valid()
            && streams[k].minChars == minChars
            && streams[k].maxBufferChars == maxChars)
      && (forall j, k | j in streams && k in streams && j != k :: streams[j] != streams[k])
    }

    ghost function Buffers(): map<Key, string>
      reads this, streams.Values
    {
      map k | k in streams :: streams[k].buffer
    }

    constructor (minChars: nat, maxChars: nat)
      requires 1 <= maxChars
      ensures Valid() && Buffers() == map[]
      ensures this.minChars == minChars && this.maxChars == maxChars
    {
      this.minChars, this.maxChars, this.streams := minChars, maxChars, map[];
    }

    /** Returns the segments it schedules, in order. */
    method HandleStreamDelta(d: Delta) returns (segments: seq<string>)
      requires Valid()
      modifies this`streams, streams.Values
      ensures Valid()
      ensures var key := KeyOf(d);
              var out := Advance(BufferOf(old(Buffers()), key), d.text, d.isFinal, minChars, maxChars);
              && segments == out.0
              && Buffers() == if d.isFinal then old(Buffers()) - {key} else old(Buffers())[key := out.1]
    {
      hide Settled, PushText, Trim, IsSpace, Valid;
      var key := KeyOf(d);
      var state := StateOf(key);
      segments := PushTo(key, state, d.text);
      if d.isFinal {
        var last := Finish(key, state);
        if last != "" {
          segments := segments + [last];
        }
      }
    }

    /** The last words of a stream; the stream is forgotten. */
    method Finish(key: Key, state: ResponseTextSegmenter) returns (last: string)
      requires Valid() && key in streams && streams[key] == state
      modifies this`streams, state`buffer
      ensures Valid()
      ensures last == Trim(old(state.buffer))
      ensures Buffers() == old(Buffers()) - {key}
    {
      hide Settled, Trim;
      last := state.Flush();
      streams := streams - {key};
    }

    /** Pushing to one stream leaves the others as they are. */
    method PushTo(key: Key, state: ResponseTextSegmenter, text: string) returns (segments: seq<string>)
      requires Valid() && key in streams && streams[key] == state
      modifies state`buffer
      ensures Valid()
      ensures Cut(segments, state.buffer) == PushText(old(state.buffer), text, minChars, maxChars)
      ensures Buffers() == old(Buffers())[key := state.buffer]
    {
      hide Settled, PushText, IsSpace;
      segments := state.Push(text);
      assert forall k | k in streams && k != key :: streams[k].buffer == old(streams[k].buffer);
    }

    /** The segmenter of a stream, a new one when the stream is not known. */
    method StateOf(key: Key) returns (state: ResponseTextSegmenter)
      requires Valid()
      modifies this`streams
      ensures Valid()
      ensures key in streams && streams[key] == state
      ensures state.buffer == BufferOf(old(Buffers()), key)
      ensures Buffers() == old(Buffers())[key := state.buffer]
      ensures state in old(streams.Values) || fresh(state)
    {
      hide Settled;
      if key in streams {
        state := streams[key];
      } else {
        state := new ResponseTextSegmenter(minChars, maxChars);
        streams := streams[key := state];
      }
    }
  }

  // ----- Interleaved streams -----

  /** What a run of deltas schedules, delta by delta, and the buffers it leaves. */
  ghost function RunAll(buffers: map<Key, string>, ds: seq<Delta>, minChars: nat,
      maxChars: nat): (r: (seq<seq<string>>, map<Key, string>))
    requires 1 <= maxChars
    ensures |r.0| == |ds|
    decreases |ds|
  {
    if ds == [] then ([], buffers)
    else
      var key := KeyOf(ds[0]);
      var out := Advance(BufferOf(buffers, key), ds[0].text, ds[0].isFinal, minChars, maxChars);
      var next := if ds[0].isFinal then buffers - {key} else buffers[key := out.1];
      var more := RunAll(next, ds[1..], minChars, maxChars);
      ([out.0] + more.0, more.1)
  }

  /** The deltas of one stream, in order. */
  function Only(ds: seq<Delta>, key: Key): seq<Delta> {
    if ds == [] then []
    else (if KeyOf(ds[0]) == key then [ds[0]] else []) + Only(ds[1..], key)
  }

  /** What the run scheduled for one stream, in order. */
  function ScheduledFor(ds: seq<Delta>, outs: seq<seq<string>>, key: Key): seq<string>
    requires |outs| == |ds|
  {
    if ds == [] then []
    else (if KeyOf(ds[0]) == key then outs[0] else []) + ScheduledFor(ds[1..], outs[1..], key)
  }

  /** Streams do not disturb each other: each gets the segments it would get alone. */
  lemma {:induction false} StreamsAreIndependent(
    buffers: map<Key, string>, alone: map<Key, string>, ds: seq<Delta>, key: Key, minChars: nat, maxChars: nat)
    requires 1 <= maxChars && BufferOf(buffers, key) == BufferOf(alone, key)
    ensures ScheduledFor(ds, RunAll(buffers, ds, minChars, maxChars).0, key)
         == ScheduledFor(Only(ds, key), RunAll(alone, Only(ds, key), minChars, maxChars).0, key)
    ensures BufferOf(RunAll(buffers, ds, minChars, maxChars).1, key)
         == BufferOf(RunAll(alone, Only(ds, key), minChars, maxChars).1, key)
    decreases |ds|
  {
    hide Advance;
    if ds != [] {
      var k := KeyOf(ds[0]);
      var out := Advance(BufferOf(buffers, k), ds[0].text, ds[0].isFinal, minChars, maxChars);
      var next := if ds[0].isFinal then buffers - {k} else buffers[k := out.1];
      if k == key {
        var nextAlone := if ds[0].isFinal then alone - {k} else alone[k := out.1];
        StreamsAreIndependent(next, nextAlone, ds[1..], key, minChars, maxChars);
        assert Only(ds, key) == [ds[0]] + Only(ds[1..], key);
        assert Only(ds, key)[1..] == Only(ds[1..], key);
      } else {
        StreamsAreIndependent(next, alone, ds[1..], key, minChars, maxChars);
        assert Only(ds, key) == Only(ds[1..], key);
      }
    }
  }

  function TextsOf(ds: seq<Delta>): seq<string> {
    seq(|ds|, i requires 0 <= i < |ds| => ds[i].text)
  }

  /** A stream of deltas on one key of which only the last is final schedules exactly the
      spoken units of its text. */
  lemma {:induction false} OneStream(ds: seq<Delta>, done: nat, buffers: map<Key, string>, key: Key, minChars: nat,
      maxChars: nat)
    requires 1 <= maxChars && done < |ds|
    requires forall i | 0 <= i < |ds| :: KeyOf(ds[i]) == key && (ds[i].isFinal <==> i == |ds| - 1)
    requires BufferOf(buffers, key) == PushAll(TextsOf(ds)[..done], minChars, maxChars).rest
    ensures PushAll(TextsOf(ds)[..done], minChars, maxChars).segments
            + ScheduledFor(ds[done..], RunAll(buffers, ds[done..], minChars, maxChars).0, key)
         == Spoken(TextsOf(ds), minChars, maxChars)
    decreases |ds| - done
  {
    hide PushText, Trim, PushAll, RunAll, ScheduledFor;
    var texts := TextsOf(ds);
    var d := ds[done];
    var before := PushAll(texts[..done], minChars, maxChars);
    var cut := PushText(before.rest, d.text, minChars, maxChars);
    var out := Advance(before.rest, d.text, d.isFinal, minChars, maxChars);
    PushAllNext(texts, done, minChars, maxChars);
    var rest := ds[done..];
    assert rest[0] == d && rest[1..] == ds[done + 1..];
    OneDelta(buffers, rest, key, minChars, maxChars);
    var next := if d.isFinal then buffers - {key} else buffers[key := out.1];
    if d.isFinal {
      assert texts[..done + 1] == texts && ds[done + 1..] == [];
      NoDeltas(next, key, minChars, maxChars);
    } else {
      OneStream(ds, done + 1, next, key, minChars, maxChars);
      var more := RunAll(next, rest[1..], minChars, maxChars).0;
      Regroup(before.segments, cut.segments, ScheduledFor(rest[1..], more, key));
    }
  }

  lemma OneDelta(buffers: map<Key, string>, ds: seq<Delta>, key: Key, minChars: nat, maxChars: nat)
    requires 1 <= maxChars && ds != [] && KeyOf(ds[0]) == key
    ensures var out := Advance(BufferOf(buffers, key), ds[0].text, ds[0].isFinal, minChars, maxChars);
            var next := if ds[0].isFinal then buffers - {key} else buffers[key := out.1];
            ScheduledFor(ds, RunAll(buffers, ds, minChars, maxChars).0, key)
            == out.0 + ScheduledFor(ds[1..], RunAll(next, ds[1..], minChars, maxChars).0, key)
  {
    hide Advance;
    var out := Advance(BufferOf(buffers, key), ds[0].text, ds[0].isFinal, minChars, maxChars);
    var next := if ds[0].isFinal then buffers - {key} else buffers[key := out.1];
    var more := RunAll(next, ds[1..], minChars, maxChars).0;
    assert RunAll(buffers, ds, minChars, maxChars).0 == [out.0] + more;
    assert ([out.0] + more)[1..] == more;
  }

  lemma NoDeltas(buffers: map<Key, string>, key: Key, minChars: nat, maxChars: nat)
    requires 1 <= maxChars
    ensures ScheduledFor([], RunAll(buffers, [], minChars, maxChars).0, key) == []
  {}

  lemma PushAllNext(texts: seq<string>, done: nat, minChars: nat, maxChars: nat)
    requires 1 <= maxChars && done < |texts|
    ensures var before := PushAll(texts[..done], minChars, maxChars);
            var cut := PushText(before.rest, texts[done], minChars, maxChars);
            PushAll(texts[..done + 1], minChars, maxChars) == Cut(before.segments + cut.segments, cut.rest)
  {
    assert texts[..done + 1][..done] == texts[..done] && texts[..done + 1][done] == texts[done];
  }

  /** However the deltas of a reply are mixed with other streams, when only its last delta is
      final the units scheduled for it are the spoken units of its text. */
  lemma MixedStreamIsSpokenWhole(ds: seq<Delta>, key: Key, minChars: nat, maxChars: nat)
    requires 1 <= maxChars
    requires var own := Only(ds, key);
             own != [] && (forall i | 0 <= i < |own| :: own[i].isFinal <==> i == |own| - 1)
    ensures var units := ScheduledFor(ds, RunAll(map[], ds, minChars, maxChars).0, key);
            && units == Spoken(TextsOf(Only(ds, key)), minChars, maxChars)
            && Ink(Concat(units)) == Ink(Concat(TextsOf(Only(ds, key))))
  {
    var own := Only(ds, key);
    OnlyIsOwn(ds, key);
    StreamsAreIndependent(map[], map[], ds, key, minChars, maxChars);
    assert TextsOf(own)[..0] == [] && own[0..] == own;
    OneStream(own, 0, map[], key, minChars, maxChars);
    SpokenIsTheText(TextsOf(own), minChars, maxChars);
  }

  lemma {:induction false} OnlyIsOwn(ds: seq<Delta>, key: Key)
    ensures forall i | 0 <= i < |Only(ds, key)| :: KeyOf(Only(ds, key)[i]) == key
  {
    if ds != [] {
      OnlyIsOwn(ds[1..], key);
    }
  }

  // ----- What tells streams apart -----

  /** The deltas of one device with one stream id, in order. */
  function WithId(ds: seq<Delta>, device: string, id: string): seq<Delta> {
    if ds == [] then []
    else (if ds[0].device == device && ds[0].streamId == id then [ds[0]] else []) + WithId(ds[1..], device, id)
  }

  /** When every delta has a stream id, that id and the device tell the streams apart, whatever
      the correlation ids are. */
  lemma {:induction false} IdsTellApart(ds: seq<Delta>, device: string, id: string)
    requires forall i | 0 <= i < |ds| :: ds[i].streamId != ""
    ensures Only(ds, Key(device, id)) == WithId(ds, device, id)
  {
    if ds != [] {
      IdsTellApart(ds[1..], device, id);
    }
  }

  /** Without stream ids the correlation ids do, and without either a device has one stream. */
  lemma OtherwiseCorrelation(d: Delta, e: Delta)
    requires d.streamId == "" && e.streamId == ""
    ensures d.correlationId != "" && e.correlationId != "" ==>
              (KeyOf(d) == KeyOf(e) <==> d.device == e.device && d.correlationId == e.correlationId)
    ensures d.correlationId == "" && e.correlationId == "" ==> (KeyOf(d) == KeyOf(e) <==> d.device == e.device)
  {}
}
