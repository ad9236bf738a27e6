/** Whole paths: from synthesized speech to the file on the handheld, and from the stick's
    microphone to speech recognition. */
module EndToEnd {
  import opened Accumulator
  import opened Bytes
  import opened Common
  import opened Delivery
  import opened DeliveryInvariant
  import opened DeliveryTheorems
  import opened Handheld
  import Firmware
  import FirmwareTheorems
  import opened SpeechRouting
  import opened Wav
  import opened WavTheorems

  // ----- Speech -----

  /** When a task delivers the chunks of a mono 16-bit file, the samples that the handheld stores
      are the synthesized ones exactly when no header value hides them. The file it saves is the
      synthesized file exactly when moreover that has the rate every begin says. */
  lemma SpeechArrivesWhole(steps: seq<Step>, device: string, t: nat, pcm: bytes, rate: int, chunkSize: nat)
    requires Legal(INITIAL, steps) && chunkSize >= 1 && Fits(|pcm|, rate, 1, 16)
    requires var s := Run(INITIAL, steps);
             && device in s.sides && t in s.sides[device].cache.stored && t < |s.jobs|
             && s.jobs[t].audio == Pieces(ExtractPcm(Layout(pcm, rate, 1, 16)), chunkSize)
    ensures var stored := Run(INITIAL, steps).sides[device].cache.stored[t];
            && (stored.pcm == pcm <==> !HidesData(|pcm|, rate))
            && (FileOf(stored) == File(Layout(pcm, rate, 1, 16)) <==> !HidesData(|pcm|, rate) && rate == 22050)
  {
    hide Layout, ExtractPcm, Run, Legal, Fits;
    StoredIsTheWholeReply(steps, device, t);
    ExtractInvertsWrite(pcm, rate);
    var stored := Run(INITIAL, steps).sides[device].cache.stored[t];
    if FileOf(stored) == File(Layout(pcm, rate, 1, 16)) {
      SameFileSameClip(stored.pcm, SENT_RATE, pcm, rate);
    }
  }

  /** A mono 16-bit file has one rate and one list of samples. */
  lemma SameFileSameClip(a: bytes, rateA: int, b: bytes, rateB: int)
    requires Fits(|a|, rateA, 1, 16) && Fits(|b|, rateB, 1, 16) && Layout(a, rateA, 1, 16) == Layout(b, rateB, 1, 16)
    ensures a == b && rateA == rateB
  {
    hide Layout, U32;
    MonoHeader(a, rateA);
    MonoHeader(b, rateB);
    ReadWhatWasWritten(rateA);
    ReadWhatWasWritten(rateB);
  }

  /** Audio at 16000 samples a second is stored whole, and saved under another rate. */
  lemma OtherRatesAreLost(pcm: bytes)
    requires 36 + |pcm| < 0x100_0000
    ensures Fits(|pcm|, 16000, 1, 16) && Fits(|pcm|, SENT_RATE, 1, 16)
    ensures ExtractPcm(Layout(pcm, 16000, 1, 16)) == pcm
    ensures FileOf(Clip(pcm, SENT_RATE, 1)) != File(Layout(pcm, 16000, 1, 16))
    ensures SampleRateOf(Layout(pcm, SENT_RATE, 1, 16)) == 22050
  {
    hide Layout, ExtractPcm;
    SmallFilesRoundTrip(pcm, 16000);
    SampleRateIsReadBack(pcm, SENT_RATE, 1);
    if Layout(pcm, SENT_RATE, 1, 16) == Layout(pcm, 16000, 1, 16) {
      SameFileSameClip(pcm, SENT_RATE, pcm, 16000);
    }
  }

  // ----- Replies -----

  /** The speech units that the deltas schedule, in order, with their streams. */
  function Units(ds: seq<Delta>, outs: seq<seq<string>>): seq<(Key, string)>
    requires |outs| == |ds|
  {
    if ds == [] then []
    else seq(|outs[0]|, i requires 0 <= i < |outs[0]| => (KeyOf(ds[0]), outs[0][i])) + Units(ds[1..], outs[1..])
  }

  function UnitsOf(units: seq<(Key, string)>, key: Key): seq<string> {
    if units == [] then []
    else UnitsOf(units[..|units| - 1], key) + (if units[|units| - 1].0 == key then [units[|units| - 1].1] else [])
  }

  /** The numbers of the tasks that speak the units of a stream. */
  function TasksOf(units: seq<(Key, string)>, key: Key): seq<nat> {
    if units == [] then []
    else TasksOf(units[..|units| - 1], key) + (if units[|units| - 1].0 == key then [|units| - 1] else [])
  }

  /** One delivery per unit, to the device of its stream; `synthesize` is the speech engine. */
  function JobsFor(units: seq<(Key, string)>, synthesize: string -> seq<bytes>): seq<Job> {
    seq(|units|, i requires 0 <= i < |units| => Job(units[i].0.device, synthesize(units[i].1)))
  }

  lemma {:induction false} UnitsOfAppend(a: seq<(Key, string)>, b: seq<(Key, string)>, key: Key)
    ensures UnitsOf(a + b, key) == UnitsOf(a, key) + UnitsOf(b, key)
    decreases |b|
  {
    if b == [] {
      assert a + b == a;
    } else {
      UnitsOfAppend(a, b[..|b| - 1], key);
      assert (a + b)[..|a + b| - 1] == a + b[..|b| - 1];
    }
  }

  lemma {:induction false} UnitsOfOneDelta(key: Key, units: seq<string>, wanted: Key)
    ensures var tagged := seq(|units|, i requires 0 <= i < |units| => (key, units[i]));
            UnitsOf(tagged, wanted) == if key == wanted then units else []
    decreases |units|
  {
    if units != [] {
      var tagged := seq(|units|, i requires 0 <= i < |units| => (key, units[i]));
      var shorter := units[..|units| - 1];
      UnitsOfOneDelta(key, shorter, wanted);
      assert tagged[..|units| - 1] == seq(|shorter|, i requires 0 <= i < |shorter| => (key, shorter[i]));
      assert shorter + [units[|units| - 1]] == units;
    }
  }

  lemma {:induction false} UnitsAreScheduled(ds: seq<Delta>, outs: seq<seq<string>>, key: Key)
    requires |outs| == |ds|
    ensures UnitsOf(Units(ds, outs), key) == ScheduledFor(ds, outs, key)
  {
    if ds != [] {
      var first := seq(|outs[0]|, i requires 0 <= i < |outs[0]| => (KeyOf(ds[0]), outs[0][i]));
      UnitsOfOneDelta(KeyOf(ds[0]), outs[0], key);
      UnitsOfAppend(first, Units(ds[1..], outs[1..]), key);
      UnitsAreScheduled(ds[1..], outs[1..], key);
    }
  }

  lemma {:induction false} TasksSpeakTheUnits(units: seq<(Key, string)>, key: Key)
    ensures var tasks := TasksOf(units, key);
            && |tasks| == |UnitsOf(units, key)| && Increasing(tasks)
            && (forall k | 0 <= k < |tasks| :: tasks[k] < |units| && units[tasks[k]] == (key, UnitsOf(units, key)[k]))
    decreases |units|
  {
    if units != [] {
      TasksSpeakTheUnits(units[..|units| - 1], key);
    }
  }

  /** The numbers of the tasks that speak a stream, when its units' tasks have these numbers. */
  function TasksAmong(at: seq<nat>, units: seq<(Key, string)>, key: Key): seq<nat>
    requires |at| == |units|
  {
    TasksSpeakTheUnits(units, key);
    var own := TasksOf(units, key);
    seq(|own|, k requires 0 <= k < |own| => at[own[k]])
  }

  /** The tasks of a stream are in order, and each has the job of its unit. */
  lemma TasksHaveTheJobs(at: seq<nat>, units: seq<(Key, string)>, key: Key, synthesize: string -> seq<bytes>,
      jobs: seq<Job>)
    requires |at| == |units| && Increasing(at)
    requires forall u | 0 <= u < |at| && at[u] < |jobs| :: jobs[at[u]] == JobsFor(units, synthesize)[u]
    ensures var tasks, spoken := TasksAmong(at, units, key), UnitsOf(units, key);
            && |tasks| == |spoken| && Increasing(tasks)
            && forall k | 0 <= k < |tasks| && tasks[k] < |jobs| ::
                 jobs[tasks[k]] == Job(key.device, synthesize(spoken[k]))
  {
    hide UnitsOf, TasksOf;
    TasksSpeakTheUnits(units, key);
    var own: seq<nat> := TasksOf(units, key);
    var tasks: seq<nat> := TasksAmong(at, units, key);
    assert forall k | 0 <= k < |tasks| :: tasks[k] == at[own[k]];
    forall j, k | 0 <= j < k < |tasks| ensures tasks[j] < tasks[k] {
      assert own[j] < own[k];
    }
    forall k | 0 <= k < |tasks| && tasks[k] < |jobs|
      ensures jobs[tasks[k]] == Job(key.device, synthesize(UnitsOf(units, key)[k]))
    {
      assert jobs[at[own[k]]] == JobsFor(units, synthesize)[own[k]];
    }
  }

  /** From streamed text to the device: however a reply is mixed with other streams and with whole
      replies, and at every moment of every run that delivers what was scheduled, the tasks of the
      reply are, in order, the spoken units of its text. What the device stored for one is all the
      audio of its unit, and no unit is begun before the ones before it are over. `at` says which
      tasks the units have, in the order of their scheduling; those to come have larger numbers. */
  lemma ReplyIsSpokenInOrder(steps: seq<Step>, ds: seq<Delta>, key: Key, minChars: nat, maxChars: nat,
      synthesize: string -> seq<bytes>, at: seq<nat>)
    requires Legal(INITIAL, steps) && 1 <= maxChars
    requires var own := Only(ds, key);
             own != [] && (forall i | 0 <= i < |own| :: own[i].isFinal <==> i == |own| - 1)
    requires var units, jobs := Units(ds, RunAll(map[], ds, minChars, maxChars).0), Run(INITIAL, steps).jobs;
             && |at| == |units| && Increasing(at)
             && (forall u | 0 <= u < |at| && at[u] < |jobs| :: jobs[at[u]] == JobsFor(units, synthesize)[u])
    ensures var s := Run(INITIAL, steps);
            var spoken := SegmenterTheorems.Spoken(TextsOf(Only(ds, key)), minChars, maxChars);
            var tasks := TasksAmong(at, Units(ds, RunAll(map[], ds, minChars, maxChars).0), key);
            && |tasks| == |spoken| && Increasing(tasks) && |s.phases| == |s.jobs|
            && Text.Ink(Text.Concat(spoken)) == Text.Ink(Text.Concat(TextsOf(Only(ds, key))))
            && (forall k | 0 <= k < |tasks| && tasks[k] < |s.jobs| ::
                  && s.jobs[tasks[k]] == Job(key.device, synthesize(spoken[k]))
                  && (key.device in s.sides && tasks[k] in s.sides[key.device].cache.stored ==>
                        s.sides[key.device].cache.stored[tasks[k]] == Clip(Join(synthesize(spoken[k])), SENT_RATE, 1)))
            && (forall j, k | 0 <= j < k < |tasks| && tasks[k] < |s.jobs| ::
                  key.device in s.sides && tasks[k] in s.sides[key.device].begun ==>
                    && tasks[j] in s.sides[key.device].begun && s.phases[tasks[j]] == Finished)
  {
    hide Legal, Run, RunAll, Only, Units, UnitsOf, TasksAmong, JobsFor, TextsOf, Inv;
    var outs := RunAll(map[], ds, minChars, maxChars).0;
    var units := Units(ds, outs);
    MixedStreamIsSpokenWhole(ds, key, minChars, maxChars);
    UnitsAreScheduled(ds, outs, key);
    PhasesMatch(steps);
    var s := Run(INITIAL, steps);
    TasksHaveTheJobs(at, units, key, synthesize, s.jobs);
    var tasks: seq<nat> := TasksAmong(at, units, key);
    var spoken := UnitsOf(units, key);
    forall k | 0 <= k < |tasks| && tasks[k] < |s.jobs|
          && key.device in s.sides && tasks[k] in s.sides[key.device].cache.stored
      ensures s.sides[key.device].cache.stored[tasks[k]] == Clip(Join(synthesize(spoken[k])), SENT_RATE, 1)
    {
      StoredIsTheWholeReply(steps, key.device, tasks[k]);
    }
    forall j, k | 0 <= j < k < |tasks| && tasks[k] < |s.jobs| && key.device in s.sides
          && tasks[k] in s.sides[key.device].begun
      ensures tasks[j] in s.sides[key.device].begun && s.phases[tasks[j]] == Finished
    {
      SessionsBeginInOrder(steps, tasks[j], tasks[k]);
    }
  }

  lemma PhasesMatch(steps: seq<Step>)
    requires Legal(INITIAL, steps)
    ensures |Run(INITIAL, steps).phases| == |Run(INITIAL, steps).jobs|
  {
    ReachableInv(steps);
  }

  // ----- Recordings -----

  /** A message from a stick as the accumulator takes it; sticks record two channels. */
  function Receive(streams: map<string, map<nat, bytes>>, m: Firmware.Message): map<string, map<nat, bytes>> {
    if m.AudioChunk? && m.stream.Some? then Buffered(streams, m.stream.value, m.number, m.data, 2) else streams
  }

  function Received(
    streams: map<string, map<nat, bytes>>, messages: seq<Firmware.Message>): map<string, map<nat, bytes>>
    decreases |messages|
  {
    if messages == [] then streams else Received(Receive(streams, messages[0]), messages[1..])
  }

  predicate IsChunkOf(m: Firmware.Message, id: string) {
    m.AudioChunk? && m.stream == Some(id)
  }

  function ChunksOf(messages: seq<Firmware.Message>, id: string): seq<Firmware.Message> {
    if messages == [] then []
    else (if IsChunkOf(messages[0], id) then [messages[0]] else []) + ChunksOf(messages[1..], id)
  }

  /** The streams hold the same about this id. */
  predicate SameStream(a: map<string, map<nat, bytes>>, b: map<string, map<nat, bytes>>, id: string) {
    (id in a <==> id in b) && (id in a ==> a[id] == b[id])
  }

  /** Recordings with different ids stay apart: what is held about one only depends on its own
      chunks, however they are mixed with those of others. */
  lemma {:induction false} RecordingsStayApart(
    a: map<string, map<nat, bytes>>, b: map<string, map<nat, bytes>>, messages: seq<Firmware.Message>, id: string)
    requires SameStream(a, b, id)
    ensures SameStream(Received(a, messages), Received(b, ChunksOf(messages, id)), id)
    decreases |messages|
  {
    hide Mono;
    if messages != [] {
      var m, rest := messages[0], messages[1..];
      if IsChunkOf(m, id) {
        RecordingsStayApart(Receive(a, m), Receive(b, m), rest, id);
        assert ([m] + ChunksOf(rest, id))[1..] == ChunksOf(rest, id);
      } else {
        RecordingsStayApart(Receive(a, m), b, rest, id);
        assert [] + ChunksOf(rest, id) == ChunksOf(rest, id);
      }
    }
  }

  /** Two recordings with the same id do not: a chunk takes the place of the other's. */
  lemma SameIdIsShared(id: string, first: bytes, second: bytes)
    requires id != "" && first != [] && second != []
    ensures var a, b := Firmware.AudioChunk(Some(id), 0, first), Firmware.AudioChunk(Some(id), 0, second);
            Received(map[], [a, b]) == map[id := map[0 := Mono(second, 2)]]
  {
    hide Mono;
    var a, b := Firmware.AudioChunk(Some(id), 0, first), Firmware.AudioChunk(Some(id), 0, second);
    assert [a, b][1..] == [b] && [b][1..] == [];
    var one: map<nat, bytes> := map[0 := Mono(first, 2)];
    assert one[0 := Mono(second, 2)] == map[0 := Mono(second, 2)];
    assert Receive(map[], a) == map[id := one];
    assert Receive(map[id := one], b) == map[id := one[0 := Mono(second, 2)]];
    assert Received(map[], [a, b]) == Received(map[id := one], [b]) == Receive(map[id := one], b);
  }

  function NumberOf(m: Firmware.Message): nat {
    if m.AudioChunk? then m.number else 0
  }

  function NumbersOf(chunks: seq<Firmware.Message>): seq<nat> {
    seq(|chunks|, i requires 0 <= i < |chunks| => NumberOf(chunks[i]))
  }

  lemma {:induction false} ChunksArrive(
    streams: map<string, map<nat, bytes>>, chunks: seq<Firmware.Message>, id: string, parts: seq<bytes>)
    requires id != "" && forall k | 0 <= k < |parts| :: parts[k] != []
    requires forall m | m in chunks :: IsChunkOf(m, id) && m.number < |parts| && m.data == parts[m.number]
    ensures var known: map<nat, bytes> := if id in streams then streams[id] else map[];
            var after, arrivals := Received(streams, chunks), NumbersOf(chunks);
            && (forall i | 0 <= i < |arrivals| :: chunks[i] in chunks && arrivals[i] < |parts|)
            && (if chunks == [] then after == streams
                else id in after && after[id] == Arrived(known, parts, arrivals, 2))
    decreases |chunks|
  {
    hide Mono;
    if chunks != [] {
      assert chunks[0] in chunks;
      ChunksArrive(Receive(streams, chunks[0]), chunks[1..], id, parts);
      assert NumbersOf(chunks)[1..] == NumbersOf(chunks[1..]);
    }
  }

  lemma {:induction false} ChunksOfAre(messages: seq<Firmware.Message>, id: string)
    ensures forall m :: m in ChunksOf(messages, id) <==> m in messages && IsChunkOf(m, id)
  {
    if messages != [] {
      ChunksOfAre(messages[1..], id);
      assert messages == [messages[0]] + messages[1..];
    }
  }

  lemma {:induction false} ChunksAreAudio(wire: seq<Firmware.Message>)
    ensures forall m: Firmware.Message :: m.AudioChunk? ==> (m in wire <==> m in FirmwareTheorems.Audio(wire))
  {
    if wire != [] {
      ChunksAreAudio(wire[..|wire| - 1]);
      assert wire == wire[..|wire| - 1] + [wire[|wire| - 1]];
    }
  }

  /** The k-th chunk message carries the number k and the k-th part. */
  lemma {:induction false} NumberedAt(stream: Option<string>, parts: seq<bytes>, k: nat)
    requires k < |parts|
    ensures |FirmwareTheorems.Numbered(stream, 0, parts)| == |parts|
    ensures FirmwareTheorems.Numbered(stream, 0, parts)[k] == Firmware.AudioChunk(stream, k, parts[k])
    decreases |parts|
  {
    FirmwareTheorems.NumberedLength(stream, 0, parts[..|parts| - 1]);
    if k < |parts| - 1 {
      NumberedAt(stream, parts[..|parts| - 1], k);
    }
  }

  /** The chunk messages of an upload. */
  lemma UploadedChunks(id: string, parts: seq<bytes>)
    ensures forall m :: m in FirmwareTheorems.Upload(id, parts) && m.AudioChunk? <==>
              IsChunkOf(m, id) && m.number < |parts| && m.data == parts[m.number]
  {
    var numbered := FirmwareTheorems.Numbered(Some(id), 0, parts);
    FirmwareTheorems.NumberedLength(Some(id), 0, parts);
    forall k: nat | k < |parts| ensures numbered[k] == Firmware.AudioChunk(Some(id), k, parts[k]) {
      NumberedAt(Some(id), parts, k);
    }
    forall m: Firmware.Message | m.AudioChunk?
      ensures m in FirmwareTheorems.Upload(id, parts)
            <==> IsChunkOf(m, id) && m.number < |parts| && m.data == parts[m.number]
    {
      assert m in FirmwareTheorems.Upload(id, parts) <==> m in numbered;
      if IsChunkOf(m, id) && m.number < |parts| && m.data == parts[m.number] {
        assert numbered[m.number] == m;
      }
    }
  }

  /** Every chunk has bytes, and all but the last hold whole frames. */
  predicate WholeFrames(parts: seq<bytes>) {
    forall k | 0 <= k < |parts| :: parts[k] != [] && (k < |parts| - 1 ==> |parts[k]| % 4 == 0)
  }

  /** What the stick has sent after a press, a hold and its end. */
  function WireAfter(
    s: Firmware.Stick, press: Firmware.Happening, waiting: seq<Firmware.Happening>, begin: Firmware.Happening,
    hs: seq<Firmware.Happening>, end: Firmware.Happening): seq<Firmware.Message>
  {
    var held := FirmwareTheorems.HappenAll(Firmware.Happen(s, press), waiting);
    Firmware.Happen(FirmwareTheorems.HappenAll(Firmware.Happen(held, begin), hs), end).wire
  }

  /** Chunk messages of an upload, in any order and with repeats, and mixed with any others,
      make a complete stream of the first channel of the uploaded chunks. */
  lemma UploadReassembles(
    streams: map<string, map<nat, bytes>>, messages: seq<Firmware.Message>, id: string, parts: seq<bytes>)
    requires id != "" && id !in streams && parts != [] && WholeFrames(parts)
    requires forall m | m in messages && IsChunkOf(m, id) :: m in FirmwareTheorems.Upload(id, parts)
    requires forall m | m in FirmwareTheorems.Upload(id, parts) && m.AudioChunk? :: m in messages
    ensures var after := Received(streams, messages);
            id in after && Complete(after[id]) && Below(after[id], |parts|) == Mono(Join(parts), 2)
  {
    hide Mono, Complete, Join, Received, FirmwareTheorems.Upload;
    var own := ChunksOf(messages, id);
    RecordingsStayApart(streams, streams, messages, id);
    ChunksOfAre(messages, id);
    UploadedChunks(id, parts);
    forall k: nat | k < |parts| ensures k in NumbersOf(own) {
      var m := Firmware.AudioChunk(Some(id), k, parts[k]);
      assert m in own;
      var i :| 0 <= i < |own| && own[i] == m;
      assert NumbersOf(own)[i] == k;
    }
    ChunksArrive(streams, own, id, parts);
    AnyOrderReassembles(parts, NumbersOf(own), 2);
    assert 0 in NumbersOf(own);
  }

  /** A press, a hold and a release with the gateway connected, from any READY state: what was
      collected and captured live is uploaded, and in whatever order its chunk messages arrive,
      with repeats and among those of other recordings, the accumulator has a complete stream
      whose audio is the first channel of it. It is all that was said since the press if and only
      if what was collected is what was said before the hold; from a fresh stick it always is. */
  lemma SpeechReachesRecognition(
    s: Firmware.Stick, press: Firmware.Happening, waiting: seq<Firmware.Happening>, begin: Firmware.Happening,
    hs: seq<Firmware.Happening>, end: Firmware.Happening,
    streams: map<string, map<nat, bytes>>, messages: seq<Firmware.Message>)
    requires s.device.mode == Firmware.Ready && press.Press? && (s.micOn || press.micWorks)
    requires forall i | 0 <= i < |waiting| :: FirmwareTheorems.BeforeHold(waiting[i])
    requires begin.BeginHold? && begin.online && end.EndHold? && end.online
    requires forall i | 0 <= i < |hs| :: FirmwareTheorems.DuringHold(hs[i])
    requires begin.freshId != "" && begin.freshId !in streams && forall m | m in s.wire :: !IsChunkOf(m, begin.freshId)
    requires var wire := WireAfter(s, press, waiting, begin, hs, end);
             && (forall m | m in messages && IsChunkOf(m, begin.freshId) :: m in wire)
             && (forall m | m in wire && IsChunkOf(m, begin.freshId) :: m in messages)
    requires var live := FirmwareTheorems.Live(hs) + FirmwareTheorems.Final(end);
             var sent := FirmwareTheorems.Collected(s, waiting) + live;
             sent != [] && WholeFrames(sent)
    ensures var live := FirmwareTheorems.Live(hs) + FirmwareTheorems.Final(end);
            var sent, spoken := FirmwareTheorems.Collected(s, waiting) + live,
                  FirmwareTheorems.Captured(waiting) + live;
            var after := Received(streams, messages);
            && FirmwareTheorems.Audio(WireAfter(s, press, waiting, begin, hs, end))
               == FirmwareTheorems.Audio(s.wire) + FirmwareTheorems.Upload(begin.freshId, sent)
            && begin.freshId in after
            && Complete(after[begin.freshId])
            && Below(after[begin.freshId], |sent|) == Mono(Join(sent), 2)
            && (FirmwareTheorems.Fresh(s) ==> Below(after[begin.freshId], |spoken|) == Mono(Join(spoken), 2))
            && (sent == spoken <==> FirmwareTheorems.Collected(s, waiting) == FirmwareTheorems.Captured(waiting))
  {
    hide Mono, Complete, Join, Received, FirmwareTheorems.Upload, FirmwareTheorems.Audio;
    var id, wire := begin.freshId, WireAfter(s, press, waiting, begin, hs, end);
    var live := FirmwareTheorems.Live(hs) + FirmwareTheorems.Final(end);
    var collected, captured := FirmwareTheorems.Collected(s, waiting), FirmwareTheorems.Captured(waiting);
    FirmwareTheorems.NothingSpokenIsLost(s, press, waiting, begin, hs, end);
    ChunksAreAudio(wire);
    ChunksAreAudio(s.wire);
    UploadedChunks(id, collected + live);
    UploadReassembles(streams, messages, id, collected + live);
    FirmwareTheorems.ExactlyFreshSticksListen(s);
    if collected + live == captured + live {
      assert collected == (collected + live)[..|collected + live| - |live|];
      assert captured == (captured + live)[..|captured + live| - |live|];
    }
  }
}
