/** What reaches the gateway between a press and the end of the hold. */
module FirmwareTheorems {
  import opened Bytes
  import opened Common
  import opened Firmware

  function HappenAll(s: Stick, hs: seq<Happening>): Stick
    decreases |hs|
  {
    if hs == [] then s else HappenAll(Happen(s, hs[0]), hs[1..])
  }

  /** The messages about recordings, without the button events in between. */
  function Audio(wire: seq<Message>): seq<Message> {
    if wire == [] then []
    else
      var last := wire[|wire| - 1];
      Audio(wire[..|wire| - 1]) + (if last.ButtonPressed? || last.ButtonReleased? then [] else [last])
  }

  lemma AudioSnoc(wire: seq<Message>, m: Message)
    ensures Audio(wire + [m]) == Audio(wire) + (if m.ButtonPressed? || m.ButtonReleased? then [] else [m])
  {
    assert (wire + [m])[..|wire|] == wire;
  }

  /** Audio chunks numbered from n on. */
  function Numbered(stream: Option<string>, n: nat, chunks: seq<bytes>): seq<Message> {
    if chunks == [] then []
    else Numbered(stream, n, chunks[..|chunks| - 1]) + [AudioChunk(stream, n + |chunks| - 1, chunks[|chunks| - 1])]
  }

  lemma NumberedSnoc(stream: Option<string>, n: nat, chunks: seq<bytes>, last: bytes)
    ensures Numbered(stream, n, chunks + [last])
          == Numbered(stream, n, chunks) + [AudioChunk(stream, n + |chunks|, last)]
  {
    assert (chunks + [last])[..|chunks|] == chunks;
  }

  lemma {:induction false} SendChunksSends(s: Stick, stream: Option<string>, base: seq<Message>, sent: seq<bytes>,
      chunks: seq<bytes>)
    requires Audio(s.wire) == base + Numbered(stream, 0, sent) && s.number == |sent|
    ensures var t := SendChunks(s, stream, chunks);
            && Audio(t.wire) == base + Numbered(stream, 0, sent + chunks)
            && t == s.(wire := t.wire, number := |sent| + |chunks|)
    decreases |chunks|
  {
    if chunks == [] {
      assert sent + chunks == sent;
    } else {
      OneMore(s.wire, stream, base, sent, chunks[0]);
      SendChunksSends(SendChunk(s, stream, chunks[0]), stream, base, sent + [chunks[0]], chunks[1..]);
      assert sent + [chunks[0]] + chunks[1..] == sent + chunks;
    }
  }

  lemma OneMore(wire: seq<Message>, stream: Option<string>, base: seq<Message>, sent: seq<bytes>, chunk: bytes)
    requires Audio(wire) == base + Numbered(stream, 0, sent)
    ensures Audio(wire + [AudioChunk(stream, |sent|, chunk)]) == base + Numbered(stream, 0, sent + [chunk])
  {
    hide Audio, Numbered;
    AudioSnoc(wire, AudioChunk(stream, |sent|, chunk));
    NumberedSnoc(stream, 0, sent, chunk);
    Regroup(base, Numbered(stream, 0, sent), [AudioChunk(stream, |sent|, chunk)]);
  }

  // ----- While recording -----

  /** Anything but the end of the hold and a mode request that would leave RECORDING. */
  predicate DuringHold(h: Happening) {
    match h
    case Press(_, online, _) => online
    case Release(_, online) => online
    case BeginHold(online, _, _) => online
    case EndHold(_, _) => false
    case Tick(online, _, _) => online
    case Request(mode, _) => mode != Ready && mode != Uploading
  }

  function MicOf(h: Happening): seq<bytes> {
    if h.Tick? && h.mic != [] then [h.mic] else []
  }

  /** What the microphone delivered to the live stream, in order. */
  function Live(hs: seq<Happening>): seq<bytes> {
    if hs == [] then [] else MicOf(hs[0]) + Live(hs[1..])
  }

  /** Recording on stream id, with these chunks sent after the messages of `base`. */
  ghost predicate Streaming(s: Stick, id: string, base: seq<Message>, sent: seq<bytes>, micOn: bool,
      preroll: seq<bytes>) {
    && s.device == Device(Recording, Some(id)) && !s.speculative && s.micOn == micOn && s.preroll == preroll
    && Audio(s.wire) == base + Numbered(Some(id), 0, sent) && s.number == |sent|
  }

  lemma HoldStep(s: Stick, h: Happening, id: string, base: seq<Message>, sent: seq<bytes>, micOn: bool,
      preroll: seq<bytes>)
    requires Streaming(s, id, base, sent, micOn, preroll) && DuringHold(h)
    ensures Streaming(Happen(s, h), id, base, if micOn then sent + MicOf(h) else sent, micOn, preroll)
  {
    hide Audio, Numbered;
    assert sent + [] == sent;
    match h {
      case Press(name, _, _) => AudioSnoc(s.wire, ButtonPressed(name));
      case Release(name, _) => AudioSnoc(s.wire, ButtonReleased(name));
      case Tick(_, _, mic) => OneMore(s.wire, Some(id), base, sent, mic);
      case _ =>
    }
    assert Audio(s.wire) + [] == Audio(s.wire);
  }

  lemma {:induction false} HoldStreams(s: Stick, hs: seq<Happening>, id: string, base: seq<Message>, sent: seq<bytes>,
      micOn: bool, preroll: seq<bytes>)
    requires Streaming(s, id, base, sent, micOn, preroll)
    requires forall i | 0 <= i < |hs| :: DuringHold(hs[i])
    ensures Streaming(HappenAll(s, hs), id, base, if micOn then sent + Live(hs) else sent, micOn, preroll)
    decreases |hs|
  {
    hide Streaming, Happen, DuringHold, MicOf;
    if hs == [] {
      assert sent + [] == sent;
    } else {
      HoldStep(s, hs[0], id, base, sent, micOn, preroll);
      HoldStreams(Happen(s, hs[0]), hs[1..], id, base, if micOn then sent + MicOf(hs[0]) else sent, micOn, preroll);
      Regroup(sent, MicOf(hs[0]), Live(hs[1..]));
    }
  }

  function Final(h: Happening): seq<bytes> {
    if h.EndHold? && h.mic != [] then [h.mic] else []
  }

  /** The messages of one whole recording. */
  function Upload(id: string, chunks: seq<bytes>): seq<Message> {
    [RecordingStarted(Some(id))] + Numbered(Some(id), 0, chunks) + [RecordingFinished(Some(id))]
  }

  /** A hold from READY to its end, online throughout: what is sent is the start, then the
      pre-roll and what was captured live, numbered 0, 1, 2, ... in that order, then the end. */
  lemma RecordingIsUploaded(s: Stick, begin: Happening, hs: seq<Happening>, end: Happening)
    requires s.device.mode == Ready && begin.BeginHold? && begin.online && end.EndHold? && end.online
    requires forall i | 0 <= i < |hs| :: DuringHold(hs[i])
    ensures var t := Happen(HappenAll(Happen(s, begin), hs), end);
            var live := if s.micOn || begin.micWorks then Live(hs) + Final(end) else [];
            && Audio(t.wire) == Audio(s.wire) + Upload(begin.freshId, s.preroll + live)
            && t.device.mode == Thinking && !t.micOn && !t.speculative && t.preroll == []
  {
    hide Audio, Numbered, Happen, HappenAll, Live;
    var id := begin.freshId;
    var base := Audio(s.wire) + [RecordingStarted(Some(id))];
    var micOn := s.micOn || begin.micWorks;
    HoldBegins(s, begin);
    HoldStreams(Happen(s, begin), hs, id, base, s.preroll, micOn, []);
    var sent := if micOn then s.preroll + Live(hs) else s.preroll;
    HoldEnds(HappenAll(Happen(s, begin), hs), end, id, base, sent, micOn);
    var all := if micOn then sent + Final(end) else sent;
    Regroup(s.preroll, Live(hs), Final(end));
    assert s.preroll + [] == s.preroll;
    Regroup(Audio(s.wire), [RecordingStarted(Some(id))], Numbered(Some(id), 0, all));
    Regroup(Audio(s.wire), [RecordingStarted(Some(id))] + Numbered(Some(id), 0, all), [RecordingFinished(Some(id))]);
  }

  lemma HoldBegins(s: Stick, begin: Happening)
    requires s.device.mode == Ready && begin.BeginHold? && begin.online
    ensures Streaming(Happen(s, begin), begin.freshId, Audio(s.wire) + [RecordingStarted(Some(begin.freshId))],
                      s.preroll, s.micOn || begin.micWorks, [])
  {
    hide Audio;
    var id := begin.freshId;
    var ready := s.(device := Device(Recording, Some(id)), micOn := s.micOn || begin.micWorks,
                  speculative := false, number := 0);
    var started := Emit(ready, true, RecordingStarted(Some(id)));
    var base := Audio(s.wire) + [RecordingStarted(Some(id))];
    AudioSnoc(s.wire, RecordingStarted(Some(id)));
    assert Numbered(Some(id), 0, []) == [] && base + [] == base;
    SendChunksSends(started, Some(id), base, [], s.preroll);
    assert [] + s.preroll == s.preroll;
  }

  lemma HoldEnds(s: Stick, end: Happening, id: string, base: seq<Message>, sent: seq<bytes>, micOn: bool)
    requires Streaming(s, id, base, sent, micOn, []) && end.EndHold? && end.online
    ensures var t := Happen(s, end);
            var all := if micOn then sent + Final(end) else sent;
            && Audio(t.wire) == base + Numbered(Some(id), 0, all) + [RecordingFinished(Some(id))]
            && t.device.mode == Thinking && !t.micOn && !t.speculative && t.preroll == []
  {
    hide Audio, Numbered;
    OneMore(s.wire, Some(id), base, sent, end.mic);
    assert sent + [] == sent;
    AudioSnoc(StreamChunk(s, true, true, end.mic).wire, RecordingFinished(Some(id)));
  }

  // ----- From the press on -----

  /** Between the press and the hold: samples of the loop, and other presses. */
  predicate BeforeHold(h: Happening) {
    h.Tick? || h.Press?
  }

  function PreMicOf(h: Happening): seq<bytes> {
    if h.Tick? && h.preMic != [] then [h.preMic] else []
  }

  function Captured(hs: seq<Happening>): seq<bytes> {
    if hs == [] then [] else PreMicOf(hs[0]) + Captured(hs[1..])
  }

  ghost predicate Speculating(s: Stick, preroll: seq<bytes>, audio: seq<Message>) {
    s.device.mode == Ready && s.micOn && s.speculative && s.preroll == preroll && Audio(s.wire) == audio
  }

  lemma PrerollStep(s: Stick, h: Happening, preroll: seq<bytes>, audio: seq<Message>)
    requires Speculating(s, preroll, audio) && BeforeHold(h)
    ensures Speculating(Happen(s, h), preroll + PreMicOf(h), audio)
  {
    hide Audio;
    assert preroll + [] == preroll && Audio(s.wire) + [] == Audio(s.wire);
    if h.Press? { AudioSnoc(s.wire, ButtonPressed(h.name)); }
  }

  lemma {:induction false} PrerollCollects(s: Stick, hs: seq<Happening>, preroll: seq<bytes>, audio: seq<Message>)
    requires Speculating(s, preroll, audio)
    requires forall i | 0 <= i < |hs| :: BeforeHold(hs[i])
    ensures Speculating(HappenAll(s, hs), preroll + Captured(hs), audio)
    decreases |hs|
  {
    hide Speculating, Happen, BeforeHold, PreMicOf;
    if hs == [] {
      assert preroll + [] == preroll;
    } else {
      PrerollStep(s, hs[0], preroll, audio);
      PrerollCollects(Happen(s, hs[0]), hs[1..], preroll + PreMicOf(hs[0]), audio);
      Regroup(preroll, PreMicOf(hs[0]), Captured(hs[1..]));
    }
  }

  /** A press was ignored by a microphone that was already running for nobody. */
  ghost predicate Deaf(s: Stick, preroll: seq<bytes>, audio: seq<Message>) {
    s.device.mode == Ready && s.micOn && !s.speculative && s.preroll == preroll && Audio(s.wire) == audio
  }

  lemma {:induction false} DeafCollectsNothing(s: Stick, hs: seq<Happening>, preroll: seq<bytes>, audio: seq<Message>)
    requires Deaf(s, preroll, audio)
    requires forall i | 0 <= i < |hs| :: BeforeHold(hs[i])
    ensures Deaf(HappenAll(s, hs), preroll, audio)
    decreases |hs|
  {
    hide Audio;
    if hs != [] {
      if hs[0].Press? { AudioSnoc(s.wire, ButtonPressed(hs[0].name)); }
      assert Audio(s.wire) + [] == Audio(s.wire);
      DeafCollectsNothing(Happen(s, hs[0]), hs[1..], preroll, audio);
    }
  }

  /** The pre-roll when the hold begins: a press only starts to collect when it starts the
      microphone, or when collecting was on already. */
  function Collected(s: Stick, waiting: seq<Happening>): seq<bytes> {
    s.preroll + (if !s.micOn || s.speculative then Captured(waiting) else [])
  }

  /** Press, hold, let go, online throughout, from any READY state: what was collected and then
      captured live is uploaded, in order. That is exactly what the microphone delivered since
      the press if and only if what was collected is what it delivered before the hold. */
  lemma NothingSpokenIsLost(s: Stick, press: Happening, waiting: seq<Happening>, begin: Happening, hs: seq<Happening>,
      end: Happening)
    requires s.device.mode == Ready && press.Press? && (s.micOn || press.micWorks)
    requires forall i | 0 <= i < |waiting| :: BeforeHold(waiting[i])
    requires begin.BeginHold? && begin.online && end.EndHold? && end.online
    requires forall i | 0 <= i < |hs| :: DuringHold(hs[i])
    ensures var t := Happen(HappenAll(Happen(HappenAll(Happen(s, press), waiting), begin), hs), end);
            var live := Live(hs) + Final(end);
            && Audio(t.wire) == Audio(s.wire) + Upload(begin.freshId, Collected(s, waiting) + live)
            && (Audio(t.wire) == Audio(s.wire) + Upload(begin.freshId, Captured(waiting) + live)
                <==> Collected(s, waiting) == Captured(waiting))
  {
    hide Audio, HappenAll, Captured, Live, Numbered;
    var pressed := Happen(s, press);
    assert Audio(s.wire) + [] == Audio(s.wire);
    AudioSnoc(s.wire, ButtonPressed(press.name));
    var collecting := !s.micOn || s.speculative;
    assert if collecting then Speculating(pressed, s.preroll, Audio(s.wire))
          else Deaf(pressed, s.preroll, Audio(s.wire));
    hide Happen;
    if collecting {
      PrerollCollects(pressed, waiting, s.preroll, Audio(s.wire));
    } else {
      DeafCollectsNothing(pressed, waiting, s.preroll, Audio(s.wire));
    }
    var held := HappenAll(pressed, waiting);
    assert s.preroll + [] == s.preroll;
    assert held.device.mode == Ready && held.micOn && held.preroll == Collected(s, waiting)
          && Audio(held.wire) == Audio(s.wire);
    RecordingIsUploaded(held, begin, hs, end);
    UploadsDiffer(Audio(s.wire), begin.freshId, Collected(s, waiting), Captured(waiting), Live(hs) + Final(end));
  }

  /** Different chunks make different uploads. */
  lemma UploadsDiffer(base: seq<Message>, id: string, a: seq<bytes>, b: seq<bytes>, live: seq<bytes>)
    ensures base + Upload(id, a + live) == base + Upload(id, b + live) <==> a == b
  {
    hide Numbered;
    var u, v := Upload(id, a + live), Upload(id, b + live);
    if base + u == base + v {
      assert u == (base + u)[|base|..] == (base + v)[|base|..] == v;
      var m, n := Numbered(Some(id), 0, a + live), Numbered(Some(id), 0, b + live);
      assert m == u[1..|u| - 1] && n == v[1..|v| - 1];
      NumberedIsInjective(Some(id), 0, a + live, b + live);
      assert a == (a + live)[..|a + live| - |live|] && b == (b + live)[..|b + live| - |live|];
    }
  }

  lemma {:induction false} NumberedIsInjective(stream: Option<string>, n: nat, a: seq<bytes>, b: seq<bytes>)
    requires Numbered(stream, n, a) == Numbered(stream, n, b)
    ensures a == b
    decreases |a|
  {
    NumberedLength(stream, n, a);
    NumberedLength(stream, n, b);
    if a != [] {
      var a', b' := a[..|a| - 1], b[..|b| - 1];
      var m, k := Numbered(stream, n, a), Numbered(stream, n, b);
      assert m[..|a| - 1] == Numbered(stream, n, a') && k[..|b| - 1] == Numbered(stream, n, b');
      assert m[|a| - 1] == AudioChunk(stream, n + |a| - 1, a[|a| - 1])
            && k[|b| - 1] == AudioChunk(stream, n + |b| - 1, b[|b| - 1]);
      NumberedIsInjective(stream, n, a', b');
      assert a == a' + [a[|a| - 1]] && b == b' + [b[|b| - 1]];
    }
  }

  /** No old pre-roll, and no microphone that runs without collecting. */
  predicate Fresh(s: Stick) {
    s.preroll == [] && (!s.micOn || s.speculative)
  }

  /** The states from which all that is said after a press is collected, whatever is said. */
  lemma ExactlyFreshSticksListen(s: Stick)
    ensures Fresh(s) <==>
              forall waiting | (forall i | 0 <= i < |waiting| :: BeforeHold(waiting[i])) ::
                Collected(s, waiting) == Captured(waiting)
  {
    if Fresh(s) {
      forall waiting | (forall i | 0 <= i < |waiting| :: BeforeHold(waiting[i]))
        ensures Collected(s, waiting) == Captured(waiting)
      {
        assert [] + Captured(waiting) == Captured(waiting);
      }
    } else if s.preroll != [] {
      assert Captured([]) == [] && s.preroll + [] == s.preroll;
      assert Collected(s, []) != Captured([]);
    } else {
      var sample := Tick(true, [0], []);
      CapturedOne(sample);
      assert BeforeHold(sample) && [sample][0] == sample;
      assert Collected(s, [sample]) == [] != Captured([sample]);
    }
  }

  lemma CapturedOne(h: Happening)
    ensures Captured([h]) == PreMicOf(h)
  {
    assert [h][1..] == [];
    assert PreMicOf(h) + [] == PreMicOf(h);
  }

  const BOOTED := Stick(Device(Booting, None), 0, false, [], false, [])

  /** How a stick comes to be READY with its microphone on and no pre-roll: a hold while muted. */
  function AfterMutedHold(id: string): seq<Happening> {
    [Request(Ready, ""), Request(Muted, ""), BeginHold(false, true, id), EndHold(false, []), Request(Ready, "")]
  }

  lemma MutedHoldMakesItDeaf(id: string)
    ensures HappenAll(BOOTED, AfterMutedHold(id)) == BOOTED.(device := Device(Ready, None), micOn := true)
  {
    hide Happen, HappenAll;
    var h := AfterMutedHold(id);
    var ready, muted := BOOTED.(device := Device(Ready, None)), BOOTED.(device := Device(Muted, None));
    var on := muted.(micOn := true);
    ModeChanges(BOOTED, Ready, "");
    ModeChanges(ready, Muted, "");
    assert Happen(muted, h[2]) == on && Happen(on, h[3]) == on by { HoldWhileMuted(muted, id); }
    ModeChanges(on, Ready, "");
    Unroll(BOOTED, h, 0);
    Unroll(ready, h, 1);
    Unroll(muted, h, 2);
    Unroll(on, h, 3);
    Unroll(on, h, 4);
    assert h[0..] == h;
    Unroll(BOOTED.(device := Device(Ready, None), micOn := true), h, 5);
  }

  lemma HoldWhileMuted(s: Stick, id: string)
    requires s.device == Device(Muted, None) && !s.speculative && s.number == 0
    ensures Happen(s, BeginHold(false, true, id)) == s.(micOn := true)
    ensures Happen(s.(micOn := true), EndHold(false, [])) == s.(micOn := true)
  {}

  lemma Unroll(s: Stick, hs: seq<Happening>, i: nat)
    requires i <= |hs|
    ensures HappenAll(s, hs[i..]) == if i == |hs| then s else HappenAll(Happen(s, hs[i]), hs[i + 1..])
  {
    hide Happen;
    if i < |hs| {
      assert hs[i..][0] == hs[i] && hs[i..][1..] == hs[i + 1..];
    }
  }

  /** There, what is said between the press and the hold is lost although no pre-roll was left. */
  lemma DeafStickLosesSpeech(id: string, spoken: bytes)
    requires spoken != []
    ensures var s := HappenAll(BOOTED, AfterMutedHold(id));
            var waiting := [Tick(true, spoken, [])];
            var t := Happen(Happen(HappenAll(Happen(s, Press("A", true, true)), waiting), BeginHold(true, true, id)),
                  EndHold(true, []));
            && s.device.mode == Ready && s.preroll == []
            && Captured(waiting) == [spoken]
            && Audio(t.wire) == Audio(s.wire) + Upload(id, [])
  {
    hide Happen, Audio, Numbered;
    MutedHoldMakesItDeaf(id);
    var s := HappenAll(BOOTED, AfterMutedHold(id));
    var waiting := [Tick(true, spoken, [])];
    CapturedOne(waiting[0]);
    NothingSpokenIsLost(s, Press("A", true, true), waiting, BeginHold(true, true, id), [], EndHold(true, []));
    assert Collected(s, waiting) == [] && Live([]) + Final(EndHold(true, [])) == [];
  }

  lemma {:induction false} NumberedLength(stream: Option<string>, n: nat, chunks: seq<bytes>)
    ensures |Numbered(stream, n, chunks)| == |chunks|
  {
    if chunks != [] {
      NumberedLength(stream, n, chunks[..|chunks| - 1]);
    }
  }

  /** While recording, nothing touches the pre-roll, online or not. */
  predicate InRecording(h: Happening) {
    !h.EndHold? && (h.Request? ==> h.mode != Ready && h.mode != Uploading)
  }

  lemma {:induction false} RecordingKeepsPreroll(s: Stick, hs: seq<Happening>)
    requires s.device.mode == Recording && !s.speculative
    requires forall i | 0 <= i < |hs| :: InRecording(hs[i])
    ensures var t := HappenAll(s, hs); t.device.mode == Recording && !t.speculative && t.preroll == s.preroll
    decreases |hs|
  {
    if hs != [] {
      RecordingKeepsPreroll(Happen(s, hs[0]), hs[1..]);
    }
  }

  /** After a hold from READY, whatever happens during it, there is old pre-roll for the next
      upload if and only if the gateway was not connected when it began and some was collected. */
  lemma OfflineRecordingLeavesPreroll(s: Stick, begin: Happening, hs: seq<Happening>, end: Happening, freshId: string)
    requires s.device.mode == Ready && begin.BeginHold? && end.EndHold?
    requires forall i | 0 <= i < |hs| :: InRecording(hs[i])
    ensures var t := Happen(Happen(HappenAll(Happen(s, begin), hs), end), Request(Ready, freshId));
            && t.device.mode == Ready && !t.micOn
            && t.preroll == (if begin.online then [] else s.preroll)
  {
    hide Happen, HappenAll, InRecording;
    SendBegins(s, begin);
    RecordingKeepsPreroll(Happen(s, begin), hs);
    var ended := Happen(HappenAll(Happen(s, begin), hs), end);
    SendEnds(HappenAll(Happen(s, begin), hs), end);
    ModeChanges(ended, Ready, freshId);
  }

  lemma SendEnds(s: Stick, end: Happening)
    requires end.EndHold?
    ensures var t := Happen(s, end);
            if s.device.mode != Recording then t == s
            else t.device.mode == Thinking && !t.micOn && t.preroll == s.preroll
  {}

  lemma ModeChanges(s: Stick, mode: Mode, freshId: string)
    ensures Happen(s, Request(mode, freshId)) == s.(device := SetMode(s.device, mode, freshId))
  {}

  lemma SendBegins(s: Stick, begin: Happening)
    requires begin.BeginHold?
    ensures var t := Happen(s, begin);
            if !CanRecord(s.device.mode) then t == s
            else t.device == SetMode(s.device, Recording, begin.freshId) && t.micOn == (s.micOn || begin.micWorks)
                 && !t.speculative && t.preroll == (if begin.online then [] else s.preroll)
  {
    if CanRecord(s.device.mode) {
      var t := s.(device := SetMode(s.device, Recording, begin.freshId), micOn := s.micOn || begin.micWorks,
                  speculative := false, number := 0);
      SendKeepsTheRest(Emit(t, true, RecordingStarted(t.device.streamId)), t.device.streamId, s.preroll);
    }
  }

  /** Anything during a hold but its end and a mode request, with a microphone that does not come
      to life when the hold could not start it. */
  predicate DuringAnyHold(h: Happening, micWorks: bool) {
    match h
    case EndHold(_, _) => false
    case Request(_, _) => false
    case Press(_, _, works) => works ==> micWorks
    case BeginHold(_, works, _) => works ==> micWorks
    case _ => true
  }

  /** While muted, a microphone that is on for nobody stays on, and one that cannot start stays off. */
  lemma {:induction false} MutedMicStays(s: Stick, hs: seq<Happening>, micWorks: bool)
    requires s.device.mode == Muted && !s.speculative && (micWorks ==> s.micOn)
    requires forall i | 0 <= i < |hs| :: DuringAnyHold(hs[i], micWorks)
    ensures var t := HappenAll(s, hs); t.device.mode == Muted && t.micOn == s.micOn
    decreases |hs|
  {
    if hs != [] {
      assert DuringAnyHold(hs[0], micWorks);
      if hs[0].BeginHold? { SendBegins(s, hs[0]); }
      MutedMicStays(Happen(s, hs[0]), hs[1..], micWorks);
    }
  }

  predicate HasRelease(hs: seq<Happening>) {
    exists i :: 0 <= i < |hs| && hs[i].Release?
  }

  /** Where nothing can be recorded only a release can stop the microphone, when it was collecting. */
  lemma {:induction false} OtherMicStays(s: Stick, hs: seq<Happening>, micWorks: bool)
    requires !CanRecord(s.device.mode)
    requires forall i | 0 <= i < |hs| :: DuringAnyHold(hs[i], micWorks)
    ensures var t := HappenAll(s, hs);
            t.device.mode == s.device.mode && (t.micOn <==> s.micOn && !(s.speculative && HasRelease(hs)))
    decreases |hs|
  {
    if hs != [] {
      assert DuringAnyHold(hs[0], micWorks);
      OtherMicStays(Happen(s, hs[0]), hs[1..], micWorks);
      assert HasRelease(hs) <==> hs[0].Release? || HasRelease(hs[1..]) by { ReleaseCons(hs); }
    }
  }

  lemma ReleaseCons(hs: seq<Happening>)
    requires hs != []
    ensures HasRelease(hs) <==> hs[0].Release? || HasRelease(hs[1..])
  {
    if i :| 0 <= i < |hs| && hs[i].Release? {
      assert i > 0 ==> hs[1..][i - 1].Release?;
    }
    if i :| 0 <= i < |hs[1..]| && hs[1..][i].Release? {
      assert hs[i + 1].Release?;
    }
  }

  /** After a hold, from any mode, the microphone is on if and only if no recording was ended and
      either it was on before and no release during the hold stopped it, or the hold was made
      while muted and the microphone was on or was started by it. */
  lemma MutedHoldLeavesTheMicOn(s: Stick, begin: Happening, hs: seq<Happening>, end: Happening)
    requires begin.BeginHold? && end.EndHold?
    requires forall i | 0 <= i < |hs| :: DuringAnyHold(hs[i], begin.micWorks)
    ensures Happen(HappenAll(Happen(s, begin), hs), end).micOn <==>
              match s.device.mode
              case Ready => false
              case Recording => false
              case Muted => s.micOn || begin.micWorks
              case _ => s.micOn && !(s.speculative && HasRelease(hs))
    ensures s.device.mode == Muted ==> Happen(HappenAll(Happen(s, begin), hs), end).device.mode == Muted
  {
    hide Happen, HappenAll, HasRelease, DuringAnyHold;
    SendBegins(s, begin);
    if s.device.mode == Muted {
      MutedMicStays(Happen(s, begin), hs, begin.micWorks);
    } else {
      OtherMicStays(Happen(s, begin), hs, begin.micWorks);
    }
    SendEnds(HappenAll(Happen(s, begin), hs), end);
  }

  lemma {:induction false} SendKeepsTheRest(s: Stick, stream: Option<string>, chunks: seq<bytes>)
    ensures var t := SendChunks(s, stream, chunks); t == s.(wire := t.wire, number := t.number)
    decreases |chunks|
  {
    if chunks != [] {
      SendKeepsTheRest(SendChunk(s, stream, chunks[0]), stream, chunks[1..]);
    }
  }

  /** A hold begins a recording exactly from READY. */
  lemma HoldRecordsOnlyFromReady(s: Stick, online: bool, micWorks: bool, freshId: string)
    requires s.device.mode != Recording
    ensures Happen(s, BeginHold(online, micWorks, freshId)).device.mode == Recording <==> s.device.mode == Ready
  {
    SendBegins(s, BeginHold(online, micWorks, freshId));
  }
}
