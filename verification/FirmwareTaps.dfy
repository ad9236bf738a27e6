/** Presses that do not become holds, the button events on the wire, and the modes of a whole run. */
module FirmwareTaps {
  import opened Bytes
  import opened Common
  import opened Firmware
  import opened FirmwareTheorems

  lemma {:induction false} HappenAllAppend(s: Stick, hs: seq<Happening>, more: seq<Happening>)
    ensures HappenAll(s, hs + more) == HappenAll(HappenAll(s, hs), more)
    decreases |hs|
  {
    hide Happen;
    if hs == [] {
      assert hs + more == more;
    } else {
      HappenAllAppend(Happen(s, hs[0]), hs[1..], more);
      assert (hs + more)[1..] == hs[1..] + more;
    }
  }

  lemma HappenOne(s: Stick, h: Happening)
    ensures HappenAll(s, [h]) == Happen(s, h)
  {
    hide Happen;
    assert [h][1..] == [];
  }

  // ----- Taps -----

  /** Presses, releases and passes of the loop, but no hold. */
  predicate Tapping(h: Happening) {
    h.Press? || h.Release? || h.Tick?
  }

  /** READY, with old samples only while the microphone is collecting. */
  ghost predicate Clean(s: Stick, audio: seq<Message>) {
    && s.device.mode == Ready && Audio(s.wire) == audio
    && (if s.micOn then s.speculative else s.preroll == [])
  }

  lemma TapStep(s: Stick, h: Happening, audio: seq<Message>)
    requires Clean(s, audio) && Tapping(h)
    ensures Clean(Happen(s, h), audio) && Happen(s, h).device == s.device
    ensures h.Release? ==> !Happen(s, h).micOn && Happen(s, h).preroll == []
  {
    hide Audio;
    assert Audio(s.wire) + [] == Audio(s.wire);
    if h.Press? {
      AudioSnoc(s.wire, ButtonPressed(h.name));
    } else if h.Release? {
      AudioSnoc(s.wire, ButtonReleased(h.name));
    }
  }

  lemma {:induction false} TapsAreClean(s: Stick, hs: seq<Happening>, audio: seq<Message>)
    requires Clean(s, audio) && forall i | 0 <= i < |hs| :: Tapping(hs[i])
    ensures Clean(HappenAll(s, hs), audio) && HappenAll(s, hs).device == s.device
    decreases |hs|
  {
    hide Clean, Happen;
    if hs != [] {
      TapStep(s, hs[0], audio);
      TapsAreClean(Happen(s, hs[0]), hs[1..], audio);
    }
  }

  /** A press that becomes a tap leaves nothing: after any number of presses, releases and passes of
      the loop the next release finds the stick READY, with the microphone off, nothing collected,
      and nothing said about a recording. */
  lemma TapLeavesNothing(s: Stick, taps: seq<Happening>, release: Happening)
    requires s.device.mode == Ready && Fresh(s) && release.Release?
    requires forall i | 0 <= i < |taps| :: Tapping(taps[i])
    ensures var t := HappenAll(s, taps + [release]);
            && t.device == s.device && Fresh(t) && t.preroll == [] && !t.micOn && Audio(t.wire) == Audio(s.wire)
  {
    hide Audio, Happen, HappenAll, Tapping;
    TapsAreClean(s, taps, Audio(s.wire));
    HappenAllAppend(s, taps, [release]);
    HappenOne(HappenAll(s, taps), release);
    assert Tapping(release) by { ReleaseTaps(release); }
    TapStep(HappenAll(s, taps), release, Audio(s.wire));
  }

  lemma ReleaseTaps(h: Happening)
    requires h.Release?
    ensures Tapping(h)
  {}

  /** So after any taps, a press and a hold upload exactly what was said since that last press. */
  lemma TapsAreForgotten(s: Stick, taps: seq<Happening>, release: Happening, press: Happening,
      waiting: seq<Happening>, begin: Happening, hs: seq<Happening>, end: Happening)
    requires s.device.mode == Ready && Fresh(s) && release.Release?
    requires forall i | 0 <= i < |taps| :: Tapping(taps[i])
    requires press.Press? && press.micWorks
    requires forall i | 0 <= i < |waiting| :: BeforeHold(waiting[i])
    requires begin.BeginHold? && begin.online && end.EndHold? && end.online
    requires forall i | 0 <= i < |hs| :: DuringHold(hs[i])
    ensures var tapped := HappenAll(s, taps + [release]);
            var t := Happen(HappenAll(Happen(HappenAll(Happen(tapped, press), waiting), begin), hs), end);
            Audio(t.wire) == Audio(s.wire) + Upload(begin.freshId, Captured(waiting) + (Live(hs) + Final(end)))
  {
    hide Audio, Happen, HappenAll, Captured, Live, Upload;
    TapLeavesNothing(s, taps, release);
    var tapped := HappenAll(s, taps + [release]);
    NothingSpokenIsLost(tapped, press, waiting, begin, hs, end);
    assert [] + Captured(waiting) == Captured(waiting);
  }

  // ----- Button events -----

  function IsButton(m: Message): bool {
    m.ButtonPressed? || m.ButtonReleased?
  }

  /** The button events on the wire. */
  ghost function Buttons(wire: seq<Message>): seq<Message> {
    if wire == [] then []
    else Buttons(wire[..|wire| - 1]) + (if IsButton(wire[|wire| - 1]) then [wire[|wire| - 1]] else [])
  }

  /** What was done with the buttons while the gateway was connected. */
  ghost function Pushed(hs: seq<Happening>): seq<Message> {
    if hs == [] then []
    else
      (match hs[0]
       case Press(name, true, _) => [ButtonPressed(name)]
       case Release(name, true) => [ButtonReleased(name)]
       case _ => []) + Pushed(hs[1..])
  }

  lemma ButtonsSnoc(wire: seq<Message>, m: Message)
    ensures Buttons(wire + [m]) == Buttons(wire) + (if IsButton(m) then [m] else [])
  {
    assert (wire + [m])[..|wire|] == wire;
  }

  lemma {:induction false} ChunksAreNoButtons(s: Stick, stream: Option<string>, chunks: seq<bytes>)
    ensures Buttons(SendChunks(s, stream, chunks).wire) == Buttons(s.wire)
    decreases |chunks|
  {
    hide Buttons;
    if chunks != [] {
      ButtonsSnoc(s.wire, AudioChunk(stream, s.number, chunks[0]));
      assert Buttons(s.wire) + [] == Buttons(s.wire);
      ChunksAreNoButtons(SendChunk(s, stream, chunks[0]), stream, chunks[1..]);
    }
  }

  lemma ButtonStep(s: Stick, h: Happening)
    ensures Buttons(Happen(s, h).wire) == Buttons(s.wire) + Pushed([h])
  {
    hide Buttons;
    assert [h][1..] == [] && Pushed([]) == [] && Buttons(s.wire) + [] == Buttons(s.wire);
    match h
    case Press(name, _, _) => ButtonsSnoc(s.wire, ButtonPressed(name));
    case Release(name, _) => ButtonsSnoc(s.wire, ButtonReleased(name));
    case BeginHold(_, micWorks, freshId) =>
      var t := s.(device := SetMode(s.device, Recording, freshId), micOn := s.micOn || micWorks,
                  speculative := false, number := 0);
      ButtonsSnoc(s.wire, RecordingStarted(t.device.streamId));
      ChunksAreNoButtons(Emit(t, true, RecordingStarted(t.device.streamId)), t.device.streamId, s.preroll);
    case EndHold(online, mic) =>
      ButtonsSnoc(s.wire, AudioChunk(s.device.streamId, s.number, mic));
      ButtonsSnoc(StreamChunk(s, true, online, mic).wire, RecordingFinished(s.device.streamId));
    case Tick(_, _, mic) => ButtonsSnoc(s.wire, AudioChunk(s.device.streamId, s.number, mic));
    case Request(_, _) =>
  }

  /** Every press and release while connected is reported, in order, whatever else happens. */
  lemma {:induction false} ButtonsAreReported(s: Stick, hs: seq<Happening>)
    ensures Buttons(HappenAll(s, hs).wire) == Buttons(s.wire) + Pushed(hs)
    decreases |hs|
  {
    hide Buttons, Happen;
    if hs == [] {
      assert Buttons(s.wire) + [] == Buttons(s.wire);
    } else {
      ButtonStep(s, hs[0]);
      ButtonsAreReported(Happen(s, hs[0]), hs[1..]);
      PushedCons(hs);
      Regroup(Buttons(s.wire), Pushed([hs[0]]), Pushed(hs[1..]));
    }
  }

  lemma PushedCons(hs: seq<Happening>)
    requires hs != []
    ensures Pushed(hs) == Pushed([hs[0]]) + Pushed(hs[1..])
  {
    assert [hs[0]][1..] == [] && Pushed([]) == [];
  }

  // ----- Modes -----

  /** From a recording to the playing of its reply the device has a stream id. */
  ghost predicate HasId(d: Device) {
    && (d.mode in {Recording, Uploading, Thinking, ResponseCached, Playing} ==> d.streamId.Some?)
    && (d.mode in {Offline, Failed, SafeMode} ==> d.streamId.None?)
  }

  /** Over every run from boot. */
  lemma {:induction false} IdIsThere(s: Stick, hs: seq<Happening>)
    requires HasId(s.device)
    ensures HasId(HappenAll(s, hs).device)
    decreases |hs|
  {
    hide HasId, Happen;
    if hs != [] {
      IdStep(s, hs[0]);
      IdIsThere(Happen(s, hs[0]), hs[1..]);
    }
  }

  lemma IdStep(s: Stick, h: Happening)
    requires HasId(s.device)
    ensures HasId(Happen(s, h).device)
  {
    if h.BeginHold? {
      SendBegins(s, h);
    }
  }

  /** No mode is a trap: two requests at most bring the device back to READY. */
  lemma ReadyCanBeReached(s: Stick) returns (hs: seq<Happening>)
    ensures |hs| <= 2 && (forall i | 0 <= i < |hs| :: hs[i].Request?) && HappenAll(s, hs).device.mode == Ready
  {
    var first := match s.device.mode
                 case Uploading => [Request(Thinking, "")]
                 case SafeMode => [Request(Booting, "")]
                 case _ => [];
    var last := [Request(Ready, "")];
    hs := first + last;
    HappenAllAppend(s, first, last);
    HappenOne(HappenAll(s, first), last[0]);
    if first != [] {
      HappenOne(s, first[0]);
    }
  }
}
