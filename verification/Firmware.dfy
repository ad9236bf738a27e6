/** The stick's device modes, and its recording handlers: what is sent between pressing a
    button and letting it go. */
module Firmware {
  import opened Bytes
  import opened Common

  datatype Mode =
    | Booting | Pairing | Ready | Recording | Uploading | Thinking
    | ResponseCached | Playing | Muted | Offline | Failed | SafeMode

  function ValidTargets(m: Mode): set<Mode> {
    match m
    case Booting => {Pairing, Ready, Offline, Failed}
    case Pairing => {Ready, Failed}
    case Ready => {Recording, Muted, Offline, Booting}
    case Recording => {Uploading, Ready}
    case Uploading => {Thinking}
    case Thinking => {ResponseCached, Ready, Failed}
    case ResponseCached => {Playing, Ready}
    case Playing => {ResponseCached, Ready}
    case Muted => {Ready, Offline}
    case Offline => {Ready, Failed}
    case Failed => {SafeMode, Ready}
    case SafeMode => {Booting}
  }

  datatype Device = Device(mode: Mode, streamId: Option<string>)

  /** A mode change that the table allows; entering RECORDING takes a fresh stream id, and
      leaving it for READY, going offline or failing drops the id. */
  function SetMode(d: Device, mode: Mode, freshId: string): Device {
    if mode == d.mode || mode !in ValidTargets(d.mode) then d
    else
      Device(mode,
             if mode == Recording then Some(freshId)
             else if (mode == Ready && d.mode == Recording) || mode == Offline || mode == Failed then None
             else d.streamId)
  }

  predicate CanRecord(m: Mode) {
    m == Ready || m == Muted
  }

  class DeviceState {
    var mode: Mode
    var streamId: Option<string>

    ghost function View(): Device
      reads this
    {
      Device(mode, streamId)
    }

    constructor ()
      ensures View() == Device(Booting, None)
    {
      mode, streamId := Booting, None;
    }

    method ChangeMode(next: Mode, freshId: string)
      modifies this
      ensures View() == SetMode(old(View()), next, freshId)
    {
      if next == mode {
        return;
      }
      if next !in ValidTargets(mode) {
        return;
      }
      var oldMode := mode;
      mode := next;
      if next == Recording {
        streamId := Some(freshId);
      } else if next == Ready && oldMode == Recording {
        streamId := None;
      } else if next == Offline || next == Failed {
        if streamId.Some? {
          streamId := None;
        }
      }
    }
  }

  // ----- Recording -----

  datatype Message =
    | ButtonPressed(name: string)
    | ButtonReleased(name: string)
    | RecordingStarted(stream: Option<string>)
    | AudioChunk(stream: Option<string>, number: nat, data: bytes)
    | RecordingFinished(stream: Option<string>)

  datatype Stick = Stick(
    device: Device,
    number: nat,
    speculative: bool,
    preroll: seq<bytes>,
    micOn: bool,
    wire: seq<Message>)

  function Emit(s: Stick, online: bool, m: Message): Stick {
    if online then s.(wire := s.wire + [m]) else s
  }

  function SendChunk(s: Stick, stream: Option<string>, data: bytes): Stick {
    s.(wire := s.wire + [AudioChunk(stream, s.number, data)], number := s.number + 1)
  }

  function SendChunks(s: Stick, stream: Option<string>, chunks: seq<bytes>): Stick
    decreases |chunks|
  {
    if chunks == [] then s else SendChunks(SendChunk(s, stream, chunks[0]), stream, chunks[1..])
  }

  /** What happens to the stick. `online` says whether the gateway is connected, `mic` what the
      microphone would deliver (nothing when empty), `micWorks` whether it can be started. */
  datatype Happening =
    | Press(name: string, online: bool, micWorks: bool)
    | Release(name: string, online: bool)
    | BeginHold(online: bool, micWorks: bool, freshId: string)
    | EndHold(online: bool, mic: bytes)
    | Tick(online: bool, preMic: bytes, mic: bytes)
    | Request(mode: Mode, freshId: string)

  function StreamChunk(s: Stick, force: bool, online: bool, mic: bytes): Stick {
    if !online || (!force && s.device.mode != Recording) || s.device.streamId.None? then s
    else if !s.micOn || mic == [] then s
    else SendChunk(s, s.device.streamId, mic)
  }

  function CapturePreroll(s: Stick, mic: bytes): Stick {
    if !s.speculative || !s.micOn || mic == [] then s else s.(preroll := s.preroll + [mic])
  }

  function Happen(s: Stick, h: Happening): Stick {
    match h
    case Press(name, online, micWorks) =>
      var t := Emit(s, online, ButtonPressed(name));
      if CanRecord(s.device.mode) && !s.micOn && micWorks then t.(micOn := true, speculative := true) else t
    case Release(name, online) =>
      var t := Emit(s, online, ButtonReleased(name));
      if s.speculative && s.micOn then t.(micOn := false, speculative := false, preroll := []) else t
    case BeginHold(online, micWorks, freshId) =>
      if !CanRecord(s.device.mode) then s
      else
        var t := s.(device := SetMode(s.device, Recording, freshId), micOn := s.micOn || micWorks,
                    speculative := false, number := 0);
        if online then
          SendChunks(Emit(t, true, RecordingStarted(t.device.streamId)), t.device.streamId, s.preroll).(preroll := [])
        else t
    case EndHold(online, mic) =>
      if s.device.mode != Recording then s
      else
        var stream := s.device.streamId;
        var t := StreamChunk(s, true, online, mic);
        var u := t.(device := SetMode(t.device, Uploading, ""), micOn := false);
        var v := if stream.Some? then Emit(u, online, RecordingFinished(stream)) else u;
        v.(device := SetMode(v.device, Thinking, ""))
    case Tick(online, preMic, mic) => StreamChunk(CapturePreroll(s, preMic), false, online, mic)
    case Request(mode, freshId) => s.(device := SetMode(s.device, mode, freshId))
  }

  class StickFirmware {
    const device: DeviceState
    var recordingSeq: nat
    var speculativeRecording: bool
    var prerollChunks: seq<bytes>
    var micRecording: bool
    var wire: seq<Message>

    ghost function View(): Stick
      reads this, device
    {
      Stick(device.View(), recordingSeq, speculativeRecording, prerollChunks, micRecording, wire)
    }

    constructor ()
      ensures View() == Stick(Device(Booting, None), 0, false, [], false, []) && fresh(device)
    {
      device := new DeviceState();
      recordingSeq, speculativeRecording, prerollChunks, micRecording, wire := 0, false, [], false, [];
    }

    /** The microphone only starts when it is not running. */
    method StartRecording(micWorks: bool) returns (ok: bool)
      modifies this`micRecording
      ensures ok <==> !old(micRecording) && micWorks
      ensures micRecording == (old(micRecording) || micWorks)
    {
      if micRecording || !micWorks {
        return false;
      }
      micRecording := true;
      ok := true;
    }

    method ReadAudioChunk(mic: bytes) returns (chunk: bytes)
      ensures chunk == if micRecording then mic else []
    {
      chunk := if micRecording then mic else [];
    }

    method OnButtonPressed(name: string, online: bool, micWorks: bool)
      modifies this
      ensures View() == Happen(old(View()), Press(name, online, micWorks))
    {
      if online {
        wire := wire + [ButtonPressed(name)];
      }
      if CanRecord(device.mode) && !micRecording {
        var ok := StartRecording(micWorks);
        if ok {
          speculativeRecording := true;
        }
      }
    }

    method OnButtonReleased(name: string, online: bool)
      modifies this
      ensures View() == Happen(old(View()), Release(name, online))
    {
      if online {
        wire := wire + [ButtonReleased(name)];
      }
      if speculativeRecording && micRecording {
        micRecording := false;
        speculativeRecording := false;
        prerollChunks := [];
      }
    }

    method OnLongHoldStart(online: bool, micWorks: bool, freshId: string)
      modifies this, device
      ensures View() == Happen(old(View()), BeginHold(online, micWorks, freshId))
    {
      if CanRecord(device.mode) {
        device.ChangeMode(Recording, freshId);
        if !micRecording {
          var ok := StartRecording(micWorks);
        }
        speculativeRecording := false;
        recordingSeq := 0;
        if online {
          var stream := device.streamId;
          wire := wire + [RecordingStarted(stream)];
          FlushPrerollChunks(stream);
        }
      }
    }

    method FlushPrerollChunks(stream: Option<string>)
      modifies this
      ensures View() == SendChunks(old(View()), stream, old(prerollChunks)).(preroll := [])
    {
      var i := 0;
      assert prerollChunks[0..] == prerollChunks;
      while i < |prerollChunks|
        invariant 0 <= i <= |prerollChunks| && prerollChunks == old(prerollChunks)
        invariant SendChunks(View(), stream, prerollChunks[i..]) == SendChunks(old(View()), stream, prerollChunks)
      {
        assert prerollChunks[i..][0] == prerollChunks[i] && prerollChunks[i..][1..] == prerollChunks[i + 1..];
        SendRecordingChunk(stream, prerollChunks[i], true);
        i := i + 1;
      }
      prerollChunks := [];
    }

    /** A send that fails is dropped, and its number is used again; the callers here send with success. */
    method SendRecordingChunk(stream: Option<string>, chunk: bytes, works: bool)
      modifies this`wire, this`recordingSeq
      ensures View() == if works then SendChunk(old(View()), stream, chunk) else old(View())
    {
      if !works {
        return;
      }
      wire := wire + [AudioChunk(stream, recordingSeq, chunk)];
      recordingSeq := recordingSeq + 1;
    }

    method StreamRecordingChunk(force: bool, online: bool, mic: bytes)
      modifies this`wire, this`recordingSeq
      ensures View() == StreamChunk(old(View()), force, online, mic)
    {
      if !online {
        return;
      }
      if !force && device.mode != Recording {
        return;
      }
      if device.streamId.None? {
        return;
      }
      var chunk := ReadAudioChunk(mic);
      if chunk == [] {
        return;
      }
      SendRecordingChunk(device.streamId, chunk, true);
    }

    method CapturePrerollChunk(mic: bytes)
      modifies this`prerollChunks
      ensures View() == CapturePreroll(old(View()), mic)
    {
      if !speculativeRecording || !micRecording {
        return;
      }
      var chunk := ReadAudioChunk(mic);
      if chunk != [] {
        prerollChunks := prerollChunks + [chunk];
      }
    }

    method OnLongHoldEnd(online: bool, mic: bytes)
      modifies this, device
      ensures View() == Happen(old(View()), EndHold(online, mic))
    {
      if device.mode == Recording {
        var stream := device.streamId;
        if online {
          StreamRecordingChunk(true, online, mic);
        }
        device.ChangeMode(Uploading, "");
        micRecording := false;
        if online && stream.Some? {
          wire := wire + [RecordingFinished(stream)];
        }
        device.ChangeMode(Thinking, "");
      }
    }

    /** The audio part of the main loop. */
    method Update(online: bool, preMic: bytes, mic: bytes)
      modifies this
      ensures View() == Happen(old(View()), Tick(online, preMic, mic))
    {
      CapturePrerollChunk(preMic);
      StreamRecordingChunk(false, online, mic);
    }
  }
}
