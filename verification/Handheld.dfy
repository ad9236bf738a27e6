/** The receiving side of the audio cache protocol on the handheld: one chunk
    list shared by every response, and the finished audio per response id. */
module Handheld {
  import opened Bytes
  import opened Common
  import opened Wav

  /** A cache command. Response ids are fresh, so the number of the delivery
      task that generated the id stands for it. A begin may say the sample rate
      and the number of channels. */
  datatype Command =
    | Begin(task: nat, rate: Option<int>, channels: Option<int>)
    | Chunk(task: nat, index: nat, data: bytes)
    | End(task: nat)

  /** What is being received: the chunks so far, and the format the last begin said. */
  datatype Recording = Recording(chunks: seq<bytes>, rate: int, channels: int)

  /** The samples of a saved file, with the format of its header. */
  datatype Clip = Clip(pcm: bytes, rate: int, channels: int)

  datatype Cache = Cache(recording: Recording, stored: map<nat, Clip>)

  datatype Handled = Handled(cache: Cache, ok: bool)

  /** An argument that is missing or zero takes the default. */
  function OrDefault(argument: Option<int>, default: int): int {
    if argument.None? || argument.value == 0 then default else argument.value
  }

  /** The file that is saved for a clip, which the response id then names. */
  function FileOf(clip: Clip): File {
    WavFile(clip.pcm, clip.rate, clip.channels, 16)
  }

  /** What handling one command does to the cache. Note that `Chunk` never looks
      at the response id: the chunk list belongs to whoever sends. */
  function Handle(cache: Cache, command: Command): Handled {
    match command
    case Begin(_, rate, channels) =>
      Handled(cache.(recording := Recording([], OrDefault(rate, 24000), OrDefault(channels, 1))), true)
    case Chunk(_, _, data) =>
      if data == [] then Handled(cache, false)
      else Handled(cache.(recording := cache.recording.(chunks := cache.recording.chunks + [data])), true)
    case End(task) =>
      var clip := Clip(Join(cache.recording.chunks), cache.recording.rate, cache.recording.channels);
      if cache.recording.chunks == [] || FileOf(clip).StructError? then Handled(cache, false)
      else Handled(Cache(cache.recording.(chunks := []), cache.stored[task := clip]), true)
  }

  /** The command handlers as the client runs them, on its own fields. */
  class CacheHandlers {
    var recordingChunks: seq<bytes>
    var recordingSampleRate: int
    var recordingChannels: int
    var responseAudio: map<nat, Clip>

    constructor ()
      ensures View() == Cache(Recording([], 24000, 1), map[])
    {
      recordingChunks, recordingSampleRate, recordingChannels, responseAudio := [], 24000, 1, map[];
    }

    ghost function View(): Cache
      reads this
    {
      Cache(Recording(recordingChunks, recordingSampleRate, recordingChannels), responseAudio)
    }

    method PutBegin(task: nat, rate: Option<int>, channels: Option<int>) returns (ok: bool)
      modifies this`recordingChunks, this`recordingSampleRate, this`recordingChannels
      ensures Handled(View(), ok) == Handle(old(View()), Begin(task, rate, channels))
    {
      recordingChunks := [];
      recordingSampleRate := OrDefault(rate, 24000);
      recordingChannels := OrDefault(channels, 1);
      ok := true;
    }

    method PutChunk(task: nat, index: nat, data: bytes) returns (ok: bool)
      modifies this`recordingChunks
      ensures Handled(View(), ok) == Handle(old(View()), Chunk(task, index, data))
    {
      if data == [] {
        return false;
      }
      recordingChunks := recordingChunks + [data];
      ok := true;
    }

    /** Saving can fail when the audio is too long for a header. */
    method PutEnd(task: nat) returns (ok: bool)
      modifies this`recordingChunks, this`responseAudio
      ensures Handled(View(), ok) == Handle(old(View()), End(task))
    {
      hide Fits;
      if recordingChunks == [] {
        return false;
      }
      var combined := Join(recordingChunks);
      var file := SaveWav(combined, recordingSampleRate, recordingChannels);
      if file.StructError? {
        return false;
      }
      responseAudio := responseAudio[task := Clip(combined, recordingSampleRate, recordingChannels)];
      recordingChunks := [];
      ok := true;
    }
  }

  // ----- One session -----

  function HandleAll(cache: Cache, commands: seq<Command>): Handled
    decreases |commands|
  {
    if commands == [] then Handled(cache, true)
    else
      var first := Handle(cache, commands[0]);
      var rest := HandleAll(first.cache, commands[1..]);
      Handled(rest.cache, first.ok && rest.ok)
  }

  /** The chunks of a response from the k-th on, and its end. */
  function ChunksAndEnd(task: nat, audio: seq<bytes>, k: nat): seq<Command>
    requires k <= |audio|
    decreases |audio| - k
  {
    if k == |audio| then [End(task)] else [Chunk(task, k, audio[k])] + ChunksAndEnd(task, audio, k + 1)
  }

  lemma {:induction false} ChunksAreCollected(cache: Cache, task: nat, audio: seq<bytes>, k: nat)
    requires k <= |audio| && cache.recording.chunks == audio[..k] && audio != []
    requires forall i | 0 <= i < |audio| :: audio[i] != []
    ensures var clip := Clip(Join(audio), cache.recording.rate, cache.recording.channels);
            HandleAll(cache, ChunksAndEnd(task, audio, k)) ==
            if FileOf(clip).File?
            then Handled(Cache(cache.recording.(chunks := []), cache.stored[task := clip]), true)
            else Handled(cache.(recording := cache.recording.(chunks := audio)), false)
    decreases |audio| - k
  {
    hide FileOf, Join;
    var commands := ChunksAndEnd(task, audio, k);
    if k == |audio| {
      assert audio[..k] == audio;
      assert commands[1..] == [];
    } else {
      assert commands[0] == Chunk(task, k, audio[k]) && commands[1..] == ChunksAndEnd(task, audio, k + 1);
      assert audio[..k] + [audio[k]] == audio[..k + 1];
      ChunksAreCollected(Handle(cache, commands[0]).cache, task, audio, k + 1);
    }
  }

  /** A whole session, on a cache in any state: the clip is all the audio, in the format the begin
      names, and 24000 samples a second of one channel where it names none or zero. It is stored
      exactly when it fits in a file. */
  lemma SessionIsStored(cache: Cache, task: nat, rate: Option<int>, channels: Option<int>, audio: seq<bytes>)
    requires audio != [] && forall i | 0 <= i < |audio| :: audio[i] != []
    ensures var after := HandleAll(cache, [Begin(task, rate, channels)] + ChunksAndEnd(task, audio, 0));
            var clip := Clip(Join(audio), match rate case Some(r) => (if r != 0 then r else 24000) case None => 24000,
                             match channels case Some(c) => (if c != 0 then c else 1) case None => 1);
            && (after.ok <==> FileOf(clip).File?)
            && after.cache.stored == if FileOf(clip).File? then cache.stored[task := clip] else cache.stored
  {
    hide FileOf, Join;
    var commands := [Begin(task, rate, channels)] + ChunksAndEnd(task, audio, 0);
    assert commands[1..] == ChunksAndEnd(task, audio, 0) && audio[..0] == [];
    ChunksAreCollected(Handle(cache, commands[0]).cache, task, audio, 0);
  }
}
