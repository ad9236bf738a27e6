/** Buffering an uploaded recording on the gateway, and putting it together again. */
module Accumulator {
  import opened Arithmetic
  import opened Bytes
  import opened Common

  // ----- Mono -----

  /** The first channel of every whole frame. */
  function Mono(pcm: bytes, channels: int): bytes
    decreases |pcm|
  {
    if channels <= 1 then pcm
    else if |pcm| < 2 * channels then []
    else pcm[..2] + Mono(pcm[2 * channels..], channels)
  }

  lemma {:induction false} MonoSize(pcm: bytes, channels: int)
    requires channels > 1
    ensures |Mono(pcm, channels)| == 2 * (|pcm| / (2 * channels))
    decreases |pcm|
  {
    if |pcm| >= 2 * channels {
      MonoSize(pcm[2 * channels..], channels);
      DivStep(|pcm|, 2 * channels);
    } else {
      DivSmall(|pcm|, 2 * channels);
    }
  }

  /** The k-th sample of mono is the first of the k-th frame; without a second channel nothing
      changes. */
  lemma {:induction false} MonoIsTheFirstChannel(pcm: bytes, channels: int, k: nat, at: nat)
    requires channels > 1 && AtFrame(at, k, 2 * channels) && at + 2 * channels <= |pcm|
    ensures 2 * k + 2 <= |Mono(pcm, channels)| && Mono(pcm, channels)[2 * k..2 * k + 2] == pcm[at..at + 2]
    ensures Mono(pcm, 1) == pcm
    decreases k
  {
    if k == 0 {
      assert at == 0;
    } else {
      var rest := pcm[2 * channels..];
      assert at - 2 * channels == (k - 1) * (2 * channels) by { Multiples(0, k, 2 * channels); }
      Multiples(0, k, 2 * channels);
      MonoIsTheFirstChannel(rest, channels, k - 1, at - 2 * channels);
      assert Mono(pcm, channels)[2 * k..2 * k + 2] == Mono(rest, channels)[2 * (k - 1)..2 * (k - 1) + 2];
      assert pcm[at..at + 2] == rest[at - 2 * channels..at - 2 * channels + 2];
    }
  }

  /** Mono of a split is the split of mono, when the first part holds whole frames. */
  lemma {:induction false} MonoOfAppend(a: bytes, b: bytes, channels: int)
    requires channels > 1 ==> |a| % (2 * channels) == 0
    ensures Mono(a + b, channels) == Mono(a, channels) + Mono(b, channels)
    decreases |a|
  {
    if channels > 1 {
      var frame := 2 * channels;
      if |a| < frame {
        DivSmall(|a|, frame);
        assert a + b == b;
      } else {
        DivStep(|a|, frame);
        MonoOfAppend(a[frame..], b, channels);
        assert (a + b)[frame..] == a[frame..] + b;
        assert (a + b)[..2] == a[..2];
      }
    }
  }

  /** The converter fills a buffer frame by frame. */
  method Pcm16ToMono(pcm: bytes, channels: int) returns (result: bytes)
    ensures result == Mono(pcm, channels)
  {
    if channels <= 1 {
      return pcm;
    }
    hide Mono, AtFrame;
    var frameWidth := channels * 2;
    if |pcm| < frameWidth {
      NoFrame(pcm, channels);
      return [];
    }
    ghost var frames := FrameCount(|pcm|, channels);
    var usableLen := |pcm| - |pcm| % frameWidth;
    MonoSize(pcm, channels);
    result := FirstChannel(pcm, channels, usableLen, usableLen / channels, frames);
  }

  /** Copies two bytes of every frame into the buffer. */
  method FirstChannel(pcm: bytes, channels: int, usableLen: nat, size: nat, ghost frames: nat) returns (result: bytes)
    requires channels > 1 && 0 < usableLen <= |pcm| < usableLen + 2 * channels
          && AtFrame(usableLen, frames, channels * 2)
    requires AtFrame(0, 0, channels * 2) && size == 2 * frames == |Mono(pcm, channels)|
    ensures result == Mono(pcm, channels)
  {
    hide Mono, AtFrame;
    var usable := pcm[..usableLen];
    var mono := new byte[size];
    var out, idx := 0, 0;
    ghost var k := 0;
    assert pcm[0..] == pcm;
    while idx < usableLen
      invariant 0 <= idx <= usableLen && 0 <= k <= frames && out == 2 * k && AtFrame(idx, k, channels * 2)
      invariant idx == usableLen ==> k == frames
      invariant mono[..out] + Mono(pcm[idx..], channels) == Mono(pcm, channels)
      decreases frames - k
    {
      NextFrame(idx, k, usableLen, frames, channels * 2);
      MonoStep(pcm, idx, channels);
      ghost var before := mono[..out];
      mono[out], mono[out + 1] := usable[idx], usable[idx + 1];
      assert mono[..out + 2] == before + pcm[idx..idx + 2];
      Regroup(before, pcm[idx..idx + 2], Mono(pcm[idx + 2 * channels..], channels));
      out := out + 2;
      idx := idx + channels * 2;
      k := k + 1;
    }
    result := mono[..];
    NoFrame(pcm[idx..], channels);
    assert mono[..out] == result;
  }

  ghost predicate AtFrame(idx: int, k: int, width: int) {
    idx == k * width
  }

  lemma NextFrame(idx: int, k: int, usable: int, frames: int, width: int)
    requires width > 0 && idx < usable && AtFrame(idx, k, width) && AtFrame(usable, frames, width)
    ensures k < frames && idx + width <= usable && AtFrame(idx + width, k + 1, width)
    ensures idx + width == usable ==> k + 1 == frames
  {
    Multiples(k, frames, width);
    Multiples(k + 1, frames, width);
    assert (k + 1) * width == k * width + width;
  }

  lemma NoFrame(pcm: bytes, channels: int)
    requires channels > 1 && |pcm| < 2 * channels
    ensures Mono(pcm, channels) == []
  {}

  lemma MonoStep(pcm: bytes, i: nat, channels: int)
    requires channels > 1 && i + 2 * channels <= |pcm|
    ensures Mono(pcm[i..], channels) == pcm[i..i + 2] + Mono(pcm[i + 2 * channels..], channels)
  {
    var rest := pcm[i..];
    assert rest[..2] == pcm[i..i + 2] && rest[2 * channels..] == pcm[i + 2 * channels..];
  }

  lemma FrameCount(size: nat, channels: int) returns (frames: nat)
    requires channels > 1 && size >= 2 * channels
    ensures var usable := size - size % (channels * 2);
            && frames > 0 && usable > 0 && size - usable < 2 * channels
            && AtFrame(usable, frames, channels * 2) && AtFrame(0, 0, channels * 2)
            && usable / channels == 2 * frames && frames == size / (2 * channels)
  {
    frames := size / (2 * channels);
    assert size == frames * (2 * channels) + size % (2 * channels);
    assert frames * (2 * channels) == (2 * frames) * channels;
    Quotient(frames * (2 * channels), channels, 2 * frames, 0);
  }

  // ----- Streams -----

  /** The numbers 0, 1, ..., n - 1. */
  function Range(n: nat): (s: set<nat>)
    ensures forall k: nat :: k in s <==> k < n
  {
    if n == 0 then {} else Range(n - 1) + {n - 1}
  }

  /** No gap: the sequence numbers are 0 up to some maximum. */
  ghost predicate Complete(chunks: map<nat, bytes>) {
    exists n: nat :: n > 0 && chunks.Keys == Range(n)
  }

  /** A stream is complete exactly when it is not empty and has every number below one it has. */
  lemma CompleteMeansNoGap(chunks: map<nat, bytes>)
    ensures Complete(chunks) <==>
              chunks != map[] && forall j: nat, k: nat | k in chunks && j < k :: j in chunks
  {
    if n: nat :| n > 0 && chunks.Keys == Range(n) {
      assert 0 in Range(n);
    }
    if chunks != map[] && forall j: nat, k: nat | k in chunks && j < k :: j in chunks {
      var top := LargestKey(chunks.Keys);
      assert chunks.Keys == Range(top + 1);
    }
  }

  lemma {:induction false} LargestKey(s: set<nat>) returns (m: nat)
    requires s != {}
    ensures m in s && forall k | k in s :: k <= m
    decreases |s|
  {
    m :| m in s;
    var left := s - {m};
    assert forall k | k in s :: k == m || k in left;
    if left != {} {
      var other := LargestKey(left);
      if other > m { m := other; }
    }
  }

  /** The chunks below n, in the order of their numbers. */
  function Below(chunks: map<nat, bytes>, n: nat): bytes {
    if n == 0 then []
    else Below(chunks, n - 1) + (if n - 1 in chunks then chunks[n - 1] else [])
  }

  class AudioStream {
    const streamId: string
    const channels: int
    var chunks: map<nat, bytes>

    constructor (streamId: string, channels: int)
      ensures chunks == map[] && this.streamId == streamId && this.channels == channels
    {
      this.streamId, this.channels, this.chunks := streamId, channels, map[];
    }

    method IsComplete() returns (complete: bool)
      ensures complete <==> Complete(chunks)
    {
      if chunks == map[] {
        assert forall n: nat | n > 0 :: 0 in Range(n);
        return false;
      }
      var top := Largest(chunks.Keys);
      complete := chunks.Keys == Range(top + 1);
      if Complete(chunks) {
        var n: nat :| n > 0 && chunks.Keys == Range(n);
        assert n - 1 in Range(n) && top in Range(n);
      }
    }

    /** Joins the chunks in the order of their sorted numbers. */
    method ReassemblePcm() returns (pcm: bytes)
      ensures forall n: nat | (forall k | k in chunks :: k < n) :: pcm == Below(chunks, n)
    {
      pcm := [];
      var left := chunks.Keys;
      ghost var from: nat := 0;
      while left != {}
        invariant left <= chunks.Keys
        invariant forall k | k in chunks :: k in left <==> from <= k
        invariant pcm == Below(chunks, from)
        decreases |left|
      {
        var next := Smallest(left);
        pcm := pcm + chunks[next];
        SkipGap(chunks, from, next);
        from := next + 1;
        left := left - {next};
      }
      forall n: nat | forall k | k in chunks :: k < n ensures pcm == Below(chunks, n) {
        if n < from { SkipGap(chunks, n, from); } else { SkipGap(chunks, from, n); }
      }
    }
  }

  lemma {:induction false} SkipGap(chunks: map<nat, bytes>, from: nat, to: nat)
    requires from <= to && forall k | from <= k < to :: k !in chunks
    ensures Below(chunks, to) == Below(chunks, from)
  {
    if from < to {
      SkipGap(chunks, from, to - 1);
    }
  }

  method Largest(s: set<nat>) returns (m: nat)
    requires s != {}
    ensures m in s && forall k | k in s :: k <= m
  {
    m :| m in s;
    var left := s - {m};
    while left != {}
      invariant m in s && left <= s
      invariant forall k | k in s :: k in left || k <= m
      decreases |left|
    {
      var k :| k in left;
      left := left - {k};
      if m < k { m := k; }
    }
  }

  method Smallest(s: set<nat>) returns (m: nat)
    requires s != {}
    ensures m in s && forall k | k in s :: m <= k
  {
    m :| m in s;
    var left := s - {m};
    while left != {}
      invariant m in s && left <= s
      invariant forall k | k in s :: k in left || m <= k
      decreases |left|
    {
      var k :| k in left;
      left := left - {k};
      if k < m { m := k; }
    }
  }

  // ----- The accumulator -----

  /** What buffering a chunk event does to the chunks of all streams. */
  function Buffered(streams: map<string, map<nat, bytes>>, id: string, number: int, data: bytes,
      channels: int): map<string, map<nat, bytes>> {
    if id == "" || number < 0 || data == [] then streams
    else
      var known: map<nat, bytes> := if id in streams then streams[id] else map[];
      var n: nat := number;
      streams[id := known[n := Mono(data, if channels < 1 then 1 else channels)]]
  }

  class StreamAccumulator {
    var streams: map<string, AudioStream>

    ghost predicate Valid()
      reads this, streams.Values
    {
      forall j, k | j in streams && k in streams && j != k :: streams[j] != streams[k]
    }

    ghost function View(): map<string, map<nat, bytes>>
      reads this, streams.Values
    {
      map id | id in streams :: streams[id].chunks
    }

    constructor ()
      ensures Valid() && View() == map[]
    {
      streams := map[];
    }

    method BufferChunk(streamId: string, number: int, data: bytes, channels: int)
      requires Valid()
      modifies this`streams, streams.Values
      ensures Valid()
      ensures View() == Buffered(old(View()), streamId, number, data, channels)
    {
      if streamId == "" || number < 0 || data == [] {
        return;
      }
      hide Mono, Valid;
      var count := if channels < 1 then 1 else channels;
      var stream := StreamOf(streamId, count);
      var pcm := Pcm16ToMono(data, count);
      Store(streamId, stream, number, pcm);
    }

    method StreamOf(streamId: string, channels: int) returns (stream: AudioStream)
      requires Valid()
      modifies this`streams
      ensures Valid() && streamId in streams && streams[streamId] == stream
      ensures View() == if streamId in old(streams) then old(View()) else old(View())[streamId := map[]]
      ensures stream in old(streams.Values) || fresh(stream)
    {
      if streamId in streams {
        stream := streams[streamId];
      } else {
        stream := new AudioStream(streamId, channels);
        streams := streams[streamId := stream];
      }
    }

    method Store(streamId: string, stream: AudioStream, number: nat, pcm: bytes)
      requires Valid() && streamId in streams && streams[streamId] == stream
      modifies stream`chunks
      ensures Valid()
      ensures View() == old(View())[streamId := old(stream.chunks)[number := pcm]]
    {
      stream.chunks := stream.chunks[number := pcm];
    }

    /** The audio handed to speech recognition when a recording ends; the stream is gone. */
    method Take(streamId: string) returns (found: bool, pcm: bytes)
      requires Valid()
      modifies this`streams
      ensures Valid() && View() == old(View()) - {streamId}
      ensures found <==> streamId in old(View())
      ensures found ==> forall n: nat | (forall k | k in old(View())[streamId] :: k < n) ::
                          pcm == Below(old(View())[streamId], n)
    {
      if streamId !in streams {
        return false, [];
      }
      var stream := streams[streamId];
      streams := streams - {streamId};
      pcm := stream.ReassemblePcm();
      found := true;
    }
  }

  // ----- Any order -----

  /** The chunks after events arrive for the given parts of one recording. */
  function Arrived(chunks: map<nat, bytes>, parts: seq<bytes>, arrivals: seq<nat>, channels: int): map<nat, bytes>
    requires forall i | 0 <= i < |arrivals| :: arrivals[i] < |parts|
    decreases |arrivals|
  {
    if arrivals == [] then chunks
    else
      Arrived(chunks[arrivals[0] := Mono(parts[arrivals[0]], channels)], parts, arrivals[1..], channels)
  }

  lemma {:induction false} ArrivedChunks(chunks: map<nat, bytes>, parts: seq<bytes>, arrivals: seq<nat>, channels: int)
    requires forall i | 0 <= i < |arrivals| :: arrivals[i] < |parts|
    requires forall k | k in chunks :: 0 <= k < |parts| && chunks[k] == Mono(parts[k], channels)
    ensures var after := Arrived(chunks, parts, arrivals, channels);
            && (forall k :: k in after <==> k in chunks || k in arrivals)
            && (forall k | k in after :: 0 <= k < |parts| && after[k] == Mono(parts[k], channels))
    decreases |arrivals|
  {
    if arrivals != [] {
      ArrivedChunks(chunks[arrivals[0] := Mono(parts[arrivals[0]], channels)], parts, arrivals[1..], channels);
      assert arrivals == [arrivals[0]] + arrivals[1..];
    }
  }

  /** Every part but the last holds whole frames. */
  ghost predicate Aligned(parts: seq<bytes>, channels: int) {
    channels > 1 ==> forall i | 0 <= i < |parts| - 1 :: |parts[i]| % (2 * channels) == 0
  }

  lemma {:induction false} MonoOfParts(parts: seq<bytes>, chunks: map<nat, bytes>, n: nat, channels: int)
    requires n <= |parts| && Aligned(parts, channels)
    requires forall k | 0 <= k < n :: k in chunks && chunks[k] == Mono(parts[k], channels)
    ensures Mono(Join(parts[..n]), channels) == Below(chunks, n)
    ensures n < |parts| && channels > 1 ==> |Join(parts[..n])| % (2 * channels) == 0
  {
    hide Mono, Join;
    if n == 0 {
      assert parts[..0] == [];
      MonoOfNothing(channels);
      if channels > 1 { DivSmall(0, 2 * channels); }
    } else {
      MonoOfParts(parts, chunks, n - 1, channels);
      assert parts[..n] == parts[..n - 1] + [parts[n - 1]];
      JoinSnoc(parts[..n - 1], parts[n - 1]);
      MonoOfAppend(Join(parts[..n - 1]), parts[n - 1], channels);
      if n < |parts| && channels > 1 {
        SumAligned(|Join(parts[..n - 1])|, |parts[n - 1]|, 2 * channels);
      }
    }
  }

  lemma MonoOfNothing(channels: int)
    ensures Join([]) == [] && Mono([], channels) == []
  {}

  /** Chunks may arrive in any order and more than once: when all have, the stream is
      complete and reassembles to the mono audio of the recording. */
  lemma AnyOrderReassembles(parts: seq<bytes>, arrivals: seq<nat>, channels: int)
    requires parts != [] && Aligned(parts, channels)
    requires forall i | 0 <= i < |arrivals| :: arrivals[i] < |parts|
    requires forall k: nat | k < |parts| :: k in arrivals
    ensures var chunks := Arrived(map[], parts, arrivals, channels);
            Complete(chunks) && Below(chunks, |parts|) == Mono(Join(parts), channels)
  {
    ArrivedChunks(map[], parts, arrivals, channels);
    var chunks := Arrived(map[], parts, arrivals, channels);
    assert chunks.Keys == Range(|parts|);
    MonoOfParts(parts, chunks, |parts|, channels);
    assert parts[..|parts|] == parts;
  }
}
