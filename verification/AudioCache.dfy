/** The stick's cache of response audio, its size account, and playback. */
module AudioCache {
  import opened Bytes
  import opened Common
  import opened Wav

  /** An entry grows until it is finalized; a finalized one cannot be extended. */
  datatype Entry = Growing(data: bytes) | Final(data: bytes)

  const MAX_AUDIO_CACHE_SIZE := 256 * 1024
  const WRITE_SIZE := 1024

  /** `live` names the entry whose own buffer is being played: the player holds the same byte
      array as a growing entry, so it grows with it until the entry is finalized or dropped. */
  datatype Player = Idle | Playing(buffer: bytes, position: nat, live: Option<string>)

  /** `order` lists the cached ids in the order of their begins, as the program takes its
      dictionary to do. */
  datatype Audio = Audio(cache: map<string, Entry>, order: seq<string>, size: int, player: Player, speaker: seq<bytes>)

  datatype Op =
    | Begin(id: string)
    | Chunk(id: string, data: bytes)
    | End(id: string)
    | Clear(id: string)
    | Play(wanted: Option<string>, speakerWorks: bool)
    | Stop
    | Write

  function Without(order: seq<string>, id: string): seq<string> {
    if order == [] then []
    else if order[0] == id then order[1..]
    else [order[0]] + Without(order[1..], id)
  }

  /** The player keeps the bytes it has, and they no longer grow. */
  function Detach(player: Player, id: string): Player {
    if player.Playing? && player.live == Some(id) then player.(live := None) else player
  }

  function Drop(a: Audio, id: string): Audio {
    if id in a.cache then
      a.(cache := a.cache - {id}, order := Without(a.order, id),
         size := a.size - |a.cache[id].data|, player := Detach(a.player, id))
    else a
  }

  /** The wanted entry, or the one that was begun last. */
  function Wanted(a: Audio, wanted: Option<string>): Option<string> {
    if wanted.Some? || a.order == [] then wanted else Some(a.order[|a.order| - 1])
  }

  /** The new state and what the operation reports. */
  function Do(a: Audio, op: Op): (Audio, bool) {
    match op
    case Begin(id) =>
      var dropped := Drop(a, id);
      if dropped.size >= MAX_AUDIO_CACHE_SIZE then (dropped, false)
      else (dropped.(cache := dropped.cache[id := Growing([])], order := dropped.order + [id]), true)
    case Chunk(id, data) =>
      if id !in a.cache || a.cache[id].Final? then (a, false)
      else
        var player := if a.player.Playing? && a.player.live == Some(id) then a.player.(buffer := a.player.buffer + data)
                      else a.player;
        (a.(cache := a.cache[id := Growing(a.cache[id].data + data)], size := a.size + |data|, player := player), true)
    case End(id) =>
      if id !in a.cache then (a, false)
      else (a.(cache := a.cache[id := Final(a.cache[id].data)], player := Detach(a.player, id)), true)
    case Clear(id) =>
      if id != "" then (Drop(a, id), true)
      else
        var player := if a.player.Playing? then a.player.(live := None) else a.player;
        (a.(cache := map[], order := [], size := 0, player := player), true)
    case Play(wanted, speakerWorks) =>
      var id := Wanted(a, wanted);
      if id.None? || id.value !in a.cache || a.cache[id.value].data == [] || !speakerWorks then (a, false)
      else
        var entry := a.cache[id.value];
        (a.(player := Playing(entry.data, 0, if entry.Growing? then id else None)), true)
    case Stop => (a.(player := Idle), a.player.Playing?)
    case Write =>
      if a.player.Idle? then (a, false)
      else if a.player.position >= |a.player.buffer| then (a.(player := Idle), false)
      else
        var rest := a.player.buffer[a.player.position..];
        var piece := if |rest| < WRITE_SIZE then rest else rest[..WRITE_SIZE];
        (a.(player := a.player.(position := a.player.position + |piece|), speaker := a.speaker + [piece]), true)
  }

  function DoAll(a: Audio, ops: seq<Op>): Audio
    decreases |ops|
  {
    if ops == [] then a else DoAll(Do(a, ops[0]).0, ops[1..])
  }

  class AudioManager {
    var audioCache: map<string, Entry>
    var cacheOrder: seq<string>
    var cacheSize: int
    var playing: bool
    var playBuffer: bytes
    var playPosition: nat
    var playsCacheOf: Option<string>
    var speaker: seq<bytes>

    ghost function View(): Audio
      reads this
    {
      Audio(audioCache, cacheOrder, cacheSize,
            if playing then Playing(playBuffer, playPosition, playsCacheOf) else Idle, speaker)
    }

    /** What is playing is never empty. */
    ghost predicate Valid()
      reads this
    {
      playing ==> playBuffer != []
    }

    constructor ()
      ensures Valid() && View() == Audio(map[], [], 0, Idle, [])
    {
      audioCache, cacheOrder, cacheSize, speaker := map[], [], 0, [];
      playing, playBuffer, playPosition, playsCacheOf := false, [], 0, None;
    }

    /** Takes an entry out of the cache; a player that holds its buffer keeps it. */
    method Delete(id: string)
      requires Valid() && id in audioCache
      modifies this`audioCache, this`cacheOrder, this`playsCacheOf
      ensures Valid() && View() == Drop(old(View()), id).(size := cacheSize)
    {
      audioCache := audioCache - {id};
      cacheOrder := Without(cacheOrder, id);
      if playsCacheOf == Some(id) {
        playsCacheOf := None;
      }
    }

    method CacheAudioBegin(id: string) returns (ok: bool)
      requires Valid()
      modifies this
      ensures Valid() && (View(), ok) == Do(old(View()), Begin(id))
    {
      if id in audioCache {
        var oldSize := |audioCache[id].data|;
        cacheSize := cacheSize - oldSize;
        Delete(id);
      }
      if cacheSize >= MAX_AUDIO_CACHE_SIZE {
        return false;
      }
      audioCache := audioCache[id := Growing([])];
      cacheOrder := cacheOrder + [id];
      ok := true;
    }

    method CacheAudioChunk(id: string, data: bytes) returns (ok: bool)
      requires Valid()
      modifies this
      ensures Valid() && (View(), ok) == Do(old(View()), Chunk(id, data))
    {
      if id !in audioCache {
        return false;
      }
      if audioCache[id].Final? {
        return false;
      }
      audioCache := audioCache[id := Growing(audioCache[id].data + data)];
      if playing && playsCacheOf == Some(id) {
        playBuffer := playBuffer + data;
      }
      cacheSize := cacheSize + |data|;
      ok := true;
    }

    method CacheAudioEnd(id: string) returns (ok: bool)
      requires Valid()
      modifies this
      ensures Valid() && (View(), ok) == Do(old(View()), End(id))
    {
      if id !in audioCache {
        return false;
      }
      audioCache := audioCache[id := Final(audioCache[id].data)];
      if playsCacheOf == Some(id) {
        playsCacheOf := None;
      }
      ok := true;
    }

    method ClearCache(id: string)
      requires Valid()
      modifies this
      ensures Valid() && View() == Do(old(View()), Clear(id)).0
    {
      if id != "" {
        if id in audioCache {
          var size := |audioCache[id].data|;
          cacheSize := cacheSize - size;
          Delete(id);
        }
      } else {
        audioCache, cacheOrder, playsCacheOf := map[], [], None;
        cacheSize := 0;
      }
    }

    method StartPlaying(wanted: Option<string>, speakerWorks: bool) returns (ok: bool)
      requires Valid()
      modifies this
      ensures Valid() && (View(), ok) == Do(old(View()), Play(wanted, speakerWorks))
    {
      var id: string;
      if wanted.Some? {
        id := wanted.value;
      } else if cacheOrder != [] {
        id := cacheOrder[|cacheOrder| - 1];
      } else {
        return false;
      }
      if id !in audioCache || audioCache[id].data == [] {
        return false;
      }
      if !speakerWorks {
        return false;
      }
      playBuffer, playPosition, playing := audioCache[id].data, 0, true;
      playsCacheOf := if audioCache[id].Growing? then Some(id) else None;
      ok := true;
    }

    method StopPlaying() returns (ok: bool)
      requires Valid()
      modifies this
      ensures Valid() && (View(), ok) == Do(old(View()), Stop)
    {
      if !playing {
        return false;
      }
      playing := false;
      ok := true;
    }

    /** Returns how many bytes went to the speaker. */
    method WriteAudioChunk() returns (written: nat)
      requires Valid()
      modifies this
      ensures Valid() && View() == Do(old(View()), Write).0
      ensures written > 0 <==> Do(old(View()), Write).1
      ensures speaker == if written > 0 then old(speaker) + [speaker[|speaker| - 1]] else old(speaker)
      ensures written > 0 ==> |speaker| > 0 && |speaker[|speaker| - 1]| == written <= WRITE_SIZE
    {
      if !playing || playBuffer == [] {
        return 0;
      }
      var left: int := |playBuffer| - playPosition;
      var chunkSize := if left < WRITE_SIZE then left else WRITE_SIZE;
      if chunkSize <= 0 {
        var stopped := StopPlaying();
        return 0;
      }
      var chunk := playBuffer[playPosition..playPosition + chunkSize];
      ghost var rest := playBuffer[playPosition..];
      assert chunk == if |rest| < WRITE_SIZE then rest else rest[..WRITE_SIZE];
      speaker := speaker + [chunk];
      playPosition := playPosition + chunkSize;
      written := chunkSize;
    }
  }

  // ----- The size account -----

  /** The bytes in the cache, counted entry by entry. */
  ghost function Total(cache: map<string, Entry>): nat
    decreases |cache|
  {
    if cache == map[] then 0
    else
      var id :| id in cache;
      |cache[id].data| + Total(cache - {id})
  }

  /** It does not matter in which order the entries are counted. */
  lemma {:induction false} TotalWithout(cache: map<string, Entry>, id: string)
    requires id in cache
    ensures Total(cache) == |cache[id].data| + Total(cache - {id})
    decreases |cache|
  {
    var first :| first in cache && Total(cache) == |cache[first].data| + Total(cache - {first});
    if first != id {
      TotalWithout(cache - {first}, id);
      TotalWithout(cache - {id}, first);
      assert cache - {first} - {id} == cache - {id} - {first};
    }
  }

  lemma TotalWith(cache: map<string, Entry>, id: string, e: Entry)
    ensures Total(cache[id := e]) == |e.data| + Total(cache - {id})
  {
    TotalWithout(cache[id := e], id);
    assert cache[id := e] - {id} == cache - {id};
  }

  lemma TotalAbsent(cache: map<string, Entry>, id: string)
    requires id !in cache
    ensures cache - {id} == cache
  {}

  lemma SizeIsKept(a: Audio, op: Op)
    requires a.size == Total(a.cache)
    ensures Do(a, op).0.size == Total(Do(a, op).0.cache)
  {
    hide Total;
    if (op.Begin? || op.Chunk? || op.End? || op.Clear?) && op.id in a.cache {
      TotalWithout(a.cache, op.id);
    }
    match op
    case Begin(id) =>
      TotalWith(Drop(a, id).cache, id, Growing([]));
      TotalAbsent(Drop(a, id).cache, id);
    case Chunk(id, data) => if id in a.cache { TotalWith(a.cache, id, Growing(a.cache[id].data + data)); }
    case End(id) => if id in a.cache { TotalWith(a.cache, id, Final(a.cache[id].data)); }
    case Clear(id) => EmptyTotal();
    case _ =>
  }

  lemma EmptyTotal()
    ensures Total(map[]) == 0
  {}

  /** Over every run of cache operations, refused ones included, the size is the number of
      bytes in the cache. */
  lemma {:induction false} SizeIsTheTotal(a: Audio, ops: seq<Op>)
    requires a.size == Total(a.cache)
    ensures DoAll(a, ops).size == Total(DoAll(a, ops).cache)
    decreases |ops|
  {
    hide Total, Do;
    if ops != [] {
      SizeIsKept(a, ops[0]);
      SizeIsTheTotal(Do(a, ops[0]).0, ops[1..]);
    }
  }

  // ----- Playback -----

  /** Everything but starting or stopping playback. */
  predicate WhilePlaying(op: Op) {
    !op.Play? && !op.Stop?
  }

  function Writes(ops: seq<Op>): nat {
    if ops == [] then 0 else (if ops[0].Write? then 1 else 0) + Writes(ops[1..])
  }

  /** From a position on, each write sends the next piece, and the one after the last stops. */
  lemma {:induction false} PiecesAreWritten(a: Audio, ops: seq<Op>, sent: seq<bytes>)
    requires a.player.Playing? && a.player.position <= |a.player.buffer| && a.player.live.None?
    requires forall i | 0 <= i < |ops| :: WhilePlaying(ops[i])
    requires a.speaker == sent
    ensures var left := Pieces(a.player.buffer[a.player.position..], WRITE_SIZE);
            var end := DoAll(a, ops);
            && end.speaker == sent + (if Writes(ops) < |left| then left[..Writes(ops)] else left)
            && (end.player.Playing? <==> Writes(ops) <= |left|)
    decreases |ops|
  {
    hide Pieces;
    var left := Pieces(a.player.buffer[a.player.position..], WRITE_SIZE);
    if ops == [] {
      assert sent + left[..0] == sent && left[..0] == [];
      assert |left| == 0 ==> sent + left == sent;
    } else if !ops[0].Write? {
      PiecesAreWritten(Do(a, ops[0]).0, ops[1..], sent);
    } else if a.player.position == |a.player.buffer| {
      NothingLeft(a.player.buffer);
      IdleStays(Do(a, ops[0]).0, ops[1..]);
      assert sent + left == sent;
    } else {
      var piece := PieceWritten(a);
      var next := Do(a, Write).0;
      PiecesAreWritten(next, ops[1..], sent + [piece]);
      var more := Pieces(next.player.buffer[next.player.position..], WRITE_SIZE);
      hide Do, DoAll;
      TakeOneMore(sent, piece, more, Writes(ops[1..]));
    }
  }

  lemma TakeOneMore<T>(sent: seq<T>, piece: T, more: seq<T>, n: nat)
    ensures var left := [piece] + more;
            sent + [piece] + (if n < |more| then more[..n] else more)
            == sent + (if n + 1 < |left| then left[..n + 1] else left)
  {
    var left := [piece] + more;
    if n < |more| {
      assert left[..n + 1] == [piece] + more[..n];
    }
    Regroup(sent, [piece], if n < |more| then more[..n] else more);
  }

  /** One write sends the first piece of what is left. */
  lemma PieceWritten(a: Audio) returns (piece: bytes)
    requires a.player.Playing? && a.player.position < |a.player.buffer|
    ensures var next := Do(a, Write).0;
            && next.speaker == a.speaker + [piece]
            && next.player.Playing? && next.player == a.player.(position := next.player.position)
            && 1 <= |piece| <= WRITE_SIZE && piece == a.player.buffer[a.player.position..next.player.position]
            && a.player.position < next.player.position <= |a.player.buffer|
            && Pieces(a.player.buffer[a.player.position..], WRITE_SIZE)
               == [piece] + Pieces(a.player.buffer[next.player.position..], WRITE_SIZE)
  {
    hide Pieces;
    var at, b := a.player.position, a.player.buffer;
    var rest := b[at..];
    piece := if |rest| < WRITE_SIZE then rest else rest[..WRITE_SIZE];
    FirstPiece(b, at, WRITE_SIZE);
    assert b[|b|..] == [];
    if |rest| >= WRITE_SIZE {
      assert rest[..WRITE_SIZE] == b[at..at + WRITE_SIZE];
    }
  }

  lemma NothingLeft(buffer: bytes)
    ensures Pieces(buffer[|buffer|..], WRITE_SIZE) == []
  {}

  lemma {:induction false} IdleStays(a: Audio, ops: seq<Op>)
    requires a.player.Idle? && forall i | 0 <= i < |ops| :: WhilePlaying(ops[i])
    ensures DoAll(a, ops).speaker == a.speaker && DoAll(a, ops).player.Idle?
    decreases |ops|
  {
    if ops != [] {
      IdleStays(Do(a, ops[0]).0, ops[1..]);
    }
  }

  /** Playing a finalized entry, with any cache operations in between: the writes send its
      bytes in order, at most 1024 at a time, all of them, and then playback stops. */
  lemma PlaybackIsWhole(a: Audio, id: string, ops: seq<Op>)
    requires id in a.cache && a.cache[id].Final? && a.cache[id].data != []
    requires forall i | 0 <= i < |ops| :: WhilePlaying(ops[i])
    ensures var data := a.cache[id].data;
            var pieces := Pieces(data, WRITE_SIZE);
            var end := DoAll(Do(a, Play(Some(id), true)).0, ops);
            && Join(pieces) == data
            && (forall i | 0 <= i < |pieces| :: 1 <= |pieces[i]| <= WRITE_SIZE)
            && (Writes(ops) <= |pieces| ==> end.player.Playing? && end.speaker == a.speaker + pieces[..Writes(ops)])
            && (Writes(ops) > |pieces| ==> end.player.Idle? && end.speaker == a.speaker + pieces)
  {
    var data := a.cache[id].data;
    var pieces := Pieces(data, WRITE_SIZE);
    var p := Do(a, Play(Some(id), true)).0;
    assert data[0..] == data;
    PiecesAreWritten(p, ops, a.speaker);
    assert Writes(ops) == |pieces| ==> pieces[..Writes(ops)] == pieces;
  }

  // ----- Entries that still grow, and the latest one -----

  /** The order lists the cached ids, each once, and a player that plays a growing entry holds
      exactly the bytes of that entry. */
  ghost predicate Consistent(a: Audio) {
    && (forall id :: id in a.order <==> id in a.cache)
    && (forall i, j | 0 <= i < j < |a.order| :: a.order[i] != a.order[j])
    && (a.player.Playing? && a.player.live.Some? ==>
          var id := a.player.live.value;
          id in a.cache && a.cache[id].Growing? && a.player.buffer == a.cache[id].data)
  }

  lemma {:induction false} WithoutRemoves(order: seq<string>, id: string)
    requires forall i, j | 0 <= i < j < |order| :: order[i] != order[j]
    ensures var rest := Without(order, id);
            && (forall x :: x in rest <==> x in order && x != id)
            && (forall i, j | 0 <= i < j < |rest| :: rest[i] != rest[j])
  {
    if order != [] {
      var tail := order[1..];
      assert order == [order[0]] + tail && order[0] !in tail;
      forall i, j | 0 <= i < j < |tail| ensures tail[i] != tail[j] {
        assert tail[i] == order[i + 1] && tail[j] == order[j + 1];
      }
      if order[0] != id {
        WithoutRemoves(tail, id);
        var rest := [order[0]] + Without(tail, id);
        forall i, j | 0 <= i < j < |rest| ensures rest[i] != rest[j] {
          assert rest[j] == Without(tail, id)[j - 1] && rest[j] in Without(tail, id);
          if i > 0 { assert rest[i] == Without(tail, id)[i - 1]; }
        }
      }
    }
  }

  lemma ConsistentStep(a: Audio, op: Op)
    requires Consistent(a)
    ensures Consistent(Do(a, op).0)
  {
    if op.Begin? || op.Clear? {
      DropIsConsistent(a, op.id);
    }
    if op.Begin? && Do(a, op).1 {
      var d, b := Drop(a, op.id), Do(a, op).0;
      assert op.id !in d.order;
      forall id ensures id in b.order <==> id in b.cache {
        assert id in b.order <==> id in d.order || id == op.id;
      }
    }
  }

  lemma DropIsConsistent(a: Audio, id: string)
    requires Consistent(a)
    ensures Consistent(Drop(a, id)) && id !in Drop(a, id).cache
  {
    WithoutRemoves(a.order, id);
  }

  lemma {:induction false} RunsAreConsistent(a: Audio, ops: seq<Op>)
    requires Consistent(a)
    ensures Consistent(DoAll(a, ops))
    decreases |ops|
  {
    hide Consistent, Do;
    if ops != [] {
      ConsistentStep(a, ops[0]);
      RunsAreConsistent(Do(a, ops[0]).0, ops[1..]);
    }
  }

  /** Playing without an id, after any run: it starts exactly when the entry that was begun last,
      of those still cached, has bytes and the speaker works, and it plays that entry. */
  lemma LatestIsPlayed(ops: seq<Op>, speakerWorks: bool)
    ensures var a := DoAll(Audio(map[], [], 0, Idle, []), ops);
            var (b, ok) := Do(a, Play(None, speakerWorks));
            && Consistent(a)
            && (a.cache == map[] <==> a.order == [])
            && (a.order != [] ==> a.order[|a.order| - 1] in a.cache)
            && (ok <==> a.order != [] && a.cache[a.order[|a.order| - 1]].data != [] && speakerWorks)
            && (ok ==> b.player.Playing? && b.player.position == 0
                       && b.player.buffer == a.cache[a.order[|a.order| - 1]].data)
  {
    hide Do, DoAll;
    var start := Audio(map[], [], 0, Idle, []);
    RunsAreConsistent(start, ops);
    var a := DoAll(start, ops);
    if a.order != [] {
      assert a.order[|a.order| - 1] in a.order;
    }
    if id :| id in a.cache {
      assert id in a.order;
    }
    LatestOf(a, speakerWorks);
  }

  lemma LatestOf(a: Audio, speakerWorks: bool)
    requires a.order != [] ==> a.order[|a.order| - 1] in a.cache
    ensures var (b, ok) := Do(a, Play(None, speakerWorks));
            && (ok <==> a.order != [] && a.cache[a.order[|a.order| - 1]].data != [] && speakerWorks)
            && (ok ==> b.player.Playing? && b.player.position == 0
                       && b.player.buffer == a.cache[a.order[|a.order| - 1]].data)
  {}

  /** A begin that succeeds makes its entry the latest. */
  lemma BeginMakesLatest(a: Audio, id: string)
    ensures var (b, ok) := Do(a, Begin(id)); ok ==> b.order != [] && b.order[|b.order| - 1] == id
  {}

  /** Playing any entry, also one that still receives chunks: what is written is, piece by piece,
      what the entry has from the position on; the bytes only grow, and playback stops exactly
      when it has written all there is at that time. */
  lemma {:induction false} PlaybackFollowsTheEntry(a: Audio, ops: seq<Op>) returns (pieces: seq<bytes>, whole: bytes)
    requires a.player.Playing? && a.player.position <= |a.player.buffer|
    requires forall i | 0 <= i < |ops| :: WhilePlaying(ops[i])
    ensures var end := DoAll(a, ops);
            && end.speaker == a.speaker + pieces
            && (forall i | 0 <= i < |pieces| :: 1 <= |pieces[i]| <= WRITE_SIZE)
            && a.player.buffer <= whole && (a.player.live.None? ==> whole == a.player.buffer)
            && Join(pieces) <= whole[a.player.position..]
            && (end.player.Idle? ==> Join(pieces) == whole[a.player.position..])
            && (end.player.Playing? ==>
                  && end.player.buffer == whole
                  && end.player.position == a.player.position + |Join(pieces)|)
    decreases |ops|
  {
    if ops == [] {
      pieces, whole := [], a.player.buffer;
    } else if ops[0].Write? && a.player.position == |a.player.buffer| {
      IdleStays(Do(a, Write).0, ops[1..]);
      pieces, whole := [], a.player.buffer;
      assert a.speaker + [] == a.speaker;
    } else {
      var next := Do(a, ops[0]).0;
      var more;
      more, whole := PlaybackFollowsTheEntry(next, ops[1..]);
      if ops[0].Write? {
        var piece := PieceWritten(a);
        pieces := [piece] + more;
        OnePieceMore(a.player.buffer, whole, a.player.position, next.player.position, piece, more);
        Regroup(a.speaker, [piece], more);
      } else {
        pieces := more;
      }
    }
  }

  lemma OnePieceMore(buffer: bytes, whole: bytes, from: nat, to: nat, piece: bytes, more: seq<bytes>)
    requires from <= to <= |buffer| && buffer <= whole && piece == buffer[from..to]
    requires Join(more) <= whole[to..]
    ensures Join([piece] + more) == piece + Join(more)
    ensures Join([piece] + more) <= whole[from..]
    ensures Join(more) == whole[to..] ==> Join([piece] + more) == whole[from..]
  {
    assert ([piece] + more)[1..] == more;
    assert whole[from..] == whole[from..to] + whole[to..] && whole[from..to] == buffer[from..to];
  }
}
