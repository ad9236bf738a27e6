/** What a session of cache operations leaves in the stick's cache, and that it can be played. */
module AudioStorage {
  import opened Bytes
  import opened Common
  import opened Wav
  import opened AudioCache

  const NOTHING_CACHED := Audio(map[], [], 0, Idle, [])

  /** Every operation of the run reports success. */
  ghost predicate AllWork(a: Audio, ops: seq<Op>)
    decreases |ops|
  {
    ops == [] || (Do(a, ops[0]).1 && AllWork(Do(a, ops[0]).0, ops[1..]))
  }

  lemma {:induction false} RunAppend(a: Audio, ops: seq<Op>, more: seq<Op>)
    ensures DoAll(a, ops + more) == DoAll(DoAll(a, ops), more)
    ensures AllWork(a, ops + more) <==> AllWork(a, ops) && AllWork(DoAll(a, ops), more)
    decreases |ops|
  {
    hide Do;
    if ops == [] {
      assert ops + more == more;
    } else {
      RunAppend(Do(a, ops[0]).0, ops[1..], more);
      assert (ops + more)[1..] == ops[1..] + more;
    }
  }

  lemma RunOne(a: Audio, op: Op)
    ensures DoAll(a, [op]) == Do(a, op).0 && (AllWork(a, [op]) <==> Do(a, op).1)
  {
    hide Do;
    assert [op][1..] == [];
  }

  // ----- Beginning -----

  /** After any run, a begin is accepted exactly when the other entries have fewer bytes than 256
      KiB. It always drops the entry it replaces, and one that is accepted puts an empty one there. */
  lemma BeginNeedsRoom(ops: seq<Op>, id: string)
    ensures var a := DoAll(NOTHING_CACHED, ops);
            var (b, ok) := Do(a, Begin(id));
            && (ok <==> Total(a.cache - {id}) < 262144)
            && b.cache == (if ok then (a.cache - {id})[id := Growing([])] else a.cache - {id})
  {
    hide DoAll, Total;
    EmptyTotal();
    SizeIsTheTotal(NOTHING_CACHED, ops);
    var a := DoAll(NOTHING_CACHED, ops);
    if id in a.cache {
      TotalWithout(a.cache, id);
    } else {
      TotalAbsent(a.cache, id);
    }
  }

  // ----- A whole session -----

  function ChunkOps(id: string, chunks: seq<bytes>): seq<Op> {
    if chunks == [] then [] else [Chunk(id, chunks[0])] + ChunkOps(id, chunks[1..])
  }

  function Session(id: string, chunks: seq<bytes>): seq<Op> {
    [Begin(id)] + ChunkOps(id, chunks) + [End(id)]
  }

  lemma {:induction false} ChunksAreAdded(a: Audio, id: string, chunks: seq<bytes>)
    requires id in a.cache && a.cache[id].Growing?
    ensures var b := DoAll(a, ChunkOps(id, chunks));
            && AllWork(a, ChunkOps(id, chunks))
            && b.cache == a.cache[id := Growing(a.cache[id].data + Join(chunks))]
            && b.order == a.order && b.speaker == a.speaker
    decreases |chunks|
  {
    if chunks == [] {
      assert a.cache[id].data + [] == a.cache[id].data;
      assert a.cache[id := a.cache[id]] == a.cache;
    } else {
      var ops := ChunkOps(id, chunks);
      assert ops[0] == Chunk(id, chunks[0]) && ops[1..] == ChunkOps(id, chunks[1..]);
      var b := Do(a, ops[0]).0;
      ChunksAreAdded(b, id, chunks[1..]);
      Regroup(a.cache[id].data, chunks[0], Join(chunks[1..]));
    }
  }

  /** After any run that leaves room, a session works from its begin to its end. The entry then has
      the chunks in order and cannot grow any more, the other entries are as they were, and it is
      the one that is played when no other is asked for. */
  lemma SessionIsStored(ops: seq<Op>, id: string, chunks: seq<bytes>)
    requires Total(DoAll(NOTHING_CACHED, ops).cache - {id}) < 262144
    ensures var a := DoAll(NOTHING_CACHED, ops);
            var b := DoAll(a, Session(id, chunks));
            && AllWork(a, Session(id, chunks))
            && b.cache == (a.cache - {id})[id := Final(Join(chunks))]
            && b.speaker == a.speaker
            && b.order != [] && b.order[|b.order| - 1] == id
  {
    hide DoAll, AllWork, Total, Join, ChunkOps;
    var a := DoAll(NOTHING_CACHED, ops);
    BeginNeedsRoom(ops, id);
    var begun := Do(a, Begin(id)).0;
    ChunksAreAdded(begun, id, chunks);
    var grown := DoAll(begun, ChunkOps(id, chunks));
    assert [] + Join(chunks) == Join(chunks);
    RunOne(a, Begin(id));
    RunOne(grown, End(id));
    RunAppend(a, [Begin(id)], ChunkOps(id, chunks));
    RunAppend(a, [Begin(id)] + ChunkOps(id, chunks), [End(id)]);
    var ended := Do(grown, End(id)).0;
    assert ended.cache == (a.cache - {id})[id := Final(Join(chunks))];
  }

  /** Nothing but a new begin or a clear touches a stored entry. */
  lemma {:induction false} StoredStays(a: Audio, id: string, ops: seq<Op>)
    requires id in a.cache && a.cache[id].Final?
    requires forall op | op in ops :: !(op.Begin? && op.id == id) && !(op.Clear? && (op.id == id || op.id == ""))
    ensures var b := DoAll(a, ops); id in b.cache && b.cache[id] == a.cache[id]
    decreases |ops|
  {
    if ops != [] {
      assert ops[0] in ops;
      StoredStays(Do(a, ops[0]).0, id, ops[1..]);
    }
  }

  /** Enough writes send all the bytes, 1024 at a time but for the last piece, and stop. */
  lemma WritesFinish(a: Audio, id: string, data: bytes, writes: seq<Op>) returns (pieces: seq<bytes>)
    requires id in a.cache && a.cache[id] == Final(data) && data != []
    requires (forall i | 0 <= i < |writes| :: writes[i].Write?) && 1024 * |writes| >= |data| + 1024
    ensures DoAll(Do(a, Play(Some(id), true)).0, writes) == a.(player := Idle, speaker := a.speaker + pieces)
    ensures Join(pieces) == data && forall i | 0 <= i < |pieces| :: |pieces[i]| == 1024 || i == |pieces| - 1
  {
    hide Join, DoAll, Writes;
    pieces := Pieces(data, 1024);
    AllAreWrites(writes);
    PlaybackIsWhole(a, id, writes);
    PiecesFit(pieces);
    var b := Do(a, Play(Some(id), true)).0;
    WritesKeep(b, writes);
    assert b == a.(player := b.player);
  }

  /** Playing a stored entry, by its id or as the latest: it starts exactly when there are bytes
      and the speaker works, and then enough writes send them all. */
  lemma StoredIsPlayed(a: Audio, id: string, data: bytes, wanted: Option<string>, works: bool, writes: seq<Op>)
      returns (pieces: seq<bytes>)
    requires id in a.cache && a.cache[id] == Final(data)
    requires wanted == Some(id) || (wanted == None && a.order != [] && a.order[|a.order| - 1] == id)
    requires (forall i | 0 <= i < |writes| :: writes[i].Write?) && 1024 * |writes| >= |data| + 1024
    ensures var (b, ok) := Do(a, Play(wanted, works));
            && (ok <==> data != [] && works)
            && (ok ==> && DoAll(b, writes) == a.(player := Idle, speaker := a.speaker + pieces)
                       && Join(pieces) == data
                       && forall i | 0 <= i < |pieces| :: |pieces[i]| == 1024 || i == |pieces| - 1)
  {
    hide DoAll, Join;
    pieces := [];
    if data != [] && works {
      pieces := WritesFinish(a, id, data, writes);
    }
  }

  lemma {:induction false} AllAreWrites(ops: seq<Op>)
    requires forall i | 0 <= i < |ops| :: ops[i].Write?
    ensures Writes(ops) == |ops| && forall i | 0 <= i < |ops| :: WhilePlaying(ops[i])
  {
    if ops != [] {
      AllAreWrites(ops[1..]);
    }
  }

  lemma {:induction false} WritesKeep(a: Audio, ops: seq<Op>)
    requires forall i | 0 <= i < |ops| :: ops[i].Write?
    ensures var b := DoAll(a, ops); b == a.(player := b.player, speaker := b.speaker)
    decreases |ops|
  {
    if ops != [] {
      WritesKeep(Do(a, ops[0]).0, ops[1..]);
    }
  }

  lemma {:induction false} PiecesFit(pieces: seq<bytes>)
    requires forall i | 0 <= i < |pieces| :: 1 <= |pieces[i]| && (i < |pieces| - 1 ==> |pieces[i]| == 1024)
    ensures 1024 * |pieces| < |Join(pieces)| + 1024
    decreases |pieces|
  {
    if |pieces| == 1 {
      assert pieces == [pieces[0]] && Join(pieces) == pieces[0] + Join([]);
    } else if pieces != [] {
      PiecesFit(pieces[1..]);
    }
  }

  // ----- Playing while it grows -----

  lemma {:induction false} PlayerGrows(a: Audio, id: string, chunks: seq<bytes>)
    requires id in a.cache && a.cache[id].Growing?
    requires a.player.Playing? && a.player.live == Some(id)
    ensures var b := DoAll(a, ChunkOps(id, chunks));
            && b.player == a.player.(buffer := a.player.buffer + Join(chunks)) && b.speaker == a.speaker
            && id in b.cache && b.cache[id] == Growing(a.cache[id].data + Join(chunks))
    decreases |chunks|
  {
    if chunks == [] {
      assert a.player.buffer + [] == a.player.buffer && a.cache[id].data + [] == a.cache[id].data;
    } else {
      var ops := ChunkOps(id, chunks);
      assert ops[0] == Chunk(id, chunks[0]) && ops[1..] == ChunkOps(id, chunks[1..]);
      PlayerGrows(Do(a, ops[0]).0, id, chunks[1..]);
      Regroup(a.player.buffer, chunks[0], Join(chunks[1..]));
      Regroup(a.cache[id].data, chunks[0], Join(chunks[1..]));
    }
  }

  /** An entry that is played while chunks still come: the player gets them too, and when the
      entry has ended the writes send what it had at first and all that came. */
  lemma GrowingIsPlayed(a: Audio, id: string, chunks: seq<bytes>, writes: seq<Op>) returns (pieces: seq<bytes>)
    requires id in a.cache && a.cache[id].Growing? && a.cache[id].data != []
    requires (forall i | 0 <= i < |writes| :: writes[i].Write?)
    requires 1024 * |writes| >= |a.cache[id].data + Join(chunks)| + 1024
    ensures var grown := DoAll(Do(a, Play(Some(id), true)).0, ChunkOps(id, chunks));
            var ended := Do(grown, End(id)).0;
            && id in ended.cache && ended.cache[id] == Final(a.cache[id].data + Join(chunks))
            && DoAll(ended, writes).speaker == a.speaker + pieces && DoAll(ended, writes).player.Idle?
            && Join(pieces) == a.cache[id].data + Join(chunks)
  {
    hide Join, DoAll, ChunkOps, Writes;
    var started := Do(a, Play(Some(id), true)).0;
    PlayerGrows(started, id, chunks);
    var grown := DoAll(started, ChunkOps(id, chunks));
    var ended := Do(grown, End(id)).0;
    var data := a.cache[id].data + Join(chunks);
    assert ended.player == Playing(data, 0, None) && ended.speaker == a.speaker;
    pieces := Pieces(data, 1024);
    AllAreWrites(writes);
    PiecesAreWritten(ended, writes, a.speaker);
    assert data[0..] == data;
    PiecesFit(pieces);
  }

  // ----- Clearing and stopping -----

  /** After any run, clearing an entry removes it alone, and clearing without an id removes all of
      them: then every begin is accepted. */
  lemma ClearMakesRoom(ops: seq<Op>, id: string, next: string)
    ensures var a := DoAll(NOTHING_CACHED, ops);
            var b := Do(a, Clear(id)).0;
            && b.cache == (if id != "" then a.cache - {id} else map[])
            && (id == "" ==> Do(b, Begin(next)).1)
  {
    hide DoAll;
    if id !in DoAll(NOTHING_CACHED, ops).cache {
      TotalAbsent(DoAll(NOTHING_CACHED, ops).cache, id);
    }
  }

  /** Stopping works exactly while something plays; nothing is written until the next play. */
  lemma StopSilences(a: Audio, ops: seq<Op>)
    requires forall i | 0 <= i < |ops| :: WhilePlaying(ops[i])
    ensures var (b, ok) := Do(a, Stop);
            && (ok <==> a.player.Playing?)
            && b.player.Idle? && b.cache == a.cache
            && DoAll(b, ops).speaker == a.speaker
  {
    IdleStays(Do(a, Stop).0, ops);
  }
}
