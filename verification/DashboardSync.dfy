/** The browser's copy keeps up with the server's projection. */
module DashboardSync {
  import opened Common
  import opened Dashboard

  /** The same devices are online, and the browser knows no device the server does not. */
  ghost predicate InSync(server: Flags, browser: Flags) {
    && (forall id :: OnlineIn(browser, id) <==> OnlineIn(server, id))
    && browser.Keys <= server.Keys
  }

  datatype Op =
    | Online(id: string, payloadId: Option<string>)
    | Offline(id: string)
    | Updated(id: string)
    | Poll(polled: seq<Polled>, lost: seq<Event>)

  /** A poll's offline messages name exactly the missing devices. */
  ghost predicate Legal(server: Flags, op: Op) {
    op.Poll? ==> Announces(op.lost, Missing(ApplyAllPolled(server, op.polled).0, PolledIds(op.polled)))
  }

  /** What an operation makes of the projection, and the messages it sends. */
  function Serve(server: Flags, op: Op): (Flags, seq<Event>) {
    match op
    case Online(id, payloadId) => (server[id := true], [DeviceOnline(Named(id, payloadId))])
    case Offline(id) => (if id in server then server[id := false] else server, [DeviceOffline(id)])
    case Updated(id) => (if id in server then server else server[id := false], [StateUpdated(id)])
    case Poll(polled, lost) =>
      var (f, transitions) := ApplyAllPolled(server, polled);
      (MarkOffline(f, Missing(f, PolledIds(polled))), transitions + lost)
  }

  lemma ReduceOne(b: Flags, e: Event)
    ensures ReduceAll(b, [e]) == Reduce(b, e)
  {
    assert [e][1..] == [];
  }

  lemma {:induction false} ReduceAppend(b: Flags, first: seq<Event>, second: seq<Event>)
    ensures ReduceAll(b, first + second) == ReduceAll(ReduceAll(b, first), second)
    decreases |first|
  {
    if first == [] {
      assert first + second == second;
    } else {
      ReduceAppend(Reduce(b, first[0]), first[1..], second);
      assert (first + second)[0] == first[0] && (first + second)[1..] == first[1..] + second;
    }
  }

  /** An online event names its own device, by an id, or changes nothing on either side. */
  predicate AnnouncesItself(server: Flags, id: string, named: string) {
    (named == id && id != "") || (OnlineIn(server, id) && (named == "" || OnlineIn(server, named)))
  }

  /** An online event keeps the copies together exactly then. */
  lemma OnlineKeepsSync(server: Flags, browser: Flags, id: string, payloadId: Option<string>)
    requires InSync(server, browser)
    ensures var named := Named(id, payloadId);
            InSync(server[id := true], Reduce(browser, DeviceOnline(named))) <==> AnnouncesItself(server, id, named)
  {
    var named := Named(id, payloadId);
    var s, b := server[id := true], Reduce(browser, DeviceOnline(named));
    assert OnlineIn(s, id);
    assert OnlineIn(browser, id) <==> OnlineIn(server, id);
    assert OnlineIn(browser, named) <==> OnlineIn(server, named);
    if AnnouncesItself(server, id, named) {
      forall x ensures OnlineIn(b, x) <==> OnlineIn(s, x) {
        assert OnlineIn(browser, x) <==> OnlineIn(server, x);
      }
    } else {
      assert OnlineIn(b, named) <==> named != "" || OnlineIn(browser, "");
      assert OnlineIn(s, named) <==> named == id || OnlineIn(server, named);
      assert named != id || id == "" ==> (OnlineIn(b, id) <==> OnlineIn(browser, id));
    }
  }

  /** An online event without an id, and with no other in its payload, makes the two differ. */
  lemma EmptyIdBreaksSync()
    ensures InSync(map[], map[])
    ensures !InSync(map["" := true], Reduce(map[], DeviceOnline(Named("", None))))
  {
    assert OnlineIn(map["" := true], "");
  }

  /** One device of a poll. */
  lemma PolledKeepsSync(server: Flags, browser: Flags, p: Polled)
    requires InSync(server, browser) && p.id != ""
    ensures InSync(ApplyPolled(server, p).0, ReduceAll(browser, ApplyPolled(server, p).1))
  {
    ReduceOne(browser, DeviceOnline(p.id));
    ReduceOne(browser, DeviceOffline(p.id));
    var s, b := ApplyPolled(server, p).0, ReduceAll(browser, ApplyPolled(server, p).1);
    forall x ensures OnlineIn(b, x) <==> OnlineIn(s, x) {
      assert OnlineIn(browser, x) <==> OnlineIn(server, x);
      assert OnlineIn(browser, p.id) <==> OnlineIn(server, p.id);
    }
  }

  lemma {:induction false} PollKeepsSync(server: Flags, browser: Flags, ps: seq<Polled>)
    requires InSync(server, browser)
    ensures InSync(ApplyAllPolled(server, ps).0, ReduceAll(browser, ApplyAllPolled(server, ps).1))
    decreases |ps|
  {
    hide InSync, ApplyPolled, Reduce;
    if ps != [] {
      if ps[0].id == "" {
        PollKeepsSync(server, browser, ps[1..]);
      } else {
        var (g, first) := ApplyPolled(server, ps[0]);
        PolledKeepsSync(server, browser, ps[0]);
        PollKeepsSync(g, ReduceAll(browser, first), ps[1..]);
        ReduceAppend(browser, first, ApplyAllPolled(g, ps[1..]).1);
      }
    }
  }

  /** Offline messages switch off the devices they name, and no others. */
  lemma {:induction false} OfflineMessages(browser: Flags, events: seq<Event>)
    requires forall i | 0 <= i < |events| :: events[i].DeviceOffline? && events[i].id != ""
    ensures ReduceAll(browser, events).Keys == browser.Keys
    ensures forall id | id in browser ::
              ReduceAll(browser, events)[id] == (browser[id] && DeviceOffline(id) !in events)
    decreases |events|
  {
    if events != [] {
      var next := Reduce(browser, events[0]);
      OfflineMessages(next, events[1..]);
      assert events == [events[0]] + events[1..];
    }
  }

  lemma MissingKeepsSync(server: Flags, browser: Flags, ids: set<string>, lost: seq<Event>)
    requires InSync(server, browser) && Announces(lost, Missing(server, ids))
    ensures InSync(MarkOffline(server, Missing(server, ids)), ReduceAll(browser, lost))
  {
    var gone := Missing(server, ids);
    OfflineMessages(browser, lost);
    var s, b := MarkOffline(server, gone), ReduceAll(browser, lost);
    forall id ensures OnlineIn(b, id) <==> OnlineIn(s, id) {
      assert OnlineIn(browser, id) <==> OnlineIn(server, id);
      assert DeviceOffline(id) in lost <==> id in gone;
    }
  }

  /** Whether an operation keeps the copies together; polls and state reports always do. */
  predicate KeepsSync(server: Flags, op: Op) {
    match op
    case Online(id, payloadId) => AnnouncesItself(server, id, Named(id, payloadId))
    case Offline(id) => id != "" || !OnlineIn(server, id)
    case _ => true
  }

  lemma ServeKeepsSync(server: Flags, browser: Flags, op: Op)
    requires InSync(server, browser) && Legal(server, op)
    ensures InSync(Serve(server, op).0, ReduceAll(browser, Serve(server, op).1)) <==> KeepsSync(server, op)
  {
    hide InSync, Reduce, AnnouncesItself, MarkOffline, Missing, Announces;
    match op
    case Online(id, payloadId) =>
      ReduceOne(browser, DeviceOnline(Named(id, payloadId)));
      OnlineKeepsSync(server, browser, id, payloadId);
    case Offline(id) => ReduceOne(browser, DeviceOffline(id)); OfflineKeepsSync(server, browser, id);
    case Updated(id) => ReduceOne(browser, StateUpdated(id)); UpdatedKeepsSync(server, browser, id);
    case Poll(polled, lost) =>
      var (f, transitions) := ApplyAllPolled(server, polled);
      PollKeepsSync(server, browser, polled);
      ReduceAppend(browser, transitions, lost);
      MissingKeepsSync(f, ReduceAll(browser, transitions), PolledIds(polled), lost);
  }

  lemma OfflineKeepsSync(server: Flags, browser: Flags, id: string)
    requires InSync(server, browser)
    ensures InSync(if id in server then server[id := false] else server, Reduce(browser, DeviceOffline(id)))
       <==> id != "" || !OnlineIn(server, id)
  {
    var s, b := if id in server then server[id := false] else server, Reduce(browser, DeviceOffline(id));
    assert OnlineIn(browser, id) <==> OnlineIn(server, id);
    if id != "" || !OnlineIn(server, id) {
      forall x ensures OnlineIn(b, x) <==> OnlineIn(s, x) {
        assert OnlineIn(browser, x) <==> OnlineIn(server, x);
      }
    } else {
      assert OnlineIn(b, "") && !OnlineIn(s, "");
    }
  }

  lemma UpdatedKeepsSync(server: Flags, browser: Flags, id: string)
    requires InSync(server, browser)
    ensures InSync(if id in server then server else server[id := false], Reduce(browser, StateUpdated(id)))
  {
    var s, b := if id in server then server else server[id := false], Reduce(browser, StateUpdated(id));
    forall x ensures OnlineIn(b, x) <==> OnlineIn(s, x) {
      assert OnlineIn(browser, x) <==> OnlineIn(server, x);
    }
  }

  /** The server and the browser after a run; every message is delivered in order. */
  function RunAll(server: Flags, browser: Flags, ops: seq<Op>): (Flags, Flags)
    decreases |ops|
  {
    if ops == [] then (server, browser)
    else
      var (s, events) := Serve(server, ops[0]);
      RunAll(s, ReduceAll(browser, events), ops[1..])
  }

  ghost predicate AllLegal(server: Flags, ops: seq<Op>)
    decreases |ops|
  {
    ops == [] || (Legal(server, ops[0]) && AllLegal(Serve(server, ops[0]).0, ops[1..]))
  }

  ghost predicate AllKeepSync(server: Flags, ops: seq<Op>)
    decreases |ops|
  {
    ops == [] || (KeepsSync(server, ops[0]) && AllKeepSync(Serve(server, ops[0]).0, ops[1..]))
  }

  ghost predicate InSyncThroughout(server: Flags, browser: Flags, ops: seq<Op>)
    decreases |ops|
  {
    && InSync(server, browser)
    && (ops == [] ||
        var (s, events) := Serve(server, ops[0]);
        InSyncThroughout(s, ReduceAll(browser, events), ops[1..]))
  }

  /** The browser shows the same devices online as the server has, and knows no others, all along
      a run exactly when each operation keeps the copies together when it is made. */
  lemma {:induction false} BrowserKeepsUp(server: Flags, browser: Flags, ops: seq<Op>)
    requires InSync(server, browser) && AllLegal(server, ops)
    ensures InSyncThroughout(server, browser, ops) <==> AllKeepSync(server, ops)
    ensures AllKeepSync(server, ops) ==> InSync(RunAll(server, browser, ops).0, RunAll(server, browser, ops).1)
    decreases |ops|
  {
    hide InSync, Serve, ReduceAll, Legal, KeepsSync;
    if ops != [] {
      ServeKeepsSync(server, browser, ops[0]);
      if KeepsSync(server, ops[0]) {
        BrowserKeepsUp(Serve(server, ops[0]).0, ReduceAll(browser, Serve(server, ops[0]).1), ops[1..]);
      } else {
        OutOfSync(Serve(server, ops[0]).0, ReduceAll(browser, Serve(server, ops[0]).1), ops[1..]);
      }
    }
  }

  lemma OutOfSync(server: Flags, browser: Flags, ops: seq<Op>)
    requires !InSync(server, browser)
    ensures !InSyncThroughout(server, browser, ops)
  {}

  /** In particular events about devices with an id whose payloads name no other device. */
  predicate WellNamed(op: Op) {
    match op
    case Online(id, payloadId) => id != "" && Named(id, payloadId) == id
    case Offline(id) => id != ""
    case _ => true
  }

  lemma {:induction false} WellNamedRunsKeepSync(server: Flags, ops: seq<Op>)
    requires forall i | 0 <= i < |ops| :: WellNamed(ops[i])
    ensures AllKeepSync(server, ops)
    decreases |ops|
  {
    hide Serve;
    if ops != [] {
      assert WellNamed(ops[0]);
      WellNamedRunsKeepSync(Serve(server, ops[0]).0, ops[1..]);
    }
  }

  /** A page that connects is given the projection. */
  lemma ConnectingIsInSync(server: Flags)
    ensures InSync(server, server)
  {}

  /** So from the moment it connects a page keeps up with every well named run. */
  lemma ConnectedPageKeepsUp(server: Flags, ops: seq<Op>)
    requires AllLegal(server, ops) && forall i | 0 <= i < |ops| :: WellNamed(ops[i])
    ensures InSyncThroughout(server, server, ops)
    ensures InSync(RunAll(server, server, ops).0, RunAll(server, server, ops).1)
  {
    hide InSync, WellNamed;
    ConnectingIsInSync(server);
    WellNamedRunsKeepSync(server, ops);
    BrowserKeepsUp(server, server, ops);
  }

  // ----- After a poll -----

  /** What a poll says last about a device. */
  function LastSaid(ps: seq<Polled>, id: string): Option<bool> {
    if ps == [] then None
    else if ps[|ps| - 1].id == id then Some(IsOnline(ps[|ps| - 1]))
    else LastSaid(ps[..|ps| - 1], id)
  }

  /** The last entry about the device does not say that it is offline. */
  ghost predicate LeftOnline(ps: seq<Polled>, id: string) {
    exists i :: 0 <= i < |ps| && ps[i].id == id && ps[i].online != Some(false)
                && forall j | i < j < |ps| :: ps[j].id != id
  }

  lemma {:induction false} LastSaidMeans(ps: seq<Polled>, id: string)
    ensures LastSaid(ps, id) == Some(true) <==> LeftOnline(ps, id)
  {
    if ps != [] {
      var last := |ps| - 1;
      LastSaidMeans(ps[..last], id);
      if ps[last].id != id {
        if LeftOnline(ps[..last], id) {
          var i :| 0 <= i < last && ps[i].id == id && ps[i].online != Some(false)
                   && forall j | i < j < last :: ps[..last][j].id != id;
          assert forall j | i < j < |ps| :: ps[j].id != id;
        }
        if LeftOnline(ps, id) {
          var i :| 0 <= i < |ps| && ps[i].id == id && ps[i].online != Some(false)
                   && forall j | i < j < |ps| :: ps[j].id != id;
          assert ps[..last][i] == ps[i];
        }
      }
    }
  }

  lemma {:induction false} PolledLast(f: Flags, ps: seq<Polled>, id: string)
    requires id != ""
    ensures var g := ApplyAllPolled(f, ps).0;
            && (LastSaid(ps, id).Some? ==> OnlineIn(g, id) == LastSaid(ps, id).value && id in PolledIds(ps))
            && (LastSaid(ps, id).None? ==> OnlineIn(g, id) == OnlineIn(f, id) && id !in PolledIds(ps))
    decreases |ps|
  {
    if ps != [] {
      LastSaidCons(ps, id);
      if ps[0].id == "" {
        PolledLast(f, ps[1..], id);
      } else {
        PolledLast(ApplyPolled(f, ps[0]).0, ps[1..], id);
      }
    }
  }

  lemma {:induction false} LastSaidCons(ps: seq<Polled>, id: string)
    requires ps != []
    ensures LastSaid(ps, id) ==
              if LastSaid(ps[1..], id).Some? then LastSaid(ps[1..], id)
              else if ps[0].id == id then Some(IsOnline(ps[0])) else None
    decreases |ps|
  {
    if |ps| > 1 {
      assert ps[1..][|ps| - 2] == ps[|ps| - 1];
      assert ps[1..][..|ps| - 2] == ps[..|ps| - 1][1..];
      LastSaidCons(ps[..|ps| - 1], id);
    }
  }

  /** Right after a poll exactly those devices with an id are online whose last entry in it says
      so; nothing is polled about an empty id. */
  lemma PollDecides(server: Flags, op: Op, id: string)
    requires op.Poll?
    ensures OnlineIn(Serve(server, op).0, id) <==>
              if id != "" then LeftOnline(op.polled, id) else OnlineIn(server, id)
  {
    hide LeftOnline;
    LastSaidMeans(op.polled, id);
    if id != "" {
      PolledLast(server, op.polled, id);
    } else {
      NothingPolled(server, op.polled);
    }
  }

  lemma {:induction false} NothingPolled(f: Flags, ps: seq<Polled>)
    ensures OnlineIn(ApplyAllPolled(f, ps).0, "") == OnlineIn(f, "") && "" !in PolledIds(ps)
    decreases |ps|
  {
    if ps != [] {
      NothingPolled(if ps[0].id == "" then f else ApplyPolled(f, ps[0]).0, ps[1..]);
    }
  }

  // ----- The last word -----

  /** What an operation says about a device, if anything. */
  ghost function Says(op: Op, id: string): Option<bool> {
    match op
    case Online(other, _) => if other == id then Some(true) else None
    case Offline(other) => if other == id then Some(false) else None
    case Updated(_) => None
    case Poll(polled, _) => if id == "" then None else Some(LeftOnline(polled, id))
  }

  /** What was said last, or what was so before. */
  ghost function LastWord(ops: seq<Op>, id: string, before: bool): bool {
    if ops == [] then before
    else
      var said := Says(ops[|ops| - 1], id);
      if said.Some? then said.value else LastWord(ops[..|ops| - 1], id, before)
  }

  lemma {:induction false} LastWordCons(ops: seq<Op>, id: string, before: bool)
    requires ops != []
    ensures var first := Says(ops[0], id);
            LastWord(ops, id, before) == LastWord(ops[1..], id, if first.Some? then first.value else before)
    decreases |ops|
  {
    hide Says;
    if |ops| > 1 {
      assert ops[1..][|ops| - 2] == ops[|ops| - 1];
      assert ops[1..][..|ops| - 2] == ops[..|ops| - 1][1..];
      LastWordCons(ops[..|ops| - 1], id, before);
    }
  }

  /** After every run a device is online exactly when the last word about it was that it is, and
      the page shows it so after every well named run. */
  lemma {:induction false} TheLastWordHolds(server: Flags, browser: Flags, ops: seq<Op>, id: string)
    ensures OnlineIn(RunAll(server, browser, ops).0, id) == LastWord(ops, id, OnlineIn(server, id))
    decreases |ops|
  {
    hide ReduceAll, LeftOnline;
    if ops != [] {
      LastWordCons(ops, id, OnlineIn(server, id));
      if ops[0].Poll? {
        PollDecides(server, ops[0], id);
      }
      var (next, events) := Serve(server, ops[0]);
      TheLastWordHolds(next, ReduceAll(browser, events), ops[1..], id);
    }
  }

  lemma PageShowsTheLastWord(server: Flags, ops: seq<Op>, id: string)
    requires AllLegal(server, ops) && forall i | 0 <= i < |ops| :: WellNamed(ops[i])
    ensures OnlineIn(RunAll(server, server, ops).1, id) == LastWord(ops, id, OnlineIn(server, id))
  {
    hide RunAll, WellNamed, LastWord;
    ConnectedPageKeepsUp(server, ops);
    TheLastWordHolds(server, server, ops, id);
  }
}
