/** Which devices are online: the server's projection, polling, and the browser's copy. */
module Dashboard {
  import opened Common
  import Transcripts

  /** Device id to its online flag. */
  type Flags = map<string, bool>

  /** A message to the browsers. An online message carries the id its payload names. */
  datatype Event =
    | DeviceOnline(id: string)
    | DeviceOffline(id: string)
    | StateUpdated(id: string)

  /** One device of a poll result; a missing flag counts as online. */
  datatype Polled = Polled(id: string, online: Option<bool>)

  function IsOnline(p: Polled): bool {
    p.online.None? || p.online.value
  }

  function OnlineIn(f: Flags, id: string): bool {
    id in f && f[id]
  }

  // ----- The server's projection -----

  /** The payload of an online event may name the device itself; then the broadcast does too. */
  function Named(id: string, payloadId: Option<string>): string {
    if payloadId.Some? then payloadId.value else id
  }

  function ApplyPolled(f: Flags, p: Polled): (Flags, seq<Event>) {
    var was := OnlineIn(f, p.id);
    (f[p.id := IsOnline(p)],
     if !was && IsOnline(p) then [DeviceOnline(p.id)]
     else if was && !IsOnline(p) then [DeviceOffline(p.id)]
     else [])
  }

  function ApplyAllPolled(f: Flags, ps: seq<Polled>): (Flags, seq<Event>)
    decreases |ps|
  {
    if ps == [] then (f, [])
    else if ps[0].id == "" then ApplyAllPolled(f, ps[1..])
    else
      var (g, first) := ApplyPolled(f, ps[0]);
      var (h, more) := ApplyAllPolled(g, ps[1..]);
      (h, first + more)
  }

  function PolledIds(ps: seq<Polled>): set<string> {
    if ps == [] then {} else (if ps[0].id == "" then {} else {ps[0].id}) + PolledIds(ps[1..])
  }

  /** Online devices that the poll does not mention. */
  function Missing(f: Flags, ids: set<string>): set<string> {
    set id | id in f && id != "" && id !in ids && f[id]
  }

  function MarkOffline(f: Flags, gone: set<string>): Flags {
    map id | id in f :: f[id] && id !in gone
  }

  /** The offline messages of a poll: one or more for each missing device, in any order. */
  ghost predicate Announces(events: seq<Event>, gone: set<string>) {
    && (forall i | 0 <= i < |events| :: events[i].DeviceOffline? && events[i].id in gone)
    && (forall id | id in gone :: DeviceOffline(id) in events)
  }

  class DashboardState {
    var devices: Flags

    constructor ()
      ensures devices == map[]
    {
      devices := map[];
    }

    method RecordDeviceOnline(id: string, payloadId: Option<string>) returns (event: Event)
      modifies this
      ensures devices == old(devices)[id := true] && event == DeviceOnline(Named(id, payloadId))
    {
      devices := devices[id := true];
      event := DeviceOnline(if payloadId.Some? then payloadId.value else id);
    }

    method RecordDeviceOffline(id: string) returns (event: Event)
      modifies this
      ensures devices == (if id in old(devices) then old(devices)[id := false] else old(devices))
      ensures event == DeviceOffline(id)
    {
      if id in devices {
        devices := devices[id := false];
      }
      event := DeviceOffline(id);
    }

    method RecordStateUpdated(id: string) returns (event: Event)
      modifies this
      ensures devices == (if id in old(devices) then old(devices) else old(devices)[id := false])
      ensures event == StateUpdated(id)
    {
      if id !in devices {
        devices := devices[id := false];
      }
      event := StateUpdated(id);
    }

    method ApplyPolledDevice(p: Polled) returns (events: seq<Event>)
      modifies this
      ensures (devices, events) == ApplyPolled(old(devices), p)
    {
      var was := p.id in devices && devices[p.id];
      devices := devices[p.id := IsOnline(p)];
      if !was && IsOnline(p) {
        return [DeviceOnline(p.id)];
      }
      if was && !IsOnline(p) {
        return [DeviceOffline(p.id)];
      }
      events := [];
    }

    method MarkMissingDevicesOffline(currentIds: set<string>) returns (events: seq<Event>)
      modifies this
      ensures devices == MarkOffline(old(devices), Missing(old(devices), currentIds))
      ensures Announces(events, Missing(old(devices), currentIds))
    {
      events := [];
      var left := devices.Keys;
      ghost var gone := Missing(devices, currentIds);
      while left != {}
        invariant left <= devices.Keys == old(devices).Keys
        invariant forall id | id in devices :: devices[id] == (old(devices)[id] && !(id in gone && id !in left))
        invariant Announces(events, gone - left)
        decreases left
      {
        var id :| id in left;
        left := left - {id};
        if id != "" && id !in currentIds && devices[id] {
          devices := devices[id := false];
          ghost var before := events;
          events := events + [DeviceOffline(id)];
          forall g | g in gone - left ensures DeviceOffline(g) in events {
            assert g == id || DeviceOffline(g) in before;
            assert events[|before|] == DeviceOffline(id);
          }
        }
      }
      assert gone - left == gone;
    }
  }

  class DashboardPoller {
    const state: DashboardState
    const log: Transcripts.TranscriptLog

    constructor (state: DashboardState, log: Transcripts.TranscriptLog)
      ensures this.state == state && this.log == log
    {
      this.state, this.log := state, log;
    }

    /** One poll: the devices, then the transcripts. When the devices cannot be fetched nothing
        happens; when only the transcripts cannot, they stay as they are. */
    method PollOnce(devices: Option<seq<Polled>>, listing: Option<seq<Transcripts.Item>>, now: string)
      returns (events: seq<Event>, more: seq<Transcripts.Event>)
      modifies state, log
      ensures devices.None? ==> state.devices == old(state.devices) && events == []
      ensures devices.Some? ==>
                var (f, transitions) := ApplyAllPolled(old(state.devices), devices.value);
                var gone := Missing(f, PolledIds(devices.value));
                && state.devices == MarkOffline(f, gone)
                && transitions <= events && Announces(events[|transitions|..], gone)
      ensures (log.transcripts, more) ==
              if devices.Some? && listing.Some?
              then Transcripts.MergeAll(old(log.transcripts), log.maxTranscripts, listing.value, now)
              else (old(log.transcripts), [])
    {
      events, more := [], [];
      if devices.Some? {
        events := ApplyDevices(devices.value);
        if listing.Some? {
          more := log.ApplyPolledTranscripts(listing.value, now);
        }
      }
    }

    method ApplyDevices(polled: seq<Polled>) returns (events: seq<Event>)
      modifies state
      ensures var (f, transitions) := ApplyAllPolled(old(state.devices), polled);
              var gone := Missing(f, PolledIds(polled));
              && state.devices == MarkOffline(f, gone)
              && transitions <= events && Announces(events[|transitions|..], gone)
    {
      events := [];
      var currentIds := {};
      var i := 0;
      assert polled[0..] == polled;
      assert [] + ApplyAllPolled(state.devices, polled).1 == ApplyAllPolled(state.devices, polled).1;
      while i < |polled|
        invariant 0 <= i <= |polled|
        invariant var (f, more) := ApplyAllPolled(state.devices, polled[i..]);
                  ApplyAllPolled(old(state.devices), polled) == (f, events + more)
        invariant currentIds + PolledIds(polled[i..]) == PolledIds(polled)
      {
        ghost var rest := polled[i..];
        assert rest[1..] == polled[i + 1..];
        if polled[i].id != "" {
          currentIds := currentIds + {polled[i].id};
          var transition := state.ApplyPolledDevice(polled[i]);
          Regroup(events, transition, ApplyAllPolled(state.devices, polled[i + 1..]).1);
          events := events + transition;
        }
        i := i + 1;
      }
      ghost var transitions := events;
      assert events + [] == events;
      var missing := state.MarkMissingDevicesOffline(currentIds);
      events := events + missing;
      assert events[|transitions|..] == missing;
    }
  }

  // ----- The browser -----

  /** The reducer of the page. A device that was only seen through its state has no flag yet,
      which counts as offline. */
  function Reduce(b: Flags, e: Event): Flags {
    match e
    case DeviceOnline(id) => if id == "" then b else b[id := true]
    case DeviceOffline(id) => if id != "" && id in b then b[id := false] else b
    case StateUpdated(id) => if id == "" || id in b then b else b[id := false]
  }

  function ReduceAll(b: Flags, events: seq<Event>): Flags
    decreases |events|
  {
    if events == [] then b else ReduceAll(Reduce(b, events[0]), events[1..])
  }
}
