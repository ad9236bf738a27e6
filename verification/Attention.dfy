/** Which device the user attends to: one holder, a priority queue of waiters, and a
    log of what was announced. */
module Attention {
  import opened Common

  datatype Transition = Explicit | Implicit | Timeout | DeviceOffline | Interrupted

  datatype Entry = Entry(
    active: bool,
    acquiredAt: Option<real>,
    lastActivity: Option<real>,
    autoRelease: Option<real>,
    priority: int)

  datatype Announcement =
    | Acquired(device: string, transition: Transition)
    | Released(device: string, transition: Transition)
    | Changed(device: string, previous: Option<string>)
    | PriorityUpdated(device: string, priority: int)

  datatype Config = Config(
    autoReleaseTimeout: real,
    requireExplicitRelease: bool,
    enablePriority: bool,
    defaultPriority: int)

  /** `stamps` and `clock` remember when a waiter was queued; the program keeps no such record. */
  datatype Policy = Policy(
    entries: map<string, Entry>,
    current: Option<string>,
    queue: seq<string>,
    log: seq<Announcement>,
    stamps: map<string, nat>,
    clock: nat)

  const NOBODY := Policy(map[], None, [], [], map[], 0)

  // ----- What the operations do -----

  /** Whether the holder counts as one: an empty device id does not. */
  predicate Occupied(p: Policy) {
    p.current.Some? && p.current.value != ""
  }

  function Without(queue: seq<string>, device: string): seq<string> {
    if queue == [] then []
    else if queue[0] == device then queue[1..]
    else [queue[0]] + Without(queue[1..], device)
  }

  /** Before the first known waiter of lower priority, else at the end. */
  function InsertByPriority(entries: map<string, Entry>, queue: seq<string>, device: string,
      priority: int): seq<string> {
    if queue == [] then [device]
    else if queue[0] in entries && entries[queue[0]].priority < priority then [device] + queue
    else [queue[0]] + InsertByPriority(entries, queue[1..], device, priority)
  }

  /** The search for the insertion point, one waiter at a time. */
  lemma InsertStep(entries: map<string, Entry>, queue: seq<string>, i: nat, device: string, priority: int)
    requires i <= |queue|
    ensures InsertByPriority(entries, queue[i..], device, priority)
         == if i == |queue| || (queue[i] in entries && entries[queue[i]].priority < priority) then [device] + queue[i..]
            else [queue[i]] + InsertByPriority(entries, queue[i + 1..], device, priority)
  {
    if i < |queue| {
      assert queue[i..][1..] == queue[i + 1..];
    } else {
      assert queue[i..] == [];
    }
  }

  function Enqueue(p: Policy, device: string, priority: int): Policy {
    p.(queue := InsertByPriority(p.entries, Without(p.queue, device), device, priority),
       stamps := p.stamps[device := p.clock],
       clock := p.clock + 1)
  }

  /** The holder lets go; the queue is not looked at. */
  function LetGo(p: Policy, transition: Transition): Policy {
    if p.current.None? then p
    else
      var d := p.current.value;
      p.(current := None,
         entries := if d in p.entries then p.entries[d := p.entries[d].(active := false, acquiredAt := None)]
               else p.entries,
         log := p.log + [Released(d, transition)])
  }

  /** The device becomes the holder, whoever was. */
  function Grant(p: Policy, device: string, requested: int, priority: Option<int>, autoRelease: Option<real>,
                 transition: Transition, now: real): Policy
  {
    var known := if device in p.entries then p.entries[device] else Entry(true, None, None, None, requested);
    var entry := Entry(true, Some(now), Some(now), autoRelease,
                       if device in p.entries && priority.Some? then priority.value else known.priority);
    p.(entries := p.entries[device := entry],
       current := Some(device),
       log := p.log + [Acquired(device, transition)]
              + (if p.current == Some(device) then [] else [Changed(device, p.current)]))
  }

  function Requested(config: Config, priority: Option<int>): int {
    if priority.Some? then priority.value else config.defaultPriority
  }

  function Acquire(p: Policy, config: Config, device: string, priority: Option<int>, autoRelease: Option<real>,
                   transition: Transition, now: real): (Policy, bool)
  {
    var requested := Requested(config, priority);
    if Occupied(p) && p.current != Some(device) then
      var holder := p.current.value;
      if config.enablePriority && holder in p.entries && p.entries[holder].priority > requested then
        (Enqueue(p, device, requested), false)
      else if config.requireExplicitRelease then (p, false)
      else
        var interrupts := config.enablePriority && holder in p.entries && p.entries[holder].priority < requested;
        var free := LetGo(p, if interrupts then Interrupted else Implicit);
        (Grant(free, device, requested, priority, autoRelease, transition, now), true)
    else
      (Grant(p, device, requested, priority, autoRelease, transition, now), true)
  }

  /** The first waiter that is still known becomes the holder; unknown ones before it are dropped. */
  function ProcessQueue(p: Policy, config: Config, now: real): Policy
    decreases |p.queue|
  {
    if p.queue == [] then p
    else
      var rest := p.(queue := p.queue[1..]);
      if p.queue[0] in p.entries then Acquire(rest, config, p.queue[0], None, None, Implicit, now).0
      else ProcessQueue(rest, config, now)
  }

  function Release(p: Policy, config: Config, transition: Transition, now: real): Policy {
    if p.current.None? then p else ProcessQueue(LetGo(p, transition), config, now)
  }

  function SetPriority(p: Policy, device: string, priority: int): Policy {
    var entry := if device in p.entries then p.entries[device].(priority := priority)
                 else Entry(false, None, None, None, priority);
    var q := p.(entries := p.entries[device := entry], log := p.log + [PriorityUpdated(device, priority)]);
    var shorter := q.(queue := Without(p.queue, device));
    if device !in p.queue then q
    else if priority > 0 then Enqueue(shorter, device, priority)
    else shorter
  }

  /** The holder's own time limit, when one is set and it is over. */
  predicate TimedOut(p: Policy, config: Config, now: real) {
    && config.autoReleaseTimeout != 0.0
    && Occupied(p)
    && p.current.value in p.entries
    && var e := p.entries[p.current.value];
    e.autoRelease.Some? && e.autoRelease.value != 0.0 && e.lastActivity.Some?
          && now - e.lastActivity.value >= e.autoRelease.value
  }

  datatype Op =
    | AcquireOp(device: string, priority: Option<int>, autoRelease: Option<real>, transition: Transition, now: real)
    | ReleaseOp(device: string, transition: Transition, now: real)
    | ActivityOp(device: string, now: real)
    | PriorityOp(device: string, level: int)
    | OfflineOp(device: string, now: real)
    | TimeoutsOp(now: real)

  function Perform(p: Policy, config: Config, op: Op): Policy {
    match op
    case AcquireOp(d, priority, autoRelease, transition, now) =>
      Acquire(p, config, d, priority, autoRelease, transition, now).0
    case ReleaseOp(d, transition, now) => if p.current == Some(d) then Release(p, config, transition, now) else p
    case ActivityOp(d, now) =>
      if d in p.entries then p.(entries := p.entries[d := p.entries[d].(lastActivity := Some(now))]) else p
    case PriorityOp(d, priority) => SetPriority(p, d, priority)
    case OfflineOp(d, now) => if p.current == Some(d) then Release(p, config, DeviceOffline, now) else p
    case TimeoutsOp(now) => if TimedOut(p, config, now) then Release(p, config, Timeout, now) else p
  }

  function PerformAll(p: Policy, config: Config, ops: seq<Op>): Policy
    decreases |ops|
  {
    if ops == [] then p else PerformAll(Perform(p, config, ops[0]), config, ops[1..])
  }

  // ----- The policy -----

  class AttentionPolicy {
    const config: Config
    var deviceAttention: map<string, Entry>
    var currentAttention: Option<string>
    var attentionQueue: seq<string>
    var log: seq<Announcement>
    ghost var stamps: map<string, nat>
    ghost var clock: nat

    ghost function View(): Policy
      reads this
    {
      Policy(deviceAttention, currentAttention, attentionQueue, log, stamps, clock)
    }

    constructor (config: Config)
      ensures View() == NOBODY && this.config == config
    {
      this.config := config;
      deviceAttention, currentAttention, attentionQueue, log := map[], None, [], [];
      stamps, clock := map[], 0;
    }

    method AcquireAttention(device: string, priority: Option<int>, autoRelease: Option<real>, transition: Transition,
        now: real)
      returns (acquired: bool)
      modifies this
      ensures (View(), acquired) == Acquire(old(View()), config, device, priority, autoRelease, transition, now)
      decreases 1
    {
      var requested := if priority.Some? then priority.value else config.defaultPriority;
      if currentAttention.Some? && currentAttention.value != "" && currentAttention != Some(device) {
        var holder := currentAttention.value;
        var interrupts := false;
        if config.enablePriority && holder in deviceAttention && deviceAttention[holder].priority > requested {
          QueueForAttention(device, requested);
          return false;
        }
        if config.enablePriority && holder in deviceAttention && deviceAttention[holder].priority < requested {
          interrupts := true;
        }
        if config.requireExplicitRelease {
          return false;
        }
        ReleaseCurrentAttention(if interrupts then Interrupted else Implicit, false, now);
      }
      BecomeHolder(device, requested, priority, autoRelease, transition, now);
      acquired := true;
    }

    method BecomeHolder(device: string, requested: int, priority: Option<int>, autoRelease: Option<real>,
        transition: Transition, now: real)
      modifies this
      ensures View() == Grant(old(View()), device, requested, priority, autoRelease, transition, now)
      decreases 0
    {
      var entry: Entry;
      if device !in deviceAttention {
        entry := Entry(true, Some(now), None, None, requested);
      } else {
        entry := deviceAttention[device].(active := true, acquiredAt := Some(now));
        if priority.Some? {
          entry := entry.(priority := priority.value);
        }
      }
      entry := entry.(lastActivity := Some(now), autoRelease := autoRelease);
      deviceAttention := deviceAttention[device := entry];
      var previous := currentAttention;
      currentAttention := Some(device);
      log := log + [Acquired(device, transition)];
      if previous != Some(device) {
        log := log + [Changed(device, previous)];
      }
    }

    method ReleaseAttention(device: string, transition: Transition, now: real) returns (released: bool)
      modifies this
      ensures View() == Perform(old(View()), config, ReleaseOp(device, transition, now))
      ensures released <==> old(currentAttention) == Some(device)
    {
      if currentAttention != Some(device) {
        return false;
      }
      ReleaseCurrentAttention(transition, true, now);
      released := true;
    }

    /** Lets go of the holder; with `processQueue` the next waiter is granted, which may call
        back into `AcquireAttention`, but then nobody holds and the recursion ends there. */
    method ReleaseCurrentAttention(transition: Transition, processQueue: bool, now: real)
      modifies this
      ensures View() == if processQueue then Release(old(View()), config, transition, now)
            else LetGo(old(View()), transition)
      decreases if processQueue then 3 else 0
    {
      if currentAttention.None? {
        return;
      }
      var device := currentAttention.value;
      currentAttention := None;
      if device in deviceAttention {
        deviceAttention := deviceAttention[device := deviceAttention[device].(active := false, acquiredAt := None)];
      }
      log := log + [Released(device, transition)];
      if processQueue {
        ProcessAttentionQueue(now);
      }
    }

    method QueueForAttention(device: string, priority: int)
      modifies this
      ensures View() == Enqueue(old(View()), device, priority)
      decreases 0
    {
      hide InsertByPriority, Without;
      attentionQueue := Without(attentionQueue, device);
      ghost var queue, entries := attentionQueue, deviceAttention;
      var i := 0;
      assert queue[..0] == [] && queue[0..] == queue;
      while i < |attentionQueue|
            && !(attentionQueue[i] in deviceAttention && deviceAttention[attentionQueue[i]].priority < priority)
        invariant 0 <= i <= |queue| && View() == old(View()).(queue := queue)
        invariant InsertByPriority(entries, queue, device, priority)
               == queue[..i] + InsertByPriority(entries, queue[i..], device, priority)
      {
        InsertStep(entries, queue, i, device, priority);
        Regroup(queue[..i], [queue[i]], InsertByPriority(entries, queue[i + 1..], device, priority));
        assert queue[..i + 1] == queue[..i] + [queue[i]];
        i := i + 1;
      }
      InsertStep(entries, queue, i, device, priority);
      Regroup(queue[..i], [device], queue[i..]);
      attentionQueue := attentionQueue[..i] + [device] + attentionQueue[i..];
      stamps, clock := stamps[device := clock], clock + 1;
    }

    method ProcessAttentionQueue(now: real)
      modifies this
      ensures View() == ProcessQueue(old(View()), config, now)
      decreases 2
    {
      while attentionQueue != []
        invariant ProcessQueue(View(), config, now) == ProcessQueue(old(View()), config, now)
        decreases |attentionQueue|
      {
        var device := attentionQueue[0];
        attentionQueue := attentionQueue[1..];
        if device in deviceAttention {
          var granted := AcquireAttention(device, None, None, Implicit, now);
          return;
        }
      }
    }

    method RecordActivity(device: string, now: real)
      modifies this
      ensures View() == Perform(old(View()), config, ActivityOp(device, now))
    {
      if device in deviceAttention {
        deviceAttention := deviceAttention[device := deviceAttention[device].(lastActivity := Some(now))];
      }
    }

    method ChangePriority(device: string, priority: int)
      modifies this
      ensures View() == Perform(old(View()), config, PriorityOp(device, priority))
    {
      if device !in deviceAttention {
        deviceAttention := deviceAttention[device := Entry(false, None, None, None, priority)];
      } else {
        deviceAttention := deviceAttention[device := deviceAttention[device].(priority := priority)];
      }
      log := log + [PriorityUpdated(device, priority)];
      if device in attentionQueue {
        attentionQueue := Without(attentionQueue, device);
        if priority > 0 {
          QueueForAttention(device, priority);
        }
      }
    }

    method HandleDeviceOffline(device: string, now: real) returns (released: bool)
      modifies this
      ensures View() == Perform(old(View()), config, OfflineOp(device, now))
      ensures released <==> old(currentAttention) == Some(device)
    {
      if currentAttention == Some(device) {
        ReleaseCurrentAttention(DeviceOffline, true, now);
        return true;
      }
      released := false;
    }

    method CheckTimeouts(now: real) returns (released: seq<string>)
      modifies this
      ensures View() == Perform(old(View()), config, TimeoutsOp(now))
      ensures released == if TimedOut(old(View()), config, now) then [old(currentAttention).value] else []
    {
      released := [];
      if config.autoReleaseTimeout == 0.0 {
        return;
      }
      if currentAttention.Some? && currentAttention.value != "" && currentAttention.value in deviceAttention {
        var device := currentAttention.value;
        var entry := deviceAttention[device];
        if entry.autoRelease.Some? && entry.autoRelease.value != 0.0 && entry.lastActivity.Some? {
          if now - entry.lastActivity.value >= entry.autoRelease.value {
            var done := ReleaseAttention(device, Timeout, now);
            released := [device];
          }
        }
      }
    }
  }
}
