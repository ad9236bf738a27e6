/** What the attention policy keeps, over every run of its operations. */
module AttentionTheorems {
  import opened Common
  import opened Attention

  ghost predicate Distinct(queue: seq<string>) {
    forall i, j | 0 <= i < j < |queue| :: queue[i] != queue[j]
  }

  /** The holder according to the announcements alone. */
  function HolderOf(log: seq<Announcement>): Option<string> {
    if log == [] then None
    else
      match log[|log| - 1]
      case Acquired(d, _) => Some(d)
      case Released(_, _) => None
      case _ => HolderOf(log[..|log| - 1])
  }

  /** A device only acquires from nobody or from itself, and only the holder releases: there is
      a release between any two different holders. */
  predicate Sound(log: seq<Announcement>) {
    log == [] ||
    (var before := log[..|log| - 1];
     && Sound(before)
     && match log[|log| - 1]
        case Acquired(d, _) => HolderOf(before) == None || HolderOf(before) == Some(d)
        case Released(d, _) => HolderOf(before) == Some(d)
        case _ => true)
  }

  ghost predicate Inv(p: Policy) {
    && (p.current.Some? ==>
          && p.current.value in p.entries
          && p.entries[p.current.value].active
          && p.entries[p.current.value].acquiredAt.Some?
          && p.entries[p.current.value].lastActivity.Some?)
    && (forall d | d in p.entries && p.entries[d].active :: p.current == Some(d))
    && (p.current.None? ==> p.queue == [])
    && Distinct(p.queue)
    && Sound(p.log) && HolderOf(p.log) == p.current
  }

  // ----- Queues -----

  lemma {:induction false} WithoutKeeps(queue: seq<string>, device: string)
    requires Distinct(queue)
    ensures Distinct(Without(queue, device))
    ensures forall d :: d in Without(queue, device) <==> d in queue && d != device
  {
    if queue != [] {
      assert queue == [queue[0]] + queue[1..];
      if queue[0] != device {
        WithoutKeeps(queue[1..], device);
        var rest := Without(queue[1..], device);
        assert queue[0] !in queue[1..];
        forall d ensures d in Without(queue, device) <==> d == queue[0] || d in rest {
          assert Without(queue, device) == [queue[0]] + rest;
        }
        DistinctCons(queue[0], rest);
      } else {
        assert device !in queue[1..];
      }
    }
  }

  lemma DistinctCons(d: string, rest: seq<string>)
    requires Distinct(rest) && d !in rest
    ensures Distinct([d] + rest)
  {}

  lemma {:induction false} InsertKeeps(entries: map<string, Entry>, queue: seq<string>, device: string, priority: int)
    requires Distinct(queue) && device !in queue
    ensures Distinct(InsertByPriority(entries, queue, device, priority))
    ensures forall d :: d in InsertByPriority(entries, queue, device, priority) <==> d in queue || d == device
  {
    if queue != [] {
      var rest := queue[1..];
      assert queue == [queue[0]] + rest;
      if queue[0] in entries && entries[queue[0]].priority < priority {
        DistinctCons(device, queue);
      } else {
        assert queue[0] !in rest;
        InsertKeeps(entries, rest, device, priority);
        DistinctCons(queue[0], InsertByPriority(entries, rest, device, priority));
      }
    }
  }

  lemma EnqueueKeeps(p: Policy, device: string, priority: int)
    requires Distinct(p.queue)
    ensures Distinct(Enqueue(p, device, priority).queue)
    ensures forall d :: d in Enqueue(p, device, priority).queue <==> d in p.queue || d == device
  {
    WithoutKeeps(p.queue, device);
    InsertKeeps(p.entries, Without(p.queue, device), device, priority);
  }

  // ----- Logs -----

  lemma LogSnoc(log: seq<Announcement>, a: Announcement)
    requires Sound(log)
    ensures HolderOf(log + [a])
          == (match a case Acquired(d, _) => Some(d) case Released(_, _) => None case _ => HolderOf(log))
    ensures Sound(log + [a]) <==>
              (match a
               case Acquired(d, _) => HolderOf(log) == None || HolderOf(log) == Some(d)
               case Released(d, _) => HolderOf(log) == Some(d)
               case _ => true)
  {
    assert (log + [a])[..|log|] == log;
  }

  // ----- One operation -----

  lemma LetGoKeeps(p: Policy, transition: Transition)
    requires Inv(p)
    ensures var q := LetGo(p, transition);
            && q.current.None? && Sound(q.log) && HolderOf(q.log).None? && q.queue == p.queue
            && (forall d | d in q.entries :: !q.entries[d].active)
            && q.entries.Keys == p.entries.Keys
  {
    if p.current.Some? {
      LogSnoc(p.log, Released(p.current.value, transition));
    }
  }

  /** Granting is sound when nobody else holds. */
  lemma GrantKeeps(p: Policy, device: string, requested: int, priority: Option<int>, autoRelease: Option<real>,
      transition: Transition, now: real)
    requires Sound(p.log) && HolderOf(p.log) == p.current && Distinct(p.queue)
    requires p.current.None? || p.current == Some(device)
    requires forall d | d in p.entries && p.entries[d].active :: p.current == Some(d)
    ensures Inv(Grant(p, device, requested, priority, autoRelease, transition, now))
  {
    var log1 := p.log + [Acquired(device, transition)];
    LogSnoc(p.log, Acquired(device, transition));
    LogSnoc(log1, Changed(device, p.current));
    assert log1 + [] == log1;
  }

  /** An acquire keeps the invariant exactly when it does not take the attention from a
      holder with an empty id, which the policy does not see. */
  lemma AcquireKeeps(p: Policy, config: Config, device: string, priority: Option<int>, autoRelease: Option<real>,
      transition: Transition, now: real)
    requires Inv(p)
    ensures Inv(Acquire(p, config, device, priority, autoRelease, transition, now).0)
          <==> !(p.current == Some("") && device != "")
  {
    hide Sound, HolderOf, Distinct;
    var requested := Requested(config, priority);
    if p.current == Some("") && device != "" {
      var q := Grant(p, device, requested, priority, autoRelease, transition, now);
      assert "" in q.entries && q.entries[""].active && q.current != Some("");
    } else if Occupied(p) && p.current != Some(device) {
      EnqueueKeeps(p, device, requested);
      LetGoKeeps(p, Interrupted);
      LetGoKeeps(p, Implicit);
      GrantKeeps(LetGo(p, Interrupted), device, requested, priority, autoRelease, transition, now);
      GrantKeeps(LetGo(p, Implicit), device, requested, priority, autoRelease, transition, now);
    } else {
      GrantKeeps(p, device, requested, priority, autoRelease, transition, now);
    }
  }

  /** Processing the queue leaves no waiter behind a free attention. */
  lemma {:induction false} ProcessQueueKeeps(p: Policy, config: Config, now: real)
    requires p.current.None? && Sound(p.log) && HolderOf(p.log).None? && Distinct(p.queue)
    requires forall d | d in p.entries :: !p.entries[d].active
    ensures Inv(ProcessQueue(p, config, now))
    ensures forall d | d in ProcessQueue(p, config, now).queue :: d in p.queue
    ensures ProcessQueue(p, config, now).current.Some? ==> ProcessQueue(p, config, now).current.value in p.queue
    decreases |p.queue|
  {
    hide Sound, HolderOf;
    if p.queue != [] {
      var rest := p.(queue := p.queue[1..]);
      assert p.queue == [p.queue[0]] + rest.queue;
      if p.queue[0] in p.entries {
        GrantKeeps(rest, p.queue[0], Requested(config, None), None, None, Implicit, now);
      } else {
        ProcessQueueKeeps(rest, config, now);
      }
    }
  }

  lemma ReleaseKeeps(p: Policy, config: Config, transition: Transition, now: real)
    requires Inv(p)
    ensures var q := Release(p, config, transition, now);
            && Inv(q)
            && (forall d | d in q.queue :: d in p.queue)
            && (p.current.Some? && q.current.Some? ==> q.current.value in p.queue)
  {
    hide Sound, HolderOf, Distinct, Grant, ProcessQueue;
    if p.current.Some? {
      LetGoKeeps(p, transition);
      ProcessQueueKeeps(LetGo(p, transition), config, now);
    }
  }

  lemma SetPriorityKeeps(p: Policy, device: string, priority: int)
    requires Inv(p)
    ensures Inv(SetPriority(p, device, priority))
    ensures forall d | d in SetPriority(p, device, priority).queue :: d in p.queue
    ensures SetPriority(p, device, priority).current == p.current
  {
    hide Sound, HolderOf, Distinct, InsertByPriority, Without;
    LogSnoc(p.log, PriorityUpdated(device, priority));
    if device in p.queue {
      WithoutKeeps(p.queue, device);
      var entry := if device in p.entries then p.entries[device].(priority := priority)
                   else Entry(false, None, None, None, priority);
      var q := p.(entries := p.entries[device := entry], log := p.log + [PriorityUpdated(device, priority)]);
      EnqueueKeeps(q.(queue := Without(p.queue, device)), device, priority);
      assert p.queue != [];
    }
  }

  // ----- Every run -----

  /** Nobody with an empty id holds or waits. */
  ghost predicate Named(p: Policy) {
    p.current != Some("") && "" !in p.queue
  }

  lemma PerformKeeps(p: Policy, config: Config, op: Op)
    requires Inv(p) && Named(p) && !(op.AcquireOp? && op.device == "")
    ensures Inv(Perform(p, config, op)) && Named(Perform(p, config, op))
  {
    hide Inv, SetPriority, Release, Grant, Enqueue;
    match op
    case AcquireOp(d, priority, autoRelease, transition, now) =>
      AcquireKeeps(p, config, d, priority, autoRelease, transition, now);
      AcquireIsNamed(p, config, d, priority, autoRelease, transition, now);
    case ReleaseOp(_, transition, now) =>
      ReleaseKeeps(p, config, transition, now);
      FreeIsNamed(p, config, transition, now);
    case ActivityOp(d, now) => ActivityKeeps(p, config, d, now);
    case PriorityOp(d, priority) => SetPriorityKeeps(p, d, priority);
    case OfflineOp(_, now) => ReleaseKeeps(p, config, DeviceOffline, now); FreeIsNamed(p, config, DeviceOffline, now);
    case TimeoutsOp(now) => ReleaseKeeps(p, config, Timeout, now); FreeIsNamed(p, config, Timeout, now);
  }

  lemma ActivityKeeps(p: Policy, config: Config, d: string, now: real)
    requires Inv(p)
    ensures Inv(Perform(p, config, ActivityOp(d, now)))
    ensures Named(p) ==> Named(Perform(p, config, ActivityOp(d, now)))
  {
    hide Sound, HolderOf, Distinct;
  }

  lemma AcquireIsNamed(p: Policy, config: Config, device: string, priority: Option<int>, autoRelease: Option<real>,
      transition: Transition, now: real)
    requires Inv(p) && Named(p) && device != ""
    ensures Named(Acquire(p, config, device, priority, autoRelease, transition, now).0)
  {
    hide Sound, HolderOf, Distinct, InsertByPriority, Without;
    EnqueueKeeps(p, device, Requested(config, priority));
  }

  lemma FreeIsNamed(p: Policy, config: Config, transition: Transition, now: real)
    requires Inv(p) && Named(p)
    ensures Named(Release(p, config, transition, now))
  {
    hide ProcessQueue, LetGo;
    ReleaseKeeps(p, config, transition, now);
  }

  /** Only a request of a device with an id, made while the holder's id is empty, breaks anything. */
  predicate SeesTheHolder(p: Policy, op: Op) {
    op.AcquireOp? ==> !(p.current == Some("") && op.device != "")
  }

  lemma PerformIsSound(p: Policy, config: Config, op: Op)
    requires Inv(p)
    ensures Inv(Perform(p, config, op)) <==> SeesTheHolder(p, op)
  {
    hide Inv, SetPriority, Release, Grant, Enqueue;
    match op
    case AcquireOp(d, priority, autoRelease, transition, now) =>
      AcquireKeeps(p, config, d, priority, autoRelease, transition, now);
    case ReleaseOp(_, transition, now) => ReleaseKeeps(p, config, transition, now);
    case ActivityOp(d, now) => ActivityKeeps(p, config, d, now);
    case PriorityOp(d, priority) => SetPriorityKeeps(p, d, priority);
    case OfflineOp(_, now) => ReleaseKeeps(p, config, DeviceOffline, now);
    case TimeoutsOp(now) => ReleaseKeeps(p, config, Timeout, now);
  }

  ghost predicate SoundThroughout(p: Policy, config: Config, ops: seq<Op>)
    decreases |ops|
  {
    Inv(p) && (ops == [] || SoundThroughout(Perform(p, config, ops[0]), config, ops[1..]))
  }

  predicate AllSeeTheHolder(p: Policy, config: Config, ops: seq<Op>)
    decreases |ops|
  {
    ops == [] || (SeesTheHolder(p, ops[0]) && AllSeeTheHolder(Perform(p, config, ops[0]), config, ops[1..]))
  }

  /** A run is sound all along exactly when no request of a device with an id is made while the
      holder's id is empty. */
  lemma {:induction false} WhenARunIsSound(p: Policy, config: Config, ops: seq<Op>)
    requires Inv(p)
    ensures SoundThroughout(p, config, ops) <==> AllSeeTheHolder(p, config, ops)
    decreases |ops|
  {
    hide Inv, Perform, SeesTheHolder;
    if ops != [] {
      PerformIsSound(p, config, ops[0]);
      if Inv(Perform(p, config, ops[0])) {
        WhenARunIsSound(Perform(p, config, ops[0]), config, ops[1..]);
      }
    }
  }

  /** Over every run in which only devices with an id acquire attention: at most one device is
      active and it is the holder, its times are set, no waiter is left behind a free attention,
      the queue has no duplicates, and the announcements replay to the holder. */
  lemma {:induction false} EveryRunIsSound(p: Policy, config: Config, ops: seq<Op>)
    requires Inv(p) && Named(p)
    requires forall i | 0 <= i < |ops| :: !(ops[i].AcquireOp? && ops[i].device == "")
    ensures Inv(PerformAll(p, config, ops)) && Named(PerformAll(p, config, ops))
    decreases |ops|
  {
    hide Inv, Named, Perform;
    if ops != [] {
      PerformKeeps(p, config, ops[0]);
      EveryRunIsSound(Perform(p, config, ops[0]), config, ops[1..]);
    }
  }

  lemma NobodyIsSound()
    ensures Inv(NOBODY) && Named(NOBODY)
  {}

  /** So every run of a new policy is sound. */
  lemma EveryRunFromNobodyIsSound(config: Config, ops: seq<Op>)
    requires forall i | 0 <= i < |ops| :: !(ops[i].AcquireOp? && ops[i].device == "")
    ensures Inv(PerformAll(NOBODY, config, ops))
  {
    hide Inv, Named;
    NobodyIsSound();
    EveryRunIsSound(NOBODY, config, ops);
  }

  /** With an empty id the promise fails: two devices end up active. */
  lemma EmptyIdBreaksIt(config: Config)
    ensures var p := PerformAll(NOBODY, config,
                       [AcquireOp("", None, None, Explicit, 0.0), AcquireOp("a", None, None, Explicit, 1.0)]);
            "" in p.entries && p.entries[""].active && "a" in p.entries && p.entries["a"].active
  {
    var first := AcquireOp("", None, None, Explicit, 0.0);
    var second := AcquireOp("a", None, None, Explicit, 1.0);
    var p1 := Perform(NOBODY, config, first);
    var p2 := Perform(p1, config, second);
    assert [first, second][1..] == [second] && [second][1..] == [];
    assert PerformAll(p1, config, [second]) == PerformAll(p2, config, []) == p2;
  }

  // ----- Time limits -----

  /** A waiter that gets the attention from the queue holds it without a time limit, whatever
      limit its request asked for. */
  lemma {:induction false} HandoverHasNoLimit(p: Policy, config: Config, now: real)
    requires p.current.None?
    ensures var q := ProcessQueue(p, config, now);
            && p.log <= q.log
            && (q.current.Some? ==> q.current.value in q.entries && q.entries[q.current.value].autoRelease.None?)
    decreases |p.queue|
  {
    if p.queue != [] && p.queue[0] !in p.entries {
      HandoverHasNoLimit(p.(queue := p.queue[1..]), config, now);
    }
  }

  /** A check of the time limits announces the release of a holder whose limit is over, before
      anything else, and leaves no such holder: a second check at that time does nothing. */
  lemma TimeoutsSettle(p: Policy, config: Config, now: real)
    requires Inv(p)
    ensures var q := Perform(p, config, TimeoutsOp(now));
            && !TimedOut(q, config, now)
            && Perform(q, config, TimeoutsOp(now)) == q
            && (if TimedOut(p, config, now) then p.log + [Released(p.current.value, Timeout)] <= q.log else q == p)
  {
    if TimedOut(p, config, now) {
      HandoverHasNoLimit(LetGo(p, Timeout), config, now);
    }
  }

  /** The holder's limit after an operation, when it was `before` until then: a request granted
      at once brings its own, a release leaves none. */
  function LimitAfter(p: Policy, config: Config, op: Op, before: Option<real>): Option<real> {
    match op
    case AcquireOp(d, priority, limit, transition, now) =>
      if Acquire(p, config, d, priority, limit, transition, now).1 then limit else before
    case ReleaseOp(d, _, _) => if p.current == Some(d) then None else before
    case OfflineOp(d, _) => if p.current == Some(d) then None else before
    case TimeoutsOp(now) => if TimedOut(p, config, now) then None else before
    case _ => before
  }

  function LimitOver(p: Policy, config: Config, ops: seq<Op>, before: Option<real>): Option<real>
    decreases |ops|
  {
    if ops == [] then before
    else LimitOver(Perform(p, config, ops[0]), config, ops[1..], LimitAfter(p, config, ops[0], before))
  }

  ghost predicate HeldFor(p: Policy, limit: Option<real>) {
    p.current.Some? ==> p.current.value in p.entries && p.entries[p.current.value].autoRelease == limit
  }

  lemma LimitIsKept(p: Policy, config: Config, op: Op, before: Option<real>)
    requires HeldFor(p, before)
    ensures HeldFor(Perform(p, config, op), LimitAfter(p, config, op, before))
  {
    hide ProcessQueue;
    match op
    case ReleaseOp(_, transition, now) => HandoverHasNoLimit(LetGo(p, transition), config, now);
    case OfflineOp(_, now) => HandoverHasNoLimit(LetGo(p, DeviceOffline), config, now);
    case TimeoutsOp(now) => HandoverHasNoLimit(LetGo(p, Timeout), config, now);
    case _ =>
  }

  /** When the holder was last active after an operation, if `before` is when it was until then:
      being granted counts, at once or by a hand-over, and so does activity of the holder alone. */
  function SinceAfter(p: Policy, config: Config, op: Op, before: real): real {
    match op
    case AcquireOp(d, priority, limit, transition, now) =>
      if Acquire(p, config, d, priority, limit, transition, now).1 then now else before
    case ReleaseOp(d, _, now) => if p.current == Some(d) then now else before
    case ActivityOp(d, now) => if p.current == Some(d) then now else before
    case PriorityOp(_, _) => before
    case OfflineOp(d, now) => if p.current == Some(d) then now else before
    case TimeoutsOp(now) => if TimedOut(p, config, now) then now else before
  }

  function SinceOver(p: Policy, config: Config, ops: seq<Op>, before: real): real
    decreases |ops|
  {
    if ops == [] then before
    else SinceOver(Perform(p, config, ops[0]), config, ops[1..], SinceAfter(p, config, ops[0], before))
  }

  ghost predicate ActiveSince(p: Policy, since: real) {
    p.current.Some? ==> p.current.value in p.entries && p.entries[p.current.value].lastActivity == Some(since)
  }

  lemma {:induction false} HandoverIsActivity(p: Policy, config: Config, now: real)
    requires p.current.None?
    ensures ActiveSince(ProcessQueue(p, config, now), now)
    decreases |p.queue|
  {
    if p.queue != [] && p.queue[0] !in p.entries {
      HandoverIsActivity(p.(queue := p.queue[1..]), config, now);
    }
  }

  lemma SinceIsKept(p: Policy, config: Config, op: Op, before: real)
    requires ActiveSince(p, before)
    ensures ActiveSince(Perform(p, config, op), SinceAfter(p, config, op, before))
  {
    hide ProcessQueue, InsertByPriority, Without;
    match op
    case ReleaseOp(_, transition, now) => HandoverIsActivity(LetGo(p, transition), config, now);
    case OfflineOp(_, now) => HandoverIsActivity(LetGo(p, DeviceOffline), config, now);
    case TimeoutsOp(now) => HandoverIsActivity(LetGo(p, Timeout), config, now);
    case _ =>
  }

  /** Over every run a holder's limit is the one of its last request when that was granted at
      once, and none when it was handed over. It counts from the holder's last activity, and a
      check at any time releases it exactly when checks are on and that limit is over. */
  lemma {:induction false} LimitIsTheGrantedOne(p: Policy, config: Config, ops: seq<Op>, before: Option<real>,
      since: real, now: real)
    requires Inv(p) && Named(p) && HeldFor(p, before) && ActiveSince(p, since)
    requires forall i | 0 <= i < |ops| :: !(ops[i].AcquireOp? && ops[i].device == "")
    ensures var q, limit := PerformAll(p, config, ops), LimitOver(p, config, ops, before);
            && Inv(q) && HeldFor(q, limit) && ActiveSince(q, SinceOver(p, config, ops, since))
            && (TimedOut(q, config, now) <==>
                  && config.autoReleaseTimeout != 0.0 && q.current.Some? && limit.Some? && limit.value != 0.0
                  && now - SinceOver(p, config, ops, since) >= limit.value)
    decreases |ops|
  {
    hide Perform, LimitAfter, SinceAfter, Sound, HolderOf, Distinct;
    if ops != [] {
      var next := Perform(p, config, ops[0]);
      LimitIsKept(p, config, ops[0], before);
      SinceIsKept(p, config, ops[0], since);
      PerformKeeps(p, config, ops[0]);
      LimitIsTheGrantedOne(next, config, ops[1..], LimitAfter(p, config, ops[0], before),
        SinceAfter(p, config, ops[0], since), now);
    }
  }

  /** No request of the device is granted at once with a limit. */
  ghost predicate NoLimitGranted(p: Policy, config: Config, ops: seq<Op>, device: string)
    decreases |ops|
  {
    ops == [] ||
    (var op := ops[0];
     && !(op.AcquireOp? && op.device == device && op.autoRelease.Some?
          && Acquire(p, config, device, op.priority, op.autoRelease, op.transition, op.now).1)
     && NoLimitGranted(Perform(p, config, op), config, ops[1..], device))
  }

  /** No check of the time limits changes anything while the device holds. */
  ghost predicate NeverTimedOut(p: Policy, config: Config, ops: seq<Op>, device: string)
    decreases |ops|
  {
    ops == [] ||
    (&& (ops[0].TimeoutsOp? && p.current == Some(device) ==> Perform(p, config, ops[0]) == p)
     && NeverTimedOut(Perform(p, config, ops[0]), config, ops[1..], device))
  }

  /** A device that only gets the attention from the queue is never released by a check, over
      every run, whatever limits its queued requests asked for. */
  lemma {:induction false} WaitersAreNeverTimedOut(p: Policy, config: Config, ops: seq<Op>, device: string)
    requires p.current == Some(device) ==> HeldFor(p, None)
    requires NoLimitGranted(p, config, ops, device)
    ensures NeverTimedOut(p, config, ops, device)
    decreases |ops|
  {
    if ops != [] {
      StaysUnlimited(p, config, ops[0], device);
      WaitersAreNeverTimedOut(Perform(p, config, ops[0]), config, ops[1..], device);
    }
  }

  lemma StaysUnlimited(p: Policy, config: Config, op: Op, device: string)
    requires p.current == Some(device) ==> HeldFor(p, None)
    requires op.AcquireOp? && op.device == device && op.autoRelease.Some? ==>
               !Acquire(p, config, device, op.priority, op.autoRelease, op.transition, op.now).1
    ensures Perform(p, config, op).current == Some(device) ==> HeldFor(Perform(p, config, op), None)
  {
    hide ProcessQueue, InsertByPriority, Without;
    match op
    case ReleaseOp(_, transition, now) => HandoverHasNoLimit(LetGo(p, transition), config, now);
    case OfflineOp(_, now) => HandoverHasNoLimit(LetGo(p, DeviceOffline), config, now);
    case TimeoutsOp(now) => HandoverHasNoLimit(LetGo(p, Timeout), config, now);
    case _ =>
  }

  /** The length of the configured time-out is never used: any two lengths make the same runs
      when both are zero or neither is. */
  lemma {:induction false} LengthIsNotUsed(p: Policy, config: Config, length: real, ops: seq<Op>)
    requires config.autoReleaseTimeout == 0.0 <==> length == 0.0
    ensures PerformAll(p, config.(autoReleaseTimeout := length), ops) == PerformAll(p, config, ops)
    decreases |ops|
  {
    hide Perform;
    if ops != [] {
      SameStep(p, config, length, ops[0]);
      LengthIsNotUsed(Perform(p, config, ops[0]), config, length, ops[1..]);
    }
  }

  lemma SameStep(p: Policy, config: Config, length: real, op: Op)
    requires config.autoReleaseTimeout == 0.0 <==> length == 0.0
    ensures Perform(p, config.(autoReleaseTimeout := length), op) == Perform(p, config, op)
  {
    hide ProcessQueue;
    match op
    case ReleaseOp(_, transition, now) => SameHandover(LetGo(p, transition), config, length, now);
    case OfflineOp(_, now) => SameHandover(LetGo(p, DeviceOffline), config, length, now);
    case TimeoutsOp(now) => SameHandover(LetGo(p, Timeout), config, length, now);
    case _ =>
  }

  lemma {:induction false} SameHandover(p: Policy, config: Config, length: real, now: real)
    ensures ProcessQueue(p, config.(autoReleaseTimeout := length), now) == ProcessQueue(p, config, now)
    decreases |p.queue|
  {
    if p.queue != [] && p.queue[0] !in p.entries {
      SameHandover(p.(queue := p.queue[1..]), config, length, now);
    }
  }

  /** Zero switches the checks off, which does make a difference. */
  lemma ZeroSwitchesChecksOff(config: Config, length: real)
    requires (config.autoReleaseTimeout == 0.0) != (length == 0.0)
    ensures var ops := [AcquireOp("a", None, Some(1.0), Explicit, 0.0), TimeoutsOp(1.0)];
            PerformAll(NOBODY, config.(autoReleaseTimeout := length), ops) != PerformAll(NOBODY, config, ops)
  {
    var acquire, check := AcquireOp("a", None, Some(1.0), Explicit, 0.0), TimeoutsOp(1.0);
    forall c: Config ensures PerformAll(NOBODY, c, [acquire, check]).current.Some? <==> c.autoReleaseTimeout == 0.0 {
      var held := Perform(NOBODY, c, acquire);
      assert [acquire, check][1..] == [check] && [check][1..] == [];
      assert PerformAll(NOBODY, c, [acquire, check]) == PerformAll(held, c, [check])
            == PerformAll(Perform(held, c, check), c, []);
      assert TimedOut(held, c, 1.0) <==> c.autoReleaseTimeout != 0.0;
      assert held.queue == [];
    }
  }
}
