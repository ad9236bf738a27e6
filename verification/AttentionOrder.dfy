/** The order in which waiting devices get attention. */
module AttentionOrder {
  import opened Common
  import opened Attention
  import opened AttentionTheorems

  ghost predicate Known(entries: map<string, Entry>, stamps: map<string, nat>, d: string) {
    d in entries && d in stamps
  }

  /** a goes before b: higher priority, or the same and queued earlier. */
  ghost predicate Ahead(entries: map<string, Entry>, stamps: map<string, nat>, a: string, b: string) {
    && Known(entries, stamps, a) && Known(entries, stamps, b)
    && (entries[a].priority > entries[b].priority
        || (entries[a].priority == entries[b].priority && stamps[a] < stamps[b]))
  }

  ghost predicate InOrder(entries: map<string, Entry>, stamps: map<string, nat>, queue: seq<string>) {
    && (forall i | 0 <= i < |queue| :: Known(entries, stamps, queue[i]))
    && (forall i, j | 0 <= i < j < |queue| :: Ahead(entries, stamps, queue[i], queue[j]))
  }

  ghost predicate Ordered(p: Policy) {
    InOrder(p.entries, p.stamps, p.queue) && forall d | d in p.stamps :: p.stamps[d] < p.clock
  }

  lemma OrderedIsDistinct(p: Policy)
    requires Ordered(p)
    ensures Distinct(p.queue)
  {
    forall i, j | 0 <= i < j < |p.queue| ensures p.queue[i] != p.queue[j] {
      assert Ahead(p.entries, p.stamps, p.queue[i], p.queue[j]);
    }
  }

  /** Only priorities and stamps of the waiters matter. */
  lemma SameOrder(p: Policy, q: Policy)
    requires Ordered(p) && q.stamps == p.stamps && q.clock == p.clock && q.queue == p.queue
    requires forall d | d in p.queue && d in p.entries ::
               d in q.entries && q.entries[d].priority == p.entries[d].priority
    ensures Ordered(q)
  {
    forall i | 0 <= i < |q.queue| ensures Known(q.entries, q.stamps, q.queue[i]) {
      assert Known(p.entries, p.stamps, p.queue[i]) && p.queue[i] in p.queue;
    }
    forall i, j | 0 <= i < j < |q.queue| ensures Ahead(q.entries, q.stamps, q.queue[i], q.queue[j]) {
      assert Ahead(p.entries, p.stamps, p.queue[i], p.queue[j]) && p.queue[i] in p.queue && p.queue[j] in p.queue;
    }
  }

  lemma TailInOrder(entries: map<string, Entry>, stamps: map<string, nat>, queue: seq<string>)
    requires queue != [] && InOrder(entries, stamps, queue)
    ensures InOrder(entries, stamps, queue[1..])
    ensures forall d | d in queue[1..] :: Ahead(entries, stamps, queue[0], d)
  {
    var rest := queue[1..];
    forall d | d in rest ensures Ahead(entries, stamps, queue[0], d) {
      var i :| 0 <= i < |rest| && rest[i] == d;
      assert queue[i + 1] == d;
    }
    forall i, j | 0 <= i < j < |rest| ensures Ahead(entries, stamps, rest[i], rest[j]) {
      assert rest[i] == queue[i + 1] && rest[j] == queue[j + 1];
    }
  }

  lemma ConsInOrder(entries: map<string, Entry>, stamps: map<string, nat>, d: string, rest: seq<string>)
    requires Known(entries, stamps, d)
    ensures InOrder(entries, stamps, [d] + rest)
       <==> InOrder(entries, stamps, rest) && forall e | e in rest :: Ahead(entries, stamps, d, e)
  {
    var queue := [d] + rest;
    assert queue[1..] == rest;
    if InOrder(entries, stamps, queue) {
      TailInOrder(entries, stamps, queue);
    }
    if InOrder(entries, stamps, rest) && forall e | e in rest :: Ahead(entries, stamps, d, e) {
      forall i, j | 0 <= i < j < |queue| ensures Ahead(entries, stamps, queue[i], queue[j]) {
        assert queue[j] == rest[j - 1] && rest[j - 1] in rest;
        if i > 0 {
          assert queue[i] == rest[i - 1];
        }
      }
    }
  }

  lemma {:induction false} WithoutInOrder(entries: map<string, Entry>, stamps: map<string, nat>, queue: seq<string>,
      device: string)
    requires InOrder(entries, stamps, queue)
    ensures InOrder(entries, stamps, Without(queue, device))
    ensures forall d | d in Without(queue, device) :: d in queue
  {
    if queue != [] {
      TailInOrder(entries, stamps, queue);
      assert queue == [queue[0]] + queue[1..];
      if queue[0] != device {
        WithoutInOrder(entries, stamps, queue[1..], device);
        ConsInOrder(entries, stamps, queue[0], Without(queue[1..], device));
      }
    }
  }

  /** A waiter between the priority a device asks for and the one stored for it. */
  ghost predicate Between(entries: map<string, Entry>, w: string, stored: int, requested: int) {
    w in entries &&
    (stored <= entries[w].priority < requested || requested <= entries[w].priority < stored)
  }

  /** A new waiter, with the newest stamp, is put where the requested priority belongs, but is
      ordered by the stored one: the order survives exactly when no waiter is between the two. */
  lemma {:induction false} InsertInOrder(entries: map<string, Entry>, stamps: map<string, nat>, queue: seq<string>,
      device: string, requested: int)
    requires InOrder(entries, stamps, queue) && Known(entries, stamps, device)
    requires forall i | 0 <= i < |queue| :: stamps[queue[i]] < stamps[device]
    ensures InOrder(entries, stamps, InsertByPriority(entries, queue, device, requested))
       <==> forall w | w in queue :: !Between(entries, w, entries[device].priority, requested)
    ensures forall d :: d in InsertByPriority(entries, queue, device, requested) <==> d in queue || d == device
  {
    var stored := entries[device].priority;
    if queue != [] {
      var first, rest := queue[0], queue[1..];
      TailInOrder(entries, stamps, queue);
      assert queue == [first] + rest && Known(entries, stamps, first);
      if entries[first].priority < requested {
        ConsInOrder(entries, stamps, device, queue);
        forall w | w in queue
          ensures Known(entries, stamps, w) && stamps[w] < stamps[device]
                && entries[w].priority <= entries[first].priority
        {
          var i :| 0 <= i < |queue| && queue[i] == w;
          assert w == first || Ahead(entries, stamps, first, w);
        }
      } else {
        InsertInOrder(entries, stamps, rest, device, requested);
        ConsInOrder(entries, stamps, first, InsertByPriority(entries, rest, device, requested));
        assert Ahead(entries, stamps, first, device) <==> !Between(entries, first, stored, requested);
      }
    }
  }

  lemma RestampInOrder(entries: map<string, Entry>, stamps: map<string, nat>, queue: seq<string>, device: string,
      stamp: nat)
    requires InOrder(entries, stamps, queue) && device !in queue
    ensures InOrder(entries, stamps[device := stamp], queue)
  {
    var stamps' := stamps[device := stamp];
    forall i | 0 <= i < |queue| ensures Known(entries, stamps', queue[i]) && queue[i] != device {
      assert queue[i] in queue;
    }
    forall i, j | 0 <= i < j < |queue| ensures Ahead(entries, stamps', queue[i], queue[j]) {
      assert Ahead(entries, stamps, queue[i], queue[j]);
    }
  }

  /** Queueing keeps the order exactly when the device is known and no other waiter is between
      the requested priority and the stored one. */
  ghost predicate QueuesInOrder(p: Policy, device: string, requested: int) {
    && device in p.entries
    && forall w | w in p.queue && w != device :: !Between(p.entries, w, p.entries[device].priority, requested)
  }

  lemma EnqueueInOrder(p: Policy, device: string, requested: int)
    requires Ordered(p)
    ensures Ordered(Enqueue(p, device, requested)) <==> QueuesInOrder(p, device, requested)
  {
    hide InOrder;
    OrderedIsDistinct(p);
    WithoutKeeps(p.queue, device);
    WithoutInOrder(p.entries, p.stamps, p.queue, device);
    var others := Without(p.queue, device);
    if device in p.entries {
      RestampInOrder(p.entries, p.stamps, others, device, p.clock);
      StampsBelow(p, others);
      InsertInOrder(p.entries, p.stamps[device := p.clock], others, device, requested);
    } else {
      EnqueueKeeps(p, device, requested);
      UnknownIsNotInOrder(p.entries, p.stamps[device := p.clock], Enqueue(p, device, requested).queue, device);
    }
  }

  lemma UnknownIsNotInOrder(entries: map<string, Entry>, stamps: map<string, nat>, queue: seq<string>, device: string)
    requires device in queue && device !in entries
    ensures !InOrder(entries, stamps, queue)
  {
    var i :| 0 <= i < |queue| && queue[i] == device;
  }

  lemma StampsBelow(p: Policy, queue: seq<string>)
    requires Ordered(p) && InOrder(p.entries, p.stamps, queue)
    ensures forall i | 0 <= i < |queue| :: Known(p.entries, p.stamps, queue[i]) && p.stamps[queue[i]] < p.clock
  {}

  // ----- Operations -----

  /** With its priority set to the level, the waiter at k would have to pass the one at i. Their
      positions and priorities decide it, and only when the new priority makes two waiters equal
      that were not, which of them was queued first. */
  ghost predicate Passes(p: Policy, k: nat, level: int, i: nat)
    requires k < |p.queue| && i < |p.queue|
    requires Known(p.entries, p.stamps, p.queue[k]) && Known(p.entries, p.stamps, p.queue[i])
  {
    var d, w := p.queue[k], p.queue[i];
    var was, other := p.entries[d].priority, p.entries[w].priority;
    if i < k then other < level || (other == level != was && p.stamps[d] <= p.stamps[w])
    else level < other || (other == level != was && p.stamps[w] <= p.stamps[d])
  }

  ghost predicate StaysInPlace(p: Policy, k: nat, level: int, i: nat)
    requires k < |p.queue| && i < |p.queue|
  {
    Known(p.entries, p.stamps, p.queue[k]) && Known(p.entries, p.stamps, p.queue[i]) && !Passes(p, k, level, i)
  }

  /** A device that is granted at another priority may still be in the queue itself. */
  ghost predicate GrantsInOrder(p: Policy, device: string, priority: Option<int>) {
    priority.Some? ==>
      forall k, i | 0 <= k < |p.queue| && 0 <= i < |p.queue| && p.queue[k] == device && i != k ::
        StaysInPlace(p, k, priority.value, i)
  }

  lemma GrantInOrder(p: Policy, device: string, requested: int, priority: Option<int>, autoRelease: Option<real>,
      transition: Transition, now: real)
    requires Ordered(p)
    ensures Ordered(Grant(p, device, requested, priority, autoRelease, transition, now))
          <==> GrantsInOrder(p, device, priority)
  {
    var q := Grant(p, device, requested, priority, autoRelease, transition, now);
    if priority.Some? && device in p.queue {
      var k :| 0 <= k < |p.queue| && p.queue[k] == device;
      assert Known(p.entries, p.stamps, p.queue[k]);
      OrderedIsDistinct(p);
      RepricedInOrder(p, q.entries, k, priority.value);
      assert GrantsInOrder(p, device, priority) <==> PassesNobody(p, k, priority.value);
    } else {
      hide Ordered, Passes;
      WaitersAreKnown(p);
      SameOrder(p, q);
    }
  }

  ghost predicate PassesNobody(p: Policy, k: nat, level: int)
    requires k < |p.queue|
  {
    forall i | 0 <= i < |p.queue| && i != k :: StaysInPlace(p, k, level, i)
  }

  lemma WaitersAreKnown(p: Policy)
    requires Ordered(p)
    ensures forall d | d in p.queue :: d in p.entries
  {
    forall d | d in p.queue ensures d in p.entries {
      var i :| 0 <= i < |p.queue| && p.queue[i] == d;
      assert Known(p.entries, p.stamps, p.queue[i]);
    }
  }

  lemma RepricedInOrder(p: Policy, entries: map<string, Entry>, k: nat, level: int)
    requires Ordered(p) && k < |p.queue| && p.queue[k] in entries && entries[p.queue[k]].priority == level
    requires forall d | d in p.entries ::
               d in entries && (d != p.queue[k] ==> entries[d].priority == p.entries[d].priority)
    ensures Known(p.entries, p.stamps, p.queue[k])
    ensures InOrder(entries, p.stamps, p.queue) <==> PassesNobody(p, k, level)
  {
    var queue, device := p.queue, p.queue[k];
    forall i | 0 <= i < |queue| ensures Known(p.entries, p.stamps, queue[i]) && (queue[i] == device <==> i == k) {
      if i < k { assert Ahead(p.entries, p.stamps, queue[i], queue[k]); }
      if k < i { assert Ahead(p.entries, p.stamps, queue[k], queue[i]); }
    }
    forall i | 0 <= i < |queue| && i != k
      ensures Passes(p, k, level, i)
         <==> !(if i < k then Ahead(entries, p.stamps, queue[i], queue[k])
               else Ahead(entries, p.stamps, queue[k], queue[i]))
    {
      assert if i < k then Ahead(p.entries, p.stamps, queue[i], queue[k])
            else Ahead(p.entries, p.stamps, queue[k], queue[i]);
    }
    hide Passes;
    if InOrder(entries, p.stamps, queue) {
      forall i | 0 <= i < |queue| && i != k ensures StaysInPlace(p, k, level, i) {
        assert if i < k then Ahead(entries, p.stamps, queue[i], queue[k])
              else Ahead(entries, p.stamps, queue[k], queue[i]);
      }
    }
    if PassesNobody(p, k, level) {
      forall i, j | 0 <= i < j < |queue| ensures Ahead(entries, p.stamps, queue[i], queue[j]) {
        assert Ahead(p.entries, p.stamps, queue[i], queue[j]);
        if j == k {
          assert StaysInPlace(p, k, level, i);
        } else if i == k {
          assert StaysInPlace(p, k, level, j);
        }
      }
    }
  }

  lemma LetGoInOrder(p: Policy, transition: Transition)
    requires Ordered(p)
    ensures Ordered(LetGo(p, transition))
  {
    hide Ordered;
    SameOrder(p, LetGo(p, transition));
  }

  /** A request is queued when the holder has a higher priority, refused when only an explicit
      release counts, and granted otherwise. */
  predicate IsQueued(p: Policy, config: Config, device: string, requested: int) {
    && Occupied(p) && p.current != Some(device) && config.enablePriority
    && p.current.value in p.entries && p.entries[p.current.value].priority > requested
  }

  predicate IsRefused(p: Policy, config: Config, device: string, requested: int) {
    Occupied(p) && p.current != Some(device) && !IsQueued(p, config, device, requested) && config.requireExplicitRelease
  }

  ghost predicate AcquiresInOrder(p: Policy, config: Config, device: string, priority: Option<int>) {
    var requested := Requested(config, priority);
    if IsQueued(p, config, device, requested) then QueuesInOrder(p, device, requested)
    else IsRefused(p, config, device, requested) || GrantsInOrder(p, device, priority)
  }

  lemma AcquireInOrder(p: Policy, config: Config, device: string, priority: Option<int>, autoRelease: Option<real>,
      transition: Transition, now: real)
    requires Ordered(p)
    ensures Ordered(Acquire(p, config, device, priority, autoRelease, transition, now).0)
          <==> AcquiresInOrder(p, config, device, priority)
  {
    hide Ordered, Enqueue, Grant, QueuesInOrder, GrantsInOrder;
    var requested := Requested(config, priority);
    EnqueueInOrder(p, device, requested);
    GrantInOrder(p, device, requested, priority, autoRelease, transition, now);
    forall t: Transition
      ensures Ordered(Grant(LetGo(p, t), device, requested, priority, autoRelease, transition, now))
            <==> GrantsInOrder(p, device, priority)
    {
      LetGoInOrder(p, t);
      GrantInOrder(LetGo(p, t), device, requested, priority, autoRelease, transition, now);
      LetGoGrants(p, t, device, priority);
    }
  }

  lemma LetGoGrants(p: Policy, t: Transition, device: string, priority: Option<int>)
    ensures GrantsInOrder(LetGo(p, t), device, priority) <==> GrantsInOrder(p, device, priority)
  {
    var q := LetGo(p, t);
    forall d ensures Known(q.entries, q.stamps, d) <==> Known(p.entries, p.stamps, d)
      ensures Known(p.entries, p.stamps, d) ==> q.entries[d].priority == p.entries[d].priority
    {}
    if priority.Some? {
      assert q.queue == p.queue;
      forall k, i | 0 <= k < |p.queue| && 0 <= i < |p.queue|
        ensures StaysInPlace(q, k, priority.value, i) <==> StaysInPlace(p, k, priority.value, i)
      {}
    }
  }

  /** A release hands the attention to the waiter that goes before all others. */
  lemma ReleaseHandsOver(p: Policy, config: Config, transition: Transition, now: real)
    requires Ordered(p) && p.current.Some?
    ensures var q := Release(p, config, transition, now);
            && Ordered(q)
            && (p.queue == [] ==> q.current.None?)
            && (p.queue != [] ==>
                  && q.current == Some(p.queue[0])
                  && q.queue == p.queue[1..]
                  && (forall d | d in p.queue && d != p.queue[0] :: Ahead(p.entries, p.stamps, p.queue[0], d)))
  {
    hide InOrder;
    var free := LetGo(p, transition);
    LetGoInOrder(p, transition);
    if p.queue != [] {
      var first := p.queue[0];
      TailInOrder(p.entries, p.stamps, p.queue);
      TailInOrder(free.entries, free.stamps, free.queue);
      assert p.queue == [first] + p.queue[1..];
      StampsBelow(p, p.queue);
      var rest := free.(queue := free.queue[1..]);
      GrantInOrder(rest, first, Requested(config, None), None, None, Implicit, now);
    }
  }

  lemma SetPriorityInOrder(p: Policy, device: string, priority: int)
    requires Ordered(p)
    ensures Ordered(SetPriority(p, device, priority))
  {
    var entry := if device in p.entries then p.entries[device].(priority := priority)
                 else Entry(false, None, None, None, priority);
    var q := p.(entries := p.entries[device := entry], log := p.log + [PriorityUpdated(device, priority)]);
    OrderedIsDistinct(p);
    WithoutKeeps(p.queue, device);
    WithoutInOrder(p.entries, p.stamps, p.queue, device);
    var shorter := q.(queue := Without(p.queue, device));
    assert Ordered(p.(queue := shorter.queue));
    hide Ordered, InOrder;
    SameOrder(p.(queue := shorter.queue), shorter);
    if device in p.queue {
      EnqueueInOrder(shorter, device, priority);
    } else {
      SameOrder(p, q);
    }
  }

  /** Whether an operation keeps the order; only requests can break it. */
  ghost predicate KeepsOrder(p: Policy, config: Config, op: Op) {
    op.AcquireOp? ==> AcquiresInOrder(p, config, op.device, op.priority)
  }

  lemma PerformInOrder(p: Policy, config: Config, op: Op)
    requires Ordered(p)
    ensures Ordered(Perform(p, config, op)) <==> KeepsOrder(p, config, op)
  {
    hide Ordered, InOrder, Acquire, Release, SetPriority, AcquiresInOrder;
    match op
    case AcquireOp(d, priority, autoRelease, transition, now) =>
      AcquireInOrder(p, config, d, priority, autoRelease, transition, now);
    case ReleaseOp(d, transition, now) => if p.current == Some(d) { ReleaseHandsOver(p, config, transition, now); }
    case ActivityOp(d, now) => if d in p.entries { SameOrder(p, Perform(p, config, op)); }
    case PriorityOp(d, level) => SetPriorityInOrder(p, d, level);
    case OfflineOp(d, now) => if p.current == Some(d) { ReleaseHandsOver(p, config, DeviceOffline, now); }
    case TimeoutsOp(now) => if TimedOut(p, config, now) { ReleaseHandsOver(p, config, Timeout, now); }
  }

  ghost predicate AllKeepOrder(p: Policy, config: Config, ops: seq<Op>)
    decreases |ops|
  {
    ops == [] ||
    (KeepsOrder(p, config, ops[0]) && AllKeepOrder(Perform(p, config, ops[0]), config, ops[1..]))
  }

  /** The queue is by falling priority, first come first served among equals, all along. */
  ghost predicate OrderedThroughout(p: Policy, config: Config, ops: seq<Op>)
    decreases |ops|
  {
    Ordered(p) && (ops == [] || OrderedThroughout(Perform(p, config, ops[0]), config, ops[1..]))
  }

  /** A run keeps the order all along exactly when each of its requests does when it is made. */
  lemma {:induction false} EveryRunIsInOrder(p: Policy, config: Config, ops: seq<Op>)
    requires Ordered(p)
    ensures OrderedThroughout(p, config, ops) <==> AllKeepOrder(p, config, ops)
    decreases |ops|
  {
    hide Ordered, Perform, KeepsOrder;
    if ops != [] {
      PerformInOrder(p, config, ops[0]);
      if Ordered(Perform(p, config, ops[0])) {
        EveryRunIsInOrder(Perform(p, config, ops[0]), config, ops[1..]);
      }
    }
  }

  /** In particular a known device that asks at the priority stored for it. */
  lemma StoredPriorityKeepsOrder(p: Policy, config: Config, op: Op)
    requires Ordered(p) && op.AcquireOp? && op.device in p.entries
    requires Requested(config, op.priority) == p.entries[op.device].priority
    ensures KeepsOrder(p, config, op)
  {
    var device := op.device;
    if op.priority.Some? && device in p.queue {
      var k :| 0 <= k < |p.queue| && p.queue[k] == device;
      RepricedInOrder(p, p.entries, k, op.priority.value);
    }
  }

  /** A request at a higher priority than the stored one can put a waiter before a better one. */
  lemma OtherPriorityBreaksOrder(config: Config)
    requires config.enablePriority
    ensures var ops := [PriorityOp("c", 5), PriorityOp("b", 1), PriorityOp("h", 9),
                        AcquireOp("h", Some(9), None, Explicit, 0.0), AcquireOp("c", Some(5), None, Explicit, 0.0),
                        AcquireOp("b", Some(7), None, Explicit, 0.0)];
            var p := PerformAll(NOBODY, config, ops);
            && p.queue == ["b", "c"] && "b" in p.entries && "c" in p.entries
            && p.entries["b"].priority == 1 && p.entries["c"].priority == 5 && !Ordered(p)
  {
    var ops := [PriorityOp("c", 5), PriorityOp("b", 1), PriorityOp("h", 9),
                AcquireOp("h", Some(9), None, Explicit, 0.0), AcquireOp("c", Some(5), None, Explicit, 0.0),
                AcquireOp("b", Some(7), None, Explicit, 0.0)];
    var p1 := Perform(NOBODY, config, ops[0]);
    var p2 := Perform(p1, config, ops[1]);
    var p3 := Perform(p2, config, ops[2]);
    var p4 := Perform(p3, config, ops[3]);
    var p5 := Perform(p4, config, ops[4]);
    var p6 := Perform(p5, config, ops[5]);
    assert p3.queue == [] && p3.entries["c"].priority == 5 && p3.entries["b"].priority == 1
          && p3.entries["h"].priority == 9;
    assert p4.current == Some("h") && p4.queue == [] && p4.entries["h"].priority == 9;
    assert p5.queue == ["c"] && p5.entries == p4.entries && p5.current == p4.current;
    assert Without(["c"], "b") == ["c"] by { assert ["c"][1..] == []; }
    assert p6.queue == ["b"] + ["c"] && p6.entries == p5.entries;
    assert !Ahead(p6.entries, p6.stamps, p6.queue[0], p6.queue[1]);
    hide Perform;
    Unroll(NOBODY, config, ops, 0);
    Unroll(p1, config, ops, 1);
    Unroll(p2, config, ops, 2);
    Unroll(p3, config, ops, 3);
    Unroll(p4, config, ops, 4);
    Unroll(p5, config, ops, 5);
    Unroll(p6, config, ops, 6);
    assert ops[0..] == ops;
  }

  lemma Unroll(p: Policy, config: Config, ops: seq<Op>, i: nat)
    requires i <= |ops|
    ensures PerformAll(p, config, ops[i..]) == if i == |ops| then p
          else PerformAll(Perform(p, config, ops[i]), config, ops[i + 1..])
  {
    hide Perform;
    if i < |ops| {
      assert ops[i..][0] == ops[i] && ops[i..][1..] == ops[i + 1..];
    }
  }

  /** With priorities on, a request only displaces a holder of no higher priority. */
  lemma NobodyIsDisplacedByLess(p: Policy, config: Config, op: Op)
    requires config.enablePriority && Inv(p) && Named(p) && op.AcquireOp? && p.current.Some?
    requires Perform(p, config, op).current != p.current
    ensures Perform(p, config, op).current == Some(op.device)
    ensures p.current.value in p.entries && p.entries[p.current.value].priority <= Requested(config, op.priority)
    ensures !config.requireExplicitRelease
  {
    hide Sound, HolderOf, Distinct, InsertByPriority, Without;
  }

  /** A request is granted while another device holds exactly when holders may be displaced and
      priorities do not forbid it. The displaced holder is told that it was interrupted when the
      request has a higher priority; a refused request changes neither the holder nor the log. */
  lemma WhenAHolderIsDisplaced(p: Policy, config: Config, op: Op)
    requires Inv(p) && Named(p) && op.AcquireOp? && p.current.Some? && p.current != Some(op.device)
    ensures var holder := p.entries[p.current.value].priority;
            var q, wanted := Perform(p, config, op), Requested(config, op.priority);
            if !config.requireExplicitRelease && (config.enablePriority ==> holder <= wanted)
            then && q.current == Some(op.device)
                 && q.log == p.log + [Released(p.current.value, if config.enablePriority && holder < wanted
                                                                then Interrupted else Implicit),
                                      Acquired(op.device, op.transition), Changed(op.device, None)]
            else q.current == p.current && q.log == p.log
  {
    hide Sound, HolderOf, Distinct, InsertByPriority, Without;
  }

  /** A request while nobody or the device itself holds is always granted, with its own limit, and
      with its own priority when it names one or the device is new. */
  lemma FreeAttentionIsGranted(p: Policy, config: Config, op: Op)
    requires op.AcquireOp? && (p.current.None? || p.current == Some(op.device))
    ensures var q := Perform(p, config, op);
            && q.current == Some(op.device) && op.device in q.entries
            && q.entries[op.device] == Entry(true, Some(op.now), Some(op.now), op.autoRelease,
                                             match op.priority
                                             case Some(level) => level
                                             case None => if op.device in p.entries then p.entries[op.device].priority
                                                          else config.defaultPriority)
            && (forall d | d != op.device :: (d in q.entries <==> d in p.entries)
                                              && (d in p.entries ==> q.entries[d] == p.entries[d]))
            && q.queue == p.queue
  {}

  /** A changed priority is stored and announced; the holder stays, and a waiter goes on waiting
      exactly when its new priority is above zero. */
  lemma PriorityIsStored(p: Policy, config: Config, op: Op)
    requires op.PriorityOp? && Distinct(p.queue)
    ensures var q := Perform(p, config, op);
            && op.device in q.entries && q.entries[op.device].priority == op.level
            && q.current == p.current && q.log == p.log + [PriorityUpdated(op.device, op.level)]
            && forall d :: d in q.queue <==> d in p.queue && (d == op.device ==> op.level > 0)
  {
    hide Enqueue, Without;
    WithoutKeeps(p.queue, op.device);
    var entry := if op.device in p.entries then p.entries[op.device].(priority := op.level)
                 else Entry(false, None, None, None, op.level);
    var announced := p.log + [PriorityUpdated(op.device, op.level)];
    var shorter := p.(entries := p.entries[op.device := entry], log := announced,
                     queue := Without(p.queue, op.device));
    EnqueueKeeps(shorter, op.device, op.level);
    EnqueueOnlyQueues(shorter, op.device, op.level);
  }

  lemma EnqueueOnlyQueues(p: Policy, device: string, priority: int)
    ensures var q := Enqueue(p, device, priority);
            q.entries == p.entries && q.current == p.current && q.log == p.log
  {}

  // ----- Who is lost, and who comes back -----

  /** The position of the first known waiter, or the length of the queue. */
  function FirstKnown(entries: map<string, Entry>, queue: seq<string>): (k: nat)
    ensures k <= |queue| && (k < |queue| ==> queue[k] in entries)
    ensures forall j | 0 <= j < k :: queue[j] !in entries
  {
    if queue == [] || queue[0] in entries then 0 else 1 + FirstKnown(entries, queue[1..])
  }

  lemma {:induction false} ProcessQueueTakes(p: Policy, config: Config, now: real)
    requires p.current.None?
    ensures var q, k := ProcessQueue(p, config, now), FirstKnown(p.entries, p.queue);
            if k < |p.queue| then q.current == Some(p.queue[k]) && q.queue == p.queue[k + 1..]
            else q.current.None? && q.queue == []
    decreases |p.queue|
  {
    if p.queue != [] && p.queue[0] !in p.entries {
      ProcessQueueTakes(p.(queue := p.queue[1..]), config, now);
    }
  }

  /** A waiter gets the attention at a release or goes on waiting if and only if it, or somebody
      before it, is known to the policy: unknown waiters at the head of the queue are forgotten. */
  lemma UnknownWaiterIsForgotten(p: Policy, config: Config, transition: Transition, now: real, i: nat)
    requires Inv(p) && i < |p.queue|
    ensures var q := Release(p, config, transition, now);
            q.current == Some(p.queue[i]) || p.queue[i] in q.queue
            <==> exists j :: 0 <= j <= i && p.queue[j] in p.entries
  {
    hide Sound, HolderOf;
    var free := LetGo(p, transition);
    var k := FirstKnown(p.entries, p.queue);
    assert forall d :: d in free.entries <==> d in p.entries;
    SameFirstKnown(p.entries, free.entries, p.queue);
    hide ProcessQueue;
    ProcessQueueTakes(free, config, now);
    if k <= i {
      assert p.queue[k] in p.entries;
      if k < i { assert p.queue[k + 1..][i - k - 1] == p.queue[i]; }
    } else if k < |p.queue| {
      NotAgain(p.queue, i, k);
    }
  }

  lemma NotAgain(queue: seq<string>, i: nat, k: nat)
    requires Distinct(queue) && i <= k < |queue|
    ensures queue[i] !in queue[k + 1..]
  {
    forall j | k < j < |queue| ensures queue[k + 1..][j - k - 1] == queue[j] != queue[i] {
    }
  }

  lemma {:induction false} SameFirstKnown(a: map<string, Entry>, b: map<string, Entry>, queue: seq<string>)
    requires forall d :: d in a <==> d in b
    ensures FirstKnown(a, queue) == FirstKnown(b, queue)
  {
    if queue != [] {
      SameFirstKnown(a, b, queue[1..]);
    }
  }

  /** How an unknown waiter comes about: its request is denied and queued. */
  lemma UnknownRequestIsQueued(p: Policy, config: Config, op: Op)
    requires Inv(p) && Named(p) && op.AcquireOp? && op.device !in p.entries
    requires IsQueued(p, config, op.device, Requested(config, op.priority))
    ensures var q := Perform(p, config, op); op.device in q.queue && op.device !in q.entries
  {
    hide Sound, HolderOf;
    EnqueueKeeps(p, op.device, Requested(config, op.priority));
  }

  /** A release gives the attention back to the same device exactly when that device is the
      first known waiter. */
  lemma HolderComesBack(p: Policy, config: Config, transition: Transition, now: real)
    requires Inv(p) && p.current.Some?
    ensures var k := FirstKnown(p.entries, p.queue);
            Release(p, config, transition, now).current == p.current <==> k < |p.queue| && p.queue[k] == p.current.value
  {
    hide Sound, HolderOf, ProcessQueue;
    var free := LetGo(p, transition);
    assert forall d :: d in free.entries <==> d in p.entries;
    SameFirstKnown(p.entries, free.entries, p.queue);
    ProcessQueueTakes(free, config, now);
  }

  ghost predicate HolderWaits(p: Policy) {
    p.current.Some? && p.current.value in p.queue
  }

  /** A holder is in the queue exactly when it was granted while it waited, until it lets go or
      its priority is set to nothing. */
  lemma WhenTheHolderWaits(p: Policy, config: Config, op: Op)
    requires Inv(p) && Named(p)
    ensures HolderWaits(Perform(p, config, op)) <==>
              match op
              case AcquireOp(d, priority, _, _, _) =>
                var requested := Requested(config, priority);
                if IsQueued(p, config, d, requested) || IsRefused(p, config, d, requested) then HolderWaits(p)
                else d in p.queue
              case ReleaseOp(d, _, _) => p.current != Some(d) && HolderWaits(p)
              case ActivityOp(_, _) => HolderWaits(p)
              case PriorityOp(d, level) => HolderWaits(p) && !(p.current == Some(d) && level <= 0)
              case OfflineOp(d, _) => p.current != Some(d) && HolderWaits(p)
              case TimeoutsOp(now) => !TimedOut(p, config, now) && HolderWaits(p)
  {
    hide Sound, HolderOf, InsertByPriority, Without;
    match op
    case AcquireOp(d, priority, _, _, _) => EnqueueKeeps(p, d, Requested(config, priority));
    case ReleaseOp(d, transition, now) => NewHolderDoesNotWait(p, config, transition, now);
    case ActivityOp(_, _) =>
    case PriorityOp(d, level) => PriorityKeepsWaiters(p, d, level);
    case OfflineOp(_, now) => NewHolderDoesNotWait(p, config, DeviceOffline, now);
    case TimeoutsOp(now) => NewHolderDoesNotWait(p, config, Timeout, now);
  }

  lemma NewHolderDoesNotWait(p: Policy, config: Config, transition: Transition, now: real)
    requires Inv(p)
    ensures p.current.Some? ==> !HolderWaits(Release(p, config, transition, now))
  {
    hide Sound, HolderOf, ProcessQueue;
    if p.current.Some? {
      var free := LetGo(p, transition);
      ProcessQueueTakes(free, config, now);
      var k := FirstKnown(free.entries, p.queue);
      if k < |p.queue| {
        NotAgain(p.queue, k, k);
      }
    }
  }

  lemma PriorityKeepsWaiters(p: Policy, device: string, level: int)
    requires Inv(p)
    ensures forall d :: d in SetPriority(p, device, level).queue <==> d in p.queue && (d != device || level > 0)
    ensures SetPriority(p, device, level).current == p.current
  {
    hide Sound, HolderOf, InsertByPriority, Without;
    WithoutKeeps(p.queue, device);
    var entry := if device in p.entries then p.entries[device].(priority := level)
          else Entry(false, None, None, None, level);
    var q := p.(entries := p.entries[device := entry], log := p.log + [PriorityUpdated(device, level)]);
    var shorter := q.(queue := Without(p.queue, device));
    EnqueueKeeps(shorter, device, level);
  }
}
