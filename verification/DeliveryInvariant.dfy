/** What every step of the delivery protocol keeps. */
module DeliveryInvariant {
  import opened Bytes
  import opened Handheld
  import opened Delivery

  ghost predicate Increasing(s: seq<nat>) {
    forall i, j | 0 <= i < j < |s| :: s[i] < s[j]
  }

  function Rank(jobs: seq<Job>, c: Command): nat
    requires c.task < |jobs|
  {
    match c
    case Begin(_, _, _) => 0
    case Chunk(_, i, _) => i + 1
    case End(t) => |jobs[t].audio| + 1
  }

  /** The command is one its task would send, to that task's own device. */
  ghost predicate Authentic(jobs: seq<Job>, device: string, c: Command) {
    && c.task < |jobs|
    && jobs[c.task].device == device
    && Rank(jobs, c) <= |jobs[c.task].audio| + 1
    && c == CommandAt(jobs, c.task, Rank(jobs, c))
  }

  /** A command opens a later session or is the next one of the same session. */
  ghost predicate Follows(jobs: seq<Job>, previous: Command, c: Command)
    requires previous.task < |jobs| && c.task < |jobs|
  {
    || (c.Begin? && previous.task < c.task)
    || (c.task == previous.task
        && Rank(jobs, c) == Rank(jobs, previous) + 1
        && (c.End? ==> jobs[c.task].audio != []))
  }

  /** A command history is a row of sessions, none inside another, by increasing task. */
  ghost predicate Sessions(jobs: seq<Job>, device: string, h: seq<Command>) {
    && (forall i | 0 <= i < |h| :: Authentic(jobs, device, h[i]))
    && (h != [] ==> h[0].Begin?)
    && (forall i, j | 0 <= i < |h| && j == i + 1 && j < |h| :: Follows(jobs, h[i], h[j]))
  }

  ghost function History(side: Side): seq<Command> {
    side.log + side.channel
  }

  /** Only what was handled with success is ever continued. */
  ghost predicate Settled(side: Side) {
    var h := History(side);
    forall i | 0 < i < |h| && !h[i].Begin? :: i <= |side.log|
  }

  /** The device's cache says what the handled commands say. */
  ghost predicate Mirrors(jobs: seq<Job>, log: seq<Command>, cache: Cache) {
    && (forall t :: t in cache.stored <==> End(t) in log)
    && (forall t | t in cache.stored :: t < |jobs| && cache.stored[t] == Clip(Join(jobs[t].audio), SENT_RATE, 1))
    && (log != [] ==>
          var last, now := log[|log| - 1], cache.recording;
          && now.rate == SENT_RATE && now.channels == 1
          && match last
             case Chunk(t, k, _) => t < |jobs| && k < |jobs[t].audio| && now.chunks == jobs[t].audio[..k + 1]
             case _ => now.chunks == [])
  }

  /** No command of the task ranks above r, and only the newest can rank r. */
  ghost predicate Limits(jobs: seq<Job>, h: seq<Command>, task: nat, r: nat) {
    forall i | 0 <= i < |h| && h[i].task == task && task < |jobs| ::
      Rank(jobs, h[i]) <= r && (Rank(jobs, h[i]) == r ==> i == |h| - 1)
  }

  ghost predicate HolderPhase(jobs: seq<Job>, side: Side, t: nat, phase: Phase)
    requires t < |jobs|
  {
    match phase
    case Granted => forall b | b in side.begun :: b < t
    case Awaiting(r) =>
      && side.begun != [] && side.begun[|side.begun| - 1] == t
      && (r <= |jobs[t].audio| || (r == |jobs[t].audio| + 1 && r > 1))
      && Limits(jobs, History(side), t, r)
    case Acked(r) =>
      && side.begun != [] && side.begun[|side.begun| - 1] == t
      && r <= |jobs[t].audio|
      && Limits(jobs, History(side), t, r)
      && side.channel == []
      && side.log != [] && side.log[|side.log| - 1] == CommandAt(jobs, t, r)
    case _ => false
  }

  ghost predicate Queues(jobs: seq<Job>, phases: seq<Phase>, device: string, side: Side)
    requires |phases| == |jobs|
  {
    && Increasing(side.begun)
    && Increasing(side.lock.waiters)
    && (forall c | c in History(side) :: c.task in side.begun)
    && (forall b | b in side.begun ::
          b < |jobs| && jobs[b].device == device && (phases[b] == Finished || side.lock.holder == Held(b)))
    && (forall w | w in side.lock.waiters ::
          && w < |jobs| && jobs[w].device == device && phases[w] == QueuedForDevice
          && (side.lock.holder.Held? ==> side.lock.holder.task < w)
          && (forall b | b in side.begun :: b < w))
    && (side.lock.holder.Held? ==>
          var t := side.lock.holder.task;
          t < |jobs| && jobs[t].device == device && HolderPhase(jobs, side, t, phases[t]))
  }

  ghost predicate SideInv(jobs: seq<Job>, phases: seq<Phase>, device: string, side: Side)
    requires |phases| == |jobs|
  {
    && Sessions(jobs, device, History(side))
    && Settled(side)
    && Mirrors(jobs, side.log, side.cache)
    && Queues(jobs, phases, device, side)
  }

  /** Tasks that reached a device were created before those still outside. */
  ghost predicate Outside(side: Side, t: nat) {
    && (forall b | b in side.begun :: b < t)
    && (forall w | w in side.lock.waiters :: w < t)
    && (side.lock.holder.Held? ==> side.lock.holder.task < t)
  }

  ghost predicate Entrance(s: State)
    requires |s.phases| == |s.jobs|
  {
    && s.started <= |s.jobs|
    && (forall t | s.started <= t < |s.jobs| :: s.phases[t] == Created)
    && Increasing(s.creation.waiters)
    && (forall w | w in s.creation.waiters ::
          && w < s.started && s.phases[w] == QueuedForCreation
          && (s.creation.holder.Held? ==> s.creation.holder.task < w))
    && (s.creation.holder.Held? ==>
          s.creation.holder.task < s.started && s.phases[s.creation.holder.task] == HoldsCreation)
  }

  /** Every task is where its phase says it is. */
  ghost predicate Located(s: State, t: nat)
    requires t < |s.phases| == |s.jobs|
  {
    var d := s.jobs[t].device;
    match s.phases[t]
    case Created => s.started <= t
    case QueuedForCreation => t in s.creation.waiters
    case HoldsCreation => s.creation.holder == Held(t)
    case QueuedForDevice => d in s.sides && t in s.sides[d].lock.waiters
    case Finished => d in s.sides && t in s.sides[d].begun
    case _ => d in s.sides && s.sides[d].lock.holder == Held(t)
  }

  ghost predicate Placed(s: State)
    requires |s.phases| == |s.jobs|
  {
    && (forall d | d in s.sides ::
          && Outside(s.sides[d], s.started)
          && (forall w | w in s.creation.waiters :: Outside(s.sides[d], w))
          && (s.creation.holder.Held? ==> Outside(s.sides[d], s.creation.holder.task)))
    && (forall t | 0 <= t < |s.jobs| :: Located(s, t))
  }

  ghost predicate Reported(s: State) {
    forall t | t in s.delivered ::
      t < |s.jobs| && s.jobs[t].device in s.sides && End(t) in s.sides[s.jobs[t].device].log
  }

  ghost predicate Inv(s: State) {
    && |s.phases| == |s.jobs|
    && Entrance(s)
    && (forall d | d in s.sides :: SideInv(s.jobs, s.phases, d, s.sides[d]))
    && Placed(s)
    && Reported(s)
  }

  // ----- Frames -----

  lemma IncreasingSnoc(s: seq<nat>, x: nat)
    requires Increasing(s) && forall y | y in s :: y < x
    ensures Increasing(s + [x])
  {
    forall i | 0 <= i < |s| ensures s[i] < x {
      assert s[i] in s;
    }
  }

  /** Appending a job changes nothing about the existing ones. */
  lemma MoreJobsSessions(jobs: seq<Job>, device: string, h: seq<Command>, job: Job)
    requires Sessions(jobs, device, h)
    ensures Sessions(jobs + [job], device, h)
  {
    forall i | 0 <= i < |h| ensures Authentic(jobs + [job], device, h[i]) {
      assert Authentic(jobs, device, h[i]);
    }
    forall i, j | 0 <= i < |h| && j == i + 1 && j < |h| ensures Follows(jobs + [job], h[i], h[j]) {
      assert Authentic(jobs, device, h[i]) && Authentic(jobs, device, h[j]);
      assert Follows(jobs, h[i], h[j]);
    }
  }

  lemma MoreJobsQueues(jobs: seq<Job>, phases: seq<Phase>, device: string, side: Side, job: Job)
    requires |phases| == |jobs| && Sessions(jobs, device, History(side)) && Queues(jobs, phases, device, side)
    ensures Queues(jobs + [job], phases + [Created], device, side)
  {
    if side.lock.holder.Held? {
      var t := side.lock.holder.task;
      var h := History(side);
      forall r | Limits(jobs, h, t, r) ensures Limits(jobs + [job], h, t, r) {
      }
      assert HolderPhase(jobs, side, t, phases[t]);
      assert (phases + [Created])[t] == phases[t];
      assert HolderPhase(jobs + [job], side, t, phases[t]);
    }
  }

  lemma MoreJobs(jobs: seq<Job>, phases: seq<Phase>, device: string, side: Side, job: Job)
    requires |phases| == |jobs| && SideInv(jobs, phases, device, side)
    ensures SideInv(jobs + [job], phases + [Created], device, side)
  {
    MoreJobsSessions(jobs, device, History(side), job);
    MoreJobsQueues(jobs, phases, device, side, job);
  }

  /** A side only depends on the phases of the tasks it mentions. */
  lemma OtherPhases(jobs: seq<Job>, before: seq<Phase>, after: seq<Phase>, device: string, side: Side)
    requires |before| == |jobs| == |after| && SideInv(jobs, before, device, side)
    requires forall b | b in side.begun :: b < |jobs| && after[b] == before[b]
    requires forall w | w in side.lock.waiters :: w < |jobs| && after[w] == before[w]
    requires side.lock.holder.Held? ==>
               side.lock.holder.task < |jobs| && after[side.lock.holder.task] == before[side.lock.holder.task]
    ensures SideInv(jobs, after, device, side)
  {}

  /** What a side's invariant says about the tasks it mentions. */
  lemma Mentions(jobs: seq<Job>, phases: seq<Phase>, device: string, side: Side)
    requires |phases| == |jobs| && SideInv(jobs, phases, device, side)
    ensures forall b | b in side.begun :: b < |jobs| && jobs[b].device == device
    ensures forall w | w in side.lock.waiters ::
              w < |jobs| && jobs[w].device == device && phases[w] == QueuedForDevice
    ensures side.lock.holder.Held? ==>
              var t := side.lock.holder.task;
              t < |jobs| && jobs[t].device == device && HolderPhase(jobs, side, t, phases[t])
              && (phases[t].Awaiting? || phases[t].Acked? ==> t in side.begun)
  {
    hide Sessions, Settled, Mirrors, Limits;
    if side.lock.holder.Held? {
      var t := side.lock.holder.task;
      assert HolderPhase(jobs, side, t, phases[t]);
    }
  }

  lemma FreshSide(jobs: seq<Job>, phases: seq<Phase>, device: string, leftover: Recording)
    requires |phases| == |jobs|
    ensures SideInv(jobs, phases, device, Side(Lock(Free, []), [], [], Cache(leftover, map[]), []))
  {}

  // ----- One lemma per step -----

  lemma ScheduleKeeps(s: State, job: Job)
    requires Inv(s)
    ensures Inv(Next(s, Schedule(job)))
  {
    var s' := Next(s, Schedule(job));
    forall d | d in s'.sides ensures SideInv(s'.jobs, s'.phases, d, s'.sides[d]) {
      MoreJobs(s.jobs, s.phases, d, s.sides[d], job);
    }
    forall t | 0 <= t < |s'.jobs| ensures Located(s', t) {
      if t < |s.jobs| { assert Located(s, t); }
    }
  }

  lemma StartKeeps(s: State)
    requires Inv(s) && Enabled(s, Start)
    ensures Inv(Next(s, Start))
  {
    hide SideInv, CanSend;
    var s' := Next(s, Start);
    assert Increasing(s'.creation.waiters) by { IncreasingSnoc(s.creation.waiters, s.started); }
    forall d | d in s'.sides ensures SideInv(s'.jobs, s'.phases, d, s'.sides[d]) {
      assert Outside(s.sides[d], s.started);
      OtherPhases(s.jobs, s.phases, s'.phases, d, s.sides[d]);
    }
    forall t | 0 <= t < |s'.jobs| ensures Located(s', t) {
      assert Located(s, t);
    }
  }

  lemma WakeCreatorKeeps(s: State)
    requires Inv(s) && Enabled(s, WakeCreator)
    ensures Inv(Next(s, WakeCreator))
  {
    hide SideInv, CanSend;
    var s' := Next(s, WakeCreator);
    var first := s.creation.waiters[0];
    assert s.creation.waiters == [first] + s'.creation.waiters && first in s.creation.waiters;
    forall d | d in s'.sides ensures SideInv(s'.jobs, s'.phases, d, s'.sides[d]) {
      assert Outside(s.sides[d], first);
      OtherPhases(s.jobs, s.phases, s'.phases, d, s.sides[d]);
    }
    forall t | 0 <= t < |s'.jobs| ensures Located(s', t) {
      assert Located(s, t);
    }
    assert Increasing(s'.creation.waiters);
    forall w | w in s'.creation.waiters
      ensures w in s.creation.waiters && first < w {
      var i :| 0 <= i < |s'.creation.waiters| && s'.creation.waiters[i] == w;
      assert s.creation.waiters[i + 1] == w;
    }
    assert Entrance(s');
    assert Placed(s');
  }

  /** A task that was created after all others of the device lines up for its lock. */
  lemma EnterKeepsSide(jobs: seq<Job>, phases: seq<Phase>, device: string, side: Side, task: nat)
    requires |phases| == |jobs| && task < |jobs| && jobs[task].device == device
    requires SideInv(jobs, phases, device, side) && Outside(side, task)
    ensures var lock := Acquire(side.lock, task);
            var phase := if lock.holder == Held(task) then Granted else QueuedForDevice;
            SideInv(jobs, phases[task := phase], device, side.(lock := lock))
  {
    hide Sessions, Mirrors, Limits;
    var side' := side.(lock := Acquire(side.lock, task));
    var phase := if side'.lock.holder == Held(task) then Granted else QueuedForDevice;
    var phases' := phases[task := phase];
    assert History(side') == History(side);
    if side'.lock.waiters != [] {
      IncreasingSnoc(side.lock.waiters, task);
    }
    if side.lock.holder.Held? {
      var t := side.lock.holder.task;
      assert HolderPhase(jobs, side, t, phases[t]) && phases'[t] == phases[t];
      assert HolderPhase(jobs, side', t, phases[t]);
    }
    hide HolderPhase, Increasing;
    assert Queues(jobs, phases', device, side');
  }

  lemma PassCreationKeeps(s: State, leftover: Recording)
    requires Inv(s) && Enabled(s, PassCreation(leftover))
    ensures Inv(Next(s, PassCreation(leftover)))
  {
    hide SideInv, CanSend, HolderPhase, Limits;
    var s' := Next(s, PassCreation(leftover));
    PassCreationKeepsSides(s, leftover);
    forall t | 0 <= t < |s'.jobs| ensures Located(s', t) {
      assert Located(s, t);
    }
  }

  lemma PassCreationKeepsSides(s: State, leftover: Recording)
    requires Inv(s) && Enabled(s, PassCreation(leftover))
    ensures var s' := Next(s, PassCreation(leftover));
            |s'.phases| == |s'.jobs| && forall d | d in s'.sides :: SideInv(s'.jobs, s'.phases, d, s'.sides[d])
  {
    hide SideInv, CanSend, HolderPhase, Limits;
    var s' := Next(s, PassCreation(leftover));
    var task := s.creation.holder.task;
    var device := s.jobs[task].device;
    assert Located(s, task);
    FreshSide(s.jobs, s.phases, device, leftover);
    EnterKeepsSide(s.jobs, s.phases, device, SideOf(s, device, leftover), task);
    forall d | d in s'.sides ensures SideInv(s'.jobs, s'.phases, d, s'.sides[d]) {
      if d != device {
        assert Outside(s.sides[d], task);
        OtherPhases(s.jobs, s.phases, s'.phases, d, s.sides[d]);
      }
    }
  }

  /** A step that touches one side and at most one task of that device. */
  lemma OneSide(s: State, s': State, device: string)
    requires Inv(s) && device in s.sides && s'.sides.Keys == s.sides.Keys
    requires s'.jobs == s.jobs && |s'.phases| == |s.phases| && s'.started == s.started && s'.creation == s.creation
    requires forall d | d in s.sides && d != device :: s'.sides[d] == s.sides[d]
    requires SideInv(s.jobs, s'.phases, device, s'.sides[device])
    requires forall t | 0 <= t < |s.jobs| && s'.phases[t] != s.phases[t] ::
               s.jobs[t].device == device && Located(s', t)
               && s.phases[t] != Created && s.phases[t] != QueuedForCreation && s.phases[t] != HoldsCreation
    requires var side, side' := s.sides[device], s'.sides[device];
             && (forall b | b in side.begun :: b in side'.begun)
             && (forall b | b in side'.begun :: b in side.begun || side.lock.holder == Held(b))
             && (forall w | w in side'.lock.waiters :: w in side.lock.waiters)
             && (side'.lock.holder.Held? ==>
                   side'.lock.holder == side.lock.holder || side'.lock.holder.task in side.lock.waiters)
    requires forall t | 0 <= t < |s.jobs| && s.jobs[t].device == device && s'.phases[t] == s.phases[t] ::
               Located(s', t)
    requires Reported(s')
    ensures Inv(s')
  {
    hide SideInv, HolderPhase, Outside;
    forall d | d in s'.sides ensures SideInv(s'.jobs, s'.phases, d, s'.sides[d]) {
      if d != device {
        Mentions(s.jobs, s.phases, d, s.sides[d]);
        OtherPhases(s.jobs, s.phases, s'.phases, d, s.sides[d]);
      }
    }
    forall t | 0 <= t < |s'.jobs| ensures Located(s', t) {
      assert Located(s, t);
    }
    forall d | d in s'.sides
      ensures Outside(s'.sides[d], s.started)
      ensures forall w | w in s.creation.waiters :: Outside(s'.sides[d], w)
      ensures s.creation.holder.Held? ==> Outside(s'.sides[d], s.creation.holder.task)
    {
      assert Outside(s.sides[d], s.started);
      if d == device {
        forall t: nat | Outside(s.sides[d], t) ensures Outside(s'.sides[d], t) {
          StillOutside(s.sides[d], s'.sides[d], t);
        }
      }
    }
  }

  lemma StillOutside(side: Side, side': Side, t: nat)
    requires Outside(side, t)
    requires forall b | b in side'.begun :: b in side.begun || side.lock.holder == Held(b)
    requires forall w | w in side'.lock.waiters :: w in side.lock.waiters
    requires side'.lock.holder.Held? ==>
               side'.lock.holder == side.lock.holder || side'.lock.holder.task in side.lock.waiters
    ensures Outside(side', t)
  {}

  /** The first waiter takes the lock of its device. */
  lemma WakeKeepsSide(jobs: seq<Job>, phases: seq<Phase>, device: string, side: Side)
    requires |phases| == |jobs| && SideInv(jobs, phases, device, side) && CanWake(side.lock)
    requires side.lock.waiters[0] < |jobs|
    ensures SideInv(jobs, phases[side.lock.waiters[0] := Granted], device, side.(lock := Wake(side.lock)))
  {
    hide Sessions, Mirrors, Limits;
    var side' := side.(lock := Wake(side.lock));
    var first := side.lock.waiters[0];
    assert History(side') == History(side);
    assert first in side.lock.waiters;
    forall w | w in side'.lock.waiters ensures w in side.lock.waiters && first < w {
      var i :| 0 <= i < |side'.lock.waiters| && side'.lock.waiters[i] == w;
      assert side.lock.waiters[i + 1] == w;
    }
    assert HolderPhase(jobs, side', first, Granted);
    assert Increasing(side'.lock.waiters);
    assert Queues(jobs, phases[first := Granted], device, side');
  }

  lemma WakeSenderKeeps(s: State, device: string)
    requires Inv(s) && Enabled(s, WakeSender(device))
    ensures Inv(Next(s, WakeSender(device)))
  {
    hide SideInv;
    var s' := Next(s, WakeSender(device));
    var side, side' := s.sides[device], s'.sides[device];
    Mentions(s.jobs, s.phases, device, side);
    WakeKeepsSide(s.jobs, s.phases, device, side);
    assert side.lock.waiters == [side.lock.waiters[0]] + side'.lock.waiters;
    forall t | 0 <= t < |s.jobs| && s.jobs[t].device == device ensures Located(s', t) {
      assert Located(s, t);
    }
    OneSide(s, s', device);
  }

  /** Appending the holder's next command continues the row of sessions. */
  lemma SendKeepsSessions(jobs: seq<Job>, device: string, side: Side, t: nat, phase: Phase)
    requires Sessions(jobs, device, History(side)) && t < |jobs| && jobs[t].device == device
    requires HolderPhase(jobs, side, t, phase) && (phase.Granted? || phase.Acked?)
    requires forall c | c in History(side) :: c.task in side.begun
    requires phase.Acked? && phase.rank == |jobs[t].audio| ==> phase.rank > 0
    ensures var r := if phase.Granted? then 0 else phase.rank + 1;
            var h' := History(side) + [CommandAt(jobs, t, r)];
            Sessions(jobs, device, h') && Limits(jobs, h', t, r)
  {
    var r := if phase.Granted? then 0 else phase.rank + 1;
    var h := History(side);
    var c := CommandAt(jobs, t, r);
    assert Authentic(jobs, device, c) && Rank(jobs, c) == r;
    if h != [] {
      assert h[|h| - 1] in h;
      assert r > 0 ==> h[|h| - 1] == side.log[|side.log| - 1];
      assert Follows(jobs, h[|h| - 1], c);
    }
    forall i | 0 <= i < |h| && h[i].task == t ensures Rank(jobs, h[i]) < r {
      assert h[i] in h;
    }
  }

  /** Appending the holder's next command to its side. */
  lemma SendKeepsSide(jobs: seq<Job>, phases: seq<Phase>, device: string, side: Side, t: nat)
    requires |phases| == |jobs| && SideInv(jobs, phases, device, side)
    requires side.lock.holder == Held(t) && t < |jobs|
    requires phases[t].Granted? || phases[t].Acked?
    requires phases[t].Acked? && phases[t].rank == |jobs[t].audio| ==> phases[t].rank > 0
    ensures var r := if phases[t].Granted? then 0 else phases[t].rank + 1;
            var begun := if phases[t].Granted? then side.begun + [t] else side.begun;
            SideInv(jobs, phases[t := Awaiting(r)], device,
                    side.(channel := side.channel + [CommandAt(jobs, t, r)], begun := begun))
  {
    hide Mirrors, Sessions, Limits;
    var r := if phases[t].Granted? then 0 else phases[t].rank + 1;
    var begun := if phases[t].Granted? then side.begun + [t] else side.begun;
    var side' := side.(channel := side.channel + [CommandAt(jobs, t, r)], begun := begun);
    assert HolderPhase(jobs, side, t, phases[t]);
    SendKeepsSessions(jobs, device, side, t, phases[t]);
    assert History(side') == History(side) + [CommandAt(jobs, t, r)];
    assert Increasing(begun) by {
      if r == 0 { IncreasingSnoc(side.begun, t); }
    }
    assert begun[|begun| - 1] == t && t in begun;
    assert HolderPhase(jobs, side', t, Awaiting(r));
    assert Queues(jobs, phases[t := Awaiting(r)], device, side');
    SendKeepsSettled(jobs, side, t, r, phases[t]);
  }

  lemma SendKeepsSettled(jobs: seq<Job>, side: Side, t: nat, r: nat, phase: Phase)
    requires t < |jobs| && Settled(side) && HolderPhase(jobs, side, t, phase)
    requires if phase.Granted? then r == 0 else r > 0 && phase == Acked(r - 1)
    ensures Settled(side.(channel := side.channel + [CommandAt(jobs, t, r)]))
  {
    var side' := side.(channel := side.channel + [CommandAt(jobs, t, r)]);
    assert History(side') == History(side) + [CommandAt(jobs, t, r)];
  }

  lemma SendKeeps(s: State, device: string)
    requires Inv(s) && Enabled(s, Send(device))
    ensures Inv(Next(s, Send(device)))
  {
    hide SideInv;
    var s' := Next(s, Send(device));
    Mentions(s.jobs, s.phases, device, s.sides[device]);
    SendKeepsSide(s.jobs, s.phases, device, s.sides[device], HolderOf(s, device));
    forall t | 0 <= t < |s.jobs| && s.jobs[t].device == device ensures Located(s', t) {
      assert Located(s, t);
    }
    OneSide(s, s', device);
  }

  /** Losing a command that nothing continues leaves a row of sessions. */
  lemma DropKeepsSessions(jobs: seq<Job>, device: string, h: seq<Command>, p: nat)
    requires Sessions(jobs, device, h) && p < |h|
    requires p + 1 < |h| ==> h[p + 1].Begin?
    ensures Sessions(jobs, device, Remove(h, p))
  {
    var k := Remove(h, p);
    forall i | 0 <= i < |k| ensures Authentic(jobs, device, k[i]) {
      assert k[i] == if i < p then h[i] else h[i + 1];
    }
    forall i, j | 0 <= i < |k| && j == i + 1 && j < |k| ensures Follows(jobs, k[i], k[j]) {
      if j < p {
        assert k[i] == h[i] && k[j] == h[j];
      } else if j == p {
        assert k[i] == h[i] && k[j] == h[j + 1];
        assert Follows(jobs, h[i], h[j]) && Follows(jobs, h[j], h[j + 1]);
      } else {
        assert k[i] == h[j] && k[j] == h[j + 1];
      }
    }
  }

  lemma DropKeepsLimits(jobs: seq<Job>, h: seq<Command>, p: nat, task: nat, r: nat)
    requires Limits(jobs, h, task, r) && p < |h|
    ensures Limits(jobs, Remove(h, p), task, r)
  {
    var k := Remove(h, p);
    forall i | 0 <= i < |k| && k[i].task == task && task < |jobs|
      ensures Rank(jobs, k[i]) <= r && (Rank(jobs, k[i]) == r ==> i == |k| - 1)
    {
      assert k[i] == if i < p then h[i] else h[i + 1];
    }
  }

  lemma DropKeepsSettled(side: Side, p: nat)
    requires Settled(side) && p < |side.channel|
    ensures Settled(side.(channel := Remove(side.channel, p)))
  {
    var h, at := History(side), |side.log| + p;
    assert History(side.(channel := Remove(side.channel, p))) == Remove(h, at);
    forall i | 0 < i < |h| - 1 && !Remove(h, at)[i].Begin? ensures i <= |side.log| {
      assert Remove(h, at)[i] == h[if i < at then i else i + 1];
    }
  }

  lemma DropKeepsQueues(jobs: seq<Job>, phases: seq<Phase>, device: string, side: Side, p: nat)
    requires |phases| == |jobs| && Queues(jobs, phases, device, side) && p < |side.channel|
    ensures Queues(jobs, phases, device, side.(channel := Remove(side.channel, p)))
  {
    hide Limits, Increasing;
    var side' := side.(channel := Remove(side.channel, p));
    var h, h' := History(side), History(side');
    var at := |side.log| + p;
    assert h' == Remove(h, at);
    forall c | c in h' ensures c in h {
      var i :| 0 <= i < |h'| && h'[i] == c;
      assert c == if i < at then h[i] else h[i + 1];
    }
    if side.lock.holder.Held? {
      var t := side.lock.holder.task;
      assert HolderPhase(jobs, side, t, phases[t]);
      if phases[t].Awaiting? || phases[t].Acked? {
        DropKeepsLimits(jobs, h, at, t, phases[t].rank);
      }
      assert HolderPhase(jobs, side', t, phases[t]);
    }
  }

  /** A side that lost the command at position p of its channel. */
  lemma DropKeepsSide(jobs: seq<Job>, phases: seq<Phase>, device: string, side: Side, p: nat)
    requires |phases| == |jobs| && SideInv(jobs, phases, device, side) && p < |side.channel|
    ensures SideInv(jobs, phases, device, side.(channel := Remove(side.channel, p)))
  {
    hide Queues, Sessions, Mirrors;
    var side' := side.(channel := Remove(side.channel, p));
    assert History(side') == Remove(History(side), |side.log| + p);
    DropKeepsSessions(jobs, device, History(side), |side.log| + p);
    DropKeepsSettled(side, p);
    DropKeepsQueues(jobs, phases, device, side, p);
  }

  lemma LoseKeeps(s: State, device: string, position: nat)
    requires Inv(s) && Enabled(s, Lose(device, position))
    ensures Inv(Next(s, Lose(device, position)))
  {
    hide SideInv;
    var s' := Next(s, Lose(device, position));
    DropKeepsSide(s.jobs, s.phases, device, s.sides[device], position);
    forall t | 0 <= t < |s.jobs| && s.jobs[t].device == device ensures Located(s', t) {
      assert Located(s, t);
    }
    OneSide(s, s', device);
  }

  /** The cache keeps mirroring the log when a command is handled with success. */
  lemma HandleKeepsMirror(jobs: seq<Job>, device: string, side: Side)
    requires Sessions(jobs, device, History(side)) && side.channel != []
    requires Mirrors(jobs, side.log, side.cache) && Handle(side.cache, side.channel[0]).ok
    ensures Mirrors(jobs, side.log + [side.channel[0]], Handle(side.cache, side.channel[0]).cache)
  {
    var h, n := History(side), |side.log|;
    var c := side.channel[0];
    var log' := side.log + [c];
    assert h[n] == c && Authentic(jobs, device, h[n]);
    if n > 0 {
      var previous := side.log[n - 1];
      assert h[n - 1] == previous && Follows(jobs, h[n - 1], h[n]) && Authentic(jobs, device, h[n - 1]);
      if c.Chunk? {
        var audio := jobs[c.task].audio;
        assert audio[..c.index + 1] == audio[..c.index] + [c.data];
      } else if c.End? {
        var audio := jobs[c.task].audio;
        assert audio[..|audio|] == audio;
      }
    }
    forall t ensures End(t) in log' <==> End(t) in side.log || End(t) == c {
    }
  }

  /** The newest sent command moves from the channel to the log. */
  lemma LogKeepsQueues(jobs: seq<Job>, phases: seq<Phase>, device: string, side: Side, side': Side)
    requires |phases| == |jobs| && Queues(jobs, phases, device, side) && side.channel != []
    requires side'.begun == side.begun && side'.lock == side.lock && History(side') == History(side)
    ensures Queues(jobs, phases, device, side')
  {
    hide Limits, Increasing, History;
    if side.lock.holder.Held? {
      var t := side.lock.holder.task;
      assert HolderPhase(jobs, side, t, phases[t]);
      assert HolderPhase(jobs, side', t, phases[t]);
    }
  }

  lemma ApplyKeepsSide(jobs: seq<Job>, phases: seq<Phase>, device: string, side: Side)
    requires |phases| == |jobs| && SideInv(jobs, phases, device, side) && side.channel != []
    ensures SideInv(jobs, phases, device, Deliver(side))
  {
    hide Queues, Sessions, Mirrors;
    var side' := Deliver(side);
    if Handle(side.cache, side.channel[0]).ok {
      assert side.channel == [side.channel[0]] + side'.channel;
      assert History(side') == History(side);
      HandleKeepsMirror(jobs, device, side);
      LogKeepsQueues(jobs, phases, device, side, side');
    } else {
      assert side'.channel == Remove(side.channel, 0);
      DropKeepsSide(jobs, phases, device, side, 0);
    }
  }

  lemma ApplyKeeps(s: State, device: string)
    requires Inv(s) && Enabled(s, Apply(device))
    ensures Inv(Next(s, Apply(device)))
  {
    hide SideInv;
    var s' := Next(s, Apply(device));
    ApplyKeepsSide(s.jobs, s.phases, device, s.sides[device]);
    forall t | 0 <= t < |s.jobs| && s.jobs[t].device == device ensures Located(s', t) {
      assert Located(s, t);
    }
    forall c | c in s.sides[device].log ensures c in s'.sides[device].log {
    }
    OneSide(s, s', device);
  }

  /** Releasing the device lock ends the holder's session. */
  lemma LeaveKeepsSide(s: State, device: string)
    requires Inv(s) && Holds(s, device)
          && (s.phases[HolderOf(s, device)].Awaiting? || s.phases[HolderOf(s, device)].Acked?)
    ensures var s' := Leave(s, device);
            |s'.phases| == |s.jobs| && SideInv(s.jobs, s'.phases, device, s'.sides[device])
  {
    hide Located, Mirrors, Placed, Reported, Sessions, Limits;
    var s' := Leave(s, device);
    assert History(s'.sides[device]) == History(s.sides[device]);
    assert SideInv(s.jobs, s.phases, device, s.sides[device]);
    assert Queues(s.jobs, s'.phases, device, s'.sides[device]);
  }

  lemma LeaveKeeps(s: State, device: string)
    requires Inv(s) && Holds(s, device)
          && (s.phases[HolderOf(s, device)].Awaiting? || s.phases[HolderOf(s, device)].Acked?)
    ensures Inv(Leave(s, device))
  {
    hide SideInv, HolderPhase;
    var s' := Leave(s, device);
    LeaveKeepsSide(s, device);
    Mentions(s.jobs, s.phases, device, s.sides[device]);
    forall t | 0 <= t < |s.jobs| && s.jobs[t].device == device ensures Located(s', t) {
      assert Located(s, t);
    }
    OneSide(s, s', device);
  }

  /** The awaited command was handled, so it is the newest and nothing is in flight. */
  lemma AckedIsNewest(jobs: seq<Job>, phases: seq<Phase>, device: string, side: Side, t: nat, r: nat)
    requires |phases| == |jobs| && t < |jobs| && SideInv(jobs, phases, device, side)
    requires side.lock.holder == Held(t) && phases[t] == Awaiting(r) && CommandAt(jobs, t, r) in side.log
    ensures side.channel == [] && side.log != [] && side.log[|side.log| - 1] == CommandAt(jobs, t, r)
  {
    hide Sessions, Settled, Mirrors;
    var c := CommandAt(jobs, t, r);
    assert HolderPhase(jobs, side, t, phases[t]);
    var h := History(side);
    var i :| 0 <= i < |side.log| && side.log[i] == c;
    assert h[i] == c && h[i].task == t && Rank(jobs, h[i]) == r;
  }

  lemma AckOkKeeps(s: State, device: string)
    requires Inv(s) && Enabled(s, AckOk(device))
    ensures Inv(Next(s, AckOk(device)))
  {
    hide Sessions, Settled, Mirrors, Limits, Located;
    var s' := Next(s, AckOk(device));
    var t := HolderOf(s, device);
    var side := s.sides[device];
    AckedIsNewest(s.jobs, s.phases, device, side, t, s.phases[t].rank);
    assert CommandAt(s.jobs, t, s.phases[t].rank) in side.log;
    Mentions(s.jobs, s.phases, device, side);
    if s.phases[t].rank == |s.jobs[t].audio| + 1 {
      LeaveKeeps(s, device);
      LastAckKeeps(Leave(s, device), t);
    } else {
      MiddleAckKeeps(s, device, t, s.phases[t].rank);
    }
  }

  lemma LastAckKeeps(s: State, t: nat)
    requires Inv(s) && t < |s.jobs| && s.jobs[t].device in s.sides
    requires End(t) in s.sides[s.jobs[t].device].log
    ensures Inv(s.(delivered := s.delivered + [t]))
  {
    hide SideInv, Outside;
    var s' := s.(delivered := s.delivered + [t]);
    forall u | 0 <= u < |s.jobs| ensures Located(s', u) {
      assert Located(s, u);
    }
  }

  lemma AckKeepsSide(jobs: seq<Job>, phases: seq<Phase>, device: string, side: Side, t: nat)
    requires |phases| == |jobs| && SideInv(jobs, phases, device, side)
    requires side.lock.holder == Held(t) && t < |jobs| && phases[t].Awaiting? && phases[t].rank <= |jobs[t].audio|
    requires side.channel == []
    requires side.log != [] && side.log[|side.log| - 1] == CommandAt(jobs, t, phases[t].rank)
    ensures SideInv(jobs, phases[t := Acked(phases[t].rank)], device, side)
  {
    hide Mirrors, Sessions, Limits, Settled;
    assert HolderPhase(jobs, side, t, phases[t]);
    assert HolderPhase(jobs, side, t, Acked(phases[t].rank));
    assert Queues(jobs, phases[t := Acked(phases[t].rank)], device, side);
  }

  lemma MiddleAckKeeps(s: State, device: string, t: nat, r: nat)
    requires Inv(s) && Enabled(s, AckOk(device)) && t == HolderOf(s, device) && s.phases[t] == Awaiting(r)
    requires r <= |s.jobs[t].audio|
    ensures Inv(SetPhase(s, t, Acked(r)))
  {
    hide SideInv, HolderPhase, Outside, CanSend;
    AckedIsNewest(s.jobs, s.phases, device, s.sides[device], t, r);
    var s' := SetPhase(s, t, Acked(r));
    Mentions(s.jobs, s.phases, device, s.sides[device]);
    AckKeepsSide(s.jobs, s.phases, device, s.sides[device], t);
    forall u | 0 <= u < |s.jobs| && s.jobs[u].device == device ensures Located(s', u) {
      assert Located(s, u);
    }
    OneSide(s, s', device);
  }

  /** Every step keeps the invariant. */
  lemma StepKeeps(s: State, step: Step)
    requires Inv(s) && Enabled(s, step)
    ensures Inv(Next(s, step))
  {
    hide Inv;
    match step
    case Schedule(job) => ScheduleKeeps(s, job);
    case Start => StartKeeps(s);
    case WakeCreator => WakeCreatorKeeps(s);
    case PassCreation(leftover) => PassCreationKeeps(s, leftover);
    case WakeSender(d) => WakeSenderKeeps(s, d);
    case Send(d) => SendKeeps(s, d);
    case Apply(d) => ApplyKeeps(s, d);
    case Lose(d, i) => LoseKeeps(s, d, i);
    case AckOk(d) => AckOkKeeps(s, d);
    case Fail(d) => LeaveKeeps(s, d);
  }

  lemma {:induction false} RunKeeps(s: State, steps: seq<Step>)
    requires Inv(s) && Legal(s, steps)
    ensures Inv(Run(s, steps))
    decreases |steps|
  {
    hide Inv;
    if steps != [] {
      StepKeeps(s, steps[0]);
      RunKeeps(Next(s, steps[0]), steps[1..]);
    }
  }
}
