/** What the delivery protocol promises, over every run: any interleaving of
    tasks, any lost or unanswered command, any task that gives up. */
module DeliveryTheorems {
  import opened Bytes
  import opened Common
  import opened Handheld
  import opened Delivery
  import opened DeliveryInvariant

  lemma ReachableInv(steps: seq<Step>)
    requires Legal(INITIAL, steps)
    ensures Inv(Run(INITIAL, steps))
  {
    RunKeeps(INITIAL, steps);
  }

  /** What a device has stored under a response id is all the audio of that
      task, in order, and of a task that was meant for this device. */
  lemma StoredIsTheWholeReply(steps: seq<Step>, device: string, t: nat)
    requires Legal(INITIAL, steps)
    requires device in Run(INITIAL, steps).sides && t in Run(INITIAL, steps).sides[device].cache.stored
    ensures var s := Run(INITIAL, steps);
            && t < |s.jobs|
            && s.jobs[t].device == device
            && s.sides[device].cache.stored[t] == Clip(Join(s.jobs[t].audio), SENT_RATE, 1)
  {
    hide Outside, Located, Limits, Queues, Settled;
    ReachableInv(steps);
    var s := Run(INITIAL, steps);
    var side := s.sides[device];
    assert SideInv(s.jobs, s.phases, device, side) && End(t) in side.log;
    var i :| 0 <= i < |side.log| && side.log[i] == End(t);
    assert History(side)[i] == End(t) && Authentic(s.jobs, device, History(side)[i]);
  }

  /** `audio_delivered` is only reported for audio the device has stored. */
  lemma DeliveredIsStored(steps: seq<Step>, t: nat)
    requires Legal(INITIAL, steps) && t in Run(INITIAL, steps).delivered
    ensures var s := Run(INITIAL, steps);
            && t < |s.jobs|
            && s.jobs[t].device in s.sides
            && t in s.sides[s.jobs[t].device].cache.stored
            && s.sides[s.jobs[t].device].cache.stored[t] == Clip(Join(s.jobs[t].audio), SENT_RATE, 1)
  {
    hide Outside, Located, Limits, Queues, Settled, Sessions;
    ReachableInv(steps);
    var s := Run(INITIAL, steps);
    assert SideInv(s.jobs, s.phases, s.jobs[t].device, s.sides[s.jobs[t].device]);
  }

  /** The commands a device handled form whole sessions, one after the other. */
  lemma SessionsDoNotOverlap(steps: seq<Step>, device: string)
    requires Legal(INITIAL, steps) && device in Run(INITIAL, steps).sides
    ensures var s := Run(INITIAL, steps); Sessions(s.jobs, device, s.sides[device].log)
  {
    hide Outside, Located, Limits, Queues, Settled, Mirrors;
    ReachableInv(steps);
    var s := Run(INITIAL, steps);
    var side := s.sides[device];
    assert SideInv(s.jobs, s.phases, device, side);
    var h := History(side);
    forall i | 0 <= i < |side.log| ensures side.log[i] == h[i] && Authentic(s.jobs, device, side.log[i]) {
    }
    forall i, j | 0 <= i < |side.log| && j == i + 1 && j < |side.log|
      ensures Follows(s.jobs, side.log[i], side.log[j])
    {
      assert Follows(s.jobs, h[i], h[j]);
    }
  }

  /** Sessions of a device begin in the order of scheduling: when one begins, every
      earlier task of that device has had its session and is over. */
  lemma SessionsBeginInOrder(steps: seq<Step>, earlier: nat, later: nat)
    requires Legal(INITIAL, steps)
    requires var s := Run(INITIAL, steps);
             && earlier < later < |s.jobs| && s.jobs[earlier].device == s.jobs[later].device
             && s.jobs[later].device in s.sides
             && later in s.sides[s.jobs[later].device].begun
    ensures var s := Run(INITIAL, steps);
            var begun := s.sides[s.jobs[later].device].begun;
            && |s.phases| == |s.jobs|
            && s.phases[earlier] == Finished
            && Increasing(begun)
            && exists i, j :: 0 <= i < j < |begun| && begun[i] == earlier && begun[j] == later
  {
    hide Sessions, Limits, Settled, Mirrors;
    ReachableInv(steps);
    var s := Run(INITIAL, steps);
    var side := s.sides[s.jobs[later].device];
    assert SideInv(s.jobs, s.phases, s.jobs[later].device, side);
    assert Located(s, earlier) && Located(s, later);
    assert Outside(side, s.started);
    var j :| 0 <= j < |side.begun| && side.begun[j] == later;
    assert earlier in side.begun;
    var i :| 0 <= i < |side.begun| && side.begun[i] == earlier;
    assert i < j;
  }

  // ----- No task is stuck -----

  function Distance(phase: Phase): nat {
    match phase
    case Created => 6
    case QueuedForCreation => 5
    case HoldsCreation => 4
    case QueuedForDevice => 3
    case Granted => 2
    case Finished => 0
    case _ => 1
  }

  function TotalDistance(phases: seq<Phase>): nat {
    if phases == [] then 0 else Distance(phases[0]) + TotalDistance(phases[1..])
  }

  lemma {:induction false} TotalDistanceUpdate(phases: seq<Phase>, t: nat, phase: Phase)
    requires t < |phases|
    ensures TotalDistance(phases[t := phase]) == TotalDistance(phases) - Distance(phases[t]) + Distance(phase)
  {
    if t > 0 {
      TotalDistanceUpdate(phases[1..], t - 1, phase);
      assert phases[t := phase][1..] == phases[1..][t - 1 := phase];
    } else {
      assert phases[t := phase][1..] == phases[1..];
    }
  }

  lemma CloserByOne(before: seq<Phase>, after: seq<Phase>, t: nat)
    requires t < |before| && |after| == |before| && after == before[t := after[t]]
    requires Distance(after[t]) < Distance(before[t])
    ensures TotalDistance(after) < TotalDistance(before)
  {
    TotalDistanceUpdate(before, t, after[t]);
  }

  /** A step that brings the holder of a device lock, or its first waiter, nearer its end. */
  lemma SideAdvances(s: State, d: string) returns (step: Step)
    requires Inv(s) && d in s.sides && (s.sides[d].lock.holder.Held? || s.sides[d].lock.waiters != [])
    ensures !step.Schedule? && Enabled(s, step)
    ensures TotalDistance(Next(s, step).phases) < TotalDistance(s.phases)
    ensures |Next(s, step).phases| == |s.phases|
  {
    hide SideInv, Outside, Located, Limits;
    var lock := s.sides[d].lock;
    Mentions(s.jobs, s.phases, d, s.sides[d]);
    var u: nat;
    if lock.holder.Held? {
      u := lock.holder.task;
      step := if s.phases[u] == Granted then Send(d) else Fail(d);
    } else {
      u := lock.waiters[0];
      assert u in lock.waiters;
      step := WakeSender(d);
    }
    CloserByOne(s.phases, Next(s, step).phases, u);
  }

  /** A step that brings some unfinished task nearer its end. */
  lemma SomeStepAdvances(s: State, t: nat) returns (step: Step)
    requires Inv(s) && t < |s.phases| && s.phases[t] != Finished
    ensures !step.Schedule? && Enabled(s, step)
    ensures TotalDistance(Next(s, step).phases) < TotalDistance(s.phases)
    ensures |Next(s, step).phases| == |s.phases|
  {
    hide SideInv, Outside;
    assert Located(s, t);
    if s.creation.holder.Held? {
      step := PassCreation(Recording([], 0, 0));
      CloserByOne(s.phases, Next(s, step).phases, s.creation.holder.task);
    } else if s.creation.waiters != [] {
      step := WakeCreator;
      assert s.creation.waiters[0] in s.creation.waiters;
      CloserByOne(s.phases, Next(s, step).phases, s.creation.waiters[0]);
    } else if s.phases[t] == Created {
      step := Start;
      CloserByOne(s.phases, Next(s, step).phases, s.started);
    } else {
      Mentions(s.jobs, s.phases, s.jobs[t].device, s.sides[s.jobs[t].device]);
      step := SideAdvances(s, s.jobs[t].device);
    }
  }

  /** No lock is ever lost. */
  lemma {:induction false} EveryTaskCanFinish(s: State) returns (steps: seq<Step>)
    requires Inv(s)
    ensures Legal(s, steps) && |Run(s, steps).phases| == |s.phases|
    ensures forall t | 0 <= t < |s.phases| :: Run(s, steps).phases[t] == Finished
    decreases TotalDistance(s.phases)
  {
    hide Inv;
    if t: nat :| t < |s.phases| && s.phases[t] != Finished {
      var step := SomeStepAdvances(s, t);
      StepKeeps(s, step);
      var rest := EveryTaskCanFinish(Next(s, step));
      steps := [step] + rest;
      assert steps[1..] == rest;
    } else {
      steps := [];
    }
  }

  /** From every reachable state, even if all the remaining commands fail, the tasks can run
      until all of them are over. */
  lemma NoTaskIsStuck(steps: seq<Step>) returns (more: seq<Step>)
    requires Legal(INITIAL, steps)
    ensures var s := Run(INITIAL, steps);
            && Legal(s, more) && |Run(s, more).phases| == |s.phases|
            && forall t | 0 <= t < |s.phases| :: Run(s, more).phases[t] == Finished
  {
    ReachableInv(steps);
    more := EveryTaskCanFinish(Run(INITIAL, steps));
  }

  // ----- A reply can arrive -----

  function Sent(job: Job, rank: nat): seq<Command> {
    if rank == 0 then [CommandAt([job], 0, 0)] else Sent(job, rank - 1) + [CommandAt([job], 0, rank)]
  }

  /** The only task has had its commands up to the rank answered. */
  function AnsweredUpTo(job: Job, rank: nat): State
    requires rank <= |job.audio|
  {
    State([job], [Acked(rank)], 1, Lock(Free, []),
          map[job.device := Side(Lock(Held(0), []), [], Sent(job, rank),
                                 Cache(Recording(job.audio[..rank], SENT_RATE, 1), map[]), [0])], [])
  }

  /** There is audio, and its size fits in the header of a file. */
  predicate CanBeSaved(job: Job) {
    job.audio != [] && FileOf(Clip(Join(job.audio), SENT_RATE, 1)).File?
  }

  predicate ReplyArrived(s: State, job: Job) {
    && s.jobs == [job] && s.delivered == [0]
    && job.device in s.sides && s.sides[job.device].cache.stored == map[0 := Clip(Join(job.audio), SENT_RATE, 1)]
  }

  lemma RunOne(s: State, step: Step, rest: seq<Step>)
    requires Enabled(s, step) && Legal(Next(s, step), rest)
    ensures Legal(s, [step] + rest) && Run(s, [step] + rest) == Run(Next(s, step), rest)
  {
    assert ([step] + rest)[0] == step && ([step] + rest)[1..] == rest;
  }

  /** A command is sent, handled and answered. */
  lemma ThreeSteps(s: State, device: string, rest: seq<Step>)
    requires Enabled(s, Send(device)) && Enabled(Next(s, Send(device)), Apply(device))
    requires var applied := Next(Next(s, Send(device)), Apply(device));
             Enabled(applied, AckOk(device)) && Legal(Next(applied, AckOk(device)), rest)
    ensures var applied := Next(Next(s, Send(device)), Apply(device));
            var steps := [Send(device)] + ([Apply(device)] + ([AckOk(device)] + rest));
            Legal(s, steps) && Run(s, steps) == Run(Next(applied, AckOk(device)), rest)
  {
    hide Enabled, Next, Legal, Run;
    var sent := Next(s, Send(device));
    var applied := Next(sent, Apply(device));
    RunOne(applied, AckOk(device), rest);
    RunOne(sent, Apply(device), [AckOk(device)] + rest);
    RunOne(s, Send(device), [Apply(device)] + ([AckOk(device)] + rest));
  }

  lemma NextChunk(job: Job, rank: nat)
    requires rank < |job.audio| && job.audio[rank] != []
    ensures var s, d := AnsweredUpTo(job, rank), job.device;
            && Enabled(s, Send(d)) && Enabled(Next(s, Send(d)), Apply(d))
            && Enabled(Next(Next(s, Send(d)), Apply(d)), AckOk(d))
            && Next(Next(Next(s, Send(d)), Apply(d)), AckOk(d)) == AnsweredUpTo(job, rank + 1)
  {
    var s, d := AnsweredUpTo(job, rank), job.device;
    var applied := Next(Next(s, Send(d)), Apply(d));
    assert job.audio[..rank + 1] == job.audio[..rank] + [job.audio[rank]];
    assert applied.sides[d].log == Sent(job, rank) + [CommandAt([job], 0, rank + 1)];
    var side := AnsweredUpTo(job, rank + 1).sides[d];
    assert applied.sides[d].channel == [] && applied.sides[d].cache == side.cache;
    assert applied.sides == AnsweredUpTo(job, rank + 1).sides;
  }

  lemma LastCommand(job: Job)
    requires CanBeSaved(job)
    ensures var s, d := AnsweredUpTo(job, |job.audio|), job.device;
            && Enabled(s, Send(d)) && Enabled(Next(s, Send(d)), Apply(d))
            && Enabled(Next(Next(s, Send(d)), Apply(d)), AckOk(d))
            && ReplyArrived(Next(Next(Next(s, Send(d)), Apply(d)), AckOk(d)), job)
  {
    var s, d := AnsweredUpTo(job, |job.audio|), job.device;
    var applied := Next(Next(s, Send(d)), Apply(d));
    assert job.audio[..|job.audio|] == job.audio;
    assert applied.sides[d].log == Sent(job, |job.audio|) + [End(0)];
  }

  lemma {:induction false} TheRestArrives(job: Job, rank: nat) returns (steps: seq<Step>)
    requires CanBeSaved(job) && rank <= |job.audio| && forall k | 0 <= k < |job.audio| :: job.audio[k] != []
    ensures Legal(AnsweredUpTo(job, rank), steps) && ReplyArrived(Run(AnsweredUpTo(job, rank), steps), job)
    decreases |job.audio| - rank
  {
    hide Enabled, Next, AnsweredUpTo, ReplyArrived;
    var d, rest := job.device, [];
    if rank < |job.audio| {
      rest := TheRestArrives(job, rank + 1);
      NextChunk(job, rank);
    } else {
      LastCommand(job);
    }
    ThreeSteps(AnsweredUpTo(job, rank), d, rest);
    steps := [Send(d)] + ([Apply(d)] + ([AckOk(d)] + rest));
  }

  /** The only task after it took the lock of its device. */
  function Entered(job: Job, leftover: Recording): State {
    State([job], [Granted], 1, Lock(Free, []),
          map[job.device := Side(Lock(Held(0), []), [], [], Cache(leftover, map[]), [])], [])
  }

  lemma EnterFirst(job: Job, leftover: Recording)
    ensures Enabled(INITIAL, Schedule(job))
    ensures var scheduled := Next(INITIAL, Schedule(job));
            && Enabled(scheduled, Start) && Enabled(Next(scheduled, Start), PassCreation(leftover))
            && Next(Next(scheduled, Start), PassCreation(leftover)) == Entered(job, leftover)
  {
    var started := Next(Next(INITIAL, Schedule(job)), Start);
    assert started == State([job], [HoldsCreation], 1, Lock(Held(0), []), map[], []);
  }

  lemma BeginFirst(job: Job, leftover: Recording)
    ensures var s, d := Entered(job, leftover), job.device;
            && Enabled(s, Send(d)) && Enabled(Next(s, Send(d)), Apply(d))
            && Enabled(Next(Next(s, Send(d)), Apply(d)), AckOk(d))
            && Next(Next(Next(s, Send(d)), Apply(d)), AckOk(d)) == AnsweredUpTo(job, 0)
  {
    var s, d := Entered(job, leftover), job.device;
    var applied := Next(Next(s, Send(d)), Apply(d));
    var side := applied.sides[d];
    assert side.channel == [] && side.log == [CommandAt([job], 0, 0)] && side.begun == [0];
    assert job.audio[..0] == [] && applied.sides[d].cache == Cache(Recording([], SENT_RATE, 1), map[]);
    assert applied.sides == AnsweredUpTo(job, 0).sides;
  }

  /** Audio of at least one chunk and without empty chunks can arrive, whatever the device's
      chunk list held before: the promises above are not about runs that never happen. */
  lemma AReplyCanArrive(job: Job, leftover: Recording) returns (steps: seq<Step>)
    requires CanBeSaved(job) && forall k | 0 <= k < |job.audio| :: job.audio[k] != []
    ensures Legal(INITIAL, steps) && ReplyArrived(Run(INITIAL, steps), job)
  {
    hide Enabled, Next, Legal, Run, Entered, AnsweredUpTo, ReplyArrived;
    var d := job.device;
    EnterFirst(job, leftover);
    BeginFirst(job, leftover);
    steps := TheRestArrives(job, 0);
    ThreeSteps(Entered(job, leftover), d, steps);
    steps := [Send(d)] + ([Apply(d)] + ([AckOk(d)] + steps));
    var scheduled := Next(INITIAL, Schedule(job));
    RunOne(Next(scheduled, Start), PassCreation(leftover), steps);
    steps := [PassCreation(leftover)] + steps;
    RunOne(scheduled, Start, steps);
    steps := [Start] + steps;
    RunOne(INITIAL, Schedule(job), steps);
    steps := [Schedule(job)] + steps;
  }

  // ----- What can be stored -----

  /** A device handles no empty chunk, and what it has stored fits in a file. */
  ghost predicate Accepts(side: Side) {
    && (forall c | c in side.log && c.Chunk? :: c.data != [])
    && (forall t | t in side.cache.stored :: FileOf(side.cache.stored[t]).File?)
  }

  lemma DeliverAccepts(side: Side)
    requires side.channel != [] && Accepts(side)
    ensures Accepts(Deliver(side))
  {
    hide FileOf;
    var c := side.channel[0];
    assert forall x | x in side.log + [c] :: x in side.log || x == c;
  }

  lemma StepAccepts(s: State, step: Step)
    requires Enabled(s, step) && forall d | d in s.sides :: Accepts(s.sides[d])
    ensures forall d | d in Next(s, step).sides :: Accepts(Next(s, step).sides[d])
  {
    hide FileOf, CommandAt;
    if step.Apply? {
      DeliverAccepts(s.sides[step.device]);
    }
  }

  lemma {:induction false} RunAccepts(s: State, steps: seq<Step>)
    requires Legal(s, steps) && forall d | d in s.sides :: Accepts(s.sides[d])
    ensures forall d | d in Run(s, steps).sides :: Accepts(Run(s, steps).sides[d])
    decreases |steps|
  {
    hide Accepts, Enabled, Next;
    if steps != [] {
      StepAccepts(s, steps[0]);
      RunAccepts(Next(s, steps[0]), steps[1..]);
    }
  }

  /** Behind an end in the log are all the commands of its session. */
  lemma {:induction false} SessionBehind(jobs: seq<Job>, device: string, log: seq<Command>, i: nat, m: nat)
    requires Sessions(jobs, device, log) && i < |log| && log[i].End?
    requires log[i].task < |jobs| && m <= |jobs[log[i].task].audio| + 1
    ensures m <= i && log[i - m] == CommandAt(jobs, log[i].task, |jobs[log[i].task].audio| + 1 - m)
  {
    assert Authentic(jobs, device, log[i]);
    if m > 0 {
      SessionBehind(jobs, device, log, i, m - 1);
      var at := i - (m - 1);
      assert at > 0;
      assert Follows(jobs, log[at - 1], log[at]);
      assert Authentic(jobs, device, log[at - 1]) && Authentic(jobs, device, log[at]);
    }
  }

  /** Only audio that can be saved, without empty chunks, is ever stored: together with
      `AReplyCanArrive` this says exactly which replies can arrive. */
  lemma StoredCouldBeSaved(steps: seq<Step>, device: string, t: nat)
    requires Legal(INITIAL, steps)
    requires device in Run(INITIAL, steps).sides && t in Run(INITIAL, steps).sides[device].cache.stored
    ensures var jobs := Run(INITIAL, steps).jobs;
            t < |jobs| && CanBeSaved(jobs[t]) && forall k | 0 <= k < |jobs[t].audio| :: jobs[t].audio[k] != []
  {
    hide Legal, Run, Queues, Settled, Limits, FileOf, Sessions;
    StoredIsTheWholeReply(steps, device, t);
    SessionsDoNotOverlap(steps, device);
    RunAccepts(INITIAL, steps);
    var s := Run(INITIAL, steps);
    var log, audio := s.sides[device].log, s.jobs[t].audio;
    EndIsLogged(steps, device, t);
    var i :| 0 <= i < |log| && log[i] == End(t);
    forall k | 0 <= k < |audio| ensures audio[k] != [] {
      SessionBehind(s.jobs, device, log, i, |audio| - k);
      assert Chunk(t, k, audio[k]) in log;
    }
    EndNeedsAudio(s.jobs, device, log, i);
  }

  lemma EndIsLogged(steps: seq<Step>, device: string, t: nat)
    requires Legal(INITIAL, steps)
    requires device in Run(INITIAL, steps).sides && t in Run(INITIAL, steps).sides[device].cache.stored
    ensures End(t) in Run(INITIAL, steps).sides[device].log
  {
    hide Outside, Located, Limits, Queues, Settled, Sessions;
    ReachableInv(steps);
    var s := Run(INITIAL, steps);
    assert SideInv(s.jobs, s.phases, device, s.sides[device]);
  }

  lemma EndNeedsAudio(jobs: seq<Job>, device: string, log: seq<Command>, i: nat)
    requires Sessions(jobs, device, log) && i < |log| && log[i].End?
    ensures log[i].task < |jobs| && jobs[log[i].task].audio != []
  {
    assert Authentic(jobs, device, log[i]);
    assert i > 0 && Follows(jobs, log[i - 1], log[i]);
  }
}
