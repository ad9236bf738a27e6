/** Delivery of synthesized speech: tasks, two stages of FIFO locks, one ordered
    command channel per device. A step runs a task from one suspension point to
    the next, so a run is any interleaving of tasks, devices and losses. */
module Delivery {
  import opened Bytes
  import opened Common
  import opened Handheld

  /** One scheduled delivery: the target and the PCM chunks its text yields. */
  datatype Job = Job(device: string, audio: seq<bytes>)

  /** `Awaiting(r)` and `Acked(r)` speak of the task's r-th command: number 0 is
      the begin, 1..n are the chunks, n + 1 is the end. */
  datatype Phase =
    | Created
    | QueuedForCreation
    | HoldsCreation
    | QueuedForDevice
    | Granted
    | Awaiting(rank: nat)
    | Acked(rank: nat)
    | Finished

  datatype Holder = Free | Held(task: nat)

  datatype Lock = Lock(holder: Holder, waiters: seq<nat>)

  /** Everything about one device: its lock, the commands sent but not yet
      handled, the commands handled with success, the device's cache, and the
      tasks that began a session, in that order. */
  datatype Side = Side(lock: Lock, channel: seq<Command>, log: seq<Command>, cache: Cache, begun: seq<nat>)

  datatype State = State(
    jobs: seq<Job>,
    phases: seq<Phase>,
    started: nat,
    creation: Lock,
    sides: map<string, Side>,
    delivered: seq<nat>)

  const INITIAL := State([], [], 0, Lock(Free, []), map[], [])

  datatype Step =
    | Schedule(job: Job)
    | Start
    | WakeCreator
    | PassCreation(leftover: Recording)
    | WakeSender(device: string)
    | Send(device: string)
    | Apply(device: string)
    | Lose(device: string, position: nat)
    | AckOk(device: string)
    | Fail(device: string)

  /** The rate in every begin: it is sent before anything is synthesized, and the command builder
      fills in its default. The number of channels is not sent. */
  const SENT_RATE := 22050

  /** The r-th command of a task. */
  function CommandAt(jobs: seq<Job>, task: nat, rank: nat): Command
    requires task < |jobs|
  {
    if rank == 0 then Begin(task, Some(SENT_RATE), None)
    else if rank <= |jobs[task].audio| then Chunk(task, rank - 1, jobs[task].audio[rank - 1])
    else End(task)
  }

  // ----- Locks -----

  /** A lock is taken at once only when it is free and nobody waits. */
  function Acquire(lock: Lock, task: nat): Lock {
    if lock.holder.Free? && lock.waiters == [] then Lock(Held(task), [])
    else lock.(waiters := lock.waiters + [task])
  }

  function Release(lock: Lock): Lock {
    lock.(holder := Free)
  }

  function Wake(lock: Lock): Lock
    requires lock.waiters != []
  {
    Lock(Held(lock.waiters[0]), lock.waiters[1..])
  }

  predicate CanWake(lock: Lock) {
    lock.holder.Free? && lock.waiters != []
  }

  // ----- Steps -----

  predicate Holds(s: State, device: string) {
    && device in s.sides
    && s.sides[device].lock.holder.Held?
    && s.sides[device].lock.holder.task < |s.phases|
    && s.sides[device].lock.holder.task < |s.jobs|
  }

  function HolderOf(s: State, device: string): nat
    requires Holds(s, device)
  {
    s.sides[device].lock.holder.task
  }

  predicate CanSend(s: State, device: string)
    requires Holds(s, device)
  {
    var t := HolderOf(s, device);
    var size := |s.jobs[t].audio|;
    match s.phases[t]
    case Granted => true
    case Acked(r) => r < size || (r == size && size > 0)
    case _ => false
  }

  predicate Enabled(s: State, step: Step) {
    match step
    case Schedule(_) => true
    case Start => s.started < |s.phases|
    case WakeCreator => CanWake(s.creation) && s.creation.waiters[0] < |s.phases|
    case PassCreation(_) =>
      s.creation.holder.Held? && s.creation.holder.task < |s.phases| && s.creation.holder.task < |s.jobs|
    case WakeSender(d) =>
      d in s.sides && CanWake(s.sides[d].lock) && s.sides[d].lock.waiters[0] < |s.phases|
    case Send(d) => Holds(s, d) && CanSend(s, d)
    case Apply(d) => d in s.sides && s.sides[d].channel != []
    case Lose(d, i) => d in s.sides && i < |s.sides[d].channel|
    case AckOk(d) =>
      && Holds(s, d)
      && s.phases[HolderOf(s, d)].Awaiting?
      && CommandAt(s.jobs, HolderOf(s, d), s.phases[HolderOf(s, d)].rank) in s.sides[d].log
    case Fail(d) =>
      Holds(s, d) && (s.phases[HolderOf(s, d)].Awaiting? || s.phases[HolderOf(s, d)].Acked?)
  }

  function SetPhase(s: State, task: nat, phase: Phase): State
    requires task < |s.phases|
  {
    s.(phases := s.phases[task := phase])
  }

  function SetSide(s: State, device: string, side: Side): State {
    s.(sides := s.sides[device := side])
  }

  /** The lock of a device comes into being with the first task that needs it;
      the chunk list may hold anything at that time, and any format. */
  function SideOf(s: State, device: string, leftover: Recording): Side {
    if device in s.sides then s.sides[device]
    else Side(Lock(Free, []), [], [], Cache(leftover, map[]), [])
  }

  /** Leave the creation lock and line up for the device lock. Nothing is
      awaited in between, so this is one step. */
  function Enter(s: State, task: nat, leftover: Recording): State
    requires task < |s.phases| && task < |s.jobs|
  {
    var d := s.jobs[task].device;
    var side := SideOf(s, d, leftover);
    var lock := Acquire(side.lock, task);
    var phase := if lock.holder == Held(task) then Granted else QueuedForDevice;
    SetPhase(SetSide(s.(creation := Release(s.creation)), d, side.(lock := lock)), task, phase)
  }

  function Issue(s: State, device: string): State
    requires Holds(s, device) && CanSend(s, device)
  {
    var t := HolderOf(s, device);
    var side := s.sides[device];
    var rank := if s.phases[t].Granted? then 0 else s.phases[t].rank + 1;
    var begun := if s.phases[t].Granted? then side.begun + [t] else side.begun;
    SetPhase(
      SetSide(s, device, side.(channel := side.channel + [CommandAt(s.jobs, t, rank)], begun := begun)),
      t, Awaiting(rank))
  }

  function Remove<T>(list: seq<T>, i: nat): seq<T>
    requires i < |list|
  {
    list[..i] + list[i + 1..]
  }

  /** The device handles the oldest command in its channel. */
  function Deliver(side: Side): Side
    requires side.channel != []
  {
    var handled := Handle(side.cache, side.channel[0]);
    side.(channel := side.channel[1..],
          log := if handled.ok then side.log + [side.channel[0]] else side.log,
          cache := handled.cache)
  }

  /** The holder's session is over, with or without success. */
  function Leave(s: State, device: string): State
    requires Holds(s, device)
  {
    var side := s.sides[device];
    SetPhase(SetSide(s, device, side.(lock := Release(side.lock))), HolderOf(s, device), Finished)
  }

  function Next(s: State, step: Step): State
    requires Enabled(s, step)
  {
    match step
    case Schedule(job) => s.(jobs := s.jobs + [job], phases := s.phases + [Created])
    case Start =>
      var lock := Acquire(s.creation, s.started);
      var phase := if lock.holder == Held(s.started) then HoldsCreation else QueuedForCreation;
      SetPhase(s.(creation := lock, started := s.started + 1), s.started, phase)
    case WakeCreator =>
      SetPhase(s.(creation := Wake(s.creation)), s.creation.waiters[0], HoldsCreation)
    case PassCreation(leftover) => Enter(s, s.creation.holder.task, leftover)
    case WakeSender(d) =>
      var side := s.sides[d];
      SetPhase(SetSide(s, d, side.(lock := Wake(side.lock))), side.lock.waiters[0], Granted)
    case Send(d) => Issue(s, d)
    case Apply(d) => SetSide(s, d, Deliver(s.sides[d]))
    case Lose(d, i) => SetSide(s, d, s.sides[d].(channel := Remove(s.sides[d].channel, i)))
    case AckOk(d) =>
      var t := HolderOf(s, d);
      var r := s.phases[t].rank;
      if r == |s.jobs[t].audio| + 1 then
        var left := Leave(s, d);
        left.(delivered := left.delivered + [t])
      else
        SetPhase(s, t, Acked(r))
    case Fail(d) => Leave(s, d)
  }

  // ----- Runs -----

  predicate Legal(s: State, steps: seq<Step>)
    decreases |steps|
  {
    steps == [] || (Enabled(s, steps[0]) && Legal(Next(s, steps[0]), steps[1..]))
  }

  function Run(s: State, steps: seq<Step>): State
    requires Legal(s, steps)
    decreases |steps|
  {
    if steps == [] then s else Run(Next(s, steps[0]), steps[1..])
  }
}
