/** packages/cli-supervisor/src/supervisor.ts as a state machine.

    One transition is one stretch of code that runs without an `await` in it: a synchronous
    entry point, a timer callback, a child-process event, the start of the next queued task, or
    the continuation of the running task after an `await`. The environment picks the order of
    the transitions and every awaited result. */
module SupervisorModel {
  import opened Options
  import opened Retry

  datatype HostMode = Daemon | Electron | Foreground
  datatype Host = Host(instance: int, pid: int, mode: HostMode)
  datatype Runtime = Runtime(pid: int, supervisor: Option<Host>)

  predicate RuntimeMatchesHost(runtime: Runtime, host: Host) {
    if host.mode == Foreground then runtime.pid == host.pid && runtime.supervisor == None
    else runtime.supervisor == Some(host)
  }

  /** The options that steer control flow. `owned`: an ownership port is configured; `attach`:
      existingRuntimePolicy is 'attach'. */
  datatype Config = Config(
    owned: bool, inspects: bool, attach: bool, probeFailureThreshold: int,
    windowMs: int, threshold: int, oomWindowMs: int, oomThreshold: int)

  /** A spawned process: its index among all spawned processes and the generation it belongs to. */
  datatype Run = Run(child: nat, generation: nat, pid: Option<int>)

  /** The text of `fatalReason`, up to what control flow can see: whether it is empty. */
  datatype Reason =
    | Given(text: string)
    | ForeignOwner
    | ForeignHost
    | ForeignRuntime(pid: int)
    | TooManyFailures(oom: bool, count: nat)
    | SurvivedKill(child: nat)

  /** A task on the lifecycle queue. */
  datatype Task =
    | Reconcile(generation: nat)
    | StopRun(generation: nat)
    | RestartRun(generation: nat)
    | RunSettled(run: Run, alreadyRunning: bool)
    | Poll(generation: nat)

  datatype AfterExit = ThenStop(generation: nat) | ThenReconcile(generation: nat)

  /** The `await` at which the running task is suspended, with the locals it still needs. */
  datatype Point =
    | AcquireLease(generation: nat)
    | ProbeOccupant(generation: nat, owner: Option<Host>, description: Option<string>)
    | ReleaseStaleLease
    | ProbeRuntime(generation: nat)
    | PrepareLaunch(generation: nat)
    | AwaitExit(run: Run, forced: bool, after: AfterExit)
    | Terminated(after: AfterExit)
    | ReleaseAfterStop
    | ProbeAfterConflict(generation: nat)
    | ReleaseAfterConflict(generation: nat)
    | ProbeForeign(generation: nat)
    | DecideExit(generation: nat)
    | ReleaseAfterExit
    | InspectOnly
    | ProbeOnly(owner: Option<Host>)
    | InspectAttached(generation: nat)
    | PollProbe(generation: nat)

  datatype Decision =
    | StopExit
    | RestartExit
    | RetryExit(countFailure: bool, oom: bool)
    | FatalExit(message: string)

  /** How an awaited operation settles. `Rejected` stands for its promise rejecting. */
  datatype Reply =
    | Acquired
    | Occupied(owner: Option<Host>, description: Option<string>)
    | Observed(runtime: Option<Runtime>)
    | Owner(owner: Option<Host>)
    | Launched(pid: Option<int>)
    | SpawnThrew
    | Exited
    | TimedOut
    | Done
    | Decided(decision: Decision)
    | Rejected

  datatype Event =
    | Start | StartProbing | Stop | Restart
    | PollTick | RetryFires | HealthyFires
    | ChildExits(child: nat)
    | RunSettles(child: nat, alreadyRunning: bool)
    | BeginTask
    | Resume(reply: Reply, nowMs: int)

  /** What was asked of the supervisor, and its verdict. */
  datatype Intent = Intent(running: bool, probeOnly: bool, generation: nat, fatalReason: Option<Reason>)

  /** The lifecycle queue, where its running task is suspended, and whether that task is a poll. */
  datatype Tasks = Tasks(queue: seq<Task>, current: Option<Point>, polling: bool, pollQueued: bool)

  /** The processes and the lease the supervisor believes in. */
  datatype Links = Links(
    activeRun: Option<Run>, external: Option<Runtime>, externalHost: Option<Host>,
    ownershipHeld: bool, probeFailures: nat)

  datatype Timers = Timers(retry: Option<nat>, healthy: Option<nat>, poll: bool)

  /** The two failure windows; a log records every counted failure since its window's last reset. */
  datatype Windows = Windows(failures: seq<int>, oomFailures: seq<int>, failureLog: seq<int>, oomLog: seq<int>)

  /** What is really out there: whether this host holds the lease, every process it has spawned,
      and which of those are alive or have settled. */
  datatype World = World(lease: bool, runs: seq<Run>, alive: set<nat>, settled: set<nat>)

  datatype State = State(
    intent: Intent, tasks: Tasks, links: Links, timers: Timers, windows: Windows, world: World)

  const INITIAL := State(
    Intent(false, false, 0, None), Tasks([], None, false, false), Links(None, None, None, false, 0),
    Timers(None, None, false), Windows([], [], [], []), World(false, [], {}, {}))

  /** `fatalReason` as the code tests it: an empty string counts as no reason. */
  predicate Fatal(s: State) {
    s.intent.fatalReason.Some? && s.intent.fatalReason.value != Given("")
  }

  predicate IsCurrent(s: State, generation: nat) {
    generation == s.intent.generation && s.intent.running
  }

  // The private helpers.

  function Enqueue(s: State, task: Task): State {
    s.(tasks := s.tasks.(queue := s.tasks.queue + [task]))
  }

  function ResetFailures(s: State): State {
    s.(windows := s.windows.(failures := [], failureLog := []))
  }

  function ResetWindows(s: State): State {
    s.(windows := Windows([], [], [], []))
  }

  function ClearRetry(s: State): State {
    s.(timers := s.timers.(retry := None))
  }

  function ArmRetry(s: State, generation: nat): State {
    s.(timers := s.timers.(retry := Some(generation)))
  }

  /** A new generation that wants the runtime running: the common part of start and restart. */
  function ExplicitStart(s: State): State {
    s.(intent := Intent(true, false, s.intent.generation + 1, None),
    timers := Timers(None, None, true),
    windows := Windows([], [], [], []),
    links := s.links.(external := None, externalHost := None, probeFailures := 0))
  }

  function StopPolling(s: State): State {
    if s.timers.poll
    then s.(timers := s.timers.(poll := false), tasks := s.tasks.(pollQueued := false))
    else s
  }

  function QueuePoll(s: State): State {
    if s.tasks.pollQueued || (!s.intent.running && !s.intent.probeOnly) then s
    else Enqueue(s.(tasks := s.tasks.(pollQueued := true)), Poll(s.intent.generation))
  }

  function MarkFatal(s: State, reason: Reason): State {
    if s.intent.fatalReason == Some(reason) then s
    else StopPolling(s.(intent := s.intent.(fatalReason := Some(reason)),
                     timers := s.timers.(retry := None, healthy := None)))
  }

  function ObserveExternal(c: Config, s: State, runtime: Runtime, host: Option<Host>): State {
    if !c.attach then MarkFatal(s.(links := s.links.(external := Some(runtime))), ForeignRuntime(runtime.pid))
    else ClearRetry(s.(links := s.links.(external := Some(runtime), externalHost := host, probeFailures := 0)))
  }

  function ForgetExternal(s: State): State {
    s.(links := s.links.(external := None, externalHost := None))
  }

  function CountProbeFailure(s: State): State {
    s.(links := s.links.(probeFailures := s.links.probeFailures + 1))
  }

  /** The windows after recording a failure of the class. */
  function Record(c: Config, w: Windows, oom: bool, now: int): Windows {
    if oom then w.(oomFailures := Recorded(w.oomFailures, c.oomWindowMs, now), oomLog := w.oomLog + [now])
    else w.(failures := Recorded(w.failures, c.windowMs, now), failureLog := w.failureLog + [now])
  }

  function RecordFailure(c: Config, s: State, oom: bool, now: int): State {
    s.(windows := Record(c, s.windows, oom, now))
  }

  /** How many recent failures of the class the window holds. */
  function RecentCount(s: State, oom: bool): nat {
    if oom then |s.windows.oomFailures| else |s.windows.failures|
  }

  function Threshold(c: Config, oom: bool): int {
    if oom then c.oomThreshold else c.threshold
  }

  function CountedRetry(c: Config, recorded: State, generation: nat, oom: bool): State {
    if RecentCount(recorded, oom) >= Threshold(c, oom)
    then MarkFatal(recorded, TooManyFailures(oom, RecentCount(recorded, oom)))
    else ArmRetry(recorded, generation)
  }

  function ScheduleRetry(c: Config, s: State, generation: nat, count: bool, oom: bool, now: int): State {
    if !IsCurrent(s, generation) || Fatal(s) then s
    else if !count then ArmRetry(s, generation)
    else CountedRetry(c, RecordFailure(c, s, oom, now), generation, oom)
  }

  function ReleaseOwnership(c: Config, s: State): State {
    if s.links.ownershipHeld && c.owned
    then s.(links := s.links.(ownershipHeld := false), world := s.world.(lease := false))
    else s
  }

  function SuspendAt(s: State, point: Point): State {
    s.(tasks := s.tasks.(current := Some(point)))
  }

  /** The running task returns or throws; a poll clears its queued mark on the way out. */
  function Finish(s: State): State {
    s.(tasks := Tasks(s.tasks.queue, None, false, s.tasks.pollQueued && !s.tasks.polling))
  }

  // The synchronous entry points and timers.

  function StartStep(s: State): State {
    if s.intent.running && !Fatal(s) then s
    else Enqueue(ExplicitStart(s), Reconcile(s.intent.generation + 1))
  }

  function StartProbingStep(s: State): State {
    if s.intent.running then s
    else QueuePoll(s.(intent := s.intent.(probeOnly := true), timers := s.timers.(poll := true)))
  }

  function StopStep(s: State): State {
    var t := StopPolling(s.(timers := s.timers.(retry := None, healthy := None)));
    Enqueue(t.(intent := Intent(false, false, s.intent.generation + 1, None)), StopRun(s.intent.generation + 1))
  }

  function RestartStep(s: State): State {
    if s.links.external.Some? && s.links.activeRun.None? then s
    else Enqueue(ExplicitStart(s), RestartRun(s.intent.generation + 1))
  }

  function RetryFiresStep(s: State): State
    requires s.timers.retry.Some?
  {
    if !IsCurrent(s, s.timers.retry.value) then s
    else Enqueue(ClearRetry(s), Reconcile(s.timers.retry.value))
  }

  function HealthyFiresStep(s: State): State
    requires s.timers.healthy.Some?
  {
    var run := s.links.activeRun;
    if run.Some? && run.value.child == s.timers.healthy.value && IsCurrent(s, run.value.generation)
       && run.value.child in s.world.alive
    then ResetFailures(s.(timers := s.timers.(healthy := None)))
    else s
  }

  function ChildExitsStep(s: State, child: nat): State {
    s.(world := s.world.(alive := s.world.alive - {child}))
  }

  function RunSettlesStep(s: State, child: nat, alreadyRunning: bool): State
    requires child < |s.world.runs|
  {
    Enqueue(s.(world := s.world.(settled := s.world.settled + {child})),
            RunSettled(s.world.runs[child], alreadyRunning))
  }

  // The tasks, one function for each stretch between awaits.

  function ReconcileStart(c: Config, s: State, generation: nat): State {
    if !IsCurrent(s, generation) || s.links.activeRun.Some? || s.links.external.Some? || Fatal(s) then Finish(s)
    else if c.owned && !s.links.ownershipHeld then SuspendAt(s, AcquireLease(generation))
    else SuspendAt(s, ProbeRuntime(generation))
  }

  function Terminate(s: State, after: AfterExit): State {
    match s.links.activeRun
    case None => SuspendAt(s, Terminated(after))
    case Some(run) => SuspendAt(s.(timers := s.timers.(healthy := None)), AwaitExit(run, false, after))
  }

  function SettledStart(c: Config, s: State, run: Run, alreadyRunning: bool): State {
    if s.links.activeRun != Some(run) then Finish(s)
    else
      var t := s.(links := s.links.(activeRun := None), timers := s.timers.(healthy := None));
      if !IsCurrent(t, run.generation) then Finish(t)
      else if !alreadyRunning then SuspendAt(t, DecideExit(run.generation))
      else if t.links.ownershipHeld then SuspendAt(t, ProbeAfterConflict(run.generation))
      else SuspendAt(t, ReleaseAfterConflict(run.generation))
  }

  function PollStart(c: Config, s: State, generation: nat): State {
    if s.intent.probeOnly && !s.intent.running then SuspendAt(s, InspectOnly)
    else if !IsCurrent(s, generation) then Finish(s)
    else if s.links.externalHost.Some? && c.owned && c.inspects then SuspendAt(s, InspectAttached(generation))
    else SuspendAt(s, PollProbe(generation))
  }

  function BeginTaskStep(c: Config, s: State): State
    requires s.tasks.queue != []
  {
    var task := s.tasks.queue[0];
    var t := s.(tasks := s.tasks.(queue := s.tasks.queue[1..], polling := task.Poll?));
    match task
    case Reconcile(generation) => ReconcileStart(c, t, generation)
    case StopRun(generation) => Terminate(t, ThenStop(generation))
    case RestartRun(generation) => Terminate(t, ThenReconcile(generation))
    case RunSettled(run, alreadyRunning) => SettledStart(c, t, run, alreadyRunning)
    case Poll(generation) => PollStart(c, t, generation)
  }

  function TakeLease(s: State, held: bool): State {
    s.(world := s.world.(lease := held), links := s.links.(ownershipHeld := held))
  }

  function LeaseReplied(c: Config, s: State, generation: nat, reply: Reply, now: int): State {
    match reply
    case Acquired =>
      if IsCurrent(s, generation) then SuspendAt(TakeLease(s, true), ProbeRuntime(generation))
      else SuspendAt(s.(world := s.world.(lease := false)), ReleaseStaleLease)
    case Occupied(owner, description) =>
      if IsCurrent(s, generation) then SuspendAt(s, ProbeOccupant(generation, owner, description)) else Finish(s)
    case _ => Finish(ScheduleRetry(c, s, generation, true, false, now))
  }

  function OccupantProbed(c: Config, s: State, generation: nat, owner: Option<Host>,
                          description: Option<string>, reply: Reply, now: int): State
  {
    if !reply.Observed? || !IsCurrent(s, generation) then Finish(s)
    else if reply.runtime.Some? && owner.Some? && RuntimeMatchesHost(reply.runtime.value, owner.value) && c.attach
    then Finish(ObserveExternal(c, s, reply.runtime.value, owner))
    else if !c.attach
    then Finish(MarkFatal(s, if description.Some? then Given(description.value) else ForeignOwner))
    else Finish(ScheduleRetry(c, s, generation, false, false, now))
  }

  function RuntimeProbed(c: Config, s: State, generation: nat, reply: Reply, now: int): State {
    if !reply.Observed? || !IsCurrent(s, generation) then Finish(s)
    else if reply.runtime.None? then SuspendAt(s, PrepareLaunch(generation))
    else if s.links.ownershipHeld then Finish(ScheduleRetry(c, s, generation, false, false, now))
    else Finish(ObserveExternal(c, s, reply.runtime.value, None))
  }

  function Spawn(s: State, generation: nat, pid: Option<int>): State {
    var run := Run(|s.world.runs|, generation, pid);
    s.(world := s.world.(runs := s.world.runs + [run], alive := s.world.alive + {run.child}),
    links := s.links.(activeRun := Some(run), external := None, probeFailures := 0),
    timers := s.timers.(healthy := Some(run.child)))
  }

  function LaunchPrepared(c: Config, s: State, generation: nat, reply: Reply, now: int): State {
    if !IsCurrent(s, generation) then Finish(s)
    else if reply.Launched? then Finish(Spawn(s, generation, reply.pid))
    else Finish(ScheduleRetry(c, s, generation, true, false, now))
  }

  function ExitAwaited(s: State, run: Run, forced: bool, after: AfterExit, reply: Reply): State {
    if reply.Exited? then
      SuspendAt(if s.links.activeRun == Some(run) then s.(links := s.links.(activeRun := None)) else s,
                Terminated(after))
    else if !forced then SuspendAt(s, AwaitExit(run, true, after))
    else Finish(s.(intent := s.intent.(fatalReason := Some(SurvivedKill(run.child)))))
  }

  function AfterTermination(c: Config, s: State, after: AfterExit): State {
    match after
    case ThenStop(_) => SuspendAt(ReleaseOwnership(c, ForgetExternal(s)), ReleaseAfterStop)
    case ThenReconcile(generation) => ReconcileStart(c, s, generation)
  }

  function StopReleased(s: State, reply: Reply): State {
    if reply.Rejected? then Finish(s)
    else Finish(ResetWindows(s.(links := s.links.(probeFailures := 0))))
  }

  function ConflictReleased(c: Config, s: State, generation: nat): State {
    if c.attach then SuspendAt(s, ProbeForeign(generation)) else Finish(MarkFatal(s, ForeignHost))
  }

  function ConflictProbed(c: Config, s: State, generation: nat, reply: Reply, now: int): State {
    if !reply.Observed? || !IsCurrent(s, generation) then Finish(s)
    else Finish(ScheduleRetry(c, s, generation, false, false, now))
  }

  function ForeignProbed(c: Config, s: State, generation: nat, reply: Reply, now: int): State {
    if !reply.Observed? || !IsCurrent(s, generation) then Finish(s)
    else if reply.runtime.Some? then Finish(ObserveExternal(c, s, reply.runtime.value, None))
    else Finish(ScheduleRetry(c, s, generation, false, false, now))
  }

  function CleanExit(c: Config, s: State): State {
    var t := StopPolling(ClearRetry(s));
    SuspendAt(ReleaseOwnership(c, t.(intent := t.intent.(running := false, generation := t.intent.generation + 1))),
              ReleaseAfterExit)
  }

  function ExitDecided(c: Config, s: State, generation: nat, reply: Reply, now: int): State {
    if !IsCurrent(s, generation) then Finish(s)
    else if !reply.Decided? then Finish(ScheduleRetry(c, s, generation, true, false, now))
    else match reply.decision
         case StopExit => CleanExit(c, s)
         case RestartExit => ReconcileStart(c, ResetFailures(ClearRetry(s)), generation)
         case RetryExit(count, oom) => Finish(ScheduleRetry(c, s, generation, count, oom, now))
         case FatalExit(message) => Finish(MarkFatal(s, Given(message)))
  }

  function OnlyInspected(s: State, reply: Reply): State {
    if !reply.Owner? || !s.intent.probeOnly || s.intent.running then Finish(s)
    else SuspendAt(s, ProbeOnly(reply.owner))
  }

  function OnlyProbed(c: Config, s: State, owner: Option<Host>, reply: Reply): State {
    if !reply.Observed? || !s.intent.probeOnly || s.intent.running then Finish(s)
    else if reply.runtime.Some? && owner.Some? && RuntimeMatchesHost(reply.runtime.value, owner.value)
    then Finish(s.(links := s.links.(external := reply.runtime, externalHost := owner, probeFailures := 0)))
    else if s.links.probeFailures + 1 >= c.probeFailureThreshold
    then Finish(ForgetExternal(CountProbeFailure(s)))
    else Finish(CountProbeFailure(s))
  }

  function AttachedInspected(c: Config, s: State, generation: nat, reply: Reply): State {
    if !reply.Owner? || !IsCurrent(s, generation) then Finish(s)
    else if reply.owner.None? || reply.owner != s.links.externalHost
    then ReconcileStart(c, ForgetExternal(s), generation)
    else SuspendAt(s, PollProbe(generation))
  }

  /** A poll that found a runtime while an external one is observed. */
  function PollSawExternal(c: Config, s: State, generation: nat, runtime: Runtime): State {
    if s.links.externalHost.Some? && RuntimeMatchesHost(runtime, s.links.externalHost.value)
    then Finish(ObserveExternal(c, s, runtime, s.links.externalHost))
    else if s.links.probeFailures + 1 >= c.probeFailureThreshold
    then ReconcileStart(c, ForgetExternal(CountProbeFailure(s)), generation)
    else Finish(CountProbeFailure(s))
  }

  function PollSaw(c: Config, s: State, generation: nat, runtime: Runtime, now: int): State {
    if s.links.external.Some? && s.links.activeRun.None? then PollSawExternal(c, s, generation, runtime)
    else
      var t := s.(links := s.links.(probeFailures := 0));
      if t.links.activeRun.Some? then
        if t.links.activeRun.value.pid == Some(runtime.pid)
        then Finish(t.(links := t.links.(external := None))) else Finish(t)
      else if !t.links.ownershipHeld then Finish(ObserveExternal(c, t, runtime, None))
      else if t.timers.retry.Some? then Finish(t)
      else Finish(ScheduleRetry(c, t, generation, false, false, now))
  }

  function PollProbed(c: Config, s: State, generation: nat, reply: Reply, now: int): State {
    if !reply.Observed? || !IsCurrent(s, generation) then Finish(s)
    else if reply.runtime.Some? then PollSaw(c, s, generation, reply.runtime.value, now)
    else if s.links.probeFailures + 1 < c.probeFailureThreshold || s.links.external.None?
    then Finish(CountProbeFailure(s))
    else ReconcileStart(c, ForgetExternal(CountProbeFailure(s)), generation)
  }

  function ResumeStep(c: Config, s: State, reply: Reply, now: int): State
    requires s.tasks.current.Some?
  {
    match s.tasks.current.value
    case AcquireLease(generation) => LeaseReplied(c, s, generation, reply, now)
    case ProbeOccupant(generation, owner, text) => OccupantProbed(c, s, generation, owner, text, reply, now)
    case ProbeRuntime(generation) => RuntimeProbed(c, s, generation, reply, now)
    case PrepareLaunch(generation) => LaunchPrepared(c, s, generation, reply, now)
    case AwaitExit(run, forced, after) => ExitAwaited(s, run, forced, after, reply)
    case Terminated(after) => AfterTermination(c, s, after)
    case ReleaseAfterStop => StopReleased(s, reply)
    case ProbeAfterConflict(generation) => ConflictProbed(c, s, generation, reply, now)
    case ReleaseAfterConflict(generation) => ConflictReleased(c, s, generation)
    case ProbeForeign(generation) => ForeignProbed(c, s, generation, reply, now)
    case DecideExit(generation) => ExitDecided(c, s, generation, reply, now)
    case ReleaseStaleLease => Finish(s)
    case ReleaseAfterExit => Finish(s)
    case InspectOnly => OnlyInspected(s, reply)
    case ProbeOnly(owner) => OnlyProbed(c, s, owner, reply)
    case InspectAttached(generation) => AttachedInspected(c, s, generation, reply)
    case PollProbe(generation) => PollProbed(c, s, generation, reply, now)
  }

  /** Which results each awaited operation can have. */
  predicate Fits(at: Point, reply: Reply) {
    match at
    case AcquireLease(_) => reply.Acquired? || reply.Occupied? || reply.Rejected?
    case PrepareLaunch(_) => reply.Launched? || reply.SpawnThrew? || reply.Rejected?
    case AwaitExit(_, _, _) => reply.Exited? || reply.TimedOut?
    case Terminated(_) => reply.Done?
    case DecideExit(_) => reply.Decided? || reply.Rejected?
    case ReleaseStaleLease => reply.Done? || reply.Rejected?
    case ReleaseAfterStop => reply.Done? || reply.Rejected?
    case ReleaseAfterConflict(_) => reply.Done?
    case ReleaseAfterExit => reply.Done? || reply.Rejected?
    case InspectOnly => reply.Owner? || reply.Rejected?
    case InspectAttached(_) => reply.Owner? || reply.Rejected?
    case _ => reply.Observed? || reply.Rejected?
  }

  /** When an event can happen. A run settles only once its process has exited, and a task
      waiting for a run resumes with its exit only after the run has settled. */
  predicate Enabled(s: State, e: Event) {
    match e
    case PollTick => s.timers.poll
    case RetryFires => s.timers.retry.Some?
    case HealthyFires => s.timers.healthy.Some?
    case ChildExits(child) => child in s.world.alive
    case RunSettles(child, _) =>
      child < |s.world.runs| && child !in s.world.alive && child !in s.world.settled
    case BeginTask => s.tasks.current.None? && s.tasks.queue != []
    case Resume(reply, _) =>
      && s.tasks.current.Some? && Fits(s.tasks.current.value, reply)
      && (s.tasks.current.value.AwaitExit? && reply.Exited?
          ==> s.tasks.current.value.run.child in s.world.settled)
    case _ => true
  }

  function Step(c: Config, s: State, e: Event): State
    requires Enabled(s, e)
  {
    match e
    case Start => StartStep(s)
    case StartProbing => StartProbingStep(s)
    case Stop => StopStep(s)
    case Restart => RestartStep(s)
    case PollTick => QueuePoll(s)
    case RetryFires => RetryFiresStep(s)
    case HealthyFires => HealthyFiresStep(s)
    case ChildExits(child) => ChildExitsStep(s, child)
    case RunSettles(child, alreadyRunning) => RunSettlesStep(s, child, alreadyRunning)
    case BeginTask => BeginTaskStep(c, s)
    case Resume(reply, now) => ResumeStep(c, s, reply, now)
  }

  /** A run of the machine: the events happen in order, each when it is enabled. */
  ghost predicate Leads(c: Config, s: State, events: seq<Event>, t: State)
    decreases |events|
  {
    if events == [] then s == t
    else Enabled(s, events[0]) && Leads(c, Step(c, s, events[0]), events[1..], t)
  }

  ghost predicate Reachable(c: Config, s: State) {
    exists events :: Leads(c, INITIAL, events, s)
  }
}
