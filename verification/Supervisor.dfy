/** The class itself: its fields and, one method each, the code between two awaits. Every method is proved
    to take the step that `SupervisorModel` specifies for it. In the middle of an event only `Wired` holds;
    between two events `Valid` says that the object is where the events it has carried out lead the machine,
    so that what is proved of every reachable state is true of every object. `Dispatch` carries out one more
    event, and its contract repeats the main results in the object's own fields. */
module Supervisor {
  import opened Options
  import opened Retry
  import opened SupervisorModel
  import opened SupervisorSafety
  import opened SupervisorLiveness
  import opened SupervisorResults
  import opened SupervisorLease
  import opened SupervisorByEvents

  class CliSupervisor {
    const config: Config
    const failureWindow: FailureWindow
    const oomFailureWindow: FailureWindow

    var intent: Intent
    var tasks: Tasks
    var links: Links
    var timers: Timers
    var world: World
    /** Every event since the object was made. */
    ghost var trace: seq<Event>

    /** The windows are those of the configuration: all that holds in the middle of an event. */
    ghost predicate Wired() {
      && failureWindow != oomFailureWindow
      && failureWindow.windowMs == config.windowMs && failureWindow.threshold == config.threshold
      && oomFailureWindow.windowMs == config.oomWindowMs && oomFailureWindow.threshold == config.oomThreshold
    }

    ghost function State(): State
      reads this, failureWindow, oomFailureWindow
    {
      SupervisorModel.State(
        intent, tasks, links, timers,
        Windows(failureWindow.historyMs, oomFailureWindow.historyMs, failureWindow.log, oomFailureWindow.log),
        world)
    }

    /** Between two events the object is where its events lead the machine. */
    ghost predicate Valid()
      reads this, failureWindow, oomFailureWindow
    {
      Wired() && Leads(config, INITIAL, trace, State())
    }

    constructor (config: Config)
      ensures Valid() && State() == INITIAL && this.config == config && trace == []
      ensures fresh(failureWindow) && fresh(oomFailureWindow)
    {
      this.config := config;
      failureWindow := new FailureWindow(config.windowMs, config.threshold);
      oomFailureWindow := new FailureWindow(config.oomWindowMs, config.oomThreshold);
      intent, tasks, links := INITIAL.intent, INITIAL.tasks, INITIAL.links;
      timers, world := INITIAL.timers, INITIAL.world;
      trace := [];
    }

    predicate IsFatal()
      reads this
    {
      intent.fatalReason.Some? && intent.fatalReason.value != Given("")
    }

    predicate Current(generation: nat)
      reads this
    {
      generation == intent.generation && intent.running
    }

    // Private helpers.

    method BeginGeneration()
      modifies this`intent
      ensures intent == old(intent).(generation := old(intent).generation + 1)
    {
      intent := intent.(generation := intent.generation + 1);
    }

    method EnqueueLifecycle(task: Task)
      modifies this`tasks
      ensures tasks == old(tasks).(queue := old(tasks).queue + [task])
    {
      tasks := tasks.(queue := tasks.queue + [task]);
    }

    method ResetForExplicitStart()
      requires Wired()
      modifies this`intent, this`timers, this`links, failureWindow, oomFailureWindow
      ensures Wired()
      ensures State() == old(State()).(
              intent := old(State()).intent.(probeOnly := false, fatalReason := None),
              timers := Timers(None, None, old(timers.poll)),
              windows := Windows([], [], [], []),
              links := old(State()).links.(external := None, externalHost := None, probeFailures := 0))
    {
      intent := intent.(probeOnly := false, fatalReason := None);
      timers := timers.(retry := None, healthy := None);
      failureWindow.Reset();
      oomFailureWindow.Reset();
      links := links.(external := None, externalHost := None, probeFailures := 0);
    }

    method StopPolling()
      requires Wired()
      modifies this`timers, this`tasks
      ensures Wired() && State() == SupervisorModel.StopPolling(old(State()))
    {
      if timers.poll {
        timers, tasks := timers.(poll := false), tasks.(pollQueued := false);
      }
    }

    method QueuePoll()
      requires Wired()
      modifies this`tasks
      ensures Wired() && State() == SupervisorModel.QueuePoll(old(State()))
    {
      if tasks.pollQueued || (!intent.running && !intent.probeOnly) {
        return;
      }
      tasks := tasks.(pollQueued := true);
      EnqueueLifecycle(Poll(intent.generation));
    }

    method MarkFatal(reason: Reason)
      requires Wired()
      modifies this`intent, this`timers, this`tasks
      ensures Wired() && State() == SupervisorModel.MarkFatal(old(State()), reason)
    {
      if intent.fatalReason == Some(reason) {
        return;
      }
      intent := intent.(fatalReason := Some(reason));
      timers := timers.(retry := None, healthy := None);
      StopPolling();
    }

    method ObserveExternalRuntime(runtime: Runtime, host: Option<Host>)
      requires Wired()
      modifies this
      ensures Wired() && State() == ObserveExternal(config, old(State()), runtime, host)
    {
      links := links.(external := Some(runtime));
      if !config.attach {
        MarkFatal(ForeignRuntime(runtime.pid));
        return;
      }
      links := links.(externalHost := host);
      links := links.(probeFailures := 0);
      timers := timers.(retry := None);
    }

    method RecordFailure(oom: bool, now: int) returns (fatal: bool)
      requires Wired()
      modifies this, failureWindow, oomFailureWindow
      ensures Wired()
      ensures var recorded := SupervisorModel.RecordFailure(config, old(State()), oom, now);
              && fatal == (RecentCount(recorded, oom) >= Threshold(config, oom))
              && State() == if fatal then
                SupervisorModel.MarkFatal(recorded, TooManyFailures(oom, RecentCount(recorded, oom)))
              else recorded
    {
      var over;
      if oom {
        over := oomFailureWindow.Record(now);
      } else {
        over := failureWindow.Record(now);
      }
      if !over {
        return false;
      }
      MarkFatal(TooManyFailures(oom, if oom then |oomFailureWindow.historyMs| else |failureWindow.historyMs|));
      return true;
    }

    method ScheduleRetry(generation: nat, countFailure: bool, oom: bool, now: int)
      requires Wired()
      modifies this, failureWindow, oomFailureWindow
      ensures Wired()
      ensures State() == SupervisorModel.ScheduleRetry(config, old(State()), generation, countFailure, oom, now)
    {
      if !Current(generation) || IsFatal() {
        return;
      }
      if countFailure {
        var fatal := RecordFailure(oom, now);
        if fatal {
          return;
        }
      }
      timers := timers.(retry := Some(generation));
    }

    method ReleaseOwnership()
      requires Wired()
      modifies this`links, this`world
      ensures Wired() && State() == SupervisorModel.ReleaseOwnership(config, old(State()))
    {
      if !links.ownershipHeld || !config.owned {
        return;
      }
      links := links.(ownershipHeld := false);
      world := world.(lease := false);
    }

    /** The running task returns or throws. */
    method Finish()
      requires Wired()
      modifies this`tasks
      ensures Wired() && State() == SupervisorModel.Finish(old(State()))
    {
      if tasks.polling {
        tasks := tasks.(pollQueued := false);
      }
      tasks := tasks.(current := None, polling := false);
    }

    // Synchronous entry points.

    method Start()
      requires Valid()
      modifies this, failureWindow, oomFailureWindow
      ensures Valid() && State() == StartStep(old(State())) && trace == old(trace) + [SupervisorModel.Start]
    {
      LeadsSnoc(config, INITIAL, trace, State(), SupervisorModel.Start);
      trace := trace + [SupervisorModel.Start];
      if intent.running && !IsFatal() {
        return;
      }
      intent := intent.(running := true);
      BeginGeneration();
      ResetForExplicitStart();
      timers := timers.(poll := true);
      EnqueueLifecycle(Reconcile(intent.generation));
    }

    method StartProbing()
      requires Valid()
      modifies this
      ensures Valid() && State() == StartProbingStep(old(State()))
      ensures trace == old(trace) + [SupervisorModel.StartProbing]
    {
      LeadsSnoc(config, INITIAL, trace, State(), SupervisorModel.StartProbing);
      trace := trace + [SupervisorModel.StartProbing];
      if intent.running {
        return;
      }
      intent := intent.(probeOnly := true);
      timers := timers.(poll := true);
      QueuePoll();
    }

    method Stop()
      requires Valid()
      modifies this
      ensures Valid() && State() == StopStep(old(State())) && trace == old(trace) + [SupervisorModel.Stop]
    {
      LeadsSnoc(config, INITIAL, trace, State(), SupervisorModel.Stop);
      trace := trace + [SupervisorModel.Stop];
      intent := intent.(probeOnly := false, running := false);
      BeginGeneration();
      timers := timers.(retry := None, healthy := None);
      StopPolling();
      intent := intent.(fatalReason := None);
      EnqueueLifecycle(StopRun(intent.generation));
    }

    method Restart() returns (accepted: bool)
      requires Valid()
      modifies this, failureWindow, oomFailureWindow
      ensures Valid() && State() == RestartStep(old(State())) && trace == old(trace) + [SupervisorModel.Restart]
      ensures accepted <==> !(old(links.external).Some? && old(links.activeRun).None?)
    {
      LeadsSnoc(config, INITIAL, trace, State(), SupervisorModel.Restart);
      trace := trace + [SupervisorModel.Restart];
      if links.external.Some? && links.activeRun.None? {
        return false;
      }
      intent := intent.(running := true);
      BeginGeneration();
      ResetForExplicitStart();
      timers := timers.(poll := true);
      EnqueueLifecycle(RestartRun(intent.generation));
      return true;
    }

    // Timers and process events.

    method OnRetryTimer()
      requires Wired() && timers.retry.Some?
      modifies this
      ensures Wired() && State() == RetryFiresStep(old(State()))
    {
      var generation := timers.retry.value;
      if !Current(generation) {
        return;
      }
      timers := timers.(retry := None);
      EnqueueLifecycle(Reconcile(generation));
    }

    method OnHealthyTimer()
      requires Wired() && timers.healthy.Some?
      modifies this, failureWindow
      ensures Wired() && State() == HealthyFiresStep(old(State()))
    {
      if links.activeRun.Some? && links.activeRun.value.child == timers.healthy.value
         && Current(links.activeRun.value.generation) && timers.healthy.value in world.alive {
        timers := timers.(healthy := None);
        failureWindow.Reset();
      }
    }

    method OnSettled(run: Run, alreadyRunning: bool)
      requires Wired() && run.child < |world.runs| && world.runs[run.child] == run
      modifies this
      ensures Wired() && State() == RunSettlesStep(old(State()), run.child, alreadyRunning)
    {
      world := world.(settled := world.settled + {run.child});
      EnqueueLifecycle(RunSettled(run, alreadyRunning));
    }

    // Tasks, up to their first await.

    method ReconcileFrom(generation: nat)
      requires Wired()
      modifies this
      ensures Wired() && State() == ReconcileStart(config, old(State()), generation)
    {
      if !Current(generation) || links.activeRun.Some? || links.external.Some? || IsFatal() {
        Finish();
      } else if config.owned && !links.ownershipHeld {
        tasks := tasks.(current := Some(AcquireLease(generation)));
      } else {
        tasks := tasks.(current := Some(ProbeRuntime(generation)));
      }
    }

    method TerminateActiveRun(after: AfterExit)
      requires Wired()
      modifies this
      ensures Wired() && State() == Terminate(old(State()), after)
    {
      if links.activeRun.None? {
        tasks := tasks.(current := Some(Terminated(after)));
        return;
      }
      timers := timers.(healthy := None);
      tasks := tasks.(current := Some(AwaitExit(links.activeRun.value, false, after)));
    }

    method HandleRunSettled(run: Run, alreadyRunning: bool)
      requires Wired()
      modifies this
      ensures Wired() && State() == SettledStart(config, old(State()), run, alreadyRunning)
    {
      if links.activeRun != Some(run) {
        Finish();
        return;
      }
      links, timers := links.(activeRun := None), timers.(healthy := None);
      if !Current(run.generation) {
        Finish();
      } else if !alreadyRunning {
        tasks := tasks.(current := Some(DecideExit(run.generation)));
      } else if links.ownershipHeld {
        tasks := tasks.(current := Some(ProbeAfterConflict(run.generation)));
      } else {
        tasks := tasks.(current := Some(ReleaseAfterConflict(run.generation)));
      }
    }

    method PollRuntimeState(generation: nat)
      requires Wired()
      modifies this
      ensures Wired() && State() == PollStart(config, old(State()), generation)
    {
      if intent.probeOnly && !intent.running {
        tasks := tasks.(current := Some(InspectOnly));
      } else if !Current(generation) {
        Finish();
      } else if links.externalHost.Some? && config.owned && config.inspects {
        tasks := tasks.(current := Some(InspectAttached(generation)));
      } else {
        tasks := tasks.(current := Some(PollProbe(generation)));
      }
    }

    method BeginTask()
      requires Wired() && tasks.current.None? && tasks.queue != []
      modifies this
      ensures Wired() && State() == BeginTaskStep(config, old(State()))
    {
      var task := tasks.queue[0];
      tasks := tasks.(queue := tasks.queue[1..]);
      tasks := tasks.(polling := task.Poll?);
      match task
      case Reconcile(generation) => ReconcileFrom(generation);
      case StopRun(generation) => TerminateActiveRun(ThenStop(generation));
      case RestartRun(generation) => TerminateActiveRun(ThenReconcile(generation));
      case RunSettled(run, alreadyRunning) => HandleRunSettled(run, alreadyRunning);
      case Poll(generation) => PollRuntimeState(generation);
    }

    // Continuations.

    method AfterAcquire(generation: nat, reply: Reply, now: int)
      requires Wired() && (reply.Acquired? || reply.Occupied? || reply.Rejected?)
      modifies this, failureWindow, oomFailureWindow
      ensures Wired() && State() == LeaseReplied(config, old(State()), generation, reply, now)
    {
      match reply
      case Acquired =>
        if Current(generation) {
          world, links := world.(lease := true), links.(ownershipHeld := true);
          tasks := tasks.(current := Some(ProbeRuntime(generation)));
        } else {
          world := world.(lease := false);
          tasks := tasks.(current := Some(ReleaseStaleLease));
        }
      case Occupied(owner, description) =>
        if Current(generation) {
          tasks := tasks.(current := Some(ProbeOccupant(generation, owner, description)));
        } else {
          Finish();
        }
      case Rejected =>
        ScheduleRetry(generation, true, false, now);
        Finish();
    }

    method AfterOccupantProbe(generation: nat, owner: Option<Host>, description: Option<string>, reply: Reply, now: int)
      requires Wired()
      modifies this, failureWindow, oomFailureWindow
      ensures Wired()
      ensures State() == OccupantProbed(config, old(State()), generation, owner, description, reply, now)
    {
      if reply.Observed? && Current(generation) {
        if reply.runtime.Some? && owner.Some? && RuntimeMatchesHost(reply.runtime.value, owner.value)
           && config.attach {
          ObserveExternalRuntime(reply.runtime.value, owner);
        } else if !config.attach {
          MarkFatal(if description.Some? then Given(description.value) else ForeignOwner);
        } else {
          ScheduleRetry(generation, false, false, now);
        }
      }
      Finish();
    }

    method AfterRuntimeProbe(generation: nat, reply: Reply, now: int)
      requires Wired()
      modifies this, failureWindow, oomFailureWindow
      ensures Wired() && State() == RuntimeProbed(config, old(State()), generation, reply, now)
    {
      if reply.Observed? && Current(generation) {
        if reply.runtime.None? {
          tasks := tasks.(current := Some(PrepareLaunch(generation)));
          return;
        }
        if links.ownershipHeld {
          ScheduleRetry(generation, false, false, now);
        } else {
          ObserveExternalRuntime(reply.runtime.value, None);
        }
      }
      Finish();
    }

    method AfterPrepare(generation: nat, reply: Reply, now: int)
      requires Wired() && (reply.Launched? || reply.SpawnThrew? || reply.Rejected?)
      modifies this, failureWindow, oomFailureWindow
      ensures Wired() && State() == LaunchPrepared(config, old(State()), generation, reply, now)
    {
      if Current(generation) {
        if reply.Launched? {
          SpawnChild(generation, reply.pid);
        } else {
          ScheduleRetry(generation, true, false, now);
        }
      }
      Finish();
    }

    /** The process is spawned and recorded with no await in between. */
    method SpawnChild(generation: nat, pid: Option<int>)
      requires Wired()
      modifies this
      ensures Wired() && State() == Spawn(old(State()), generation, pid)
    {
      var run := Run(|world.runs|, generation, pid);
      world := world.(runs := world.runs + [run], alive := world.alive + {run.child});
      links := links.(activeRun := Some(run), external := None);
      links := links.(probeFailures := 0);
      timers := timers.(healthy := Some(run.child));
    }

    method AfterExitWait(run: Run, forced: bool, after: AfterExit, reply: Reply)
      requires Wired() && (reply.Exited? || reply.TimedOut?)
      modifies this
      ensures Wired() && State() == ExitAwaited(old(State()), run, forced, after, reply)
    {
      if reply.Exited? {
        if links.activeRun == Some(run) {
          links := links.(activeRun := None);
        }
        tasks := tasks.(current := Some(Terminated(after)));
      } else if !forced {
        tasks := tasks.(current := Some(AwaitExit(run, true, after)));
      } else {
        intent := intent.(fatalReason := Some(SurvivedKill(run.child)));
        Finish();
      }
    }

    method AfterTerminate(after: AfterExit)
      requires Wired()
      modifies this
      ensures Wired() && State() == AfterTermination(config, old(State()), after)
    {
      match after
      case ThenStop(_) =>
        links := links.(external := None, externalHost := None);
        ReleaseOwnership();
        tasks := tasks.(current := Some(ReleaseAfterStop));
      case ThenReconcile(generation) => ReconcileFrom(generation);
    }

    method AfterStopRelease(reply: Reply)
      requires Wired()
      modifies this, failureWindow, oomFailureWindow
      ensures Wired() && State() == StopReleased(old(State()), reply)
    {
      if !reply.Rejected? {
        links := links.(probeFailures := 0);
        failureWindow.Reset();
        oomFailureWindow.Reset();
      }
      Finish();
    }

    method AfterConflictRelease(generation: nat)
      requires Wired()
      modifies this
      ensures Wired() && State() == ConflictReleased(config, old(State()), generation)
    {
      if config.attach {
        tasks := tasks.(current := Some(ProbeForeign(generation)));
      } else {
        MarkFatal(ForeignHost);
        Finish();
      }
    }

    method AfterConflictProbe(generation: nat, reply: Reply, now: int)
      requires Wired()
      modifies this, failureWindow, oomFailureWindow
      ensures Wired() && State() == ConflictProbed(config, old(State()), generation, reply, now)
    {
      if reply.Observed? && Current(generation) {
        ScheduleRetry(generation, false, false, now);
      }
      Finish();
    }

    method AfterForeignProbe(generation: nat, reply: Reply, now: int)
      requires Wired()
      modifies this, failureWindow, oomFailureWindow
      ensures Wired() && State() == ForeignProbed(config, old(State()), generation, reply, now)
    {
      if reply.Observed? && Current(generation) {
        if reply.runtime.Some? {
          ObserveExternalRuntime(reply.runtime.value, None);
        } else {
          ScheduleRetry(generation, false, false, now);
        }
      }
      Finish();
    }

    method AfterExitDecision(generation: nat, reply: Reply, now: int)
      requires Wired() && (reply.Decided? || reply.Rejected?)
      modifies this, failureWindow, oomFailureWindow
      ensures Wired() && State() == ExitDecided(config, old(State()), generation, reply, now)
    {
      if !Current(generation) {
        Finish();
        return;
      }
      match reply
      case Rejected =>
        ScheduleRetry(generation, true, false, now);
        Finish();
      case Decided(StopExit) => ExitCleanly();
      case Decided(RestartExit) =>
        failureWindow.Reset();
        timers := timers.(retry := None);
        ReconcileFrom(generation);
      case Decided(RetryExit(count, oom)) =>
        ScheduleRetry(generation, count, oom, now);
        Finish();
      case Decided(FatalExit(message)) =>
        MarkFatal(Given(message));
        Finish();
    }

    method ExitCleanly()
      requires Wired()
      modifies this
      ensures Wired() && State() == CleanExit(config, old(State()))
    {
      intent := intent.(running := false);
      BeginGeneration();
      timers := timers.(retry := None);
      StopPolling();
      ReleaseOwnership();
      tasks := tasks.(current := Some(ReleaseAfterExit));
    }

    method AfterInspectOnly(reply: Reply)
      requires Wired()
      modifies this
      ensures Wired() && State() == OnlyInspected(old(State()), reply)
    {
      if reply.Owner? && intent.probeOnly && !intent.running {
        tasks := tasks.(current := Some(ProbeOnly(reply.owner)));
      } else {
        Finish();
      }
    }

    method AfterProbeOnly(owner: Option<Host>, reply: Reply)
      requires Wired()
      modifies this
      ensures Wired() && State() == OnlyProbed(config, old(State()), owner, reply)
    {
      if reply.Observed? && intent.probeOnly && !intent.running {
        if reply.runtime.Some? && owner.Some? && RuntimeMatchesHost(reply.runtime.value, owner.value) {
          links := links.(external := reply.runtime, externalHost := owner);
          links := links.(probeFailures := 0);
        } else {
          links := links.(probeFailures := links.probeFailures + 1);
          if links.probeFailures >= config.probeFailureThreshold {
            links := links.(external := None, externalHost := None);
          }
        }
      }
      Finish();
    }

    method AfterInspectAttached(generation: nat, reply: Reply)
      requires Wired()
      modifies this
      ensures Wired() && State() == AttachedInspected(config, old(State()), generation, reply)
    {
      if !reply.Owner? || !Current(generation) {
        Finish();
      } else if reply.owner.None? || reply.owner != links.externalHost {
        links := links.(external := None, externalHost := None);
        ReconcileFrom(generation);
      } else {
        tasks := tasks.(current := Some(PollProbe(generation)));
      }
    }

    /** A poll found a runtime. */
    method OnPolledRuntime(generation: nat, runtime: Runtime, now: int)
      requires Wired()
      modifies this, failureWindow, oomFailureWindow
      ensures Wired() && State() == PollSaw(config, old(State()), generation, runtime, now)
    {
      if links.external.Some? && links.activeRun.None? {
        if links.externalHost.Some? && RuntimeMatchesHost(runtime, links.externalHost.value) {
          ObserveExternalRuntime(runtime, links.externalHost);
          Finish();
          return;
        }
        links := links.(probeFailures := links.probeFailures + 1);
        if links.probeFailures >= config.probeFailureThreshold {
          links := links.(external := None, externalHost := None);
          ReconcileFrom(generation);
        } else {
          Finish();
        }
        return;
      }
      links := links.(probeFailures := 0);
      if links.activeRun.Some? {
        if links.activeRun.value.pid == Some(runtime.pid) {
          links := links.(external := None);
        }
      } else if !links.ownershipHeld {
        ObserveExternalRuntime(runtime, None);
      } else if timers.retry.None? {
        ScheduleRetry(generation, false, false, now);
      }
      Finish();
    }

    method AfterPollProbe(generation: nat, reply: Reply, now: int)
      requires Wired()
      modifies this, failureWindow, oomFailureWindow
      ensures Wired() && State() == PollProbed(config, old(State()), generation, reply, now)
    {
      if !reply.Observed? || !Current(generation) {
        Finish();
        return;
      }
      if reply.runtime.Some? {
        OnPolledRuntime(generation, reply.runtime.value, now);
        return;
      }
      links := links.(probeFailures := links.probeFailures + 1);
      if links.probeFailures >= config.probeFailureThreshold && links.external.Some? {
        links := links.(external := None, externalHost := None);
        ReconcileFrom(generation);
      } else {
        Finish();
      }
    }

    /** The running task continues with the result of what it awaited. */
    method Resume(reply: Reply, now: int)
      requires Wired() && tasks.current.Some? && Fits(tasks.current.value, reply)
      modifies this, failureWindow, oomFailureWindow
      ensures Wired() && State() == ResumeStep(config, old(State()), reply, now)
    {
      match tasks.current.value
      case AcquireLease(generation) => AfterAcquire(generation, reply, now);
      case ProbeOccupant(generation, owner, text) => AfterOccupantProbe(generation, owner, text, reply, now);
      case ProbeRuntime(generation) => AfterRuntimeProbe(generation, reply, now);
      case PrepareLaunch(generation) => AfterPrepare(generation, reply, now);
      case AwaitExit(run, forced, after) => AfterExitWait(run, forced, after, reply);
      case Terminated(after) => AfterTerminate(after);
      case ReleaseAfterStop => AfterStopRelease(reply);
      case ProbeAfterConflict(generation) => AfterConflictProbe(generation, reply, now);
      case ReleaseAfterConflict(generation) => AfterConflictRelease(generation);
      case ProbeForeign(generation) => AfterForeignProbe(generation, reply, now);
      case DecideExit(generation) => AfterExitDecision(generation, reply, now);
      case ReleaseStaleLease => Finish();
      case ReleaseAfterExit => Finish();
      case InspectOnly => AfterInspectOnly(reply);
      case ProbeOnly(owner) => AfterProbeOnly(owner, reply);
      case InspectAttached(generation) => AfterInspectAttached(generation, reply);
      case PollProbe(generation) => AfterPollProbe(generation, reply, now);
    }

    /** Any enabled event, as the class carries it out. */
    method CarryOut(e: Event)
      requires Valid() && Enabled(State(), e)
      requires e.RunSettles? ==> e.child < |world.runs| && world.runs[e.child].child == e.child
      modifies this, failureWindow, oomFailureWindow
      ensures Wired() && State() == Step(config, old(State()), e)
    {
      match e
      case Start => Start();
      case StartProbing => StartProbing();
      case Stop => Stop();
      case Restart => var _ := Restart();
      case PollTick => QueuePoll();
      case RetryFires => OnRetryTimer();
      case HealthyFires => OnHealthyTimer();
      case ChildExits(child) => world := world.(alive := world.alive - {child});
      case RunSettles(child, alreadyRunning) => OnSettled(world.runs[child], alreadyRunning);
      case BeginTask => BeginTask();
      case Resume(reply, now) => Resume(reply, now);
    }

    /** One event of a run. Whatever came before: at most one child is alive, it is the recorded run, and
        an ownership port's lease is held; a process appears only for a prepared launch of a supervisor
        that is meant to run; a stopped one stays stopped; and the supervisor is stuck exactly when it is
        idle and the events have forsaken it. `ownershipHeld` says whether the lease is held; stopped and idle
        the supervisor holds it exactly for a survivor or after a leak, and if every process has died of
        SIGKILL it holds nothing. Every field is what the event, by itself, is told to make of it. */
    method Dispatch(e: Event)
      requires Valid() && Enabled(State(), e)
      modifies this, failureWindow, oomFailureWindow
      ensures Valid() && trace == old(trace) + [e] && State() == Step(config, old(State()), e)
      ensures forall a, b :: a in world.alive && b in world.alive ==> a == b
      ensures forall child :: child in world.alive ==>
                && child < |world.runs| && links.activeRun == Some(world.runs[child])
                && (config.owned ==> world.lease && links.ownershipHeld)
      ensures world.runs != old(world.runs) ==>
                && old(intent.running) && old(world.alive) == {}
                && old(tasks.current) == Some(PrepareLaunch(old(intent.generation)))
      ensures !old(intent.running) && !Restarts(e) ==> !intent.running && world.runs == old(world.runs)
      ensures Stuck(State()) <==> Idle(State()) && Forlorn(config, INITIAL, trace, false)
      ensures world.lease <==> links.ownershipHeld
      ensures Idle(State()) && !intent.running ==>
                (world.lease <==> (config.owned && links.activeRun.Some?) || Leaked(config, INITIAL, trace, false))
      ensures Idle(State()) && !intent.running && KillsEveryChild(config, INITIAL, trace) ==>
                !world.lease && links.activeRun.None? && world.alive == {}
      ensures State() == Told(config, old(State()), e)
    {
      ghost var before, events := State(), trace;
      RunKeepsSafe(config, INITIAL, trace, before);
      CarryOut(e);
      trace := events + [e];
      EventIsTraced(config, events, before, e);
    }
  }

  /** When a stopped and idle supervisor holds the lease. */
  ghost predicate LeaseIsTraced(c: Config, events: seq<Event>, t: State) {
    Idle(t) && !t.intent.running ==>
      && (t.world.lease <==> (c.owned && t.links.activeRun.Some?) || Leaked(c, INITIAL, events, false))
      && (KillsEveryChild(c, INITIAL, events) ==>
            !t.world.lease && t.links.activeRun.None? && t.world.alive == {})
  }

  lemma {:induction false} LeaseTraced(c: Config, events: seq<Event>, t: State)
    requires Leads(c, INITIAL, events, t)
    ensures t.world.lease <==> t.links.ownershipHeld
    ensures LeaseIsTraced(c, events, t)
  {
    LeaseIsHeldExactly(c, events, t);
    if Idle(t) && !t.intent.running && KillsEveryChild(c, INITIAL, events) {
      StoppedHoldsNothing(c, events, t);
    }
  }

  /** What the traced events say about the state they lead to. */
  lemma {:induction false} EventIsTraced(c: Config, events: seq<Event>, s: State, e: Event)
    requires Leads(c, INITIAL, events, s) && Enabled(s, e)
    ensures var t := Step(c, s, e);
            && Leads(c, INITIAL, events + [e], t)
            && (forall a, b :: a in t.world.alive && b in t.world.alive ==> a == b)
            && (forall child :: child in t.world.alive ==>
                  && child < |t.world.runs| && t.links.activeRun == Some(t.world.runs[child])
                  && (c.owned ==> t.world.lease && t.links.ownershipHeld))
            && (t.world.runs != s.world.runs ==>
                  && s.intent.running && s.world.alive == {}
                  && s.tasks.current == Some(PrepareLaunch(s.intent.generation)))
            && (!s.intent.running && !Restarts(e) ==> !t.intent.running && t.world.runs == s.world.runs)
            && (Stuck(t) <==> Idle(t) && Forlorn(c, INITIAL, events + [e], false))
            && (t.world.lease <==> t.links.ownershipHeld) && LeaseIsTraced(c, events + [e], t)
            && t == Told(c, s, e)
  {
    var t := Step(c, s, e);
    LeadsSnoc(c, INITIAL, events, s, e);
    OneChildUnderTheLease(c, t);
    LeaseTraced(c, events + [e], t);
    StepIsTold(c, events, s, e);
    StuckExactlyWhenForlorn(c, events + [e], t);
    if t.world.runs != s.world.runs {
      SpawnIsWanted(c, s, e);
    }
    if !s.intent.running && !Restarts(e) {
      StoppedStaysStopped(c, s, e);
    }
  }
}
