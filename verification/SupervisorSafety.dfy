/** What holds in every reachable state of the supervisor, whatever the environment answers: the bookkeeping of
    processes, that every live child is the recorded run, that an ownership port's lease is held from before a
    run is recorded until after it has exited, and what the suspended task relies on across its await, which
    only the queue protects. Each lemma takes one kind of event, or one await of one kind of task. */
module SupervisorSafety {
  import opened Options
  import opened SupervisorModel

  /** Points at which the running task has already seen that no run is recorded. */
  predicate WithoutRun(at: Point) {
    !(at.AwaitExit? || at.InspectOnly? || at.ProbeOnly? || at.InspectAttached? || at.PollProbe?)
  }

  /** The bookkeeping of processes: indices are identities, and only an exited one has settled. */
  ghost predicate ProcessesOk(s: State) {
    var w := s.world;
    && (forall i :: 0 <= i < |w.runs| ==> w.runs[i].child == i)
    && (forall child :: child in w.alive ==> child < |w.runs|)
    && (forall child :: child in w.settled ==> child < |w.runs| && child !in w.alive)
    && (s.links.activeRun.Some? ==> s.links.activeRun.value in w.runs)
  }

  ghost predicate QueueOk(s: State) {
    forall task :: task in s.tasks.queue && task.RunSettled? ==> task.run.child in s.world.settled
  }

  /** Every live child is the recorded run, so there is at most one. */
  ghost predicate OneChild(s: State) {
    forall child :: child in s.world.alive ==>
      s.links.activeRun.Some? && s.links.activeRun.value.child == child
  }

  /** The lease is held from before a run is recorded until after it has exited. */
  ghost predicate LeaseOk(c: Config, s: State) {
    && (s.links.ownershipHeld ==> c.owned && s.world.lease)
    && (c.owned && s.links.activeRun.Some? ==> s.links.ownershipHeld)
  }

  /** What the suspended task relies on; only the queue protects it across the await. */
  ghost predicate TaskOk(c: Config, s: State) {
    s.tasks.current.Some? ==>
      var at := s.tasks.current.value;
      && (WithoutRun(at) ==> s.links.activeRun.None?)
      && (at.AwaitExit? ==> s.links.activeRun == Some(at.run))
      && (at.AcquireLease? || at.ProbeOccupant? || at.ReleaseStaleLease? ==> c.owned && !s.links.ownershipHeld)
      && (at.ProbeRuntime? || at.PrepareLaunch? ==> (c.owned ==> s.links.ownershipHeld))
      && (at.ReleaseAfterConflict? || at.ProbeForeign? ==> !c.owned)
  }

  ghost predicate Safe(c: Config, s: State) {
    ProcessesOk(s) && QueueOk(s) && OneChild(s) && LeaseOk(c, s) && TaskOk(c, s)
  }

  lemma {:induction false} EntriesKeepSafe(c: Config, s: State, e: Event)
    requires Safe(c, s) && Enabled(s, e)
    requires !e.BeginTask? && !e.Resume? && !e.ChildExits? && !e.RunSettles?
    ensures Safe(c, Step(c, s, e))
  {
  }

  lemma {:induction false} ChildKeepsSafe(c: Config, s: State, e: Event)
    requires Safe(c, s) && Enabled(s, e) && (e.ChildExits? || e.RunSettles?)
    ensures Safe(c, Step(c, s, e))
  {
  }

  /** The running task ends or is suspended elsewhere, and neither processes nor lease change. */
  ghost predicate SameHoldings(s: State, t: State) {
    && s.world == t.world && s.tasks.queue == t.tasks.queue
    && s.links.activeRun == t.links.activeRun && s.links.ownershipHeld == t.links.ownershipHeld
  }

  lemma {:induction false} RetryHoldsSame(c: Config, s: State, generation: nat, count: bool, oom: bool, now: int)
    ensures SameHoldings(s, ScheduleRetry(c, s, generation, count, oom, now))
    ensures ScheduleRetry(c, s, generation, count, oom, now).tasks.current == s.tasks.current
  {
  }

  lemma {:induction false} FinishKeepsSafe(c: Config, s: State, t: State)
    requires Safe(c, s) && SameHoldings(s, t)
    ensures Safe(c, Finish(t))
  {
  }

  lemma {:induction false} ReconcileKeepsSafe(c: Config, s: State, t: State, generation: nat)
    requires Safe(c, s) && SameHoldings(s, t)
    ensures Safe(c, ReconcileStart(c, t, generation))
  {
  }

  lemma {:induction false} SettledKeepsSafe(c: Config, s: State, run: Run, alreadyRunning: bool)
    requires Safe(c, s) && run.child in s.world.settled
    ensures Safe(c, SettledStart(c, s, run, alreadyRunning))
  {
  }

  lemma {:induction false} BeginKeepsSafe(c: Config, s: State)
    requires Safe(c, s) && s.tasks.current.None? && s.tasks.queue != []
    ensures Safe(c, BeginTaskStep(c, s))
  {
    var task := s.tasks.queue[0];
    var t := s.(tasks := s.tasks.(queue := s.tasks.queue[1..], polling := task.Poll?));
    assert task in s.tasks.queue;
    assert forall other :: other in s.tasks.queue[1..] ==> other in s.tasks.queue;
    assert Safe(c, t);
    match task
    case Reconcile(generation) => ReconcileKeepsSafe(c, t, t, generation);
    case RunSettled(run, alreadyRunning) => SettledKeepsSafe(c, t, run, alreadyRunning);
    case Poll(generation) => PollStartKeepsSafe(c, t, generation);
    case StopRun(generation) => TerminateKeepsSafe(c, t, ThenStop(generation));
    case RestartRun(generation) => TerminateKeepsSafe(c, t, ThenReconcile(generation));
  }

  lemma {:induction false} PollStartKeepsSafe(c: Config, s: State, generation: nat)
    requires Safe(c, s)
    ensures Safe(c, PollStart(c, s, generation))
  {
  }

  lemma {:induction false} TerminateKeepsSafe(c: Config, s: State, after: AfterExit)
    requires Safe(c, s)
    ensures Safe(c, Terminate(s, after))
  {
  }

  lemma {:induction false} LeaseKeepsSafe(c: Config, s: State, reply: Reply, now: int)
    requires Safe(c, s) && Enabled(s, Resume(reply, now)) && s.tasks.current.value.AcquireLease?
    ensures Safe(c, ResumeStep(c, s, reply, now))
  {
    var generation := s.tasks.current.value.generation;
    RetryHoldsSame(c, s, generation, true, false, now);
    if reply.Rejected? {
      FinishKeepsSafe(c, s, ScheduleRetry(c, s, generation, true, false, now));
    }
  }

  lemma {:induction false} LaunchKeepsSafe(c: Config, s: State, reply: Reply, now: int)
    requires Safe(c, s) && Enabled(s, Resume(reply, now)) && s.tasks.current.value.PrepareLaunch?
    ensures Safe(c, ResumeStep(c, s, reply, now))
  {
    var generation := s.tasks.current.value.generation;
    RetryHoldsSame(c, s, generation, true, false, now);
    if IsCurrent(s, generation) && !reply.Launched? {
      FinishKeepsSafe(c, s, ScheduleRetry(c, s, generation, true, false, now));
    }
  }

  /** The probes of a reconciliation or of a settled run: they leave every holding alone. */
  lemma {:induction false} ProbesKeepSafe(c: Config, s: State, reply: Reply, now: int)
    requires Safe(c, s) && Enabled(s, Resume(reply, now))
    requires var at := s.tasks.current.value;
             at.ProbeOccupant? || at.ProbeRuntime? || at.ProbeAfterConflict? || at.ProbeForeign?
    ensures Safe(c, ResumeStep(c, s, reply, now))
  {
    var at := s.tasks.current.value;
    var retried := ScheduleRetry(c, s, at.generation, false, false, now);
    RetryHoldsSame(c, s, at.generation, false, false, now);
    FinishKeepsSafe(c, s, s);
    FinishKeepsSafe(c, s, retried);
    if reply.Observed? && reply.runtime.Some? {
      ObservedHoldsSame(c, s, reply.runtime.value, if at.ProbeOccupant? then at.owner else None);
    }
    if at.ProbeOccupant? {
      FatalHoldsSame(s, if at.description.Some? then Given(at.description.value) else ForeignOwner);
    }
  }

  lemma {:induction false} FatalHoldsSame(s: State, reason: Reason)
    ensures SameHoldings(s, MarkFatal(s, reason))
    ensures MarkFatal(s, reason).tasks.current == s.tasks.current
  {
  }

  lemma {:induction false} ObservedHoldsSame(c: Config, s: State, runtime: Runtime, host: Option<Host>)
    ensures SameHoldings(s, ObserveExternal(c, s, runtime, host))
  {
  }

  lemma {:induction false} ExitKeepsSafe(c: Config, s: State, reply: Reply, now: int)
    requires Safe(c, s) && Enabled(s, Resume(reply, now))
    requires var at := s.tasks.current.value; at.AwaitExit? || at.Terminated? || at.ReleaseAfterStop?
    ensures Safe(c, ResumeStep(c, s, reply, now))
  {
  }

  lemma {:induction false} DecisionKeepsSafe(c: Config, s: State, reply: Reply, now: int)
    requires Safe(c, s) && Enabled(s, Resume(reply, now))
    requires var at := s.tasks.current.value; at.DecideExit?
    ensures Safe(c, ResumeStep(c, s, reply, now))
  {
    var generation := s.tasks.current.value.generation;
    if IsCurrent(s, generation) {
      match reply
      case Rejected =>
        RetryHoldsSame(c, s, generation, true, false, now);
        FinishKeepsSafe(c, s, ScheduleRetry(c, s, generation, true, false, now));
      case Decided(RetryExit(count, oom)) =>
        RetryHoldsSame(c, s, generation, count, oom, now);
        FinishKeepsSafe(c, s, ScheduleRetry(c, s, generation, count, oom, now));
      case Decided(RestartExit) =>
        ReconcileKeepsSafe(c, s, ResetFailures(ClearRetry(s)), generation);
      case Decided(FatalExit(message)) =>
        FinishKeepsSafe(c, s, MarkFatal(s, Given(message)));
      case Decided(StopExit) =>
    }
  }

  lemma {:induction false} PollSawKeepsSafe(c: Config, s: State, generation: nat, runtime: Runtime, now: int)
    requires Safe(c, s)
    ensures Safe(c, PollSaw(c, s, generation, runtime, now))
  {
    var cleared := s.(links := s.links.(probeFailures := 0));
    RetryHoldsSame(c, cleared, generation, false, false, now);
    FinishKeepsSafe(c, s, cleared);
    FinishKeepsSafe(c, s, ScheduleRetry(c, cleared, generation, false, false, now));
    ObservedHoldsSame(c, cleared, runtime, None);
    FinishKeepsSafe(c, s, ObserveExternal(c, cleared, runtime, None));
    if s.links.external.Some? && s.links.activeRun.None? {
      PollSawExternalKeepsSafe(c, s, generation, runtime);
    } else if s.links.activeRun.Some? {
      FinishKeepsSafe(c, s, cleared.(links := cleared.links.(external := None)));
    }
  }

  lemma {:induction false} PollSawExternalKeepsSafe(c: Config, s: State, generation: nat, runtime: Runtime)
    requires Safe(c, s)
    ensures Safe(c, PollSawExternal(c, s, generation, runtime))
  {
    ObservedHoldsSame(c, s, runtime, s.links.externalHost);
    FinishKeepsSafe(c, s, ObserveExternal(c, s, runtime, s.links.externalHost));
    FinishKeepsSafe(c, s, CountProbeFailure(s));
    ReconcileKeepsSafe(c, s, ForgetExternal(CountProbeFailure(s)), generation);
  }

  lemma {:induction false} PollKeepsSafe(c: Config, s: State, reply: Reply, now: int)
    requires Safe(c, s) && Enabled(s, Resume(reply, now)) && s.tasks.current.value.PollProbe?
    ensures Safe(c, ResumeStep(c, s, reply, now))
  {
    var generation := s.tasks.current.value.generation;
    FinishKeepsSafe(c, s, s);
    FinishKeepsSafe(c, s, CountProbeFailure(s));
    ReconcileKeepsSafe(c, s, ForgetExternal(CountProbeFailure(s)), generation);
    if reply.Observed? && reply.runtime.Some? {
      PollSawKeepsSafe(c, s, generation, reply.runtime.value, now);
    }
  }

  lemma {:induction false} InspectionsKeepSafe(c: Config, s: State, reply: Reply, now: int)
    requires Safe(c, s) && Enabled(s, Resume(reply, now))
    requires var at := s.tasks.current.value; at.InspectOnly? || at.ProbeOnly? || at.InspectAttached?
    ensures Safe(c, ResumeStep(c, s, reply, now))
  {
    FinishKeepsSafe(c, s, s);
    match s.tasks.current.value
    case InspectAttached(generation) => ReconcileKeepsSafe(c, s, ForgetExternal(s), generation);
    case _ =>
  }

  lemma {:induction false} ReleasesKeepSafe(c: Config, s: State, reply: Reply, now: int)
    requires Safe(c, s) && Enabled(s, Resume(reply, now))
    requires var at := s.tasks.current.value;
             at.ReleaseAfterStop? || at.ReleaseStaleLease? || at.ReleaseAfterExit? || at.ReleaseAfterConflict?
    ensures Safe(c, ResumeStep(c, s, reply, now))
  {
    FatalHoldsSame(s, ForeignHost);
    FinishKeepsSafe(c, s, MarkFatal(s, ForeignHost));
  }

  lemma {:induction false} ResumeKeepsSafe(c: Config, s: State, reply: Reply, now: int)
    requires Safe(c, s) && Enabled(s, Resume(reply, now))
    ensures Safe(c, ResumeStep(c, s, reply, now))
  {
    var at := s.tasks.current.value;
    if at.AcquireLease? {
      LeaseKeepsSafe(c, s, reply, now);
    } else if at.PrepareLaunch? {
      LaunchKeepsSafe(c, s, reply, now);
    } else if at.ProbeOccupant? || at.ProbeRuntime? || at.ProbeAfterConflict? || at.ProbeForeign? {
      ProbesKeepSafe(c, s, reply, now);
    } else if at.AwaitExit? || at.Terminated? {
      ExitKeepsSafe(c, s, reply, now);
    } else if at.DecideExit? {
      DecisionKeepsSafe(c, s, reply, now);
    } else if at.PollProbe? {
      PollKeepsSafe(c, s, reply, now);
    } else if at.InspectOnly? || at.ProbeOnly? || at.InspectAttached? {
      InspectionsKeepSafe(c, s, reply, now);
    } else {
      ReleasesKeepSafe(c, s, reply, now);
    }
  }

  lemma {:induction false} StepKeepsSafe(c: Config, s: State, e: Event)
    requires Safe(c, s) && Enabled(s, e)
    ensures Safe(c, Step(c, s, e))
  {
    match e
    case BeginTask => BeginKeepsSafe(c, s);
    case Resume(reply, now) => ResumeKeepsSafe(c, s, reply, now);
    case ChildExits(_) => ChildKeepsSafe(c, s, e);
    case RunSettles(_, _) => ChildKeepsSafe(c, s, e);
    case _ => EntriesKeepSafe(c, s, e);
  }

  lemma {:induction false} RunKeepsSafe(c: Config, s: State, events: seq<Event>, t: State)
    requires Safe(c, s) && Leads(c, s, events, t)
    ensures Safe(c, t)
    decreases |events|
  {
    if events != [] {
      StepKeepsSafe(c, s, events[0]);
      RunKeepsSafe(c, Step(c, s, events[0]), events[1..], t);
    }
  }

  predicate Prepared(s: State, e: Event) {
    && s.tasks.current.Some? && s.tasks.current.value.PrepareLaunch? && e.Resume? && e.reply.Launched?
    && IsCurrent(s, s.tasks.current.value.generation)
  }

  lemma {:induction false} SpawnsOnlyWhenPrepared(c: Config, s: State, e: Event)
    requires Enabled(s, e)
    ensures Step(c, s, e).world.runs ==
            if Prepared(s, e) then s.world.runs + [Run(|s.world.runs|, s.intent.generation, e.reply.pid)]
            else s.world.runs
  {
    if e.Resume? && !Prepared(s, e) {
      ResumeSpawns(c, s, e.reply, e.nowMs);
    }
  }

  lemma {:induction false} ResumeSpawns(c: Config, s: State, reply: Reply, now: int)
    requires Enabled(s, Resume(reply, now)) && !Prepared(s, Resume(reply, now))
    ensures ResumeStep(c, s, reply, now).world.runs == s.world.runs
  {
    var at := s.tasks.current.value;
    if at.AcquireLease? || at.PrepareLaunch? {
      RetryHoldsSame(c, s, at.generation, true, false, now);
    } else if at.ProbeOccupant? || at.ProbeRuntime? || at.ProbeAfterConflict? || at.ProbeForeign? {
      RetryHoldsSame(c, s, at.generation, false, false, now);
    }
  }
}
