/** Who looks after a supervisor that is meant to run: the task that is running, a task still in the
    queue, a recorded run, an external runtime, or the armed retry timer. `Core` says, of every reachable
    state, that whatever ends a run is followed by something that looks after the current generation.
    Under it the supervisor loses its last attendant exactly in the events of `Forsakes` and gets one back
    exactly in those of `Relieves`. Each lemma below takes one kind of event, or one await of one kind of
    task, and says both what it keeps and whether somebody is responsible after it. */
module SupervisorLiveness {
  import opened Options
  import opened SupervisorModel
  import opened SupervisorSafety

  /** A queued task that will look after generation `g`. */
  predicate Wants(g: nat, task: Task) {
    (task.Reconcile? || task.RestartRun?) && task.generation == g
  }

  /** A queued task that ends the recorded run. */
  predicate Ends(task: Task) {
    task.StopRun? || task.RestartRun?
  }

  ghost predicate WantedFrom(queue: seq<Task>, g: nat, from: nat) {
    exists j :: from <= j < |queue| && Wants(g, queue[j])
  }

  /** A task that will look after the current generation is in the queue. */
  ghost predicate Wanted(s: State) {
    WantedFrom(s.tasks.queue, s.intent.generation, 0)
  }

  /** Points of a reconciliation or of the handling of a settled run. */
  predicate Deciding(at: Point) {
    || at.AcquireLease? || at.ProbeOccupant? || at.ProbeRuntime? || at.PrepareLaunch?
    || at.ProbeAfterConflict? || at.ReleaseAfterConflict? || at.ProbeForeign? || at.DecideExit?
  }

  predicate Ending(at: Point) {
    at.AwaitExit? || at.Terminated?
  }

  /** The running task will itself look after generation `g`. */
  predicate Serves(g: nat, at: Point) {
    || (Deciding(at) && at.generation == g)
    || (Ending(at) && at.after == ThenReconcile(g))
  }

  predicate Serving(s: State) {
    s.tasks.current.Some? && Serves(s.intent.generation, s.tasks.current.value)
  }

  /** Somebody other than the running task is responsible. */
  ghost predicate Moving(s: State) {
    s.links.external.Some? || s.timers.retry.Some? || s.links.activeRun.Some? || Wanted(s)
  }

  /** A supervisor that is meant to run and has no verdict has somebody responsible for it. */
  ghost predicate Attended(s: State) {
    s.intent.running && !Fatal(s) ==> Moving(s) || Serving(s)
  }

  /** The same without the running task. */
  ghost predicate Cared(s: State) {
    s.intent.running && !Fatal(s) ==> Moving(s)
  }

  ghost predicate EndsAreFollowed(s: State) {
    forall i :: 0 <= i < |s.tasks.queue| && Ends(s.tasks.queue[i])
      ==> WantedFrom(s.tasks.queue, s.intent.generation, i)
  }

  ghost predicate TimerIsCurrent(s: State) {
    s.timers.retry.Some? ==> IsCurrent(s, s.timers.retry.value)
  }

  /** What holds of the queue, the processes and the timer whatever the running task is. */
  ghost predicate Quiet(s: State) {
    && (s.intent.running ==> EndsAreFollowed(s))
    && (s.intent.running && s.links.activeRun.Some? ==> s.links.external.None?)
    && TimerIsCurrent(s)
  }

  ghost predicate Core(s: State) {
    && Quiet(s)
    && (s.intent.running && s.tasks.current.Some? ==>
          var at := s.tasks.current.value;
          && (Deciding(at) && at.generation == s.intent.generation ==> s.links.external.None?)
          && (Ending(at) && !Serves(s.intent.generation, at) ==> Wanted(s)))
  }

  ghost predicate Good(c: Config, s: State) {
    Safe(c, s) && Core(s)
  }

  // The events that leave the supervisor alone.

  /** A probe of the current generation rejects. */
  predicate Rejects(s: State, e: Event) {
    && e.Resume? && e.reply.Rejected? && s.tasks.current.Some?
    && var at := s.tasks.current.value;
    && Deciding(at) && IsCurrent(s, at.generation)
    && !at.AcquireLease? && !at.PrepareLaunch? && !at.DecideExit?
  }

  /** The current generation gets a fatal verdict whose text is empty, which is none. */
  predicate SaysNothing(c: Config, s: State, e: Event) {
    && e.Resume? && s.tasks.current.Some?
    && var at := s.tasks.current.value;
    && Deciding(at) && IsCurrent(s, at.generation)
    && (|| (at.ProbeOccupant? && e.reply.Observed? && !c.attach && at.description == Some(""))
        || (at.DecideExit? && e.reply == Decided(FatalExit(""))))
  }

  predicate Strands(c: Config, s: State, e: Event) {
    Rejects(s, e) || SaysNothing(c, s, e)
  }

  /** The process survives SIGKILL for the whole wait; its run stays recorded. */
  predicate LosesChild(s: State, e: Event) {
    && e.Resume? && s.tasks.current.Some?
    && s.tasks.current.value.AwaitExit? && s.tasks.current.value.forced && e.reply.TimedOut?
  }

  /** The recorded run turns out to have ended at last, and it is not of the current generation. */
  predicate BuriesSurvivor(s: State, e: Event) {
    && e.BeginTask? && s.tasks.queue != [] && s.tasks.queue[0].RunSettled?
    && s.links.activeRun == Some(s.tasks.queue[0].run) && s.intent.running
    && s.tasks.queue[0].run.generation != s.intent.generation
  }

  /** No retry stays armed: a new empty verdict disarms it like any other. */
  predicate Disarmed(c: Config, s: State, e: Event) {
    s.timers.retry.None? || (SaysNothing(c, s, e) && s.intent.fatalReason != Some(Given("")))
  }

  /** One of the three, with nothing queued for the current generation and no retry armed. */
  ghost predicate Forsakes(c: Config, s: State, e: Event) {
    && (SaysNothing(c, s, e) || (!Fatal(s) && (Rejects(s, e) || BuriesSurvivor(s, e))))
    && !Wanted(s) && Disarmed(c, s, e)
  }

  /** What gives an unattended supervisor an attendant, or a verdict: an explicit request (`start` is
      none, for it finds the supervisor running), a poll that sees a runtime or a changed owner, and the
      verdict of a stale conflict. */
  predicate Relieves(c: Config, s: State, e: Event) {
    || e.Stop? || e.Restart?
    || (&& e.Resume? && s.tasks.current.Some?
        && var at := s.tasks.current.value;
           || (at.ReleaseAfterConflict? && !c.attach)
           || (at.PollProbe? && IsCurrent(s, at.generation) && e.reply.Observed? && e.reply.runtime.Some?)
           || (&& at.InspectAttached? && IsCurrent(s, at.generation) && e.reply.Owner?
               && (e.reply.owner.None? || e.reply.owner != s.links.externalHost)))
  }

  predicate Idle(s: State) {
    s.tasks.queue == [] && s.tasks.current.None?
  }

  /** Idle, meant to run, no fatal verdict, and nothing left that takes care of it. Only polling may go
      on, and only a poll that sees a runtime changes anything: see `Relieves`. */
  predicate Stuck(s: State) {
    && Idle(s) && s.intent.running && !Fatal(s)
    && s.links.activeRun.None? && s.links.external.None? && s.timers.retry.None?
  }

  /** Whether somebody is responsible after the event. */
  ghost predicate Follows(c: Config, s: State, e: Event, t: State) {
    Core(t) && (Attended(t) <==> if Attended(s) then !Forsakes(c, s, e) else Relieves(c, s, e))
  }

  // The queue.

  lemma {:induction false} AppendKeepsWanted(queue: seq<Task>, g: nat, task: Task, from: nat)
    requires !Wants(g, task)
    ensures WantedFrom(queue + [task], g, from) <==> WantedFrom(queue, g, from)
  {
    if WantedFrom(queue, g, from) {
      var j :| from <= j < |queue| && Wants(g, queue[j]);
      assert (queue + [task])[j] == queue[j];
    }
  }

  /** Appending a task that ends nothing and that nobody waits for. */
  lemma {:induction false} EnqueueKeepsCore(s: State, task: Task)
    requires Core(s) && !Ends(task) && !Wants(s.intent.generation, task)
    ensures Core(Enqueue(s, task)) && (Attended(Enqueue(s, task)) <==> Attended(s))
  {
    var q, g := s.tasks.queue, s.intent.generation;
    AppendKeepsWanted(q, g, task, 0);
    forall i | 0 <= i < |q| && WantedFrom(q, g, i)
      ensures WantedFrom(q + [task], g, i)
    {
      AppendKeepsWanted(q, g, task, i);
    }
  }

  /** A queue whose last task looks after the generation is fine whatever stands before it. */
  lemma {:induction false} WantedAtLast(s: State, task: Task)
    requires Wants(s.intent.generation, task)
    requires s.tasks.queue != [] && s.tasks.queue[|s.tasks.queue| - 1] == task
    ensures Wanted(s) && EndsAreFollowed(s)
  {
  }

  /** A fresh generation whose own task is appended: start and restart. */
  lemma {:induction false} ExplicitStartIsCore(s: State, task: Task)
    requires Wants(s.intent.generation + 1, task)
    ensures Core(Enqueue(ExplicitStart(s), task)) && Attended(Enqueue(ExplicitStart(s), task))
  {
    WantedAtLast(Enqueue(ExplicitStart(s), task), task);
  }

  lemma {:induction false} RetryFiresIsCore(s: State)
    requires Core(s) && s.timers.retry.Some?
    ensures Core(RetryFiresStep(s)) && Attended(s) && Attended(RetryFiresStep(s))
  {
    WantedAtLast(RetryFiresStep(s), Reconcile(s.intent.generation));
  }

  lemma {:induction false} ProbingKeepsCore(s: State)
    requires Core(s)
    ensures Core(StartProbingStep(s)) && (Attended(StartProbingStep(s)) <==> Attended(s))
  {
    if !s.intent.running {
      var t := s.(intent := s.intent.(probeOnly := true), timers := s.timers.(poll := true),
                  tasks := s.tasks.(pollQueued := true));
      EnqueueKeepsCore(t, Poll(s.intent.generation));
    }
  }

  lemma {:induction false} EntriesFollow(c: Config, s: State, e: Event)
    requires Good(c, s) && Enabled(s, e)
    requires !e.BeginTask? && !e.Resume?
    ensures Follows(c, s, e, Step(c, s, e))
  {
    var g := s.intent.generation;
    match e
    case Start => if !s.intent.running || Fatal(s) { ExplicitStartIsCore(s, Reconcile(g + 1)); }
    case Restart => ExplicitStartIsCore(s, RestartRun(g + 1));
    case Stop =>
    case StartProbing => ProbingKeepsCore(s);
    case PollTick => EnqueueKeepsCore(s.(tasks := s.tasks.(pollQueued := true)), Poll(g));
    case RetryFires => RetryFiresIsCore(s);
    case HealthyFires =>
    case ChildExits(child) =>
    case RunSettles(child, already) =>
      EnqueueKeepsCore(s.(world := s.world.(settled := s.world.settled + {child})),
                       RunSettled(s.world.runs[child], already));
  }

  /** Dropping the head of the queue keeps what was wanted behind it. */
  lemma {:induction false} TailKeepsWanted(queue: seq<Task>, g: nat, from: nat)
    requires from < |queue| && (from > 0 || !Wants(g, queue[0]))
    ensures WantedFrom(queue, g, from) <==> WantedFrom(queue[1..], g, if from == 0 then 0 else from - 1)
  {
    if WantedFrom(queue, g, from) {
      var j :| from <= j < |queue| && Wants(g, queue[j]);
      assert queue[1..][j - 1] == queue[j];
    }
    if WantedFrom(queue[1..], g, if from == 0 then 0 else from - 1) {
      var j :| (if from == 0 then 0 else from - 1) <= j < |queue| - 1 && Wants(g, queue[1..][j]);
      assert queue[j + 1] == queue[1..][j];
    }
  }

  /** The state in which the task just taken from the queue starts to run. */
  function Taken(s: State): State
    requires s.tasks.queue != []
  {
    s.(tasks := s.tasks.(queue := s.tasks.queue[1..], polling := s.tasks.queue[0].Poll?))
  }

  lemma {:induction false} FinishFollows(s: State)
    requires Quiet(s)
    ensures Core(Finish(s)) && (Attended(Finish(s)) <==> Cared(s))
  {
  }

  lemma {:induction false} AwakeIsQuiet(s: State)
    requires Core(s) && s.tasks.current.Some?
    ensures Quiet(s)
    ensures Attended(s) <==> Cared(s) || Serving(s)
  {
  }

  lemma {:induction false} SuspendFollows(s: State, at: Point)
    requires Quiet(s)
    requires s.intent.running && Deciding(at) && at.generation == s.intent.generation ==> s.links.external.None?
    requires s.intent.running && Ending(at) && !Serves(s.intent.generation, at) ==> Wanted(s)
    ensures Core(SuspendAt(s, at))
    ensures Attended(SuspendAt(s, at)) <==> Cared(s) || Serves(s.intent.generation, at)
  {
  }

  lemma {:induction false} ReconcileFollows(c: Config, s: State, generation: nat)
    requires Quiet(s)
    ensures Core(ReconcileStart(c, s, generation))
    ensures Attended(ReconcileStart(c, s, generation)) <==> Cared(s) || IsCurrent(s, generation)
  {
    if !IsCurrent(s, generation) || Fatal(s) || s.links.external.Some? || s.links.activeRun.Some? {
      FinishFollows(s);
    } else if c.owned && !s.links.ownershipHeld {
      SuspendFollows(s, AcquireLease(generation));
    } else {
      SuspendFollows(s, ProbeRuntime(generation));
    }
  }

  lemma {:induction false} VerdictFollows(s: State, reason: Reason)
    requires Quiet(s) && s.links.activeRun.None? && reason != Given("")
    ensures Core(Finish(MarkFatal(s, reason))) && Attended(Finish(MarkFatal(s, reason)))
  {
    FinishFollows(MarkFatal(s, reason));
  }

  lemma {:induction false} RetryFollows(c: Config, s: State, generation: nat, count: bool, oom: bool, now: int)
    requires Quiet(s) && s.links.activeRun.None?
    ensures var t := Finish(ScheduleRetry(c, s, generation, count, oom, now));
            Core(t) && (Attended(t) <==> Cared(s) || IsCurrent(s, generation))
  {
    var t := ScheduleRetry(c, s, generation, count, oom, now);
    if !IsCurrent(s, generation) || Fatal(s) {
      FinishFollows(s);
    } else if !count {
      FinishFollows(t);
    } else {
      var recorded := RecordFailure(c, s, oom, now);
      assert Quiet(recorded);
      if RecentCount(recorded, oom) >= Threshold(c, oom) {
        VerdictFollows(recorded, TooManyFailures(oom, RecentCount(recorded, oom)));
      } else {
        FinishFollows(t);
      }
    }
  }

  lemma {:induction false} ObserveFollows(c: Config, s: State, runtime: Runtime, host: Option<Host>)
    requires Quiet(s) && s.links.activeRun.None?
    ensures var t := Finish(ObserveExternal(c, s, runtime, host)); Core(t) && Attended(t)
  {
    var seen := s.(links := s.links.(external := Some(runtime)));
    if !c.attach {
      assert Quiet(seen);
      VerdictFollows(seen, ForeignRuntime(runtime.pid));
    } else {
      FinishFollows(ObserveExternal(c, s, runtime, host));
    }
  }

  // Taking a task from the queue.

  lemma {:induction false} TakenIsQuiet(s: State)
    requires Core(s) && s.tasks.current.None? && s.tasks.queue != []
    ensures Quiet(Taken(s))
    ensures !Wants(s.intent.generation, s.tasks.queue[0]) ==> (Wanted(Taken(s)) <==> Wanted(s))
    ensures Wants(s.intent.generation, s.tasks.queue[0]) ==> Wanted(s)
  {
    var q, g := s.tasks.queue, s.intent.generation;
    forall i | 0 <= i < |q| - 1 && Ends(q[1..][i]) && WantedFrom(q, g, i + 1)
      ensures WantedFrom(q[1..], g, i)
    {
      TailKeepsWanted(q, g, i + 1);
    }
    assert forall i :: 0 <= i < |q| - 1 && Ends(q[1..][i]) ==> Ends(q[i + 1]);
    if !Wants(g, q[0]) {
      TailKeepsWanted(q, g, 0);
    }
  }

  lemma {:induction false} TerminateFollows(s: State, after: AfterExit)
    requires s.tasks.queue != [] && Core(s) && s.tasks.current.None? && Ends(s.tasks.queue[0])
    requires after == match s.tasks.queue[0]
                      case StopRun(g) => ThenStop(g)
                      case RestartRun(g) => ThenReconcile(g)
                      case _ => after
    ensures Core(Terminate(Taken(s), after)) && Attended(s) && Attended(Terminate(Taken(s), after))
  {
    TakenIsQuiet(s);
    assert s.intent.running ==> WantedFrom(s.tasks.queue, s.intent.generation, 0);
    var t := Taken(s);
    match t.links.activeRun
    case None => SuspendFollows(t, Terminated(after));
    case Some(run) => SuspendFollows(t.(timers := t.timers.(healthy := None)), AwaitExit(run, false, after));
  }

  lemma {:induction false} SettledFollows(c: Config, s: State, run: Run, alreadyRunning: bool)
    requires Quiet(s)
    ensures var t := SettledStart(c, s, run, alreadyRunning);
            && Core(t)
            && (Attended(t) <==>
                  if s.links.activeRun != Some(run) then Cared(s)
                  else !s.intent.running || Fatal(s) || run.generation == s.intent.generation
                       || s.timers.retry.Some? || Wanted(s))
  {
    if s.links.activeRun != Some(run) {
      FinishFollows(s);
    } else {
      var t := s.(links := s.links.(activeRun := None), timers := s.timers.(healthy := None));
      assert Quiet(t);
      if !IsCurrent(t, run.generation) {
        FinishFollows(t);
      } else if !alreadyRunning {
        SuspendFollows(t, DecideExit(run.generation));
      } else if t.links.ownershipHeld {
        SuspendFollows(t, ProbeAfterConflict(run.generation));
      } else {
        SuspendFollows(t, ReleaseAfterConflict(run.generation));
      }
    }
  }

  lemma {:induction false} PollStartFollows(c: Config, s: State, generation: nat)
    requires Quiet(s)
    ensures Core(PollStart(c, s, generation)) && (Attended(PollStart(c, s, generation)) <==> Cared(s))
  {
    FinishFollows(s);
    SuspendFollows(s, InspectOnly);
    SuspendFollows(s, InspectAttached(generation));
    SuspendFollows(s, PollProbe(generation));
  }

  lemma {:induction false} BeginFollows(c: Config, s: State)
    requires Good(c, s) && s.tasks.current.None? && s.tasks.queue != []
    ensures Follows(c, s, BeginTask, BeginTaskStep(c, s))
  {
    TakenIsQuiet(s);
    match s.tasks.queue[0]
    case Reconcile(generation) => ReconcileFollows(c, Taken(s), generation);
    case StopRun(generation) => TerminateFollows(s, ThenStop(generation));
    case RestartRun(generation) => TerminateFollows(s, ThenReconcile(generation));
    case RunSettled(run, already) => SettledFollows(c, Taken(s), run, already);
    case Poll(generation) => PollStartFollows(c, Taken(s), generation);
  }

  // Continuing a task after an await.

  lemma {:induction false} LeaseFollows(c: Config, s: State, reply: Reply, now: int)
    requires Good(c, s) && Enabled(s, Resume(reply, now)) && s.tasks.current.value.AcquireLease?
    ensures Follows(c, s, Resume(reply, now), ResumeStep(c, s, reply, now))
  {
    var generation := s.tasks.current.value.generation;
    AwakeIsQuiet(s);
    match reply
    case Acquired =>
      if IsCurrent(s, generation) {
        SuspendFollows(TakeLease(s, true), ProbeRuntime(generation));
      } else {
        SuspendFollows(s.(world := s.world.(lease := false)), ReleaseStaleLease);
      }
    case Occupied(owner, text) =>
      if IsCurrent(s, generation) {
        SuspendFollows(s, ProbeOccupant(generation, owner, text));
      } else {
        FinishFollows(s);
      }
    case _ => RetryFollows(c, s, generation, true, false, now);
  }

  /** An empty text for a verdict. */
  lemma {:induction false} EmptyVerdictFollows(s: State)
    requires Quiet(s) && s.links.activeRun.None? && s.links.external.None? && s.intent.running
    ensures var t := Finish(MarkFatal(s, Given("")));
            && Core(t)
            && (Attended(t) <==>
                  Wanted(s) || (s.intent.fatalReason == Some(Given("")) && s.timers.retry.Some?))
  {
    FinishFollows(MarkFatal(s, Given("")));
  }

  lemma {:induction false} OccupantFollows(c: Config, s: State, reply: Reply, now: int)
    requires Good(c, s) && Enabled(s, Resume(reply, now)) && s.tasks.current.value.ProbeOccupant?
    ensures Follows(c, s, Resume(reply, now), ResumeStep(c, s, reply, now))
  {
    var at := s.tasks.current.value;
    AwakeIsQuiet(s);
    if !IsCurrent(s, at.generation) || !reply.Observed? {
      FinishFollows(s);
    } else {
      RetryFollows(c, s, at.generation, false, false, now);
      if at.description == Some("") {
        EmptyVerdictFollows(s);
      } else {
        VerdictFollows(s, if at.description.Some? then Given(at.description.value) else ForeignOwner);
      }
      if reply.runtime.Some? {
        ObserveFollows(c, s, reply.runtime.value, at.owner);
      }
    }
  }

  lemma {:induction false} ProbesFollow(c: Config, s: State, reply: Reply, now: int)
    requires Good(c, s) && Enabled(s, Resume(reply, now))
    requires var at := s.tasks.current.value; at.ProbeRuntime? || at.ProbeAfterConflict? || at.ProbeForeign?
    ensures Follows(c, s, Resume(reply, now), ResumeStep(c, s, reply, now))
  {
    var at := s.tasks.current.value;
    AwakeIsQuiet(s);
    if !IsCurrent(s, at.generation) || !reply.Observed? {
      FinishFollows(s);
    } else {
      RetryFollows(c, s, at.generation, false, false, now);
      SuspendFollows(s, PrepareLaunch(at.generation));
      if reply.runtime.Some? {
        ObserveFollows(c, s, reply.runtime.value, None);
      }
    }
  }

  lemma {:induction false} LaunchFollows(c: Config, s: State, reply: Reply, now: int)
    requires Good(c, s) && Enabled(s, Resume(reply, now)) && s.tasks.current.value.PrepareLaunch?
    ensures Follows(c, s, Resume(reply, now), ResumeStep(c, s, reply, now))
  {
    var generation := s.tasks.current.value.generation;
    AwakeIsQuiet(s);
    if !IsCurrent(s, generation) {
      FinishFollows(s);
    } else if reply.Launched? {
      FinishFollows(Spawn(s, generation, reply.pid));
    } else {
      RetryFollows(c, s, generation, true, false, now);
    }
  }

  lemma {:induction false} ExitFollows(c: Config, s: State, reply: Reply, now: int)
    requires Good(c, s) && Enabled(s, Resume(reply, now)) && s.tasks.current.value.AwaitExit?
    ensures Follows(c, s, Resume(reply, now), ResumeStep(c, s, reply, now))
  {
  }

  lemma {:induction false} TerminatedFollows(c: Config, s: State, reply: Reply, now: int)
    requires Good(c, s) && Enabled(s, Resume(reply, now)) && s.tasks.current.value.Terminated?
    ensures Follows(c, s, Resume(reply, now), ResumeStep(c, s, reply, now))
  {
    AwakeIsQuiet(s);
    match s.tasks.current.value.after
    case ThenStop(_) => SuspendFollows(ReleaseOwnership(c, ForgetExternal(s)), ReleaseAfterStop);
    case ThenReconcile(generation) => ReconcileFollows(c, s, generation);
  }

  lemma {:induction false} DecisionFollows(c: Config, s: State, reply: Reply, now: int)
    requires Good(c, s) && Enabled(s, Resume(reply, now)) && s.tasks.current.value.DecideExit?
    ensures Follows(c, s, Resume(reply, now), ResumeStep(c, s, reply, now))
  {
    var generation := s.tasks.current.value.generation;
    AwakeIsQuiet(s);
    if !IsCurrent(s, generation) {
      FinishFollows(s);
    } else {
      match reply
      case Decided(RetryExit(count, oom)) => RetryFollows(c, s, generation, count, oom, now);
      case Decided(RestartExit) => ReconcileFollows(c, ResetFailures(ClearRetry(s)), generation);
      case Decided(FatalExit(message)) =>
        if message == "" { EmptyVerdictFollows(s); } else { VerdictFollows(s, Given(message)); }
      case Decided(StopExit) =>
      case _ => RetryFollows(c, s, generation, true, false, now);
    }
  }

  lemma {:induction false} PollSawFollows(c: Config, s: State, generation: nat, runtime: Runtime, now: int)
    requires Quiet(s) && IsCurrent(s, generation)
    ensures Core(PollSaw(c, s, generation, runtime, now)) && Attended(PollSaw(c, s, generation, runtime, now))
  {
    var cleared := s.(links := s.links.(probeFailures := 0));
    FinishFollows(cleared);
    if s.links.activeRun.Some? {
      FinishFollows(cleared.(links := cleared.links.(external := None)));
    } else if s.links.external.Some? {
      ObserveFollows(c, s, runtime, s.links.externalHost);
      FinishFollows(CountProbeFailure(s));
      ReconcileFollows(c, ForgetExternal(CountProbeFailure(s)), generation);
    } else {
      ObserveFollows(c, cleared, runtime, None);
      RetryFollows(c, cleared, generation, false, false, now);
    }
  }

  lemma {:induction false} PollFollows(c: Config, s: State, reply: Reply, now: int)
    requires Good(c, s) && Enabled(s, Resume(reply, now)) && s.tasks.current.value.PollProbe?
    ensures Follows(c, s, Resume(reply, now), ResumeStep(c, s, reply, now))
  {
    var generation := s.tasks.current.value.generation;
    AwakeIsQuiet(s);
    FinishFollows(s);
    FinishFollows(CountProbeFailure(s));
    if reply.Observed? && IsCurrent(s, generation) {
      if reply.runtime.Some? {
        PollSawFollows(c, s, generation, reply.runtime.value, now);
      } else if s.links.external.Some? {
        ReconcileFollows(c, ForgetExternal(CountProbeFailure(s)), generation);
      }
    }
  }

  lemma {:induction false} InspectionsFollow(c: Config, s: State, reply: Reply, now: int)
    requires Good(c, s) && Enabled(s, Resume(reply, now))
    requires var at := s.tasks.current.value; at.InspectOnly? || at.ProbeOnly? || at.InspectAttached?
    ensures Follows(c, s, Resume(reply, now), ResumeStep(c, s, reply, now))
  {
    AwakeIsQuiet(s);
    FinishFollows(s);
    match s.tasks.current.value
    case InspectAttached(generation) =>
      SuspendFollows(s, PollProbe(generation));
      if IsCurrent(s, generation) {
        ReconcileFollows(c, ForgetExternal(s), generation);
      }
    case _ =>
  }

  lemma {:induction false} ReleasesFollow(c: Config, s: State, reply: Reply, now: int)
    requires Good(c, s) && Enabled(s, Resume(reply, now))
    requires var at := s.tasks.current.value;
             at.ReleaseAfterStop? || at.ReleaseStaleLease? || at.ReleaseAfterExit? || at.ReleaseAfterConflict?
    ensures Follows(c, s, Resume(reply, now), ResumeStep(c, s, reply, now))
  {
    AwakeIsQuiet(s);
    match s.tasks.current.value
    case ReleaseAfterConflict(generation) =>
      VerdictFollows(s, ForeignHost);
      SuspendFollows(s, ProbeForeign(generation));
    case ReleaseAfterStop =>
      FinishFollows(s);
      FinishFollows(ResetWindows(s.(links := s.links.(probeFailures := 0))));
    case _ => FinishFollows(s);
  }

  lemma {:induction false} ResumeFollows(c: Config, s: State, reply: Reply, now: int)
    requires Good(c, s) && Enabled(s, Resume(reply, now))
    ensures Follows(c, s, Resume(reply, now), ResumeStep(c, s, reply, now))
  {
    var at := s.tasks.current.value;
    if at.AcquireLease? {
      LeaseFollows(c, s, reply, now);
    } else if at.PrepareLaunch? {
      LaunchFollows(c, s, reply, now);
    } else if at.ProbeOccupant? {
      OccupantFollows(c, s, reply, now);
    } else if at.ProbeRuntime? || at.ProbeAfterConflict? || at.ProbeForeign? {
      ProbesFollow(c, s, reply, now);
    } else if at.AwaitExit? {
      ExitFollows(c, s, reply, now);
    } else if at.Terminated? {
      TerminatedFollows(c, s, reply, now);
    } else if at.DecideExit? {
      DecisionFollows(c, s, reply, now);
    } else if at.PollProbe? {
      PollFollows(c, s, reply, now);
    } else if at.InspectOnly? || at.ProbeOnly? || at.InspectAttached? {
      InspectionsFollow(c, s, reply, now);
    } else {
      ReleasesFollow(c, s, reply, now);
    }
  }

  /** Every event keeps both invariants. The supervisor loses its last attendant exactly in the events
      of `Forsakes`, and an unattended one gets an attendant or a verdict exactly in those of `Relieves`. */
  lemma {:induction false} StepFollows(c: Config, s: State, e: Event)
    requires Good(c, s) && Enabled(s, e)
    ensures Good(c, Step(c, s, e)) && Follows(c, s, e, Step(c, s, e))
  {
    StepKeepsSafe(c, s, e);
    match e
    case BeginTask => BeginFollows(c, s);
    case Resume(reply, now) => ResumeFollows(c, s, reply, now);
    case _ => EntriesFollow(c, s, e);
  }

  // Runs in which every process dies of SIGKILL.

  ghost predicate Stale(s: State) {
    && s.links.activeRun.Some?
    && !(s.intent.running && s.links.activeRun.value.generation == s.intent.generation)
  }

  ghost predicate EndQueued(s: State) {
    exists i :: 0 <= i < |s.tasks.queue| && Ends(s.tasks.queue[i])
  }

  /** A run that nobody wants any more is about to be ended, and the wanted one has no verdict. */
  ghost predicate Loyal(s: State) {
    && (Stale(s) ==> EndQueued(s) || (s.tasks.current.Some? && s.tasks.current.value.AwaitExit?))
    && (s.intent.running && s.links.activeRun.Some? ==> !Fatal(s))
    && (DecidingCurrent(s) ==> !Fatal(s))
  }

  predicate DecidingCurrent(s: State) {
    && s.tasks.current.Some? && Deciding(s.tasks.current.value)
    && IsCurrent(s, s.tasks.current.value.generation)
  }

  lemma {:induction false} EndStaysQueued(queue: seq<Task>, task: Task)
    requires Ends(task) || exists i :: 0 <= i < |queue| && Ends(queue[i])
    ensures exists i :: 0 <= i < |queue + [task]| && Ends((queue + [task])[i])
  {
    if Ends(task) {
      assert Ends((queue + [task])[|queue|]);
    } else {
      var i :| 0 <= i < |queue| && Ends(queue[i]);
      assert Ends((queue + [task])[i]);
    }
  }

  lemma {:induction false} EntriesKeepLoyal(c: Config, s: State, e: Event)
    requires Safe(c, s) && Loyal(s) && Enabled(s, e) && !e.BeginTask? && !e.Resume?
    ensures Loyal(Step(c, s, e))
  {
    var q, t := s.tasks.queue, Step(c, s, e);
    if t.tasks.queue != q {
      var task := t.tasks.queue[|q|];
      assert t.tasks.queue == q + [task];
      if EndQueued(s) || Ends(task) {
        EndStaysQueued(q, task);
      }
    }
  }

  lemma {:induction false} BeginKeepsLoyal(c: Config, s: State)
    requires Safe(c, s) && Loyal(s) && s.tasks.current.None? && s.tasks.queue != []
    ensures Loyal(BeginTaskStep(c, s))
  {
    var q := s.tasks.queue;
    if !Ends(q[0]) && EndQueued(s) {
      var i :| 0 <= i < |q| && Ends(q[i]);
      assert Ends(q[1..][i - 1]);
    }
  }

  lemma {:induction false} ReconcileIsLoyal(c: Config, s: State, generation: nat)
    requires Stale(s) ==> EndQueued(s)
    requires s.intent.running && s.links.activeRun.Some? ==> !Fatal(s)
    ensures Loyal(ReconcileStart(c, s, generation)) && Loyal(Finish(s))
  {
  }

  /** What a task that decides for a generation may leave behind: no verdict while it goes on, and no run
      but one of its own generation. */
  ghost predicate Modest(s: State, generation: nat, t: State) {
    && t.intent.(fatalReason := s.intent.fatalReason) == s.intent
    && (t.links.activeRun.Some? ==>
          && t.intent == s.intent && IsCurrent(s, generation)
          && t.links.activeRun.value.generation == generation && t.tasks.current.None?)
    && (t.tasks.current.Some? ==>
          && t.intent == s.intent
          && (Deciding(t.tasks.current.value) ==> t.tasks.current.value.generation == generation))
  }

  lemma {:induction false} RetryIsModest(c: Config, s: State, generation: nat, count: bool, oom: bool, now: int)
    requires s.links.activeRun.None?
    ensures Modest(s, generation, Finish(ScheduleRetry(c, s, generation, count, oom, now)))
  {
  }

  lemma {:induction false} LaunchIsModest(c: Config, s: State, reply: Reply, now: int)
    requires Enabled(s, Resume(reply, now)) && s.links.activeRun.None?
    requires var at := s.tasks.current.value; at.AcquireLease? || at.PrepareLaunch?
    ensures Modest(s, s.tasks.current.value.generation, ResumeStep(c, s, reply, now))
  {
    RetryIsModest(c, s, s.tasks.current.value.generation, true, false, now);
  }

  lemma {:induction false} OccupantIsModest(c: Config, s: State, reply: Reply, now: int)
    requires Enabled(s, Resume(reply, now)) && s.links.activeRun.None? && s.tasks.current.value.ProbeOccupant?
    ensures Modest(s, s.tasks.current.value.generation, ResumeStep(c, s, reply, now))
  {
    RetryIsModest(c, s, s.tasks.current.value.generation, false, false, now);
  }

  lemma {:induction false} ConflictIsModest(c: Config, s: State, reply: Reply, now: int)
    requires Enabled(s, Resume(reply, now)) && s.links.activeRun.None?
    requires var at := s.tasks.current.value; at.ProbeAfterConflict? || at.ReleaseAfterConflict?
    ensures Modest(s, s.tasks.current.value.generation, ResumeStep(c, s, reply, now))
  {
    RetryIsModest(c, s, s.tasks.current.value.generation, false, false, now);
  }

  lemma {:induction false} RuntimeIsModest(c: Config, s: State, reply: Reply, now: int)
    requires Enabled(s, Resume(reply, now)) && s.links.activeRun.None?
    requires var at := s.tasks.current.value; at.ProbeRuntime? || at.ProbeForeign?
    ensures Modest(s, s.tasks.current.value.generation, ResumeStep(c, s, reply, now))
  {
    RetryIsModest(c, s, s.tasks.current.value.generation, false, false, now);
  }

  lemma {:induction false} ProbeIsModest(c: Config, s: State, reply: Reply, now: int)
    requires Enabled(s, Resume(reply, now)) && s.links.activeRun.None?
    requires Deciding(s.tasks.current.value) && !s.tasks.current.value.DecideExit?
    ensures Modest(s, s.tasks.current.value.generation, ResumeStep(c, s, reply, now))
  {
    var at := s.tasks.current.value;
    if at.AcquireLease? || at.PrepareLaunch? {
      LaunchIsModest(c, s, reply, now);
    } else if at.ProbeOccupant? {
      OccupantIsModest(c, s, reply, now);
    } else if at.ProbeRuntime? || at.ProbeForeign? {
      RuntimeIsModest(c, s, reply, now);
    } else {
      ConflictIsModest(c, s, reply, now);
    }
  }

  lemma {:induction false} ProbesKeepLoyal(c: Config, s: State, reply: Reply, now: int)
    requires Safe(c, s) && Loyal(s) && Enabled(s, Resume(reply, now))
    requires Deciding(s.tasks.current.value) && !s.tasks.current.value.DecideExit?
    ensures Loyal(ResumeStep(c, s, reply, now))
  {
    ProbeIsModest(c, s, reply, now);
    ModestIsLoyal(s, ResumeStep(c, s, reply, now));
  }

  lemma {:induction false} ModestIsLoyal(s: State, t: State)
    requires s.tasks.current.Some? && Deciding(s.tasks.current.value) && Loyal(s)
    requires Modest(s, s.tasks.current.value.generation, t)
    ensures Loyal(t)
  {
  }

  lemma {:induction false} DecisionKeepsLoyal(c: Config, s: State, reply: Reply, now: int)
    requires Safe(c, s) && Loyal(s) && Enabled(s, Resume(reply, now)) && s.tasks.current.value.DecideExit?
    ensures Loyal(ResumeStep(c, s, reply, now))
  {
    var generation := s.tasks.current.value.generation;
    ReconcileIsLoyal(c, ResetFailures(ClearRetry(s)), generation);
    RetryHoldsSame(c, s, generation, true, false, now);
    if reply.Decided? && reply.decision.RetryExit? {
      RetryHoldsSame(c, s, generation, reply.decision.countFailure, reply.decision.oom, now);
    }
  }

  lemma {:induction false} EndingKeepsLoyal(c: Config, s: State, reply: Reply, now: int)
    requires Safe(c, s) && Loyal(s) && Enabled(s, Resume(reply, now)) && !LosesChild(s, Resume(reply, now))
    requires !Deciding(s.tasks.current.value)
    requires var at := s.tasks.current.value; !at.PollProbe? && !at.InspectAttached?
    ensures Loyal(ResumeStep(c, s, reply, now))
  {
  }

  lemma {:induction false} InspectKeepsLoyal(c: Config, s: State, reply: Reply, now: int)
    requires Safe(c, s) && Loyal(s) && Enabled(s, Resume(reply, now)) && s.tasks.current.value.InspectAttached?
    ensures Loyal(ResumeStep(c, s, reply, now))
  {
    ReconcileIsLoyal(c, s, s.tasks.current.value.generation);
    ReconcileIsLoyal(c, ForgetExternal(s), s.tasks.current.value.generation);
  }

  lemma {:induction false} PollKeepsLoyal(c: Config, s: State, reply: Reply, now: int)
    requires Safe(c, s) && Loyal(s) && Enabled(s, Resume(reply, now)) && s.tasks.current.value.PollProbe?
    ensures Loyal(ResumeStep(c, s, reply, now))
  {
    var generation := s.tasks.current.value.generation;
    ReconcileIsLoyal(c, s, generation);
    ReconcileIsLoyal(c, ForgetExternal(CountProbeFailure(s)), generation);
    if reply.Observed? && reply.runtime.Some? && IsCurrent(s, generation) {
      PollSawIsLoyal(c, s, generation, reply.runtime.value, now);
    }
  }

  lemma {:induction false} PollSawIsLoyal(c: Config, s: State, generation: nat, runtime: Runtime, now: int)
    requires Stale(s) ==> EndQueued(s)
    requires s.intent.running && s.links.activeRun.Some? ==> !Fatal(s)
    ensures Loyal(PollSaw(c, s, generation, runtime, now))
  {
    var cleared := s.(links := s.links.(probeFailures := 0));
    RetryHoldsSame(c, cleared, generation, false, false, now);
    ReconcileIsLoyal(c, ForgetExternal(CountProbeFailure(s)), generation);
  }

  lemma {:induction false} ResumeKeepsLoyal(c: Config, s: State, reply: Reply, now: int)
    requires Safe(c, s) && Loyal(s) && Enabled(s, Resume(reply, now)) && !LosesChild(s, Resume(reply, now))
    ensures Loyal(ResumeStep(c, s, reply, now))
  {
    var at := s.tasks.current.value;
    if at.DecideExit? {
      DecisionKeepsLoyal(c, s, reply, now);
    } else if Deciding(at) {
      ProbesKeepLoyal(c, s, reply, now);
    } else if at.PollProbe? {
      PollKeepsLoyal(c, s, reply, now);
    } else if at.InspectAttached? {
      InspectKeepsLoyal(c, s, reply, now);
    } else {
      EndingKeepsLoyal(c, s, reply, now);
    }
  }

  lemma {:induction false} StepKeepsLoyal(c: Config, s: State, e: Event)
    requires Safe(c, s) && Loyal(s) && Enabled(s, e) && !LosesChild(s, e)
    ensures Loyal(Step(c, s, e))
  {
    match e
    case BeginTask => BeginKeepsLoyal(c, s);
    case Resume(reply, now) => ResumeKeepsLoyal(c, s, reply, now);
    case _ => EntriesKeepLoyal(c, s, e);
  }

  /** Without a survivor no run of another generation is buried with nobody behind it. */
  lemma {:induction false} LoyalIsForsakenByTasks(c: Config, s: State, e: Event)
    requires Good(c, s) && Loyal(s) && Enabled(s, e)
    ensures Forsakes(c, s, e) <==> Strands(c, s, e) && !Wanted(s) && Disarmed(c, s, e)
  {
    if BuriesSurvivor(s, e) {
      var i :| 0 <= i < |s.tasks.queue| && Ends(s.tasks.queue[i]);
      assert WantedFrom(s.tasks.queue, s.intent.generation, i);
    }
  }
}
