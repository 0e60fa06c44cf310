/** What becomes of an ownership port's lease: which events take it and give it back, and over which runs a supervisor
    that has been stopped goes on holding it. */
module SupervisorLease {
  import opened Options
  import opened SupervisorModel
  import opened SupervisorSafety
  import opened SupervisorLiveness
  import opened SupervisorResults

  // Which events move the lease.

  /** `ownershipHeld` says exactly whether the lease is held. */
  predicate Agreed(s: State) {
    s.world.lease == s.links.ownershipHeld
  }

  predicate TakesTheLease(s: State, e: Event) {
    && e.Resume? && e.reply.Acquired? && s.tasks.current.Some?
    && s.tasks.current.value.AcquireLease? && IsCurrent(s, s.tasks.current.value.generation)
  }

  /** The end of a `stop` whose run is over, and a clean exit of the current generation. */
  predicate GivesTheLeaseBack(s: State, e: Event) {
    && e.Resume? && s.tasks.current.Some?
    && var at := s.tasks.current.value;
       || (at.Terminated? && at.after.ThenStop?)
       || (at.DecideExit? && IsCurrent(s, at.generation) && e.reply == Decided(StopExit))
  }

  ghost predicate LeaseMoves(s: State, e: Event, t: State) {
    && Agreed(t)
    && t.world.lease == if TakesTheLease(s, e) then true else if GivesTheLeaseBack(s, e) then false else s.world.lease
  }

  predicate SameLease(s: State, t: State) {
    s.world.lease == t.world.lease && s.links.ownershipHeld == t.links.ownershipHeld
  }

  lemma {:induction false} RetryKeepsLease(c: Config, s: State, generation: nat, count: bool, oom: bool, now: int)
    ensures SameLease(s, Finish(ScheduleRetry(c, s, generation, count, oom, now)))
  {
  }

  lemma {:induction false} ReconcileKeepsLease(c: Config, s: State, generation: nat)
    ensures SameLease(s, ReconcileStart(c, s, generation))
  {
  }

  lemma {:induction false} BeginKeepsLease(c: Config, s: State)
    requires s.tasks.queue != []
    ensures SameLease(s, BeginTaskStep(c, s))
  {
  }

  lemma {:induction false} LaunchingMovesLease(c: Config, s: State, reply: Reply, now: int)
    requires Safe(c, s) && Agreed(s) && Enabled(s, Resume(reply, now))
    requires var at := s.tasks.current.value; at.AcquireLease? || at.PrepareLaunch?
    ensures LeaseMoves(s, Resume(reply, now), ResumeStep(c, s, reply, now))
  {
    RetryKeepsLease(c, s, s.tasks.current.value.generation, true, false, now);
  }

  lemma {:induction false} ProbingMovesLease(c: Config, s: State, reply: Reply, now: int)
    requires Agreed(s) && Enabled(s, Resume(reply, now)) && Deciding(s.tasks.current.value)
    requires var at := s.tasks.current.value; !at.AcquireLease? && !at.PrepareLaunch? && !at.DecideExit?
    ensures LeaseMoves(s, Resume(reply, now), ResumeStep(c, s, reply, now))
  {
    RetryKeepsLease(c, s, s.tasks.current.value.generation, false, false, now);
  }

  lemma {:induction false} DecisionMovesLease(c: Config, s: State, reply: Reply, now: int)
    requires Safe(c, s) && Agreed(s) && Enabled(s, Resume(reply, now)) && s.tasks.current.value.DecideExit?
    ensures LeaseMoves(s, Resume(reply, now), ResumeStep(c, s, reply, now))
  {
    var generation := s.tasks.current.value.generation;
    RetryKeepsLease(c, s, generation, true, false, now);
    ReconcileKeepsLease(c, ResetFailures(ClearRetry(s)), generation);
    if reply.Decided? && reply.decision.RetryExit? {
      RetryKeepsLease(c, s, generation, reply.decision.countFailure, reply.decision.oom, now);
    }
  }

  lemma {:induction false} PollMovesLease(c: Config, s: State, reply: Reply, now: int)
    requires Agreed(s) && Enabled(s, Resume(reply, now)) && s.tasks.current.value.PollProbe?
    ensures LeaseMoves(s, Resume(reply, now), ResumeStep(c, s, reply, now))
  {
    var generation := s.tasks.current.value.generation;
    ReconcileKeepsLease(c, ForgetExternal(CountProbeFailure(s)), generation);
    RetryKeepsLease(c, s.(links := s.links.(probeFailures := 0)), generation, false, false, now);
  }

  lemma {:induction false} OtherMovesLease(c: Config, s: State, reply: Reply, now: int)
    requires Safe(c, s) && Agreed(s) && Enabled(s, Resume(reply, now))
    requires !Deciding(s.tasks.current.value) && !s.tasks.current.value.PollProbe?
    ensures LeaseMoves(s, Resume(reply, now), ResumeStep(c, s, reply, now))
  {
    match s.tasks.current.value
    case Terminated(ThenReconcile(generation)) => ReconcileKeepsLease(c, s, generation);
    case InspectAttached(generation) => ReconcileKeepsLease(c, ForgetExternal(s), generation);
    case _ =>
  }

  /** Whatever happens, the lease is taken exactly by the acquisition of the current generation, given back exactly by
      the end of a `stop` and by a clean exit, and `ownershipHeld` says so. */
  lemma {:induction false} LeaseFollowsEvents(c: Config, s: State, e: Event)
    requires Safe(c, s) && Agreed(s) && Enabled(s, e)
    ensures LeaseMoves(s, e, Step(c, s, e))
  {
    match e
    case BeginTask => BeginKeepsLease(c, s);
    case Resume(reply, now) =>
      if s.tasks.current.value.DecideExit? {
        DecisionMovesLease(c, s, reply, now);
      } else if s.tasks.current.value.AcquireLease? || s.tasks.current.value.PrepareLaunch? {
        LaunchingMovesLease(c, s, reply, now);
      } else if Deciding(s.tasks.current.value) {
        ProbingMovesLease(c, s, reply, now);
      } else if s.tasks.current.value.PollProbe? {
        PollMovesLease(c, s, reply, now);
      } else {
        OtherMovesLease(c, s, reply, now);
      }
    case _ =>
  }

  lemma {:induction false} RunKeepsAgreed(c: Config, s: State, events: seq<Event>, t: State)
    requires Safe(c, s) && Agreed(s) && Leads(c, s, events, t)
    ensures Agreed(t)
    decreases |events|
  {
    if events != [] {
      LeaseFollowsEvents(c, s, events[0]);
      StepKeepsSafe(c, s, events[0]);
      RunKeepsAgreed(c, Step(c, s, events[0]), events[1..], t);
    }
  }

  // Who will give the lease of a stopped supervisor back.

  ghost predicate StopQueued(queue: seq<Task>, from: nat) {
    exists j :: from <= j < |queue| && queue[j].StopRun?
  }

  /** The running task is the end of a `stop`. */
  predicate Stopping(s: State) {
    s.tasks.current.Some? && Ending(s.tasks.current.value) && s.tasks.current.value.after.ThenStop?
  }

  ghost predicate StopPending(s: State) {
    Stopping(s) || StopQueued(s.tasks.queue, 0)
  }

  /** Once stopped, a restart that was asked for earlier has the `stop` behind it. */
  ghost predicate RestartsAreStopped(s: State) {
    s.links.ownershipHeld && !s.intent.running ==>
      && (forall i :: 0 <= i < |s.tasks.queue| && s.tasks.queue[i].RestartRun? ==> StopQueued(s.tasks.queue, i))
      && (s.tasks.current.Some? && Ending(s.tasks.current.value) && !Stopping(s) ==> StopQueued(s.tasks.queue, 0))
  }

  /** The lease of a stopped supervisor is held with no run left and with nothing left that gives it back. */
  ghost predicate Kept(s: State) {
    s.links.ownershipHeld && !s.intent.running && s.links.activeRun.None? && !StopPending(s)
  }

  /** The recorded run of a stopped supervisor turns out to have ended at last, and the `stop` that gave up on its
      process is over. */
  ghost predicate Leaks(s: State, e: Event) {
    && e.BeginTask? && s.tasks.queue != [] && s.tasks.queue[0].RunSettled?
    && s.links.activeRun == Some(s.tasks.queue[0].run)
    && s.links.ownershipHeld && !s.intent.running && !StopPending(s)
  }

  /** An explicit request: a later `stop` gives the lease back, a `start` or an accepted `restart` goes on under it. */
  predicate Reclaims(s: State, e: Event) {
    e.Stop? || e.Start? || (e.Restart? && s.links.external.None?)
  }

  ghost predicate KeepFollows(s: State, e: Event, t: State) {
    RestartsAreStopped(t) && (Kept(t) <==> if Kept(s) then !Reclaims(s, e) else Leaks(s, e))
  }

  lemma {:induction false} StopStaysQueued(queue: seq<Task>, task: Task, from: nat)
    ensures StopQueued(queue, from) ==> StopQueued(queue + [task], from)
    ensures from <= |queue| && task.StopRun? ==> StopQueued(queue + [task], from)
    ensures !task.StopRun? ==> (StopQueued(queue + [task], from) <==> StopQueued(queue, from))
  {
    if StopQueued(queue, from) {
      var j :| from <= j < |queue| && queue[j].StopRun?;
      assert (queue + [task])[j] == queue[j];
    }
    if from <= |queue| && task.StopRun? {
      assert (queue + [task])[|queue|] == task;
    }
  }

  /** Appending a task to a stopped supervisor's queue. */
  lemma {:induction false} AppendKeepsCustody(s: State, t: State, task: Task)
    requires RestartsAreStopped(s) && !task.RestartRun? && !task.StopRun?
    requires t.tasks.queue == s.tasks.queue + [task] && t.tasks.current == s.tasks.current
    requires t.links == s.links && t.intent.running == s.intent.running
    ensures RestartsAreStopped(t) && (Kept(t) <==> Kept(s))
  {
    StopStaysQueued(s.tasks.queue, task, 0);
    if s.links.ownershipHeld && !s.intent.running {
      forall i | 0 <= i < |t.tasks.queue| && t.tasks.queue[i].RestartRun?
        ensures StopQueued(t.tasks.queue, i)
      {
        assert t.tasks.queue[i] == s.tasks.queue[i];
        StopStaysQueued(s.tasks.queue, task, i);
      }
    }
  }

  lemma {:induction false} StopIsPending(s: State)
    ensures RestartsAreStopped(StopStep(s)) && !Kept(StopStep(s))
  {
    var q, task := s.tasks.queue, StopRun(s.intent.generation + 1);
    forall i | 0 <= i <= |q|
      ensures StopQueued(q + [task], i)
    {
      StopStaysQueued(q, task, i);
    }
  }

  lemma {:induction false} EntriesFollowCustody(c: Config, s: State, e: Event)
    requires RestartsAreStopped(s) && Enabled(s, e) && !e.BeginTask? && !e.Resume?
    ensures KeepFollows(s, e, Step(c, s, e))
  {
    match e
    case Stop => StopIsPending(s);
    case StartProbing =>
      if Step(c, s, e).tasks.queue != s.tasks.queue {
        AppendKeepsCustody(s, Step(c, s, e), Poll(s.intent.generation));
      }
    case PollTick =>
      if Step(c, s, e).tasks.queue != s.tasks.queue {
        AppendKeepsCustody(s, Step(c, s, e), Poll(s.intent.generation));
      }
    case RunSettles(child, already) =>
      AppendKeepsCustody(s, Step(c, s, e), RunSettled(s.world.runs[child], already));
    case _ =>
  }

  lemma {:induction false} TailKeepsStop(queue: seq<Task>, from: nat)
    requires from < |queue| && (from > 0 || !queue[0].StopRun?)
    ensures StopQueued(queue, from) <==> StopQueued(queue[1..], if from == 0 then 0 else from - 1)
  {
    if StopQueued(queue, from) {
      var j :| from <= j < |queue| && queue[j].StopRun?;
      assert queue[1..][j - 1] == queue[j];
    }
    if StopQueued(queue[1..], if from == 0 then 0 else from - 1) {
      var j :| (if from == 0 then 0 else from - 1) <= j < |queue| - 1 && queue[1..][j].StopRun?;
      assert queue[j + 1] == queue[1..][j];
    }
  }

  lemma {:induction false} TailIsStopped(queue: seq<Task>)
    requires queue != []
    requires forall i :: 0 <= i < |queue| && queue[i].RestartRun? ==> StopQueued(queue, i)
    ensures forall i :: 0 <= i < |queue| - 1 && queue[1..][i].RestartRun? ==> StopQueued(queue[1..], i)
    ensures queue[0].RestartRun? ==> StopQueued(queue[1..], 0)
  {
    forall i | 0 <= i < |queue| - 1 && queue[1..][i].RestartRun?
      ensures StopQueued(queue[1..], i)
    {
      TailKeepsStop(queue, i + 1);
    }
    if queue[0].RestartRun? {
      TailKeepsStop(queue, 0);
    }
  }

  /** The state in which a task has begun, as far as the custody of a stopped supervisor's lease goes. */
  lemma {:induction false} BeginFollowsCustody(c: Config, s: State)
    requires RestartsAreStopped(s) && s.tasks.current.None? && s.tasks.queue != []
    ensures KeepFollows(s, BeginTask, BeginTaskStep(c, s))
  {
    var t := BeginTaskStep(c, s);
    BeginKeepsLease(c, s);
    BegunCustody(c, s);
    if s.links.ownershipHeld && !s.intent.running {
      TailIsStopped(s.tasks.queue);
      if !s.tasks.queue[0].StopRun? {
        TailKeepsStop(s.tasks.queue, 0);
      }
    }
  }

  lemma {:induction false} BegunCustody(c: Config, s: State)
    requires s.tasks.current.None? && s.tasks.queue != []
    ensures var t, task := BeginTaskStep(c, s), s.tasks.queue[0];
            && t.tasks.queue == s.tasks.queue[1..] && t.intent.running == s.intent.running
            && (Stopping(t) <==> task.StopRun?)
            && (t.tasks.current.Some? && Ending(t.tasks.current.value) ==> task.StopRun? || task.RestartRun?)
            && t.links.activeRun == if task.RunSettled? && s.links.activeRun == Some(task.run) then None
                                    else s.links.activeRun
  {
  }

  /** A task that goes on while the supervisor is stopped, and that ends no run: all it can do is to finish, to give
      a late lease back, or to look at what others have started. */
  lemma {:induction false} StoppedResumes(c: Config, s: State, reply: Reply, now: int)
    requires Enabled(s, Resume(reply, now)) && !s.intent.running && !Ending(s.tasks.current.value)
    ensures var t := ResumeStep(c, s, reply, now);
            && t.tasks.queue == s.tasks.queue && !t.intent.running
            && t.links.ownershipHeld == s.links.ownershipHeld && t.links.activeRun == s.links.activeRun
            && !(t.tasks.current.Some? && Ending(t.tasks.current.value))
  {
  }

  lemma {:induction false} EndFollowsCustody(c: Config, s: State, reply: Reply, now: int)
    requires Safe(c, s) && RestartsAreStopped(s) && Enabled(s, Resume(reply, now))
    requires !s.intent.running && Ending(s.tasks.current.value)
    ensures KeepFollows(s, Resume(reply, now), ResumeStep(c, s, reply, now))
  {
  }

  lemma {:induction false} RetryKeepsRunning(c: Config, s: State, generation: nat, count: bool, oom: bool, now: int)
    ensures Finish(ScheduleRetry(c, s, generation, count, oom, now)).intent.running == s.intent.running
  {
  }

  lemma {:induction false} DecidingStaysRunning(c: Config, s: State, reply: Reply, now: int)
    requires Enabled(s, Resume(reply, now))
    requires Deciding(s.tasks.current.value) && !s.tasks.current.value.DecideExit?
    ensures ResumeStep(c, s, reply, now).intent.running == s.intent.running
  {
    RetryKeepsRunning(c, s, s.tasks.current.value.generation, true, false, now);
    RetryKeepsRunning(c, s, s.tasks.current.value.generation, false, false, now);
  }

  lemma {:induction false} DecisionStaysRunning(c: Config, s: State, reply: Reply, now: int)
    requires Enabled(s, Resume(reply, now)) && s.tasks.current.value.DecideExit?
    requires !GivesTheLeaseBack(s, Resume(reply, now))
    ensures ResumeStep(c, s, reply, now).intent.running == s.intent.running
  {
    var generation := s.tasks.current.value.generation;
    RetryKeepsRunning(c, s, generation, true, false, now);
    if reply.Decided? && reply.decision.RetryExit? {
      RetryKeepsRunning(c, s, generation, reply.decision.countFailure, reply.decision.oom, now);
    }
  }

  lemma {:induction false} PollStaysRunning(c: Config, s: State, reply: Reply, now: int)
    requires Enabled(s, Resume(reply, now)) && s.tasks.current.value.PollProbe?
    ensures ResumeStep(c, s, reply, now).intent.running == s.intent.running
  {
    var generation := s.tasks.current.value.generation;
    RetryKeepsRunning(c, s.(links := s.links.(probeFailures := 0)), generation, false, false, now);
  }

  lemma {:induction false} StaysRunning(c: Config, s: State, reply: Reply, now: int)
    requires Enabled(s, Resume(reply, now)) && !GivesTheLeaseBack(s, Resume(reply, now))
    ensures ResumeStep(c, s, reply, now).intent.running == s.intent.running
  {
    if s.tasks.current.value.DecideExit? {
      DecisionStaysRunning(c, s, reply, now);
    } else if Deciding(s.tasks.current.value) {
      DecidingStaysRunning(c, s, reply, now);
    } else if s.tasks.current.value.PollProbe? {
      PollStaysRunning(c, s, reply, now);
    }
  }

  /** Only a clean exit of the current generation stops a supervisor from within, and it gives the lease back. */
  lemma {:induction false} RunningResumes(c: Config, s: State, reply: Reply, now: int)
    requires Safe(c, s) && Agreed(s) && Enabled(s, Resume(reply, now)) && s.intent.running
    ensures var t := ResumeStep(c, s, reply, now); t.intent.running || !t.links.ownershipHeld
  {
    LeaseFollowsEvents(c, s, Resume(reply, now));
    if !GivesTheLeaseBack(s, Resume(reply, now)) {
      StaysRunning(c, s, reply, now);
    }
  }

  lemma {:induction false} ResumeFollowsCustody(c: Config, s: State, reply: Reply, now: int)
    requires Safe(c, s) && Agreed(s) && RestartsAreStopped(s) && Enabled(s, Resume(reply, now))
    ensures KeepFollows(s, Resume(reply, now), ResumeStep(c, s, reply, now))
  {
    if s.intent.running {
      RunningResumes(c, s, reply, now);
    } else if Ending(s.tasks.current.value) {
      EndFollowsCustody(c, s, reply, now);
    } else {
      StoppedResumes(c, s, reply, now);
    }
  }

  /** A stopped supervisor comes to keep its lease for good exactly in the events of `Leaks`, and gets somebody to
      give it back, or a use for it, exactly in those of `Reclaims`. */
  lemma {:induction false} StepFollowsCustody(c: Config, s: State, e: Event)
    requires Safe(c, s) && Agreed(s) && RestartsAreStopped(s) && Enabled(s, e)
    ensures KeepFollows(s, e, Step(c, s, e))
  {
    match e
    case BeginTask => BeginFollowsCustody(c, s);
    case Resume(reply, now) => ResumeFollowsCustody(c, s, reply, now);
    case _ => EntriesFollowCustody(c, s, e);
  }

  /** Over a run: whether the lease has leaked by its end, given whether it had at its start. */
  ghost predicate Leaked(c: Config, s: State, events: seq<Event>, lost: bool)
    decreases |events|
  {
    if events == [] then lost
    else
      && Enabled(s, events[0])
      && Leaked(c, Step(c, s, events[0]), events[1..], if lost then !Reclaims(s, events[0]) else Leaks(s, events[0]))
  }

  lemma {:induction false} RunFollowsCustody(c: Config, s: State, events: seq<Event>, t: State)
    requires Safe(c, s) && Agreed(s) && RestartsAreStopped(s) && Leads(c, s, events, t)
    ensures Safe(c, t) && Agreed(t) && RestartsAreStopped(t)
    ensures Leaked(c, s, events, Kept(s)) <==> Kept(t)
    decreases |events|
  {
    if events != [] {
      StepKeepsSafe(c, s, events[0]);
      LeaseFollowsEvents(c, s, events[0]);
      StepFollowsCustody(c, s, events[0]);
      RunFollowsCustody(c, Step(c, s, events[0]), events[1..], t);
    }
  }

  /** After every run whatsoever `ownershipHeld` says whether the lease is held; and a supervisor that is stopped and
      idle holds it exactly while the run of a process it could not kill is recorded, or when such a run has ended
      since, after the `stop` had given up, and no explicit request has followed. */
  lemma {:induction false} LeaseIsHeldExactly(c: Config, events: seq<Event>, s: State)
    requires Leads(c, INITIAL, events, s)
    ensures s.world.lease <==> s.links.ownershipHeld
    ensures Idle(s) && !s.intent.running ==>
              (s.world.lease <==> (c.owned && s.links.activeRun.Some?) || Leaked(c, INITIAL, events, false))
  {
    RunFollowsCustody(c, INITIAL, events, s);
  }

  /** A run in which every process dies of SIGKILL at the latest. */
  ghost predicate KillsEveryChild(c: Config, s: State, events: seq<Event>)
    decreases |events|
  {
    events == [] || (&& Enabled(s, events[0]) && !LosesChild(s, events[0])
                     && KillsEveryChild(c, Step(c, s, events[0]), events[1..]))
  }

  /** As long as no process has survived, the `stop` that is to end the recorded run is still pending. */
  lemma {:induction false} LoyalIsPending(s: State)
    requires RestartsAreStopped(s) && Loyal(s) && s.tasks.current.None?
    requires s.links.ownershipHeld && !s.intent.running && s.links.activeRun.Some?
    ensures StopPending(s)
  {
    var i :| 0 <= i < |s.tasks.queue| && Ends(s.tasks.queue[i]);
    if s.tasks.queue[i].RestartRun? {
      var j :| i <= j < |s.tasks.queue| && s.tasks.queue[j].StopRun?;
    }
  }

  lemma {:induction false} LoyalDoesNotLeak(s: State, e: Event)
    requires RestartsAreStopped(s) && Loyal(s) && s.tasks.current.None?
    ensures !Leaks(s, e)
  {
    if s.links.ownershipHeld && !s.intent.running && s.links.activeRun.Some? {
      LoyalIsPending(s);
    }
  }

  lemma {:induction false} LoyalRunKeepsNothing(c: Config, s: State, events: seq<Event>, t: State)
    requires Safe(c, s) && Agreed(s) && RestartsAreStopped(s) && Loyal(s) && !Kept(s)
    requires Leads(c, s, events, t) && KillsEveryChild(c, s, events)
    ensures Safe(c, t) && Loyal(t) && !Kept(t) && Agreed(t)
    decreases |events|
  {
    if events != [] {
      StepKeepsSafe(c, s, events[0]);
      StepKeepsLoyal(c, s, events[0]);
      LeaseFollowsEvents(c, s, events[0]);
      if s.tasks.current.None? {
        LoyalDoesNotLeak(s, events[0]);
      }
      StepFollowsCustody(c, s, events[0]);
      LoyalRunKeepsNothing(c, Step(c, s, events[0]), events[1..], t);
    }
  }

  /** When every process dies of SIGKILL at the latest, a supervisor that is stopped and idle has nothing left: no
      recorded run, no live process, and the lease has been given back. */
  lemma {:induction false} StoppedHoldsNothing(c: Config, events: seq<Event>, s: State)
    requires Leads(c, INITIAL, events, s) && KillsEveryChild(c, INITIAL, events)
    requires Idle(s) && !s.intent.running
    ensures !s.world.lease && !s.links.ownershipHeld
    ensures s.links.activeRun.None? && s.world.alive == {}
  {
    LoyalRunKeepsNothing(c, INITIAL, events, s);
    assert forall child :: child !in s.world.alive;
  }

  const HOLDING := Links(Some(CHILD), None, None, true, 0)

  const ONE_LEASED := State(
    Intent(true, false, 1, None), IDLE, HOLDING, Timers(None, Some(0), true), NO_FAILURES,
    World(true, [CHILD], {0}, {}))

  const GIVEN_UP := State(
    Intent(false, false, 2, Some(SurvivedKill(0))), IDLE, HOLDING, Timers(None, None, false), NO_FAILURES,
    World(true, [CHILD], {0}, {}))

  const LEASE_KEPT := State(
    Intent(false, false, 2, Some(SurvivedKill(0))), IDLE, Links(None, None, None, true, 0),
    Timers(None, None, false), NO_FAILURES, World(true, [CHILD], {}, {0}))

  const LEASED_START :=
    [Start, BeginTask, Resume(Acquired, 0), Resume(Observed(None), 0), Resume(Launched(None), 0)]

  lemma {:induction false} LeasedStartLeads(c: Config)
    requires c.owned
    ensures Leads(c, INITIAL, LEASED_START, ONE_LEASED)
  {
    var s1 := Step(c, INITIAL, Start);
    var s2 := Step(c, s1, BeginTask);
    assert s2.tasks == Tasks([], Some(AcquireLease(1)), false, false);
    var s3 := Step(c, s2, Resume(Acquired, 0));
    var s4 := Step(c, s3, Resume(Observed(None), 0));
    assert s4.tasks == Tasks([], Some(PrepareLaunch(1)), false, false);
    LeadsCons(c, s4, Resume(Launched(None), 0), [], ONE_LEASED);
    LeadsCons(c, s3, Resume(Observed(None), 0), LEASED_START[4..], ONE_LEASED);
    LeadsCons(c, s2, Resume(Acquired, 0), LEASED_START[3..], ONE_LEASED);
    LeadsCons(c, s1, BeginTask, LEASED_START[2..], ONE_LEASED);
    LeadsCons(c, INITIAL, Start, LEASED_START[1..], ONE_LEASED);
  }

  lemma {:induction false} GivingUpLeads(c: Config)
    ensures Leads(c, ONE_LEASED, STOP_IN_VAIN, GIVEN_UP)
  {
    var s1 := Step(c, ONE_LEASED, Stop);
    assert s1.tasks.queue == [StopRun(2)];
    var s2 := Step(c, s1, BeginTask);
    assert s2 == GIVEN_UP.(intent := Intent(false, false, 2, None),
                           tasks := Tasks([], Some(AwaitExit(CHILD, false, ThenStop(2))), false, false));
    var s3 := Step(c, s2, Resume(TimedOut, 0));
    LeadsCons(c, s3, Resume(TimedOut, 0), [], GIVEN_UP);
    LeadsCons(c, s2, Resume(TimedOut, 0), [Resume(TimedOut, 0)], GIVEN_UP);
    LeadsCons(c, s1, BeginTask, STOP_IN_VAIN[2..], GIVEN_UP);
    LeadsCons(c, ONE_LEASED, Stop, STOP_IN_VAIN[1..], GIVEN_UP);
  }

  lemma {:induction false} LateEndLeads(c: Config)
    ensures Leads(c, GIVEN_UP, LATE_EXIT, LEASE_KEPT)
  {
    var s1 := Step(c, GIVEN_UP, ChildExits(0));
    assert s1.world.alive == {};
    var s2 := Step(c, s1, RunSettles(0, false));
    assert s2.tasks.queue == [RunSettled(CHILD, false)] && s2.world == World(true, [CHILD], {}, {0});
    LeadsCons(c, s2, BeginTask, [], LEASE_KEPT);
    LeadsCons(c, s1, RunSettles(0, false), [BeginTask], LEASE_KEPT);
    LeadsCons(c, GIVEN_UP, ChildExits(0), LATE_EXIT[1..], LEASE_KEPT);
  }

  /** A process that outlives SIGKILL: the `stop` that gives up on it leaves the lease alone, and so does its late end.
      Stopped and idle, with no run recorded, the supervisor still holds the lease. */
  lemma {:induction false} SurvivorKeepsTheLease(c: Config)
    requires c.owned
    ensures Leads(c, INITIAL, LEASED_START + STOP_IN_VAIN + LATE_EXIT, LEASE_KEPT)
    ensures Idle(LEASE_KEPT) && !LEASE_KEPT.intent.running && LEASE_KEPT.links.activeRun.None?
    ensures LEASE_KEPT.world.lease && LEASE_KEPT.world.alive == {}
  {
    LeasedStartLeads(c);
    GivingUpLeads(c);
    LateEndLeads(c);
    LeadsAppend(c, INITIAL, LEASED_START, ONE_LEASED, STOP_IN_VAIN, GIVEN_UP);
    LeadsAppend(c, INITIAL, LEASED_START + STOP_IN_VAIN, GIVEN_UP, LATE_EXIT, LEASE_KEPT);
  }
}
