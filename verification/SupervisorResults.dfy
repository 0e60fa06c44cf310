/** The main results about whole runs of the supervisor. */
module SupervisorResults {
  import opened Options
  import opened Retry
  import opened SupervisorModel
  import opened SupervisorSafety
  import opened SupervisorLiveness

  // Safety.

  /** In every reachable state at most one child is alive, it is the recorded run, and if an
      ownership port is configured its lease is held. */
  lemma OneChildUnderTheLease(c: Config, s: State)
    requires Reachable(c, s)
    ensures forall a, b :: a in s.world.alive && b in s.world.alive ==> a == b
    ensures forall child :: child in s.world.alive ==>
              && child < |s.world.runs| && s.links.activeRun == Some(s.world.runs[child])
              && (c.owned ==> s.world.lease && s.links.ownershipHeld)
  {
    var events :| Leads(c, INITIAL, events, s);
    RunKeepsSafe(c, INITIAL, events, s);
  }

  /** A process appears only as the synchronous spawn of a prepared launch of the current
      generation, while the supervisor is meant to run, when no other child is alive and under
      the lease. */
  lemma {:induction false} SpawnIsWanted(c: Config, s: State, e: Event)
    requires Reachable(c, s) && Enabled(s, e)
    requires Step(c, s, e).world.runs != s.world.runs
    ensures s.intent.running && s.tasks.current == Some(PrepareLaunch(s.intent.generation))
    ensures s.world.alive == {} && (c.owned ==> s.world.lease)
    ensures e.Resume? && e.reply.Launched? && Step(c, s, e).world.runs ==
              s.world.runs + [Run(|s.world.runs|, s.intent.generation, e.reply.pid)]
  {
    var events :| Leads(c, INITIAL, events, s);
    RunKeepsSafe(c, INITIAL, events, s);
    SpawnsOnlyWhenPrepared(c, s, e);
    assert forall child :: child !in s.world.alive;
  }

  predicate Restarts(e: Event) {
    e.Start? || e.Restart?
  }

  lemma {:induction false} StoppedStaysStopped(c: Config, s: State, e: Event)
    requires Enabled(s, e) && !s.intent.running && !Restarts(e)
    ensures !Step(c, s, e).intent.running
    ensures Step(c, s, e).world.runs == s.world.runs
  {
    SpawnsOnlyWhenPrepared(c, s, e);
  }

  lemma {:induction false} QuietWhileStopped(c: Config, s: State, events: seq<Event>, t: State)
    requires !s.intent.running && Leads(c, s, events, t)
    requires forall e :: e in events ==> !Restarts(e)
    ensures t.world.runs == s.world.runs
    decreases |events|
  {
    if events != [] {
      StoppedStaysStopped(c, s, events[0]);
      QuietWhileStopped(c, Step(c, s, events[0]), events[1..], t);
    }
  }

  /** After `stop` no process appears, whatever happens, until a later `start` or `restart`. */
  lemma NoChildAfterStop(c: Config, s: State, events: seq<Event>, t: State)
    requires Leads(c, Step(c, s, Stop), events, t)
    requires forall e :: e in events ==> !Restarts(e)
    ensures t.world.runs == s.world.runs
  {
    QuietWhileStopped(c, Step(c, s, Stop), events, t);
  }

  // Progress.

  /** Over a run: whether nobody is responsible at its end, given whether nobody was at its start. */
  ghost predicate Forlorn(c: Config, s: State, events: seq<Event>, lost: bool)
    decreases |events|
  {
    if events == [] then lost
    else
      && Enabled(s, events[0])
      && Forlorn(c, Step(c, s, events[0]), events[1..],
                 if lost then !Relieves(c, s, events[0]) else Forsakes(c, s, events[0]))
  }

  lemma {:induction false} RunFollows(c: Config, s: State, events: seq<Event>, t: State)
    requires Good(c, s) && Leads(c, s, events, t)
    ensures Good(c, t)
    ensures Forlorn(c, s, events, !Attended(s)) <==> !Attended(t)
    decreases |events|
  {
    if events != [] {
      StepFollows(c, s, events[0]);
      RunFollows(c, Step(c, s, events[0]), events[1..], t);
    }
  }

  lemma {:induction false} UnattendedIdleIsStuck(s: State)
    ensures Stuck(s) <==> Idle(s) && !Attended(s)
  {
  }

  /** Over every run whatsoever the supervisor ends up stuck exactly when it is idle and the last event
      that forsook it was not followed by one that relieves it. */
  lemma {:induction false} StuckExactlyWhenForlorn(c: Config, events: seq<Event>, s: State)
    requires Leads(c, INITIAL, events, s)
    ensures Stuck(s) <==> Idle(s) && Forlorn(c, INITIAL, events, false)
  {
    RunFollows(c, INITIAL, events, s);
    UnattendedIdleIsStuck(s);
  }

  /** What is left in the queue once the event has taken its task from it. */
  function Remaining(s: State, e: Event): seq<Task> {
    if e.BeginTask? && s.tasks.queue != [] then s.tasks.queue[1..] else s.tasks.queue
  }

  /** In every reachable state in which somebody is responsible the next event leaves the supervisor
      stuck exactly when it forsakes it and leaves no task in the queue. */
  lemma {:induction false} StuckExactlyWhenForsaken(c: Config, s: State, e: Event)
    requires Reachable(c, s) && Attended(s) && Enabled(s, e)
    ensures Stuck(Step(c, s, e)) <==> Forsakes(c, s, e) && Remaining(s, e) == []
  {
    var events :| Leads(c, INITIAL, events, s);
    RunFollows(c, INITIAL, events, s);
    StepFollows(c, s, e);
    UnattendedIdleIsStuck(Step(c, s, e));
    if Forsakes(c, s, e) {
      ForsakingEndsTheTask(c, s, e);
    }
  }

  lemma {:induction false} ForsakingEndsTheTask(c: Config, s: State, e: Event)
    requires Enabled(s, e) && Forsakes(c, s, e)
    ensures Step(c, s, e).tasks.current.None? && Step(c, s, e).tasks.queue == Remaining(s, e)
  {
  }

  /** A run in which every process dies of SIGKILL and no awaited result strands the supervisor. */
  ghost predicate CleanlyLeads(c: Config, s: State, events: seq<Event>, t: State)
    decreases |events|
  {
    if events == [] then s == t
    else
      && Enabled(s, events[0]) && !Strands(c, s, events[0]) && !LosesChild(s, events[0])
      && CleanlyLeads(c, Step(c, s, events[0]), events[1..], t)
  }

  lemma {:induction false} CleanRunKeepsGood(c: Config, s: State, events: seq<Event>, t: State)
    requires Good(c, s) && Loyal(s) && Attended(s) && CleanlyLeads(c, s, events, t)
    ensures Good(c, t) && Loyal(t) && Attended(t)
    decreases |events|
  {
    if events != [] {
      StepFollows(c, s, events[0]);
      StepKeepsLoyal(c, s, events[0]);
      LoyalIsForsakenByTasks(c, s, events[0]);
      CleanRunKeepsGood(c, Step(c, s, events[0]), events[1..], t);
    }
  }

  /** Whenever the queue is empty, the supervisor is meant to run and there is no fatal verdict,
      a run of the current generation is recorded, an external runtime is observed, or the retry
      timer is armed for the current generation. */
  lemma NeverSilentlyStuck(c: Config, events: seq<Event>, s: State)
    requires CleanlyLeads(c, INITIAL, events, s)
    requires s.tasks.queue == [] && s.tasks.current.None? && s.intent.running && !Fatal(s)
    ensures || (s.links.activeRun.Some? && s.links.activeRun.value.generation == s.intent.generation)
            || s.links.external.Some?
            || s.timers.retry == Some(s.intent.generation)
    ensures !Stuck(s)
  {
    CleanRunKeepsGood(c, INITIAL, events, s);
  }

  /** After any clean run, whatever event comes next, it leaves the supervisor stuck exactly when it is a
      stranding result, no task is queued and no retry stays armed. */
  lemma {:induction false} StuckExactlyWhenStranded(c: Config, events: seq<Event>, s: State, e: Event)
    requires CleanlyLeads(c, INITIAL, events, s) && Enabled(s, e)
    ensures Stuck(Step(c, s, e)) <==> Strands(c, s, e) && s.tasks.queue == [] && Disarmed(c, s, e)
  {
    CleanRunKeepsGood(c, INITIAL, events, s);
    StepFollows(c, s, e);
    UnattendedIdleIsStuck(Step(c, s, e));
    LoyalIsForsakenByTasks(c, s, e);
    if Forsakes(c, s, e) {
      ForsakingEndsTheTask(c, s, e);
    }
  }

  // A `restart` looks after a survivor, a `start` does not.

  /** While the restart that began generation `g` is the last request, a survivor is still to be ended. */
  ghost predicate RestartPending(s: State, g: nat) {
    && s.intent.generation >= g
    && (s.intent.generation == g && s.intent.running && !Fatal(s)
        && s.links.activeRun.Some? && s.links.activeRun.value.generation != g
        ==> || RestartRun(g) in s.tasks.queue
            || (&& s.tasks.current.Some? && s.tasks.current.value.AwaitExit?
                && s.tasks.current.value.after == ThenReconcile(g)))
  }

  lemma {:induction false} StepKeepsPending(c: Config, s: State, e: Event, g: nat)
    requires Safe(c, s) && RestartPending(s, g) && Enabled(s, e)
    ensures RestartPending(Step(c, s, e), g)
  {
    match e
    case BeginTask =>
    case Resume(reply, now) => ResumeKeepsPending(c, s, reply, now, g);
    case _ =>
  }

  /** No run is recorded, and the generation has not gone back. */
  ghost predicate LeavesNoRun(s: State, t: State) {
    t.links.activeRun.None? && t.intent.generation >= s.intent.generation
  }

  lemma {:induction false} ReconcileLeavesNoRun(c: Config, s: State, generation: nat)
    requires s.links.activeRun.None?
    ensures LeavesNoRun(s, ReconcileStart(c, s, generation))
  {
  }

  lemma {:induction false} RetryLeavesNoRun(c: Config, s: State, generation: nat, count: bool, oom: bool, now: int)
    requires s.links.activeRun.None?
    ensures LeavesNoRun(s, Finish(ScheduleRetry(c, s, generation, count, oom, now)))
  {
  }

  lemma {:induction false} DecisionLeavesNoRun(c: Config, s: State, generation: nat, reply: Reply, now: int)
    requires s.links.activeRun.None? && (reply.Decided? || reply.Rejected?)
    ensures LeavesNoRun(s, ExitDecided(c, s, generation, reply, now))
  {
    if IsCurrent(s, generation) {
      match reply
      case Rejected => RetryLeavesNoRun(c, s, generation, true, false, now);
      case Decided(RetryExit(count, oom)) => RetryLeavesNoRun(c, s, generation, count, oom, now);
      case Decided(RestartExit) => ReconcileLeavesNoRun(c, ResetFailures(ClearRetry(s)), generation);
      case Decided(_) =>
    }
  }

  /** Awaits that only go on without a recorded run leave none of another generation behind. */
  lemma {:induction false} WithoutRunKeepsPending(c: Config, s: State, reply: Reply, now: int, g: nat)
    requires Safe(c, s) && RestartPending(s, g) && Enabled(s, Resume(reply, now))
    requires WithoutRun(s.tasks.current.value)
    ensures RestartPending(ResumeStep(c, s, reply, now), g)
  {
    var at := s.tasks.current.value;
    if at.DecideExit? {
      DecisionLeavesNoRun(c, s, at.generation, reply, now);
    } else if Deciding(at) {
      ProbeIsModest(c, s, reply, now);
    }
  }

  /** A poll changes neither the recorded run nor, while one is recorded, what is wanted. */
  lemma {:induction false} PollKeepsPending(c: Config, s: State, reply: Reply, now: int, g: nat)
    requires Safe(c, s) && RestartPending(s, g) && Enabled(s, Resume(reply, now))
    requires !WithoutRun(s.tasks.current.value) && !s.tasks.current.value.AwaitExit?
    ensures RestartPending(ResumeStep(c, s, reply, now), g)
  {
    if s.tasks.current.value.PollProbe? && s.links.activeRun.None? {
      PollKeepsRunless(c, s, reply, now);
    }
  }

  lemma {:induction false} PollKeepsRunless(c: Config, s: State, reply: Reply, now: int)
    requires Enabled(s, Resume(reply, now)) && s.tasks.current.value.PollProbe? && s.links.activeRun.None?
    ensures ResumeStep(c, s, reply, now).links.activeRun.None?
    ensures ResumeStep(c, s, reply, now).intent.generation == s.intent.generation
  {
    var generation := s.tasks.current.value.generation;
    RetryHoldsSame(c, s.(links := s.links.(probeFailures := 0)), generation, false, false, now);
  }

  lemma {:induction false} ResumeKeepsPending(c: Config, s: State, reply: Reply, now: int, g: nat)
    requires Safe(c, s) && RestartPending(s, g) && Enabled(s, Resume(reply, now))
    ensures RestartPending(ResumeStep(c, s, reply, now), g)
  {
    if WithoutRun(s.tasks.current.value) {
      WithoutRunKeepsPending(c, s, reply, now, g);
    } else if !s.tasks.current.value.AwaitExit? {
      PollKeepsPending(c, s, reply, now, g);
    }
  }

  lemma {:induction false} RunKeepsPending(c: Config, s: State, events: seq<Event>, t: State, g: nat)
    requires Safe(c, s) && RestartPending(s, g) && Leads(c, s, events, t)
    ensures Safe(c, t) && RestartPending(t, g)
    decreases |events|
  {
    if events != [] {
      StepKeepsSafe(c, s, events[0]);
      StepKeepsPending(c, s, events[0], g);
      RunKeepsPending(c, Step(c, s, events[0]), events[1..], t, g);
    }
  }

  /** As long as no later request has begun another generation, an accepted `restart` is never
      forsaken by the late end of a survivor. */
  lemma {:induction false} RestartIsNotForsaken(c: Config, s: State, events: seq<Event>, t: State, e: Event)
    requires Reachable(c, s) && Step(c, s, Restart) != s
    requires Leads(c, Step(c, s, Restart), events, t)
    requires t.intent.generation == s.intent.generation + 1 && Enabled(t, e)
    ensures !(BuriesSurvivor(t, e) && Forsakes(c, t, e))
  {
    var before :| Leads(c, INITIAL, before, s);
    RunKeepsSafe(c, INITIAL, before, s);
    StepKeepsSafe(c, s, Restart);
    var r := Step(c, s, Restart);
    assert r.tasks.queue[|s.tasks.queue|] == RestartRun(s.intent.generation + 1);
    RunKeepsPending(c, r, events, t, s.intent.generation + 1);
    if BuriesSurvivor(t, e) && RestartRun(t.intent.generation) in t.tasks.queue {
      var i :| 0 <= i < |t.tasks.queue| && t.tasks.queue[i] == RestartRun(t.intent.generation);
      assert Wants(t.intent.generation, t.tasks.queue[i]);
    }
  }

  /** A short stranding run: the first probe for an existing runtime rejects. */
  lemma {:induction false} RejectedProbeStrands(c: Config)
    requires !c.owned
    ensures var starting := Step(c, Step(c, INITIAL, Start), BeginTask);
            && CleanlyLeads(c, INITIAL, [Start, BeginTask], starting)
            && Enabled(starting, Resume(Rejected, 0)) && Strands(c, starting, Resume(Rejected, 0))
            && Stuck(Step(c, starting, Resume(Rejected, 0)))
  {
  }

  lemma {:induction false} LeadsAppend(c: Config, s: State, a: seq<Event>, t: State, b: seq<Event>, u: State)
    requires Leads(c, s, a, t) && Leads(c, t, b, u)
    ensures Leads(c, s, a + b, u)
    decreases |a|
  {
    if a == [] {
      assert a + b == b;
    } else {
      assert (a + b)[1..] == a[1..] + b;
      LeadsAppend(c, Step(c, s, a[0]), a[1..], t, b, u);
    }
  }

  /** One event more at the end of a run. */
  lemma {:induction false} LeadsSnoc(c: Config, s: State, events: seq<Event>, t: State, e: Event)
    requires Leads(c, s, events, t) && Enabled(t, e)
    ensures Leads(c, s, events + [e], Step(c, t, e))
  {
    assert [e][1..] == [];
    LeadsAppend(c, s, events, t, [e], Step(c, t, e));
  }

  /** One event more at the front of a run. */
  lemma LeadsCons(c: Config, s: State, e: Event, events: seq<Event>, t: State)
    requires Enabled(s, e) && Leads(c, Step(c, s, e), events, t)
    ensures Leads(c, s, [e] + events, t)
  {
    assert ([e] + events)[1..] == events;
  }

  const CHILD := Run(0, 1, None)
  const NO_FAILURES := Windows([], [], [], [])
  const IDLE := Tasks([], None, false, false)
  const RECORDED := Links(Some(CHILD), None, None, false, 0)
  const LIVING := World(false, [CHILD], {0}, {})

  const ONE_RUNNING := State(
    Intent(true, false, 1, None), IDLE, RECORDED, Timers(None, Some(0), true), NO_FAILURES, LIVING)

  const SURVIVED := State(
    Intent(false, false, 2, Some(SurvivedKill(0))), IDLE, RECORDED, Timers(None, None, false), NO_FAILURES, LIVING)

  const RESTARTED := State(
    Intent(true, false, 3, None), IDLE, RECORDED, Timers(None, None, true), NO_FAILURES, LIVING)

  const STRANDED := State(
    Intent(true, false, 3, None), IDLE, Links(None, None, None, false, 0), Timers(None, None, true),
    NO_FAILURES, World(false, [CHILD], {}, {0}))

  const FIRST_START := [Start, BeginTask, Resume(Observed(None), 0), Resume(Launched(None), 0)]
  const STOP_IN_VAIN := [Stop, BeginTask, Resume(TimedOut, 0), Resume(TimedOut, 0)]
  const SECOND_START := [Start, BeginTask]
  const LATE_EXIT := [ChildExits(0), RunSettles(0, false), BeginTask]

  lemma {:induction false} FirstStartLeads(c: Config)
    requires !c.owned
    ensures Leads(c, INITIAL, FIRST_START, ONE_RUNNING)
  {
    var s1 := Step(c, INITIAL, Start);
    var s2 := Step(c, s1, BeginTask);
    var s3 := Step(c, s2, Resume(Observed(None), 0));
    assert s3.tasks == Tasks([], Some(PrepareLaunch(1)), false, false);
    LeadsCons(c, s3, Resume(Launched(None), 0), [], ONE_RUNNING);
    LeadsCons(c, s2, Resume(Observed(None), 0), [Resume(Launched(None), 0)], ONE_RUNNING);
    LeadsCons(c, s1, BeginTask, FIRST_START[2..], ONE_RUNNING);
    LeadsCons(c, INITIAL, Start, FIRST_START[1..], ONE_RUNNING);
  }

  lemma {:induction false} StopInVainLeads(c: Config)
    ensures Leads(c, ONE_RUNNING, STOP_IN_VAIN, SURVIVED)
  {
    var s1 := Step(c, ONE_RUNNING, Stop);
    assert s1.tasks.queue == [StopRun(2)];
    var s2 := Step(c, s1, BeginTask);
    assert s2 == SURVIVED.(intent := Intent(false, false, 2, None),
                           tasks := Tasks([], Some(AwaitExit(CHILD, false, ThenStop(2))), false, false));
    var s3 := Step(c, s2, Resume(TimedOut, 0));
    LeadsCons(c, s3, Resume(TimedOut, 0), [], SURVIVED);
    LeadsCons(c, s2, Resume(TimedOut, 0), [Resume(TimedOut, 0)], SURVIVED);
    LeadsCons(c, s1, BeginTask, STOP_IN_VAIN[2..], SURVIVED);
    LeadsCons(c, ONE_RUNNING, Stop, STOP_IN_VAIN[1..], SURVIVED);
  }

  lemma {:induction false} SecondStartLeads(c: Config)
    ensures Leads(c, SURVIVED, SECOND_START, RESTARTED)
  {
    var s1 := Step(c, SURVIVED, Start);
    assert s1.tasks.queue == [Reconcile(3)];
    LeadsCons(c, s1, BeginTask, [], RESTARTED);
    LeadsCons(c, SURVIVED, Start, [BeginTask], RESTARTED);
  }

  lemma {:induction false} LateExitLeads(c: Config)
    ensures Leads(c, RESTARTED, LATE_EXIT, STRANDED)
  {
    var s1 := Step(c, RESTARTED, ChildExits(0));
    assert s1.world.alive == {};
    var s2 := Step(c, s1, RunSettles(0, false));
    assert s2.tasks.queue == [RunSettled(CHILD, false)] && s2.world == World(false, [CHILD], {}, {0});
    LeadsCons(c, s2, BeginTask, [], STRANDED);
    LeadsCons(c, s1, RunSettles(0, false), [BeginTask], STRANDED);
    LeadsCons(c, RESTARTED, ChildExits(0), LATE_EXIT[1..], STRANDED);
  }

  /** A process that outlives SIGKILL: a later `start` finds its run still recorded and does
      nothing, and when the process exits at last nobody is responsible any more. */
  lemma {:induction false} SurvivorStrandsTheNextStart(c: Config)
    requires !c.owned
    ensures Leads(c, INITIAL, FIRST_START + STOP_IN_VAIN + SECOND_START + LATE_EXIT, STRANDED)
    ensures Stuck(STRANDED)
  {
    FirstStartLeads(c);
    StopInVainLeads(c);
    SecondStartLeads(c);
    LateExitLeads(c);
    LeadsAppend(c, INITIAL, FIRST_START, ONE_RUNNING, STOP_IN_VAIN, SURVIVED);
    LeadsAppend(c, INITIAL, FIRST_START + STOP_IN_VAIN, SURVIVED, SECOND_START, RESTARTED);
    LeadsAppend(c, INITIAL, FIRST_START + STOP_IN_VAIN + SECOND_START, RESTARTED, LATE_EXIT, STRANDED);
  }

  const CONFLICT := [ChildExits(0), RunSettles(0, true), BeginTask]
  const RESTART_MEANWHILE := [Stop, Start, Resume(Done, 0)]
  const GONE := World(false, [CHILD], {}, {0})

  const CONFLICTING := State(
    Intent(true, false, 1, None), Tasks([], Some(ReleaseAfterConflict(1)), false, false),
    Links(None, None, None, false, 0), Timers(None, None, true), NO_FAILURES, GONE)

  const RESTARTING := State(
    Intent(true, false, 3, None), Tasks([StopRun(2), Reconcile(3)], Some(ReleaseAfterConflict(1)), false, false),
    Links(None, None, None, false, 0), Timers(None, None, true), NO_FAILURES, GONE)

  const CONDEMNED := State(
    Intent(true, false, 3, Some(ForeignHost)), Tasks([StopRun(2), Reconcile(3)], None, false, false),
    Links(None, None, None, false, 0), Timers(None, None, false), NO_FAILURES, GONE)

  lemma {:induction false} ConflictLeads(c: Config)
    ensures Leads(c, ONE_RUNNING, CONFLICT, CONFLICTING)
  {
    var s1 := Step(c, ONE_RUNNING, ChildExits(0));
    assert s1.world.alive == {};
    var s2 := Step(c, s1, RunSettles(0, true));
    assert s2.tasks.queue == [RunSettled(CHILD, true)] && s2.world == GONE;
    LeadsCons(c, s2, BeginTask, [], CONFLICTING);
    LeadsCons(c, s1, RunSettles(0, true), [BeginTask], CONFLICTING);
    LeadsCons(c, ONE_RUNNING, ChildExits(0), CONFLICT[1..], CONFLICTING);
  }

  lemma {:induction false} RestartMeanwhileLeads(c: Config)
    requires !c.attach
    ensures Leads(c, CONFLICTING, RESTART_MEANWHILE, CONDEMNED)
  {
    var s1 := Step(c, CONFLICTING, Stop);
    assert s1.tasks.queue == [StopRun(2)];
    var s2 := Step(c, s1, Start);
    assert s2.tasks.queue == [StopRun(2), Reconcile(3)] && s2.intent == Intent(true, false, 3, None);
    LeadsCons(c, s2, Resume(Done, 0), [], CONDEMNED);
    LeadsCons(c, s1, Start, [Resume(Done, 0)], CONDEMNED);
    LeadsCons(c, CONFLICTING, Stop, RESTART_MEANWHILE[1..], CONDEMNED);
  }

  /** A `stop` and a `start` that come while a conflict of the first generation awaits its release:
      the conflict still marks the third generation fatal. */
  lemma {:induction false} StaleConflictIsFatal(c: Config)
    requires !c.owned && !c.attach
    ensures Leads(c, INITIAL, FIRST_START + CONFLICT + RESTART_MEANWHILE, CONDEMNED)
    ensures Fatal(CONDEMNED) && CONDEMNED.intent.running && CONDEMNED.intent.generation == 3
  {
    FirstStartLeads(c);
    ConflictLeads(c);
    RestartMeanwhileLeads(c);
    LeadsAppend(c, INITIAL, FIRST_START, ONE_RUNNING, CONFLICT, CONFLICTING);
    LeadsAppend(c, INITIAL, FIRST_START + CONFLICT, CONFLICTING, RESTART_MEANWHILE, CONDEMNED);
  }

  /** The running task acts for a generation that is no longer the current one. */
  predicate ActsForAnother(s: State) {
    && s.tasks.current.Some?
    && var at := s.tasks.current.value;
       || (Deciding(at) && at.generation != s.intent.generation)
       || (Ending(at) && at.after.generation != s.intent.generation)
       || ((at.PollProbe? || at.InspectAttached?) && at.generation != s.intent.generation)
  }

  lemma {:induction false} StaleDecision(c: Config, s: State, reply: Reply, now: int)
    requires Enabled(s, Resume(reply, now)) && Deciding(s.tasks.current.value) && !Fatal(s)
    requires s.tasks.current.value.generation != s.intent.generation
    ensures Fatal(ResumeStep(c, s, reply, now)) <==> s.tasks.current.value.ReleaseAfterConflict? && !c.attach
  {
  }

  lemma {:induction false} StaleEndOrPoll(c: Config, s: State, reply: Reply, now: int)
    requires Enabled(s, Resume(reply, now)) && !Deciding(s.tasks.current.value) && !Fatal(s) && ActsForAnother(s)
    ensures Fatal(ResumeStep(c, s, reply, now)) <==> LosesChild(s, Resume(reply, now))
  {
  }

  /** In every reachable state without a verdict a task of another generation sets one exactly when it is
      a conflict whose release was awaited, under the reject policy, or a process has outlived SIGKILL.
      The conflict needs a host without an ownership port. */
  lemma {:induction false} StaleVerdictExactly(c: Config, s: State, reply: Reply, now: int)
    requires Reachable(c, s) && !Fatal(s) && ActsForAnother(s) && Enabled(s, Resume(reply, now))
    ensures var at := s.tasks.current.value;
            && (Fatal(Step(c, s, Resume(reply, now)))
                <==> (at.ReleaseAfterConflict? && !c.attach) || LosesChild(s, Resume(reply, now)))
            && (at.ReleaseAfterConflict? ==> !c.owned)
  {
    var events :| Leads(c, INITIAL, events, s);
    RunKeepsSafe(c, INITIAL, events, s);
    if Deciding(s.tasks.current.value) {
      StaleDecision(c, s, reply, now);
    } else {
      StaleEndOrPoll(c, s, reply, now);
    }
  }

  /** A conflict of one generation marks another one fatal. */
  ghost predicate Condemns(c: Config, s: State, reply: Reply, now: int) {
    && Reachable(c, s) && !Fatal(s) && ActsForAnother(s) && Enabled(s, Resume(reply, now))
    && Deciding(s.tasks.current.value) && Fatal(Step(c, s, Resume(reply, now)))
  }

  /** That can happen exactly under a configuration with neither an ownership port nor the attach policy. */
  lemma {:induction false} StaleConflictExactly(c: Config)
    ensures (exists s, reply, now :: Condemns(c, s, reply, now)) <==> !c.owned && !c.attach
  {
    forall s, reply, now | Condemns(c, s, reply, now)
      ensures !c.owned && !c.attach
    {
      StaleVerdictExactly(c, s, reply, now);
    }
    if !c.owned && !c.attach {
      ConflictIsCondemning(c);
    }
  }

  lemma {:induction false} StopAndStartLead(c: Config)
    ensures Leads(c, CONFLICTING, [Stop, Start], RESTARTING)
  {
    var s1 := Step(c, CONFLICTING, Stop);
    assert s1.tasks.queue == [StopRun(2)];
    var s2 := Step(c, s1, Start);
    assert s2.tasks.queue == [StopRun(2), Reconcile(3)];
    LeadsCons(c, s1, Start, [], RESTARTING);
    LeadsCons(c, CONFLICTING, Stop, [Start], RESTARTING);
  }

  lemma {:induction false} RestartingIsReached(c: Config)
    requires !c.owned
    ensures Reachable(c, RESTARTING)
  {
    FirstStartLeads(c);
    ConflictLeads(c);
    StopAndStartLead(c);
    LeadsAppend(c, INITIAL, FIRST_START, ONE_RUNNING, CONFLICT, CONFLICTING);
    LeadsAppend(c, INITIAL, FIRST_START + CONFLICT, CONFLICTING, [Stop, Start], RESTARTING);
  }

  lemma {:induction false} ConflictIsCondemning(c: Config)
    requires !c.owned && !c.attach
    ensures Condemns(c, RESTARTING, Done, 0)
  {
    RestartingIsReached(c);
    assert RESTARTING.intent.fatalReason.None?;
  }

  // The failure windows.

  ghost predicate WindowsOk(c: Config, w: Windows) {
    w.failures == Replay(w.failureLog, c.windowMs) && w.oomFailures == Replay(w.oomLog, c.oomWindowMs)
  }

  function FailureLog(s: State, oom: bool): seq<int> {
    if oom then s.windows.oomLog else s.windows.failureLog
  }

  function WindowMs(c: Config, oom: bool): int {
    if oom then c.oomWindowMs else c.windowMs
  }

  lemma {:induction false} RecordKeepsWindows(c: Config, w: Windows, oom: bool, now: int)
    requires WindowsOk(c, w)
    ensures WindowsOk(c, Record(c, w, oom, now))
  {
    ReplayGrows(w.failureLog, c.windowMs, now);
    ReplayGrows(w.oomLog, c.oomWindowMs, now);
  }

  lemma {:induction false} CountedRetryWindows(c: Config, recorded: State, generation: nat, oom: bool)
    ensures CountedRetry(c, recorded, generation, oom).windows == recorded.windows
  {
  }

  /** The only ways an event changes the windows: a failure is recorded, or windows are reset. */
  ghost predicate WindowStep(c: Config, w: Windows, v: Windows, now: int) {
    || v == w || v == Record(c, w, false, now) || v == Record(c, w, true, now)
    || v == w.(failures := [], failureLog := []) || v == Windows([], [], [], [])
  }

  lemma {:induction false} RetryWindows(c: Config, s: State, generation: nat, count: bool, oom: bool, now: int)
    ensures WindowStep(c, s.windows, ScheduleRetry(c, s, generation, count, oom, now).windows, now)
    ensures !count ==> ScheduleRetry(c, s, generation, count, oom, now).windows == s.windows
  {
    CountedRetryWindows(c, RecordFailure(c, s, oom, now), generation, oom);
  }

  lemma {:induction false} PollWindows(c: Config, s: State, reply: Reply, now: int)
    requires Enabled(s, Resume(reply, now)) && s.tasks.current.value.PollProbe?
    ensures ResumeStep(c, s, reply, now).windows == s.windows
  {
    var generation := s.tasks.current.value.generation;
    RetryWindows(c, s.(links := s.links.(probeFailures := 0)), generation, false, false, now);
  }

  lemma {:induction false} ResumeWindows(c: Config, s: State, reply: Reply, now: int)
    requires Enabled(s, Resume(reply, now))
    ensures WindowStep(c, s.windows, ResumeStep(c, s, reply, now).windows, now)
  {
    var at := s.tasks.current.value;
    if at.PollProbe? {
      PollWindows(c, s, reply, now);
    } else if Deciding(at) {
      DecidingWindows(c, s, reply, now);
    }
  }

  lemma {:induction false} DecidingWindows(c: Config, s: State, reply: Reply, now: int)
    requires Enabled(s, Resume(reply, now)) && Deciding(s.tasks.current.value)
    ensures WindowStep(c, s.windows, ResumeStep(c, s, reply, now).windows, now)
  {
    var at := s.tasks.current.value;
    if at.AcquireLease? || at.PrepareLaunch? {
      RetryWindows(c, s, at.generation, true, false, now);
    } else if at.DecideExit? {
      DecisionWindows(c, s, at.generation, reply, now);
    } else {
      RetryWindows(c, s, at.generation, false, false, now);
    }
  }

  lemma {:induction false} DecisionWindows(c: Config, s: State, generation: nat, reply: Reply, now: int)
    requires reply.Decided? || reply.Rejected?
    ensures WindowStep(c, s.windows, ExitDecided(c, s, generation, reply, now).windows, now)
  {
    match reply
    case Decided(RetryExit(count, oom)) => RetryWindows(c, s, generation, count, oom, now);
    case Decided(_) =>
    case Rejected => RetryWindows(c, s, generation, true, false, now);
  }

  lemma {:induction false} StepKeepsWindows(c: Config, s: State, e: Event)
    requires WindowsOk(c, s.windows) && Enabled(s, e)
    ensures WindowsOk(c, Step(c, s, e).windows)
  {
    if e.Resume? {
      ResumeWindows(c, s, e.reply, e.nowMs);
      RecordKeepsWindows(c, s.windows, false, e.nowMs);
      RecordKeepsWindows(c, s.windows, true, e.nowMs);
    }
  }

  lemma {:induction false} RunKeepsWindows(c: Config, s: State, events: seq<Event>, t: State)
    requires WindowsOk(c, s.windows) && Leads(c, s, events, t)
    ensures WindowsOk(c, t.windows)
    decreases |events|
  {
    if events != [] {
      StepKeepsWindows(c, s, events[0]);
      RunKeepsWindows(c, Step(c, s, events[0]), events[1..], t);
    }
  }

  /** In every reachable state a counted failure is fatal exactly when, with it, its class has at
      least `threshold` failures since the last reset that are at most the window's length old;
      otherwise it arms a retry. The log must be steady: `Retry.ExactExactlyWhenSteady`. */
  lemma {:induction false} CountedFailureIsFatalExactly(c: Config, s: State, oom: bool, now: int)
    requires Reachable(c, s) && s.intent.running && !Fatal(s)
    requires Steady(FailureLog(s, oom) + [now], WindowMs(c, oom))
    ensures var t := ScheduleRetry(c, s, s.intent.generation, true, oom, now);
            && (Fatal(t) <==> |Within(FailureLog(s, oom) + [now], now - WindowMs(c, oom))| >= Threshold(c, oom))
            && (!Fatal(t) ==> t.timers.retry == Some(s.intent.generation))
  {
    var events :| Leads(c, INITIAL, events, s);
    RunKeepsWindows(c, INITIAL, events, s);
    RecordIsExact(FailureLog(s, oom), WindowMs(c, oom), now);
    var recorded := RecordFailure(c, s, oom, now);
    CountedVerdict(c, recorded, s.intent.generation, oom);
  }

  lemma {:induction false} CountedVerdict(c: Config, recorded: State, generation: nat, oom: bool)
    requires !Fatal(recorded)
    ensures var t := CountedRetry(c, recorded, generation, oom);
            && (Fatal(t) <==> RecentCount(recorded, oom) >= Threshold(c, oom))
            && (!Fatal(t) ==> t.timers.retry == Some(generation))
  {
  }
}
