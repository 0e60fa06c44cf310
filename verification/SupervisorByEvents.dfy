/** The supervisor told a second time, field by field instead of task by task: for every field, which events set it, and
    to what. Every reachable step of the machine is the step told here, and what is said of a field over a whole run,
    as a count of its events, is said of the machine. */
module SupervisorByEvents {
  import opened Options
  import opened Retry
  import opened SupervisorModel
  import opened SupervisorSafety
  import opened SupervisorLiveness
  import opened SupervisorResults
  import opened SupervisorLease

  /** An explicit start or restart that is not turned down. */
  predicate Accepts(s: State, e: Event) {
    || (e.Start? && !(s.intent.running && !Fatal(s)))
    || (e.Restart? && !(s.links.external.Some? && s.links.activeRun.None?))
  }

  /** The running task acts for the current generation, and resumes. */
  predicate Acts(s: State, e: Event) {
    && e.Resume? && s.tasks.current.Some?
    && var at := s.tasks.current.value;
    && (Deciding(at) || at.PollProbe? || at.InspectAttached?) && IsCurrent(s, at.generation)
  }

  predicate Launching(at: Point) {
    at.AcquireLease? || at.PrepareLaunch?
  }

  predicate Probing(at: Point) {
    Deciding(at) && !Launching(at) && !at.DecideExit?
  }

  predicate Other(at: Point) {
    !Deciding(at) && !at.PollProbe?
  }

  // The counted failures.

  /** The event is a failure that counts, of the class. */
  predicate Counts(s: State, e: Event, oom: bool) {
    && Acts(s, e) && !Fatal(s)
    && match s.tasks.current.value
       case AcquireLease(_) => e.reply.Rejected? && !oom
       case PrepareLaunch(_) => (e.reply.Rejected? || e.reply.SpawnThrew?) && !oom
       case DecideExit(_) => (e.reply.Rejected? && !oom) || e.reply == Decided(RetryExit(true, oom))
       case _ => false
  }

  /** The event makes the supervisor forget the failures of the class: a new start, the end of a `stop`, and for
      ordinary failures also a run that has been up long enough and an exit that asks for a restart. */
  predicate ForgetsFailures(s: State, e: Event, oom: bool) {
    || Accepts(s, e)
    || (e.Resume? && s.tasks.current == Some(ReleaseAfterStop) && e.reply.Done?)
    || (!oom && e.HealthyFires? && RunsHealthily(s))
    || (!oom && Acts(s, e) && s.tasks.current.value.DecideExit? && e.reply == Decided(RestartExit))
  }

  /** The process of the healthy timer is the recorded run of the current generation, and it is alive. */
  predicate RunsHealthily(s: State) {
    && s.timers.healthy.Some? && s.links.activeRun.Some?
    && s.links.activeRun.value.child == s.timers.healthy.value
    && IsCurrent(s, s.links.activeRun.value.generation) && s.timers.healthy.value in s.world.alive
  }

  function LogAfter(s: State, e: Event, oom: bool): seq<int> {
    if ForgetsFailures(s, e, oom) then []
    else if Counts(s, e, oom) then FailureLog(s, oom) + [e.nowMs]
    else FailureLog(s, oom)
  }

  ghost predicate LogsFollow(s: State, e: Event, t: State) {
    FailureLog(t, false) == LogAfter(s, e, false) && FailureLog(t, true) == LogAfter(s, e, true)
  }

  lemma {:induction false} RetryLogs(c: Config, s: State, generation: nat, count: bool, oom: bool, now: int)
    ensures var t := Finish(ScheduleRetry(c, s, generation, count, oom, now)).windows;
            if IsCurrent(s, generation) && !Fatal(s) && count then t == Record(c, s.windows, oom, now)
            else t == s.windows
  {
    CountedRetryWindows(c, RecordFailure(c, s, oom, now), generation, oom);
  }

  lemma {:induction false} LaunchingLogs(c: Config, s: State, reply: Reply, now: int)
    requires Enabled(s, Resume(reply, now)) && Launching(s.tasks.current.value)
    ensures LogsFollow(s, Resume(reply, now), ResumeStep(c, s, reply, now))
  {
    RetryLogs(c, s, s.tasks.current.value.generation, true, false, now);
  }

  lemma {:induction false} ProbingLogs(c: Config, s: State, reply: Reply, now: int)
    requires Enabled(s, Resume(reply, now)) && Probing(s.tasks.current.value)
    ensures LogsFollow(s, Resume(reply, now), ResumeStep(c, s, reply, now))
  {
    RetryLogs(c, s, s.tasks.current.value.generation, false, false, now);
  }

  lemma {:induction false} DecisionLogs(c: Config, s: State, reply: Reply, now: int)
    requires Enabled(s, Resume(reply, now)) && s.tasks.current.value.DecideExit?
    ensures LogsFollow(s, Resume(reply, now), ResumeStep(c, s, reply, now))
  {
    var generation := s.tasks.current.value.generation;
    RetryLogs(c, s, generation, true, false, now);
    if reply.Decided? && reply.decision.RetryExit? {
      RetryLogs(c, s, generation, reply.decision.countFailure, reply.decision.oom, now);
    }
  }

  lemma {:induction false} OtherLogs(c: Config, s: State, reply: Reply, now: int)
    requires Enabled(s, Resume(reply, now)) && Other(s.tasks.current.value)
    ensures LogsFollow(s, Resume(reply, now), ResumeStep(c, s, reply, now))
  {
  }

  lemma {:induction false} EntryLogs(c: Config, s: State, e: Event)
    requires Enabled(s, e) && !e.Resume?
    ensures LogsFollow(s, e, Step(c, s, e))
  {
  }

  /** The logs of both classes after an event, whatever it is. */
  lemma {:induction false} LogsFollowEvents(c: Config, s: State, e: Event)
    requires Enabled(s, e)
    ensures LogsFollow(s, e, Step(c, s, e))
  {
    if !e.Resume? {
      EntryLogs(c, s, e);
    } else if Launching(s.tasks.current.value) {
      LaunchingLogs(c, s, e.reply, e.nowMs);
    } else if Probing(s.tasks.current.value) {
      ProbingLogs(c, s, e.reply, e.nowMs);
    } else if s.tasks.current.value.DecideExit? {
      DecisionLogs(c, s, e.reply, e.nowMs);
    } else if s.tasks.current.value.PollProbe? {
      PollWindows(c, s, e.reply, e.nowMs);
    } else {
      OtherLogs(c, s, e.reply, e.nowMs);
    }
  }

  /** Over a run: the times of the failures of the class since the supervisor last forgot them. */
  ghost function FailureTimes(c: Config, s: State, events: seq<Event>, oom: bool, times: seq<int>): seq<int>
    decreases |events|
  {
    if events == [] || !Enabled(s, events[0]) then times
    else FailureTimes(c, Step(c, s, events[0]), events[1..], oom,
                      if ForgetsFailures(s, events[0], oom) then []
                      else if Counts(s, events[0], oom) then times + [events[0].nowMs] else times)
  }

  lemma {:induction false} RunLogsFailures(c: Config, s: State, events: seq<Event>, oom: bool, t: State)
    requires WindowsOk(c, s.windows) && Leads(c, s, events, t)
    ensures WindowsOk(c, t.windows) && FailureLog(t, oom) == FailureTimes(c, s, events, oom, FailureLog(s, oom))
    decreases |events|
  {
    if events != [] {
      StepKeepsWindows(c, s, events[0]);
      LogsFollowEvents(c, s, events[0]);
      RunLogsFailures(c, Step(c, s, events[0]), events[1..], oom, t);
    }
  }

  /** What a counted failure leads to, in any state whose windows are what their logs say. */
  lemma {:induction false} FailureDecides(c: Config, s: State, e: Event, oom: bool)
    requires WindowsOk(c, s.windows) && Enabled(s, e) && Counts(s, e, oom)
    ensures var t, recorded := Step(c, s, e), RecordFailure(c, s, oom, e.nowMs);
            t == Finish(CountedRetry(c, recorded, s.intent.generation, oom))
  {
  }

  /** After every run: a counted failure is fatal exactly when, with it, its class has had at least `threshold`
      failures since the supervisor last forgot them that are at most the window's length old; otherwise it arms the
      retry. The times must be steady: `Retry.ExactExactlyWhenSteady`. */
  lemma {:induction false} FailureIsFatalExactly(c: Config, events: seq<Event>, s: State, e: Event, oom: bool)
    requires Leads(c, INITIAL, events, s) && Enabled(s, e) && Counts(s, e, oom)
    requires Steady(FailureTimes(c, INITIAL, events, oom, []) + [e.nowMs], WindowMs(c, oom))
    ensures var t, times := Step(c, s, e), FailureTimes(c, INITIAL, events, oom, []) + [e.nowMs];
            && (Fatal(t) <==> |Within(times, e.nowMs - WindowMs(c, oom))| >= Threshold(c, oom))
            && (!Fatal(t) ==> t.timers.retry == Some(s.intent.generation))
            && t.tasks.current.None?
  {
    RunLogsFailures(c, INITIAL, events, oom, s);
    FailureDecides(c, s, e, oom);
    RecordIsExact(FailureLog(s, oom), WindowMs(c, oom), e.nowMs);
    CountedVerdict(c, RecordFailure(c, s, oom, e.nowMs), s.intent.generation, oom);
  }

  // The runtime of another host.

  datatype Sight = Sight(external: Option<Runtime>, host: Option<Host>, misses: nat)

  function InSight(s: State): Sight {
    Sight(s.links.external, s.links.externalHost, s.links.probeFailures)
  }

  /** A runtime belongs to the host it names or, if it names none, to a foreground host that is the same process. */
  predicate Matches(runtime: Option<Runtime>, host: Option<Host>) {
    && runtime.Some? && host.Some?
    && match runtime.value.supervisor
       case None => host.value.mode == Foreground && host.value.pid == runtime.value.pid
       case Some(named) => host.value == named && named.mode != Foreground
  }

  /** A poll of a supervisor that only observes comes back. */
  predicate Observes(s: State, e: Event) {
    && e.Resume? && e.reply.Observed? && s.tasks.current.Some? && s.tasks.current.value.ProbeOnly?
    && s.intent.probeOnly && !s.intent.running
  }

  /** A poll of a supervisor that is meant to run comes back. */
  predicate Polls(s: State, e: Event) {
    Acts(s, e) && e.reply.Observed? && s.tasks.current.value.PollProbe?
  }

  /** Nothing is running and nothing is observed, so a runtime that turns up is another host's; under the lease it
      is only waited for. */
  predicate Unoccupied(s: State) {
    s.links.activeRun.None? && s.links.external.None? && !s.links.ownershipHeld
  }

  /** A runtime of another host comes in sight, or is seen again, and the host it belongs to if that is known. */
  predicate Sees(c: Config, s: State, e: Event) {
    && e.Resume? && e.reply.Observed? && e.reply.runtime.Some? && s.tasks.current.Some?
    && match s.tasks.current.value
       case ProbeOccupant(_, owner, _) => Acts(s, e) && Matches(e.reply.runtime, owner) && c.attach
       case ProbeRuntime(_) => Acts(s, e) && !s.links.ownershipHeld
       case ProbeForeign(_) => Acts(s, e)
       case ProbeOnly(owner) => Observes(s, e) && Matches(e.reply.runtime, owner)
       case PollProbe(_) =>
         && Acts(s, e)
         && (Unoccupied(s) || (SeesAnother(s) && Matches(e.reply.runtime, s.links.externalHost)))
       case _ => false
  }

  /** A runtime of another host is observed, and no process of this one is recorded. */
  predicate SeesAnother(s: State) {
    s.links.external.Some? && s.links.activeRun.None?
  }

  /** The host a seen runtime belongs to. */
  function SeenHost(s: State, e: Event): Option<Host>
    requires s.tasks.current.Some?
  {
    match s.tasks.current.value
    case ProbeOccupant(_, owner, _) => owner
    case ProbeOnly(owner) => owner
    case PollProbe(_) => if SeesAnother(s) then s.links.externalHost else None
    case _ => None
  }

  /** A poll comes back without the runtime it looked for. */
  predicate Misses(s: State, e: Event) {
    || (Observes(s, e) && !Matches(e.reply.runtime, s.tasks.current.value.owner))
    || (Polls(s, e) && e.reply.runtime.None?)
    || (Polls(s, e) && SeesAnother(s) && !Matches(e.reply.runtime, s.links.externalHost))
  }

  /** An attached host has gone, or has changed. */
  predicate HostGone(s: State, e: Event) {
    && Acts(s, e) && e.reply.Owner? && s.tasks.current.value.InspectAttached?
    && (e.reply.owner.None? || e.reply.owner != s.links.externalHost)
  }

  /** The end of a `stop` whose run is over. */
  predicate EndsStop(s: State, e: Event) {
    e.Resume? && s.tasks.current.Some? && s.tasks.current.value.Terminated? && s.tasks.current.value.after.ThenStop?
  }

  /** The events after which the misses are counted afresh. Under the reject policy the sight of another runtime is a
      verdict and leaves the count alone, except for a poll that finds nothing else. */
  predicate CountsAfresh(c: Config, s: State, e: Event) {
    || Accepts(s, e) || Prepared(s, e)
    || (Sees(c, s, e) && (c.attach || Observes(s, e)))
    || (Polls(s, e) && e.reply.runtime.Some? && !SeesAnother(s))
    || (e.Resume? && s.tasks.current == Some(ReleaseAfterStop) && e.reply.Done?)
  }

  /** What is in sight after the event. */
  function SightAfter(c: Config, s: State, e: Event): Sight {
    var was := InSight(s);
    var misses := if CountsAfresh(c, s, e) then 0 else if Misses(s, e) then was.misses + 1 else was.misses;
    if Sees(c, s, e) then Sight(e.reply.runtime, SeenHost(s, e), misses)
    else if Accepts(s, e) || HostGone(s, e) || EndsStop(s, e) || (Misses(s, e) && misses >= c.probeFailureThreshold)
    then Sight(None, None, misses)
    else was.(misses := misses)
  }

  /** A host is known only together with a runtime that belongs to it. */
  predicate HostOk(s: State) {
    s.links.externalHost.Some? ==> Matches(s.links.external, s.links.externalHost)
  }

  ghost predicate Sighted(s: State) {
    Core(s) && HostOk(s)
  }

  lemma {:induction false} RetrySight(c: Config, s: State, generation: nat, count: bool, oom: bool, now: int)
    ensures Finish(ScheduleRetry(c, s, generation, count, oom, now)).links == s.links
  {
  }

  lemma {:induction false} ReconcileSight(c: Config, s: State, generation: nat)
    ensures ReconcileStart(c, s, generation).links == s.links
  {
  }

  lemma {:induction false} LaunchingSight(c: Config, s: State, reply: Reply, now: int)
    requires Sighted(s) && Enabled(s, Resume(reply, now)) && Launching(s.tasks.current.value)
    ensures InSight(ResumeStep(c, s, reply, now)) == SightAfter(c, s, Resume(reply, now))
  {
    RetrySight(c, s, s.tasks.current.value.generation, true, false, now);
  }

  lemma {:induction false} ProbingSight(c: Config, s: State, reply: Reply, now: int)
    requires Sighted(s) && Enabled(s, Resume(reply, now)) && Probing(s.tasks.current.value)
    ensures InSight(ResumeStep(c, s, reply, now)) == SightAfter(c, s, Resume(reply, now))
  {
    RetrySight(c, s, s.tasks.current.value.generation, false, false, now);
  }

  lemma {:induction false} DecisionSight(c: Config, s: State, reply: Reply, now: int)
    requires Sighted(s) && Enabled(s, Resume(reply, now)) && s.tasks.current.value.DecideExit?
    ensures InSight(ResumeStep(c, s, reply, now)) == SightAfter(c, s, Resume(reply, now))
  {
    var generation := s.tasks.current.value.generation;
    RetrySight(c, s, generation, true, false, now);
    ReconcileSight(c, ResetFailures(ClearRetry(s)), generation);
    if reply.Decided? && reply.decision.RetryExit? {
      RetrySight(c, s, generation, reply.decision.countFailure, reply.decision.oom, now);
    }
  }

  lemma {:induction false} SeenPollSight(c: Config, s: State, reply: Reply, now: int)
    requires Sighted(s) && Enabled(s, Resume(reply, now)) && Polls(s, Resume(reply, now)) && reply.runtime.Some?
    ensures InSight(ResumeStep(c, s, reply, now)) == SightAfter(c, s, Resume(reply, now))
  {
    var generation := s.tasks.current.value.generation;
    RetrySight(c, s.(links := s.links.(probeFailures := 0)), generation, false, false, now);
    ReconcileSight(c, ForgetExternal(CountProbeFailure(s)), generation);
  }

  lemma {:induction false} UnseenPollSight(c: Config, s: State, reply: Reply, now: int)
    requires Sighted(s) && Enabled(s, Resume(reply, now)) && s.tasks.current.value.PollProbe?
    requires !(Polls(s, Resume(reply, now)) && reply.runtime.Some?)
    ensures InSight(ResumeStep(c, s, reply, now)) == SightAfter(c, s, Resume(reply, now))
  {
    ReconcileSight(c, ForgetExternal(CountProbeFailure(s)), s.tasks.current.value.generation);
  }

  lemma {:induction false} OtherSight(c: Config, s: State, reply: Reply, now: int)
    requires Sighted(s) && Enabled(s, Resume(reply, now)) && Other(s.tasks.current.value)
    ensures InSight(ResumeStep(c, s, reply, now)) == SightAfter(c, s, Resume(reply, now))
  {
  }

  lemma {:induction false} EntrySight(c: Config, s: State, e: Event)
    requires Sighted(s) && Enabled(s, e) && !e.Resume?
    ensures InSight(Step(c, s, e)) == SightAfter(c, s, e)
  {
  }

  lemma {:induction false} SightFollowsEvents(c: Config, s: State, e: Event)
    requires Sighted(s) && Enabled(s, e)
    ensures InSight(Step(c, s, e)) == SightAfter(c, s, e)
  {
    if !e.Resume? {
      EntrySight(c, s, e);
    } else if Launching(s.tasks.current.value) {
      LaunchingSight(c, s, e.reply, e.nowMs);
    } else if Probing(s.tasks.current.value) {
      ProbingSight(c, s, e.reply, e.nowMs);
    } else if s.tasks.current.value.DecideExit? {
      DecisionSight(c, s, e.reply, e.nowMs);
    } else if Polls(s, e) && e.reply.runtime.Some? {
      SeenPollSight(c, s, e.reply, e.nowMs);
    } else if s.tasks.current.value.PollProbe? {
      UnseenPollSight(c, s, e.reply, e.nowMs);
    } else {
      OtherSight(c, s, e.reply, e.nowMs);
    }
  }

  /** Over a run: how many polls have missed since they were last counted afresh. */
  ghost function MissedPolls(c: Config, s: State, events: seq<Event>, misses: nat): nat
    decreases |events|
  {
    if events == [] || !Enabled(s, events[0]) then misses
    else MissedPolls(c, Step(c, s, events[0]), events[1..],
                     if CountsAfresh(c, s, events[0]) then 0
                     else if Misses(s, events[0]) then misses + 1 else misses)
  }

  lemma {:induction false} SeenHostMatches(c: Config, s: State, e: Event)
    requires HostOk(s) && Sees(c, s, e) && SeenHost(s, e).Some?
    ensures Matches(e.reply.runtime, SeenHost(s, e))
  {
  }

  lemma {:induction false} StepKeepsSighted(c: Config, s: State, e: Event)
    requires Good(c, s) && HostOk(s) && Enabled(s, e)
    ensures Good(c, Step(c, s, e)) && HostOk(Step(c, s, e))
  {
    StepFollows(c, s, e);
    SightFollowsEvents(c, s, e);
    if Sees(c, s, e) && SeenHost(s, e).Some? {
      SeenHostMatches(c, s, e);
    }
    var t := Step(c, s, e);
    assert InSight(t) == Sight(t.links.external, t.links.externalHost, t.links.probeFailures);
  }

  lemma {:induction false} RunKeepsSighted(c: Config, s: State, events: seq<Event>, t: State)
    requires Good(c, s) && HostOk(s) && Leads(c, s, events, t)
    ensures Good(c, t) && HostOk(t) && t.links.probeFailures == MissedPolls(c, s, events, s.links.probeFailures)
    decreases |events|
  {
    if events != [] {
      var next := Step(c, s, events[0]);
      StepKeepsSighted(c, s, events[0]);
      SightFollowsEvents(c, s, events[0]);
      assert InSight(next).misses == next.links.probeFailures;
      RunKeepsSighted(c, next, events[1..], t);
    }
  }

  /** After every run, whatever comes next: a runtime of another host is in sight exactly when the event shows it, or
      when it was in sight and there was no new request, no end of a `stop`, no change of its host, and no poll that
      has missed `probeFailureThreshold` times in a row; and the host it is taken to belong to is one it names. */
  lemma {:induction false} InSightExactly(c: Config, events: seq<Event>, s: State, e: Event)
    requires Leads(c, INITIAL, events, s) && Enabled(s, e)
    ensures var t := Step(c, s, e);
            && (t.links.external.Some? <==>
                  || Sees(c, s, e)
                  || (&& s.links.external.Some? && !Accepts(s, e) && !EndsStop(s, e) && !HostGone(s, e)
                      && !(Misses(s, e) && MissedPolls(c, INITIAL, events + [e], 0) >= c.probeFailureThreshold)))
            && (Sees(c, s, e) ==> t.links.external == e.reply.runtime && t.links.externalHost == SeenHost(s, e))
            && (t.links.externalHost.Some? ==> Matches(t.links.external, t.links.externalHost))
  {
    LeadsSnoc(c, INITIAL, events, s, e);
    RunKeepsSighted(c, INITIAL, events, s);
    RunKeepsSighted(c, INITIAL, events + [e], Step(c, s, e));
    SightFollowsEvents(c, s, e);
    var t := Step(c, s, e);
    assert InSight(t) == Sight(t.links.external, t.links.externalHost, t.links.probeFailures);
  }

  // The verdict, and what is wanted.

  /** The exit of a run of the current generation is a clean one. */
  predicate ExitsCleanly(s: State, e: Event) {
    Acts(s, e) && s.tasks.current.value.DecideExit? && e.reply == Decided(StopExit)
  }

  /** The verdict an event brings, whatever stood before. */
  function Verdict(c: Config, s: State, e: Event): Option<Reason> {
    if LosesChild(s, e) then Some(SurvivedKill(s.tasks.current.value.run.child))
    else if e.Resume? && s.tasks.current.Some? && s.tasks.current.value.ReleaseAfterConflict? && !c.attach
    then Some(ForeignHost)
    else if Sees(c, s, e) && !c.attach && !Observes(s, e) then Some(ForeignRuntime(e.reply.runtime.value.pid))
    else if Acts(s, e) && s.tasks.current.value.ProbeOccupant? && e.reply.Observed? && !c.attach
    then Some(if s.tasks.current.value.description.Some? then Given(s.tasks.current.value.description.value)
              else ForeignOwner)
    else if Acts(s, e) && s.tasks.current.value.DecideExit? && e.reply.Decided? && e.reply.decision.FatalExit?
    then Some(Given(e.reply.decision.message))
    else if Counts(s, e, false) then TooMany(c, s, false, e.nowMs)
    else if Counts(s, e, true) then TooMany(c, s, true, e.nowMs)
    else None
  }

  function TooMany(c: Config, s: State, oom: bool, now: int): Option<Reason> {
    var recent := RecentCount(RecordFailure(c, s, oom, now), oom);
    if recent >= Threshold(c, oom) then Some(TooManyFailures(oom, recent)) else None
  }

  function IntentAfter(c: Config, s: State, e: Event): Intent {
    var was := s.intent;
    if Accepts(s, e) then Intent(true, false, was.generation + 1, None)
    else if e.Stop? then Intent(false, false, was.generation + 1, None)
    else if ExitsCleanly(s, e) then was.(running := false, generation := was.generation + 1)
    else if e.StartProbing? && !was.running then was.(probeOnly := true)
    else if Verdict(c, s, e).Some? then was.(fatalReason := Verdict(c, s, e))
    else was
  }

  lemma {:induction false} RetryIntent(c: Config, s: State, generation: nat, count: bool, oom: bool, now: int)
    ensures var t := Finish(ScheduleRetry(c, s, generation, count, oom, now)).intent;
            t == if IsCurrent(s, generation) && !Fatal(s) && count && TooMany(c, s, oom, now).Some?
                 then s.intent.(fatalReason := TooMany(c, s, oom, now)) else s.intent
  {
  }

  lemma {:induction false} LaunchingIntent(c: Config, s: State, reply: Reply, now: int)
    requires Enabled(s, Resume(reply, now)) && Launching(s.tasks.current.value)
    ensures ResumeStep(c, s, reply, now).intent == IntentAfter(c, s, Resume(reply, now))
  {
    RetryIntent(c, s, s.tasks.current.value.generation, true, false, now);
  }

  lemma {:induction false} ProbingIntent(c: Config, s: State, reply: Reply, now: int)
    requires Enabled(s, Resume(reply, now)) && Probing(s.tasks.current.value)
    ensures ResumeStep(c, s, reply, now).intent == IntentAfter(c, s, Resume(reply, now))
  {
    RetryIntent(c, s, s.tasks.current.value.generation, false, false, now);
  }

  /** The verdict on an exit asks for another try, or could not be had. */
  predicate AsksForRetry(reply: Reply) {
    reply.Rejected? || (reply.Decided? && reply.decision.RetryExit?)
  }

  function CountsRetry(reply: Reply): bool
    requires AsksForRetry(reply)
  {
    reply.Rejected? || reply.decision.countFailure
  }

  function OomRetry(reply: Reply): bool
    requires AsksForRetry(reply)
  {
    reply.Decided? && reply.decision.oom
  }

  lemma {:induction false} RetriedIntent(c: Config, s: State, reply: Reply, now: int)
    requires s.tasks.current.Some? && s.tasks.current.value.DecideExit? && AsksForRetry(reply)
    ensures ResumeStep(c, s, reply, now).intent == IntentAfter(c, s, Resume(reply, now))
  {
    RetryIntent(c, s, s.tasks.current.value.generation, CountsRetry(reply), OomRetry(reply), now);
  }

  lemma {:induction false} DecisionIntent(c: Config, s: State, reply: Reply, now: int)
    requires Enabled(s, Resume(reply, now)) && s.tasks.current.value.DecideExit?
    ensures ResumeStep(c, s, reply, now).intent == IntentAfter(c, s, Resume(reply, now))
  {
    if AsksForRetry(reply) {
      RetriedIntent(c, s, reply, now);
    }
  }

  lemma {:induction false} PollIntent(c: Config, s: State, reply: Reply, now: int)
    requires Enabled(s, Resume(reply, now)) && s.tasks.current.value.PollProbe?
    ensures ResumeStep(c, s, reply, now).intent == IntentAfter(c, s, Resume(reply, now))
  {
    var generation := s.tasks.current.value.generation;
    RetryIntent(c, s.(links := s.links.(probeFailures := 0)), generation, false, false, now);
  }

  lemma {:induction false} OtherIntent(c: Config, s: State, reply: Reply, now: int)
    requires Enabled(s, Resume(reply, now)) && Other(s.tasks.current.value)
    ensures ResumeStep(c, s, reply, now).intent == IntentAfter(c, s, Resume(reply, now))
  {
  }

  lemma {:induction false} EntryIntent(c: Config, s: State, e: Event)
    requires Enabled(s, e) && !e.Resume?
    ensures Step(c, s, e).intent == IntentAfter(c, s, e)
  {
  }

  /** What is wanted, and the verdict, after an event, whatever it is. */
  lemma {:induction false} IntentFollowsEvents(c: Config, s: State, e: Event)
    requires Enabled(s, e)
    ensures Step(c, s, e).intent == IntentAfter(c, s, e)
  {
    if !e.Resume? {
      EntryIntent(c, s, e);
    } else if Launching(s.tasks.current.value) {
      LaunchingIntent(c, s, e.reply, e.nowMs);
    } else if Probing(s.tasks.current.value) {
      ProbingIntent(c, s, e.reply, e.nowMs);
    } else if s.tasks.current.value.DecideExit? {
      DecisionIntent(c, s, e.reply, e.nowMs);
    } else if s.tasks.current.value.PollProbe? {
      PollIntent(c, s, e.reply, e.nowMs);
    } else {
      OtherIntent(c, s, e.reply, e.nowMs);
    }
  }

  // The timers.

  /** A verdict that the supervisor does not already have stops its timers; giving up on a process does not. */
  predicate Condemned(c: Config, s: State, e: Event) {
    Verdict(c, s, e).Some? && Verdict(c, s, e) != s.intent.fatalReason && !LosesChild(s, e)
  }

  /** The recorded run is about to be ended, or has ended. */
  predicate EndsRun(s: State, e: Event) {
    && e.BeginTask? && s.tasks.queue != [] && s.links.activeRun.Some?
    && (Ends(s.tasks.queue[0])
        || (s.tasks.queue[0].RunSettled? && s.links.activeRun == Some(s.tasks.queue[0].run)))
  }

  /** The current generation has to be tried again later. */
  predicate Retries(c: Config, s: State, e: Event) {
    && Acts(s, e) && !Fatal(s) && !Condemned(c, s, e)
    && match s.tasks.current.value
       case ProbeOccupant(_, owner, _) => e.reply.Observed? && c.attach && !Matches(e.reply.runtime, owner)
       case ProbeRuntime(_) => e.reply.Observed? && e.reply.runtime.Some? && s.links.ownershipHeld
       case ProbeAfterConflict(_) => e.reply.Observed?
       case ProbeForeign(_) => e.reply.Observed? && e.reply.runtime.None?
       case DecideExit(_) => Counts(s, e, false) || Counts(s, e, true)
                             || (e.reply.Decided? && e.reply.decision.RetryExit?)
       case PollProbe(_) =>
         && e.reply.Observed? && e.reply.runtime.Some? && s.links.activeRun.None? && s.links.external.None?
         && s.links.ownershipHeld && s.timers.retry.None?
       case _ => Counts(s, e, false)
  }

  /** The retry is no longer needed. */
  predicate Disarms(c: Config, s: State, e: Event) {
    || e.RetryFires? || ExitsCleanly(s, e)
    || (Sees(c, s, e) && c.attach && !Observes(s, e))
    || (Acts(s, e) && s.tasks.current.value.DecideExit? && e.reply == Decided(RestartExit))
  }

  function TimersAfter(c: Config, s: State, e: Event): Timers {
    var was := s.timers;
    if Accepts(s, e) then Timers(None, None, true)
    else if e.Stop? || Condemned(c, s, e) then Timers(None, None, false)
    else Timers(
           if Retries(c, s, e) then Some(s.intent.generation) else if Disarms(c, s, e) then None else was.retry,
           if Prepared(s, e) then Some(|s.world.runs|)
           else if EndsRun(s, e) || (e.HealthyFires? && RunsHealthily(s)) then None else was.healthy,
           if e.StartProbing? && !s.intent.running then true
           else if ExitsCleanly(s, e) then false else was.poll)
  }

  lemma {:induction false} RetryTimers(c: Config, s: State, generation: nat, count: bool, oom: bool, now: int)
    requires IsCurrent(s, generation) && !Fatal(s)
    ensures var t := Finish(ScheduleRetry(c, s, generation, count, oom, now)).timers;
            t == if count && TooMany(c, s, oom, now).Some? && TooMany(c, s, oom, now) != s.intent.fatalReason
                 then Timers(None, None, false)
                 else if count && TooMany(c, s, oom, now).Some? then s.timers
                 else s.timers.(retry := Some(generation))
  {
  }

  lemma {:induction false} LaunchingTimers(c: Config, s: State, reply: Reply, now: int)
    requires Enabled(s, Resume(reply, now)) && Launching(s.tasks.current.value)
    ensures ResumeStep(c, s, reply, now).timers == TimersAfter(c, s, Resume(reply, now))
  {
    var generation := s.tasks.current.value.generation;
    if IsCurrent(s, generation) && !Fatal(s) {
      RetryTimers(c, s, generation, true, false, now);
    }
  }

  lemma {:induction false} OccupantTimers(c: Config, s: State, reply: Reply, now: int)
    requires Enabled(s, Resume(reply, now)) && s.tasks.current.value.ProbeOccupant?
    ensures ResumeStep(c, s, reply, now).timers == TimersAfter(c, s, Resume(reply, now))
  {
    var generation := s.tasks.current.value.generation;
    if IsCurrent(s, generation) && !Fatal(s) {
      RetryTimers(c, s, generation, false, false, now);
    }
  }

  lemma {:induction false} ProbingTimers(c: Config, s: State, reply: Reply, now: int)
    requires Enabled(s, Resume(reply, now)) && Probing(s.tasks.current.value) && !s.tasks.current.value.ProbeOccupant?
    ensures ResumeStep(c, s, reply, now).timers == TimersAfter(c, s, Resume(reply, now))
  {
    var generation := s.tasks.current.value.generation;
    if IsCurrent(s, generation) && !Fatal(s) {
      RetryTimers(c, s, generation, false, false, now);
    }
  }

  lemma {:induction false} RetriedTimers(c: Config, s: State, reply: Reply, now: int)
    requires s.tasks.current.Some? && s.tasks.current.value.DecideExit? && AsksForRetry(reply)
    ensures ResumeStep(c, s, reply, now).timers == TimersAfter(c, s, Resume(reply, now))
  {
    var generation := s.tasks.current.value.generation;
    if IsCurrent(s, generation) && !Fatal(s) {
      RetryTimers(c, s, generation, CountsRetry(reply), OomRetry(reply), now);
    }
  }

  lemma {:induction false} DecisionTimers(c: Config, s: State, reply: Reply, now: int)
    requires Enabled(s, Resume(reply, now)) && s.tasks.current.value.DecideExit?
    ensures ResumeStep(c, s, reply, now).timers == TimersAfter(c, s, Resume(reply, now))
  {
    if AsksForRetry(reply) {
      RetriedTimers(c, s, reply, now);
    }
  }

  lemma {:induction false} AnotherPollTimers(c: Config, s: State, reply: Reply, now: int)
    requires Enabled(s, Resume(reply, now)) && Polls(s, Resume(reply, now))
    requires reply.runtime.Some? && SeesAnother(s)
    ensures ResumeStep(c, s, reply, now).timers == TimersAfter(c, s, Resume(reply, now))
  {
  }

  lemma {:induction false} SeenPollTimers(c: Config, s: State, reply: Reply, now: int)
    requires Enabled(s, Resume(reply, now)) && Polls(s, Resume(reply, now))
    requires reply.runtime.Some? && !SeesAnother(s)
    ensures ResumeStep(c, s, reply, now).timers == TimersAfter(c, s, Resume(reply, now))
  {
    if !Fatal(s) {
      RetryTimers(c, s.(links := s.links.(probeFailures := 0)), s.intent.generation, false, false, now);
    }
  }

  lemma {:induction false} UnseenPollTimers(c: Config, s: State, reply: Reply, now: int)
    requires Enabled(s, Resume(reply, now)) && s.tasks.current.value.PollProbe?
    requires !(Polls(s, Resume(reply, now)) && reply.runtime.Some?)
    ensures ResumeStep(c, s, reply, now).timers == TimersAfter(c, s, Resume(reply, now))
  {
  }

  lemma {:induction false} PollTimers(c: Config, s: State, reply: Reply, now: int)
    requires Enabled(s, Resume(reply, now)) && s.tasks.current.value.PollProbe?
    ensures ResumeStep(c, s, reply, now).timers == TimersAfter(c, s, Resume(reply, now))
  {
    if !Polls(s, Resume(reply, now)) || reply.runtime.None? {
      UnseenPollTimers(c, s, reply, now);
    } else if SeesAnother(s) {
      AnotherPollTimers(c, s, reply, now);
    } else {
      SeenPollTimers(c, s, reply, now);
    }
  }

  lemma {:induction false} OtherTimers(c: Config, s: State, reply: Reply, now: int)
    requires Enabled(s, Resume(reply, now)) && Other(s.tasks.current.value)
    ensures ResumeStep(c, s, reply, now).timers == TimersAfter(c, s, Resume(reply, now))
  {
  }

  lemma {:induction false} EntryTimers(c: Config, s: State, e: Event)
    requires TimerIsCurrent(s) && Enabled(s, e) && !e.Resume?
    ensures Step(c, s, e).timers == TimersAfter(c, s, e)
  {
  }

  /** The timers after an event, whatever it is. */
  lemma {:induction false} TimersFollowEvents(c: Config, s: State, e: Event)
    requires TimerIsCurrent(s) && Enabled(s, e)
    ensures Step(c, s, e).timers == TimersAfter(c, s, e)
  {
    if !e.Resume? {
      EntryTimers(c, s, e);
    } else if Launching(s.tasks.current.value) {
      LaunchingTimers(c, s, e.reply, e.nowMs);
    } else if s.tasks.current.value.ProbeOccupant? {
      OccupantTimers(c, s, e.reply, e.nowMs);
    } else if Probing(s.tasks.current.value) {
      ProbingTimers(c, s, e.reply, e.nowMs);
    } else if s.tasks.current.value.DecideExit? {
      DecisionTimers(c, s, e.reply, e.nowMs);
    } else if s.tasks.current.value.PollProbe? {
      PollTimers(c, s, e.reply, e.nowMs);
    } else {
      OtherTimers(c, s, e.reply, e.nowMs);
    }
  }

  // The tasks.

  /** A poll is asked for and none is waiting. */
  predicate AsksForPoll(s: State, e: Event) {
    !s.tasks.pollQueued && ((e.PollTick? && (s.intent.running || s.intent.probeOnly))
                            || (e.StartProbing? && !s.intent.running))
  }

  /** What an event appends to the queue. */
  function Appended(s: State, e: Event): seq<Task>
    requires Enabled(s, e)
  {
    if Accepts(s, e) then
      [if e.Start? then Reconcile(s.intent.generation + 1) else RestartRun(s.intent.generation + 1)]
    else if e.Stop? then [StopRun(s.intent.generation + 1)]
    else if e.RetryFires? then [Reconcile(s.intent.generation)]
    else if e.RunSettles? then [RunSettled(s.world.runs[e.child], e.alreadyRunning)]
    else if AsksForPoll(s, e) then [Poll(s.intent.generation)]
    else []
  }

  /** The first await of a reconciliation, if it has anything to do. */
  function FirstAwait(c: Config, s: State, generation: nat, outOfSight: bool): Option<Point> {
    if !IsCurrent(s, generation) || Fatal(s) || s.links.activeRun.Some? || (s.links.external.Some? && !outOfSight)
    then None
    else Some(if c.owned && !s.links.ownershipHeld then AcquireLease(generation) else ProbeRuntime(generation))
  }

  function EndAwait(s: State, after: AfterExit): Point {
    if s.links.activeRun.Some? then AwaitExit(s.links.activeRun.value, false, after) else Terminated(after)
  }

  /** Where a task is suspended once it has begun, if it is. */
  function BegunAwait(c: Config, s: State, task: Task): Option<Point> {
    match task
    case Reconcile(generation) => FirstAwait(c, s, generation, false)
    case StopRun(generation) => Some(EndAwait(s, ThenStop(generation)))
    case RestartRun(generation) => Some(EndAwait(s, ThenReconcile(generation)))
    case RunSettled(run, alreadyRunning) =>
      if s.links.activeRun != Some(run) || !IsCurrent(s, run.generation) then None
      else Some(if !alreadyRunning then DecideExit(run.generation)
                else if s.links.ownershipHeld then ProbeAfterConflict(run.generation)
                else ReleaseAfterConflict(run.generation))
    case Poll(generation) =>
      if !s.intent.running && s.intent.probeOnly then Some(InspectOnly)
      else if !IsCurrent(s, generation) then None
      else Some(if s.links.externalHost.Some? && c.owned && c.inspects then InspectAttached(generation)
                else PollProbe(generation))
  }

  /** Where the running task is suspended next, if it is. */
  function NextAwait(c: Config, s: State, e: Event): Option<Point>
    requires Enabled(s, e) && e.Resume?
  {
    match s.tasks.current.value
    case AcquireLease(generation) =>
      if e.reply.Rejected? then None
      else if IsCurrent(s, generation) then
        Some(if e.reply.Acquired? then ProbeRuntime(generation)
             else ProbeOccupant(generation, e.reply.owner, e.reply.description))
      else if e.reply.Acquired? then Some(ReleaseStaleLease) else None
    case ProbeRuntime(generation) =>
      if Acts(s, e) && e.reply == Observed(None) then Some(PrepareLaunch(generation)) else None
    case AwaitExit(run, forced, after) =>
      if e.reply.Exited? then Some(Terminated(after))
      else if forced then None else Some(AwaitExit(run, true, after))
    case Terminated(ThenStop(_)) => Some(ReleaseAfterStop)
    case Terminated(ThenReconcile(generation)) => FirstAwait(c, s, generation, false)
    case ReleaseAfterConflict(generation) => if c.attach then Some(ProbeForeign(generation)) else None
    case DecideExit(generation) =>
      if ExitsCleanly(s, e) then Some(ReleaseAfterExit)
      else if e.reply == Decided(RestartExit) then FirstAwait(c, s, generation, false) else None
    case InspectOnly =>
      if e.reply.Owner? && s.intent.probeOnly && !s.intent.running then Some(ProbeOnly(e.reply.owner)) else None
    case InspectAttached(generation) =>
      if !Acts(s, e) || e.reply.Rejected? then None
      else if HostGone(s, e) then FirstAwait(c, s, generation, true) else Some(PollProbe(generation))
    case PollProbe(generation) =>
      if Misses(s, e) && s.links.external.Some? && s.links.probeFailures + 1 >= c.probeFailureThreshold
      then FirstAwait(c, s, generation, true) else None
    case _ => None
  }

  function TasksAfter(c: Config, s: State, e: Event): Tasks
    requires Enabled(s, e)
  {
    var runs := e.BeginTask? || e.Resume?;
    var polling := if e.BeginTask? then s.tasks.queue[0].Poll? else s.tasks.polling;
    var current := if e.BeginTask? then BegunAwait(c, s, s.tasks.queue[0])
                   else if e.Resume? then NextAwait(c, s, e) else s.tasks.current;
    var ended := runs && current.None?;
    Tasks(Remaining(s, e) + Appended(s, e), current, polling && !ended,
          if AsksForPoll(s, e) then true
          else s.tasks.pollQueued && !(ended && polling)
               && !(s.timers.poll && (e.Stop? || Condemned(c, s, e) || ExitsCleanly(s, e))))
  }

  ghost predicate TasksFollow(c: Config, s: State, e: Event)
    requires Enabled(s, e)
  {
    Step(c, s, e).tasks == TasksAfter(c, s, e)
  }

  lemma {:induction false} RetryTasks(c: Config, s: State, generation: nat, count: bool, oom: bool, now: int)
    ensures var t := Finish(ScheduleRetry(c, s, generation, count, oom, now)).tasks;
            t == Tasks(s.tasks.queue, None, false,
                       && s.tasks.pollQueued && !s.tasks.polling
                       && !(&& s.timers.poll && IsCurrent(s, generation) && !Fatal(s) && count
                            && TooMany(c, s, oom, now).Some? && TooMany(c, s, oom, now) != s.intent.fatalReason))
  {
  }

  lemma {:induction false} LaunchingTasks(c: Config, s: State, reply: Reply, now: int)
    requires Enabled(s, Resume(reply, now)) && Launching(s.tasks.current.value)
    ensures TasksFollow(c, s, Resume(reply, now))
  {
    RetryTasks(c, s, s.tasks.current.value.generation, true, false, now);
  }

  lemma {:induction false} OccupantTasks(c: Config, s: State, reply: Reply, now: int)
    requires Enabled(s, Resume(reply, now)) && s.tasks.current.value.ProbeOccupant?
    ensures TasksFollow(c, s, Resume(reply, now))
  {
    RetryTasks(c, s, s.tasks.current.value.generation, false, false, now);
  }

  lemma {:induction false} ProbingTasks(c: Config, s: State, reply: Reply, now: int)
    requires Enabled(s, Resume(reply, now)) && Probing(s.tasks.current.value) && !s.tasks.current.value.ProbeOccupant?
    ensures TasksFollow(c, s, Resume(reply, now))
  {
    RetryTasks(c, s, s.tasks.current.value.generation, false, false, now);
  }

  lemma {:induction false} RetriedTasks(c: Config, s: State, reply: Reply, now: int)
    requires Enabled(s, Resume(reply, now)) && s.tasks.current.value.DecideExit? && AsksForRetry(reply)
    ensures TasksFollow(c, s, Resume(reply, now))
  {
    RetryTasks(c, s, s.tasks.current.value.generation, CountsRetry(reply), OomRetry(reply), now);
  }

  lemma {:induction false} DecidedTasks(c: Config, s: State, reply: Reply, now: int)
    requires Enabled(s, Resume(reply, now)) && s.tasks.current.value.DecideExit? && !AsksForRetry(reply)
    ensures TasksFollow(c, s, Resume(reply, now))
  {
  }

  lemma {:induction false} AnotherPollTasks(c: Config, s: State, reply: Reply, now: int)
    requires Sighted(s) && Enabled(s, Resume(reply, now)) && Polls(s, Resume(reply, now))
    requires reply.runtime.Some? && SeesAnother(s)
    ensures TasksFollow(c, s, Resume(reply, now))
  {
  }

  lemma {:induction false} SeenPollTasks(c: Config, s: State, reply: Reply, now: int)
    requires Sighted(s) && Enabled(s, Resume(reply, now)) && Polls(s, Resume(reply, now))
    requires reply.runtime.Some? && !SeesAnother(s)
    ensures TasksFollow(c, s, Resume(reply, now))
  {
    RetryTasks(c, s.(links := s.links.(probeFailures := 0)), s.intent.generation, false, false, now);
  }

  lemma {:induction false} UnseenPollTasks(c: Config, s: State, reply: Reply, now: int)
    requires Enabled(s, Resume(reply, now)) && s.tasks.current.value.PollProbe?
    requires !(Polls(s, Resume(reply, now)) && reply.runtime.Some?)
    ensures TasksFollow(c, s, Resume(reply, now))
  {
  }

  lemma {:induction false} PollTasks(c: Config, s: State, reply: Reply, now: int)
    requires Sighted(s) && Enabled(s, Resume(reply, now)) && s.tasks.current.value.PollProbe?
    ensures TasksFollow(c, s, Resume(reply, now))
  {
    if !Polls(s, Resume(reply, now)) || reply.runtime.None? {
      UnseenPollTasks(c, s, reply, now);
    } else if SeesAnother(s) {
      AnotherPollTasks(c, s, reply, now);
    } else {
      SeenPollTasks(c, s, reply, now);
    }
  }

  lemma {:induction false} OtherTasks(c: Config, s: State, reply: Reply, now: int)
    requires Safe(c, s) && Enabled(s, Resume(reply, now)) && Other(s.tasks.current.value)
    ensures TasksFollow(c, s, Resume(reply, now))
  {
  }

  lemma {:induction false} EntryTasks(c: Config, s: State, e: Event)
    requires TimerIsCurrent(s) && Enabled(s, e) && !e.Resume? && !e.BeginTask?
    ensures TasksFollow(c, s, e)
  {
  }

  lemma {:induction false} BegunTasks(c: Config, s: State)
    requires Enabled(s, BeginTask)
    ensures TasksFollow(c, s, BeginTask)
  {
  }

  /** The queue, where the running task is suspended, and whether a poll waits, after an event, whatever it is. */
  lemma {:induction false} TasksFollowEvents(c: Config, s: State, e: Event)
    requires Good(c, s) && HostOk(s) && Enabled(s, e)
    ensures TasksFollow(c, s, e)
  {
    if e.BeginTask? {
      BegunTasks(c, s);
    } else if !e.Resume? {
      EntryTasks(c, s, e);
    } else if Launching(s.tasks.current.value) {
      LaunchingTasks(c, s, e.reply, e.nowMs);
    } else if s.tasks.current.value.ProbeOccupant? {
      OccupantTasks(c, s, e.reply, e.nowMs);
    } else if Probing(s.tasks.current.value) {
      ProbingTasks(c, s, e.reply, e.nowMs);
    } else if s.tasks.current.value.DecideExit? && AsksForRetry(e.reply) {
      RetriedTasks(c, s, e.reply, e.nowMs);
    } else if s.tasks.current.value.DecideExit? {
      DecidedTasks(c, s, e.reply, e.nowMs);
    } else if s.tasks.current.value.PollProbe? {
      PollTasks(c, s, e.reply, e.nowMs);
    } else {
      OtherTasks(c, s, e.reply, e.nowMs);
    }
  }

  // The processes.

  function RunAfter(s: State, e: Event): Option<Run> {
    if Prepared(s, e) then Some(Run(|s.world.runs|, s.intent.generation, e.reply.pid))
    else if || (e.BeginTask? && s.tasks.queue != [] && s.tasks.queue[0].RunSettled?
                && s.links.activeRun == Some(s.tasks.queue[0].run))
            || (e.Resume? && e.reply.Exited?)
    then None
    else s.links.activeRun
  }

  function WorldAfter(s: State, e: Event): World {
    World(
      if TakesTheLease(s, e) then true else if GivesTheLeaseBack(s, e) then false else s.world.lease,
      if Prepared(s, e) then s.world.runs + [Run(|s.world.runs|, s.intent.generation, e.reply.pid)] else s.world.runs,
      if Prepared(s, e) then s.world.alive + {|s.world.runs|}
      else if e.ChildExits? then s.world.alive - {e.child} else s.world.alive,
      if e.RunSettles? then s.world.settled + {e.child} else s.world.settled)
  }

  ghost predicate ProcessesFollow(c: Config, s: State, e: Event)
    requires Enabled(s, e)
  {
    var t, w := Step(c, s, e), WorldAfter(s, e);
    t.links.activeRun == RunAfter(s, e) && t.world.alive == w.alive && t.world.settled == w.settled
  }

  lemma {:induction false} RetryProcesses(c: Config, s: State, generation: nat, count: bool, oom: bool, now: int)
    ensures var t := Finish(ScheduleRetry(c, s, generation, count, oom, now));
            t.links.activeRun == s.links.activeRun && t.world == s.world
  {
  }

  lemma {:induction false} DecidingProcesses(c: Config, s: State, reply: Reply, now: int)
    requires Enabled(s, Resume(reply, now))
    requires Launching(s.tasks.current.value) || Probing(s.tasks.current.value)
    ensures ProcessesFollow(c, s, Resume(reply, now))
  {
    RetryProcesses(c, s, s.tasks.current.value.generation, true, false, now);
    RetryProcesses(c, s, s.tasks.current.value.generation, false, false, now);
  }

  lemma {:induction false} DecisionProcesses(c: Config, s: State, reply: Reply, now: int)
    requires Enabled(s, Resume(reply, now)) && s.tasks.current.value.DecideExit?
    ensures ProcessesFollow(c, s, Resume(reply, now))
  {
    if AsksForRetry(reply) {
      RetryProcesses(c, s, s.tasks.current.value.generation, CountsRetry(reply), OomRetry(reply), now);
    }
  }

  lemma {:induction false} AnotherPollProcesses(c: Config, s: State, reply: Reply, now: int)
    requires Enabled(s, Resume(reply, now)) && Polls(s, Resume(reply, now))
    requires reply.runtime.Some? && SeesAnother(s)
    ensures ProcessesFollow(c, s, Resume(reply, now))
  {
  }

  lemma {:induction false} SeenPollProcesses(c: Config, s: State, reply: Reply, now: int)
    requires Enabled(s, Resume(reply, now)) && Polls(s, Resume(reply, now))
    requires reply.runtime.Some? && !SeesAnother(s)
    ensures ProcessesFollow(c, s, Resume(reply, now))
  {
    RetryProcesses(c, s.(links := s.links.(probeFailures := 0)), s.intent.generation, false, false, now);
  }

  lemma {:induction false} UnseenPollProcesses(c: Config, s: State, reply: Reply, now: int)
    requires Enabled(s, Resume(reply, now)) && s.tasks.current.value.PollProbe?
    requires !(Polls(s, Resume(reply, now)) && reply.runtime.Some?)
    ensures ProcessesFollow(c, s, Resume(reply, now))
  {
  }

  lemma {:induction false} PollProcesses(c: Config, s: State, reply: Reply, now: int)
    requires Enabled(s, Resume(reply, now)) && s.tasks.current.value.PollProbe?
    ensures ProcessesFollow(c, s, Resume(reply, now))
  {
    if !Polls(s, Resume(reply, now)) || reply.runtime.None? {
      UnseenPollProcesses(c, s, reply, now);
    } else if SeesAnother(s) {
      AnotherPollProcesses(c, s, reply, now);
    } else {
      SeenPollProcesses(c, s, reply, now);
    }
  }

  lemma {:induction false} OtherProcesses(c: Config, s: State, e: Event)
    requires Safe(c, s) && Enabled(s, e) && (e.Resume? ==> Other(s.tasks.current.value))
    ensures ProcessesFollow(c, s, e)
  {
  }

  lemma {:induction false} ProcessesFollowEvents(c: Config, s: State, e: Event)
    requires Safe(c, s) && Enabled(s, e)
    ensures ProcessesFollow(c, s, e)
  {
    if !e.Resume? || Other(s.tasks.current.value) {
      OtherProcesses(c, s, e);
    } else if s.tasks.current.value.DecideExit? {
      DecisionProcesses(c, s, e.reply, e.nowMs);
    } else if s.tasks.current.value.PollProbe? {
      PollProcesses(c, s, e.reply, e.nowMs);
    } else {
      DecidingProcesses(c, s, e.reply, e.nowMs);
    }
  }

  // The whole machine.

  function LinksAfter(c: Config, s: State, e: Event): Links {
    var sight, world := SightAfter(c, s, e), WorldAfter(s, e);
    Links(RunAfter(s, e), sight.external, sight.host, world.lease, sight.misses)
  }

  function WindowsAfter(c: Config, s: State, e: Event): Windows {
    var log, oomLog := LogAfter(s, e, false), LogAfter(s, e, true);
    Windows(Replay(log, c.windowMs), Replay(oomLog, c.oomWindowMs), log, oomLog)
  }

  /** The state after an event, field by field. */
  function Told(c: Config, s: State, e: Event): State
    requires Enabled(s, e)
  {
    State(IntentAfter(c, s, e), TasksAfter(c, s, e), LinksAfter(c, s, e), TimersAfter(c, s, e),
          WindowsAfter(c, s, e), WorldAfter(s, e))
  }

  lemma {:induction false} WorldIsTold(c: Config, s: State, e: Event)
    requires Safe(c, s) && Agreed(s) && Enabled(s, e)
    ensures Step(c, s, e).world == WorldAfter(s, e)
    ensures Step(c, s, e).links.activeRun == RunAfter(s, e)
    ensures Step(c, s, e).links.ownershipHeld == WorldAfter(s, e).lease
  {
    LeaseFollowsEvents(c, s, e);
    ProcessesFollowEvents(c, s, e);
    SpawnsOnlyWhenPrepared(c, s, e);
    var w := Step(c, s, e).world;
    assert w == World(w.lease, w.runs, w.alive, w.settled);
  }

  lemma {:induction false} LinksAreTold(c: Config, s: State, e: Event)
    requires Good(c, s) && HostOk(s) && Agreed(s) && Enabled(s, e)
    ensures Step(c, s, e).links == LinksAfter(c, s, e)
  {
    WorldIsTold(c, s, e);
    SightFollowsEvents(c, s, e);
    var t := Step(c, s, e).links;
    assert t == Links(t.activeRun, t.external, t.externalHost, t.ownershipHeld, t.probeFailures);
    assert InSight(Step(c, s, e)) == Sight(t.external, t.externalHost, t.probeFailures);
  }

  lemma {:induction false} WindowsAreTold(c: Config, s: State, e: Event)
    requires WindowsOk(c, s.windows) && Enabled(s, e)
    ensures Step(c, s, e).windows == WindowsAfter(c, s, e)
  {
    LogsFollowEvents(c, s, e);
    StepKeepsWindows(c, s, e);
    var w := Step(c, s, e).windows;
    assert w == Windows(w.failures, w.oomFailures, w.failureLog, w.oomLog);
  }

  lemma {:induction false} GoodStepIsTold(c: Config, s: State, e: Event)
    requires Good(c, s) && HostOk(s) && Agreed(s) && WindowsOk(c, s.windows) && Enabled(s, e)
    ensures Step(c, s, e) == Told(c, s, e)
  {
    IntentFollowsEvents(c, s, e);
    TasksFollowEvents(c, s, e);
    LinksAreTold(c, s, e);
    TimersFollowEvents(c, s, e);
    WindowsAreTold(c, s, e);
    WorldIsTold(c, s, e);
    var t := Step(c, s, e);
    assert t == State(t.intent, t.tasks, t.links, t.timers, t.windows, t.world);
  }

  /** In every reachable state the code, task by task, does what is told of each field, event by event. */
  lemma {:induction false} StepIsTold(c: Config, events: seq<Event>, s: State, e: Event)
    requires Leads(c, INITIAL, events, s) && Enabled(s, e)
    ensures Step(c, s, e) == Told(c, s, e)
  {
    RunKeepsSighted(c, INITIAL, events, s);
    RunKeepsAgreed(c, INITIAL, events, s);
    RunKeepsWindows(c, INITIAL, events, s);
    GoodStepIsTold(c, s, e);
  }
}
