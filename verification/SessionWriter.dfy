/** packages/harness-pi/src/profile.ts, acquireSessionWriter: a lock file with the writer's PID,
    taken and given back only while the process lock `<lock>.guard` is held. */
module SessionWriter {
  import opened Options
  import L = ProcessLock

  /** The content of the lock file; only a PID line can name an exited owner. */
  datatype Record = PidLine(pid: nat) | OtherText(text: string)

  /** What a call does under its guard: the record it has read is probed in a step of its own. `Freed`: it
      has failed or released and gives the guard back. */
  datatype Phase =
    | Linking | Reading | Probing(record: Record) | Replacing | Relinking
    | Sweeping | Writing | Closing | Freed

  /** `phases` has no entry for a call that has not done anything under its guard yet. */
  datatype State = State(guard: L.State, file: Option<Record>, phases: map<L.Entry, Phase>)

  datatype Event = Guard(e: L.Event) | Writer(owner: L.Entry, outcome: L.Outcome)

  function PhaseOf(s: State, owner: L.Entry): Phase {
    if owner in s.phases then s.phases[owner] else Linking
  }

  predicate UnderGuard(s: State, owner: L.Entry) {
    owner in s.guard.calls && s.guard.calls[owner].alive && s.guard.calls[owner].pc == L.Holding
  }

  predicate Enabled(s: State, e: Event) {
    match e
    case Guard(g) =>
      && L.Enabled(s.guard, g)
      && (g.Begin? ==> g.owner !in s.phases)
      && (g.Advance? && UnderGuard(s, g.owner) ==> PhaseOf(s, g.owner) == Freed)
    case Writer(owner, outcome) =>
      && UnderGuard(s, owner) && owner.Named? && PhaseOf(s, owner) != Freed
      && (outcome.Works? && PhaseOf(s, owner) in {Linking, Relinking} ==> s.file.None?)
      && (outcome.Works? && PhaseOf(s, owner) in {Reading, Replacing} ==> s.file.Some?)
      && (outcome.Refused? ==> PhaseOf(s, owner) == Linking && s.file.Some?)
  }

  function WriterStep(s: State, owner: L.Entry, outcome: L.Outcome): State
    requires owner.Named?
  {
    var to := (phase: Phase) => s.phases[owner := phase];
    var broken := s.(phases := to(Freed));
    match PhaseOf(s, owner)
    case Linking =>
      if outcome.Works? then s.(file := Some(PidLine(owner.pid)), phases := to(Sweeping))
      else if outcome.Refused? then s.(phases := to(Reading))
      else broken
    case Reading =>
      if outcome.Works? && s.file.Some? then s.(phases := to(Probing(s.file.value))) else broken
    case Probing(record) =>
      if record.PidLine? && record.pid !in s.guard.live then s.(phases := to(Replacing)) else broken
    case Replacing => if outcome.Works? then s.(file := None, phases := to(Relinking)) else broken
    case Relinking =>
      if outcome.Works? then s.(file := Some(PidLine(owner.pid)), phases := to(Sweeping)) else broken
    case Sweeping => if outcome.Works? then s.(phases := to(Writing)) else broken
    case Writing => s.(phases := to(Closing))
    case Closing => if outcome.Works? then s.(file := None, phases := to(Freed)) else broken
    case Freed => s
  }

  function Step(s: State, e: Event): State
    requires Enabled(s, e)
  {
    match e
    case Guard(g) => s.(guard := L.Step(s.guard, g))
    case Writer(owner, outcome) => WriterStep(s, owner, outcome)
  }

  ghost predicate Leads(s: State, events: seq<Event>, t: State)
    decreases |events|
  {
    if events == [] then s == t
    else Enabled(s, events[0]) && Leads(Step(s, events[0]), events[1..], t)
  }

  /** Any lock file and any guard directory may be left over from earlier processes. */
  ghost predicate Reachable(s: State) {
    exists s0: State, events :: L.Initial(s0.guard) && s0.phases == map[] && Leads(s0, events, s)
  }

  /** The call may write the session file. */
  predicate IsWriter(s: State, owner: L.Entry) {
    UnderGuard(s, owner) && PhaseOf(s, owner) == Writing
  }

  /** The lock file carries the call's own record. */
  predicate HasRecord(s: State, owner: L.Entry) {
    UnderGuard(s, owner) && PhaseOf(s, owner) in {Sweeping, Writing, Closing}
  }

  ghost predicate Inv(s: State) {
    && L.Inv(s.guard)
    && (forall owner :: owner in s.phases ==>
          owner in s.guard.calls && s.guard.calls[owner].pc in {L.Holding, L.Releasing, L.Clearing(true), L.Ended})
    && (forall owner :: HasRecord(s, owner) ==> owner.Named? && s.file == Some(PidLine(owner.pid)))
  }

  lemma {:induction false} GuardKeepsInv(s: State, g: L.Event)
    requires Inv(s) && Enabled(s, Guard(g))
    ensures Inv(Step(s, Guard(g)))
  {
    L.StepKeepsInv(s.guard, g);
    var t := Step(s, Guard(g));
    forall owner | HasRecord(t, owner)
      ensures HasRecord(s, owner)
    {
    }
  }

  lemma {:induction false} WriterKeepsInv(s: State, owner: L.Entry, outcome: L.Outcome)
    requires Inv(s) && Enabled(s, Writer(owner, outcome))
    ensures Inv(Step(s, Writer(owner, outcome)))
  {
    var t := Step(s, Writer(owner, outcome));
    forall other | HasRecord(t, other)
      ensures other.Named? && t.file == Some(PidLine(other.pid))
    {
      L.OneHolder(s.guard, other, owner);
    }
  }

  lemma {:induction false} StepKeepsInv(s: State, e: Event)
    requires Inv(s) && Enabled(s, e)
    ensures Inv(Step(s, e))
  {
    match e
    case Guard(g) => GuardKeepsInv(s, g);
    case Writer(owner, outcome) => WriterKeepsInv(s, owner, outcome);
  }

  lemma {:induction false} RunKeepsInv(s: State, events: seq<Event>, t: State)
    requires Inv(s) && Leads(s, events, t)
    ensures Inv(t)
    decreases |events|
  {
    if events != [] {
      StepKeepsInv(s, events[0]);
      RunKeepsInv(Step(s, events[0]), events[1..], t);
    }
  }

  /** Two live session writers of one file never coexist, and the lock file names the one there is. */
  lemma {:induction false} OneSessionWriter(s: State, a: L.Entry)
    requires Reachable(s) && IsWriter(s, a)
    ensures a.Named? && s.file == Some(PidLine(a.pid)) && s.guard.directory == Some({a})
    ensures forall b :: IsWriter(s, b) ==> b == a
  {
    var s0: State, events :| L.Initial(s0.guard) && s0.phases == map[] && Leads(s0, events, s);
    RunKeepsInv(s0, events, s);
    assert HasRecord(s, a) && L.HoldsLock(s.guard, a);
    forall b | IsWriter(s, b)
      ensures b == a
    {
      L.OneHolder(s.guard, a, b);
    }
  }

  /** No step of any other call removes or replaces the record of a live writer. */
  lemma {:induction false} WriterIsUndisturbed(s: State, e: Event, writer: L.Entry)
    requires Reachable(s) && IsWriter(s, writer) && Enabled(s, e)
    requires !(e.Writer? && e.owner == writer)
    ensures Step(s, e).file == s.file
  {
    if e.Writer? {
      var s0: State, events :| L.Initial(s0.guard) && s0.phases == map[] && Leads(s0, events, s);
      RunKeepsInv(s0, events, s);
      L.OneHolder(s.guard, writer, e.owner);
    }
  }

  // A call that nobody interferes with, from the moment it has the guard.

  /** There is no writer: no lock file, or one whose process has exited. */
  predicate Takeable(s: State) {
    s.file.None? || (s.file.value.PidLine? && s.file.value.pid !in s.guard.live)
  }

  /** One call runs alone under its guard, until it is the writer at most, and no system call breaks. */
  ghost predicate Alone(s: State, owner: L.Entry, events: seq<Event>, t: State)
    decreases |events|
  {
    if events == [] then s == t
    else
      && events[0].Writer? && events[0].owner == owner && Enabled(s, events[0]) && !events[0].outcome.Breaks?
      && PhaseOf(s, owner) != Writing && Alone(Step(s, events[0]), owner, events[1..], t)
  }

  predicate OnTheWay(s: State, owner: L.Entry) {
    match PhaseOf(s, owner)
    case Linking => Takeable(s)
    case Reading => Takeable(s) && s.file.Some?
    case Probing(record) => Takeable(s) && s.file == Some(record)
    case Replacing => s.file.Some?
    case Relinking => s.file.None?
    case Closing => false
    case Freed => false
    case _ => owner.Named? && s.file == Some(PidLine(owner.pid))
  }

  predicate IsRefused(s: State, owner: L.Entry) {
    && !Takeable(s)
    && (PhaseOf(s, owner) in {Linking, Reading, Freed} || PhaseOf(s, owner) == Probing(s.file.value))
  }

  lemma {:induction false} StaysOnTheWay(s: State, owner: L.Entry, outcome: L.Outcome)
    requires OnTheWay(s, owner) && Enabled(s, Writer(owner, outcome)) && !outcome.Breaks?
    requires PhaseOf(s, owner) != Writing
    ensures OnTheWay(WriterStep(s, owner, outcome), owner)
  {
  }

  lemma {:induction false} StaysRefused(s: State, owner: L.Entry, outcome: L.Outcome)
    requires IsRefused(s, owner) && Enabled(s, Writer(owner, outcome)) && !outcome.Breaks?
    ensures IsRefused(WriterStep(s, owner, outcome), owner) && WriterStep(s, owner, outcome).file == s.file
  {
  }

  lemma {:induction false} AloneStaysOnTheWay(s: State, owner: L.Entry, events: seq<Event>, t: State)
    requires OnTheWay(s, owner) && Alone(s, owner, events, t)
    ensures OnTheWay(t, owner)
    decreases |events|
  {
    if events != [] {
      StaysOnTheWay(s, owner, events[0].outcome);
      AloneStaysOnTheWay(Step(s, events[0]), owner, events[1..], t);
    }
  }

  lemma {:induction false} AloneStaysRefused(s: State, owner: L.Entry, events: seq<Event>, t: State)
    requires IsRefused(s, owner) && Alone(s, owner, events, t)
    ensures IsRefused(t, owner) && t.file == s.file
    decreases |events|
  {
    if events != [] {
      StaysRefused(s, owner, events[0].outcome);
      AloneStaysRefused(Step(s, events[0]), owner, events[1..], t);
    }
  }

  /** A call that runs alone under its guard, when it is through, is the writer exactly when there was none: then the
      lock file carries its record, and otherwise it is left as it was. */
  lemma {:induction false} AloneWritesExactly(s: State, owner: L.Entry, events: seq<Event>, t: State)
    requires PhaseOf(s, owner) == Linking && Alone(s, owner, events, t)
    requires PhaseOf(t, owner) == Writing || PhaseOf(t, owner) == Freed
    ensures PhaseOf(t, owner) == Writing <==> Takeable(s)
    ensures if Takeable(s) then owner.Named? && t.file == Some(PidLine(owner.pid)) else t.file == s.file
  {
    if Takeable(s) {
      AloneStaysOnTheWay(s, owner, events, t);
    } else {
      AloneStaysRefused(s, owner, events, t);
    }
  }

  lemma LeadsCons(s: State, e: Event, events: seq<Event>, t: State)
    requires Enabled(s, e) && Leads(Step(s, e), events, t)
    ensures Leads(s, [e] + events, t)
  {
    assert ([e] + events)[1..] == events;
  }

  /** The record of a dead writer is no obstacle. */
  lemma {:induction false} DeadWriterIsReplaced(s: State, owner: L.Entry)
    requires UnderGuard(s, owner) && owner.Named? && PhaseOf(s, owner) == Linking
    requires s.file.Some? && s.file.value.PidLine? && s.file.value.pid !in s.guard.live
    ensures var works := Writer(owner, L.Works);
            exists t :: Leads(s, [Writer(owner, L.Refused), works, works, works, works, works], t)
                        && IsWriter(t, owner) && t.file == Some(PidLine(owner.pid))
  {
    var works := Writer(owner, L.Works);
    var s1 := Step(s, Writer(owner, L.Refused));
    var s2 := Step(s1, works);
    var s3 := Step(s2, works);
    var s4 := Step(s3, works);
    var s5 := Step(s4, works);
    var t := Step(s5, works);
    LeadsCons(s5, works, [], t);
    LeadsCons(s4, works, [works], t);
    LeadsCons(s3, works, [works, works], t);
    LeadsCons(s2, works, [works, works, works], t);
    LeadsCons(s1, works, [works, works, works, works], t);
    LeadsCons(s, Writer(owner, L.Refused), [works, works, works, works, works], t);
    assert [Writer(owner, L.Refused)] + [works, works, works, works, works]
        == [Writer(owner, L.Refused), works, works, works, works, works];
  }

  lemma {:induction false} RecordIsRemoved(s: State, owner: L.Entry)
    requires IsWriter(s, owner) && owner.Named? && s.file.Some?
    ensures var works := Writer(owner, L.Works);
            exists t :: Leads(s, [works, works], t) && t.file == None && t.guard == s.guard
                        && UnderGuard(t, owner) && PhaseOf(t, owner) == Freed
  {
    var works := Writer(owner, L.Works);
    var s1 := Step(s, works);
    var t := Step(s1, works);
    LeadsCons(s1, works, [], t);
    LeadsCons(s, works, [works], t);
    assert [works] + [works] == [works, works];
  }

  lemma {:induction false} GuardIsGivenBack(s: State, owner: L.Entry)
    requires UnderGuard(s, owner) && PhaseOf(s, owner) == Freed && s.guard.directory == Some({owner})
    ensures var back := Guard(L.Advance(owner, L.Works));
            exists t :: Leads(s, [back, back, back], t) && t.file == s.file && t.guard.directory == None
  {
    var back := Guard(L.Advance(owner, L.Works));
    var s1 := Step(s, back);
    var s2 := Step(s1, back);
    assert {owner} - {owner} == {};
    assert s2.guard.directory == Some({});
    var t := Step(s2, back);
    LeadsCons(s2, back, [], t);
    LeadsCons(s1, back, [back], t);
    LeadsCons(s, back, [back, back], t);
    assert [back] + [back, back] == [back, back, back];
  }

  lemma {:induction false} LeadsAppend(s: State, a: seq<Event>, t: State, b: seq<Event>, u: State)
    requires Leads(s, a, t) && Leads(t, b, u)
    ensures Leads(s, a + b, u)
    decreases |a|
  {
    if a == [] {
      assert a + b == b;
    } else {
      assert (a + b)[1..] == a[1..] + b;
      LeadsAppend(Step(s, a[0]), a[1..], t, b, u);
    }
  }

  /** A writer that closes takes its record away, gives the guard back, and leaves neither behind. */
  lemma {:induction false} CloseFreesTheSession(s: State, owner: L.Entry)
    requires Reachable(s) && IsWriter(s, owner)
    ensures var works, back := Writer(owner, L.Works), Guard(L.Advance(owner, L.Works));
            exists u :: Leads(s, [works, works] + [back, back, back], u)
                        && u.file == None && u.guard.directory == None
  {
    OneSessionWriter(s, owner);
    var works, back := Writer(owner, L.Works), Guard(L.Advance(owner, L.Works));
    RecordIsRemoved(s, owner);
    var t :| Leads(s, [works, works], t) && t.file == None && t.guard == s.guard
             && UnderGuard(t, owner) && PhaseOf(t, owner) == Freed;
    GuardIsGivenBack(t, owner);
    var u :| Leads(t, [back, back, back], u) && u.file == t.file && u.guard.directory == None;
    LeadsAppend(s, [works, works], t, [back, back, back], u);
  }

  /** A system call that breaks under the guard changes nothing, and the guard is given back before the failure is
      reported. */
  lemma {:induction false} FailureGivesTheGuardBack(s: State, owner: L.Entry)
    requires Reachable(s) && Enabled(s, Writer(owner, L.Breaks))
    requires PhaseOf(s, owner) != Writing && !PhaseOf(s, owner).Probing?
    ensures var breaks, back := Writer(owner, L.Breaks), Guard(L.Advance(owner, L.Works));
            exists u :: Leads(s, [breaks] + [back, back, back], u)
                        && u.file == s.file && u.guard.directory == None
  {
    var s0: State, events :| L.Initial(s0.guard) && s0.phases == map[] && Leads(s0, events, s);
    RunKeepsInv(s0, events, s);
    assert L.HoldsLock(s.guard, owner);
    var breaks, back := Writer(owner, L.Breaks), Guard(L.Advance(owner, L.Works));
    var t := Step(s, breaks);
    assert PhaseOf(t, owner) == Freed && t.file == s.file && t.guard == s.guard;
    GuardIsGivenBack(t, owner);
    var u :| Leads(t, [back, back, back], u) && u.file == t.file && u.guard.directory == None;
    LeadsCons(s, breaks, [back, back, back], u);
  }
}
