/** packages/harness-pi/src/process-lock.ts. */
module ProcessLock {
  import opened AcquireLoop
  import opened Options

  // A lock directory shared by any number of processes is the whole shared state. Every system call is one
  // step; between two steps of one caller every other caller can take steps, and any process can die at
  // any moment.

  /** A name inside the lock directory. Only a well-formed PID/UUID name can be probed. */
  datatype Entry = Named(pid: nat, uuid: nat) | Unparsed(text: string)

  /** What a call does next: the probe is a system call of its own, on the names an earlier listing found.
      `Clearing` is the `rmdir` at the end of a recovery or of a release. */
  datatype Pc =
    | Publishing
    | Listing
    | Probing(names: set<Entry>)
    | Unlinking(owner: Entry)
    | Clearing(released: bool)
    | Holding
    | Releasing
    | Ended

  /** One call of `acquireProcessLock`, up to and including its release: the waits it was allowed, the
      counters of its loop, and how each of its rounds has ended. */
  datatype Call = Call(pc: Pc, alive: bool, allowed: int, tries: Tries, rounds: seq<Round>)

  /** `directory` is None when the path does not exist. Calls are keyed by their owner name;
      `live` holds the PIDs in use, which can be reused after a process has died. */
  datatype State = State(directory: Option<set<Entry>>, calls: map<Entry, Call>, live: set<nat>)

  datatype Event =
    | Boot(pid: nat)
    | Crash(pid: nat)
    | Begin(owner: Entry, retries: int)
    | Advance(owner: Entry, outcome: Outcome)

  /** `Works`: the system call has its effect. `Refused`: a rename fails with one of the codes
      that lead to recovery. `Breaks`: any other error, which ends the call. */
  datatype Outcome = Works | Refused | Breaks

  predicate OwnerExited(s: State, name: Entry) {
    name.Named? && name.pid !in s.live
  }

  function SetPc(s: State, owner: Entry, pc: Pc): State
    requires owner in s.calls
  {
    s.(calls := s.calls[owner := s.calls[owner].(pc := pc)])
  }

  /** `rmdir`: it succeeds on an empty directory and is otherwise forgiven. */
  function Rmdir(directory: Option<set<Entry>>): Option<set<Entry>> {
    if directory == Some({}) then None else directory
  }

  function Unlink(directory: Option<set<Entry>>, name: Entry): Option<set<Entry>> {
    if directory.Some? then Some(directory.value - {name}) else None
  }

  /** The names are one whose process has exited. */
  predicate OneExited(s: State, names: set<Entry>) {
    exists name :: name in names && names == {name} && OwnerExited(s, name)
  }

  /** A round of the loop has ended: the next one begins, or the call has failed. */
  function EndRound(call: Call, round: Round): Call {
    var next := AfterRound(call.tries, round);
    var noted := call.(rounds := call.rounds + [round]);
    if round == Published then noted.(pc := Holding)
    else if next.None? then noted.(pc := Ended)
    else noted.(pc := Publishing, tries := next.value)
  }

  function Finished(s: State, owner: Entry, round: Round): State
    requires owner in s.calls
  {
    s.(calls := s.calls[owner := EndRound(s.calls[owner], round)])
  }

  /** A listing has found the name. */
  predicate Knows(pc: Pc, name: Entry) {
    pc == Unlinking(name) || (pc.Probing? && name in pc.names)
  }

  predicate Enabled(s: State, e: Event) {
    match e
    case Boot(pid) => pid !in s.live
    case Crash(pid) => pid in s.live
    case Begin(owner, _) =>
      // A fresh UUID: the name has been used nowhere before.
      && owner.Named? && owner.pid in s.live && owner !in s.calls
      && (s.directory.Some? ==> owner !in s.directory.value)
      && (forall other :: other in s.calls ==> !Knows(s.calls[other].pc, owner))
    case Advance(owner, outcome) =>
      && owner in s.calls && s.calls[owner].alive && s.calls[owner].pc != Ended
      && (s.calls[owner].pc == Publishing && outcome.Works? ==> s.directory == None || s.directory == Some({}))
      && (outcome.Refused? ==> s.calls[owner].pc == Publishing)
  }

  function AdvanceStep(s: State, owner: Entry, outcome: Outcome): State
    requires owner in s.calls
  {
    match s.calls[owner].pc
    case Publishing =>
      if outcome.Works? then Finished(s.(directory := Some({owner})), owner, Published)
      else if outcome.Refused? then SetPc(s, owner, Listing)
      else Finished(s, owner, Broken)
    case Listing =>
      if outcome.Breaks? then Finished(s, owner, Broken)
      else if s.directory.None? then Finished(s, owner, Missing)
      else if s.directory.value == {} then SetPc(s, owner, Clearing(false))
      else SetPc(s, owner, Probing(s.directory.value))
    case Probing(names) =>
      if OneExited(s, names)
      then var name :| name in names && names == {name} && OwnerExited(s, name); SetPc(s, owner, Unlinking(name))
      else Finished(s, owner, Held)
    case Unlinking(name) =>
      if outcome.Breaks? then Finished(s, owner, Broken)
      else SetPc(s.(directory := Unlink(s.directory, name)), owner, Clearing(false))
    case Clearing(released) =>
      if released then SetPc(if outcome.Breaks? then s else s.(directory := Rmdir(s.directory)), owner, Ended)
      else if outcome.Breaks? then Finished(s, owner, Broken)
      else Finished(s.(directory := Rmdir(s.directory)), owner, Recovered)
    case Holding => SetPc(s, owner, Releasing)
    case Releasing =>
      if outcome.Breaks? then SetPc(s, owner, Ended)
      else SetPc(s.(directory := Unlink(s.directory, owner)), owner, Clearing(true))
    case Ended => s
  }

  function Step(s: State, e: Event): State
    requires Enabled(s, e)
  {
    match e
    case Boot(pid) => s.(live := s.live + {pid})
    case Crash(pid) =>
      State(s.directory,
            map owner | owner in s.calls ::
              if owner.Named? && owner.pid == pid then s.calls[owner].(alive := false) else s.calls[owner],
            s.live - {pid})
    case Begin(owner, retries) =>
      s.(calls := s.calls[owner := Call(Publishing, true, retries, Start(retries), [])])
    case Advance(owner, outcome) => AdvanceStep(s, owner, outcome)
  }

  ghost predicate Leads(s: State, events: seq<Event>, t: State)
    decreases |events|
  {
    if events == [] then s == t
    else Enabled(s, events[0]) && Leads(Step(s, events[0]), events[1..], t)
  }

  /** Nothing is running yet; the directory may hold whatever earlier crashes left behind. */
  predicate Initial(s: State) {
    s.calls == map[]
  }

  ghost predicate Reachable(s: State) {
    exists s0, events :: Initial(s0) && Leads(s0, events, s)
  }

  predicate HoldsLock(s: State, owner: Entry) {
    owner in s.calls && s.calls[owner].alive && (s.calls[owner].pc == Holding || s.calls[owner].pc == Releasing)
  }

  /** What every step keeps: a live holder's name is the only one in the directory, and a name
      about to be unlinked by a recoverer belongs to no live call. */
  ghost predicate Inv(s: State) {
    && (forall owner :: owner in s.calls && s.calls[owner].alive ==> owner.Named? && owner.pid in s.live)
    && (forall owner :: HoldsLock(s, owner) ==> s.directory == Some({owner}))
    && (forall owner, name :: owner in s.calls && s.calls[owner].pc == Unlinking(name)
          ==> !(name in s.calls && s.calls[name].alive))
  }

  lemma {:induction false} UnlinksOnlyDead(s: State, owner: Entry, outcome: Outcome)
    requires Inv(s) && Enabled(s, Advance(owner, outcome))
    ensures var pc := AdvanceStep(s, owner, outcome).calls[owner].pc;
            pc.Unlinking? ==> !(pc.owner in s.calls && s.calls[pc.owner].alive)
  {
  }

  /** A step changes the call that makes it, and no other. */
  lemma {:induction false} AdvanceChangesOne(s: State, owner: Entry, outcome: Outcome)
    requires owner in s.calls
    ensures var t := AdvanceStep(s, owner, outcome);
            && owner in t.calls && t.live == s.live && t.calls == s.calls[owner := t.calls[owner]]
            && t.calls[owner].alive == s.calls[owner].alive
  {
  }

  lemma {:induction false} HolderFindsItself(s: State, owner: Entry, outcome: Outcome)
    requires Inv(s) && Enabled(s, Advance(owner, outcome)) && HoldsLock(AdvanceStep(s, owner, outcome), owner)
    ensures AdvanceStep(s, owner, outcome).directory == Some({owner})
  {
  }

  lemma {:induction false} AdvanceKeepsInv(s: State, owner: Entry, outcome: Outcome)
    requires Inv(s) && Enabled(s, Advance(owner, outcome))
    ensures Inv(Step(s, Advance(owner, outcome)))
  {
    var t := AdvanceStep(s, owner, outcome);
    AdvanceChangesOne(s, owner, outcome);
    UnlinksOnlyDead(s, owner, outcome);
    forall other | HoldsLock(t, other)
      ensures t.directory == Some({other})
    {
      if other == owner {
        HolderFindsItself(s, owner, outcome);
      } else {
        assert HoldsLock(s, other);
        OthersLeaveHolder(s, owner, outcome, other);
      }
    }
  }

  lemma {:induction false} OthersLeaveHolder(s: State, owner: Entry, outcome: Outcome, holder: Entry)
    requires Inv(s) && Enabled(s, Advance(owner, outcome)) && HoldsLock(s, holder) && owner != holder
    ensures AdvanceStep(s, owner, outcome).directory == Some({holder})
  {
    assert holder in {holder};
    assert s.directory == Some({holder});
    if HoldsLock(s, owner) {
      OneHolder(s, owner, holder);
    }
    var pc := s.calls[owner].pc;
    if pc.Unlinking? {
      assert {holder} - {pc.owner} == {holder};
    }
  }

  lemma {:induction false} StepKeepsInv(s: State, e: Event)
    requires Inv(s) && Enabled(s, e)
    ensures Inv(Step(s, e))
  {
    match e
    case Advance(owner, outcome) => AdvanceKeepsInv(s, owner, outcome);
    case Crash(pid) =>
      forall other | HoldsLock(Step(s, e), other)
        ensures s.directory == Some({other})
      {
        assert HoldsLock(s, other);
      }
    case Begin(owner, _) =>
      forall other | HoldsLock(Step(s, e), other)
        ensures s.directory == Some({other})
      {
        assert HoldsLock(s, other);
      }
    case Boot(_) =>
      forall other | HoldsLock(Step(s, e), other)
        ensures s.directory == Some({other})
      {
        assert HoldsLock(s, other);
      }
  }

  lemma {:induction false} RunKeepsInv(s: State, events: seq<Event>, t: State)
    requires Inv(s) && Leads(s, events, t)
    ensures Inv(t)
    decreases |events|
  {
    if events != [] {
      StepKeepsInv(s, events[0]);
      RunKeepsInv(Step(s, events[0]), events[1..], t);
    }
  }

  lemma ReachableInv(s: State)
    requires Reachable(s)
    ensures Inv(s)
  {
    var s0, events :| Initial(s0) && Leads(s0, events, s);
    RunKeepsInv(s0, events, s);
  }

  /** Under any interleaving and any crashes, two live calls never hold the lock together. */
  lemma MutualExclusion(s: State, a: Entry, b: Entry)
    requires Reachable(s) && HoldsLock(s, a) && HoldsLock(s, b)
    ensures a == b
  {
    ReachableInv(s);
    OneHolder(s, a, b);
  }

  lemma OneHolder(s: State, a: Entry, b: Entry)
    requires Inv(s) && HoldsLock(s, a) && HoldsLock(s, b)
    ensures a == b
  {
    assert a in {a};
  }

  /** While a live call holds the lock the directory is exactly its owner file, and no step of
      anyone else, however stale the listing it acts on, takes the file or the directory away. */
  lemma {:induction false} HolderIsUndisturbed(s: State, e: Event, holder: Entry)
    requires Reachable(s) && HoldsLock(s, holder) && Enabled(s, e)
    requires !(e.Advance? && e.owner == holder)
    ensures s.directory == Some({holder}) && Step(s, e).directory == Some({holder})
    ensures HoldsLock(Step(s, e), holder) <==> !(e.Crash? && holder.Named? && e.pid == holder.pid)
  {
    ReachableInv(s);
    if e.Advance? {
      OthersLeaveHolder(s, e.owner, e.outcome, holder);
    }
  }

  /** A lock whose owner died is no obstacle: a call that runs alone takes it over. */
  lemma {:induction false} DeadOwnerIsRecovered(s: State, dead: Entry, owner: Entry, retries: int)
    requires s.directory == Some({dead}) && OwnerExited(s, dead)
    requires Enabled(s, Begin(owner, retries))
    ensures var events := [Begin(owner, retries), Advance(owner, Refused), Advance(owner, Works), Advance(owner, Works),
                           Advance(owner, Works), Advance(owner, Works), Advance(owner, Works)];
            exists t :: Leads(s, events, t) && HoldsLock(t, owner) && t.directory == Some({owner})
  {
    var refused, works := Advance(owner, Refused), Advance(owner, Works);
    var s1 := Step(s, Begin(owner, retries));
    var s2 := Step(s1, refused);
    var s3 := Step(s2, works);
    assert dead in {dead};
    assert OneExited(s3, {dead});
    var s4 := Step(s3, works);
    assert s4.calls[owner].pc == Unlinking(dead);
    var s5 := Step(s4, works);
    assert {dead} - {dead} == {};
    assert s5.directory == Some({});
    var s6 := Step(s5, works);
    var s7 := Step(s6, works);
    LeadsCons(s6, works, [], s7);
    LeadsCons(s5, works, [works], s7);
    LeadsCons(s4, works, [works, works], s7);
    LeadsCons(s3, works, [works, works, works], s7);
    LeadsCons(s2, works, [works, works, works, works], s7);
    LeadsCons(s1, refused, [works, works, works, works, works], s7);
    LeadsCons(s, Begin(owner, retries), [refused, works, works, works, works, works], s7);
    assert [Begin(owner, retries)] + [refused, works, works, works, works, works]
        == [Begin(owner, retries), refused, works, works, works, works, works];
  }

  lemma LeadsCons(s: State, e: Event, events: seq<Event>, t: State)
    requires Enabled(s, e) && Leads(Step(s, e), events, t)
    ensures Leads(s, [e] + events, t)
  {
    assert ([e] + events)[1..] == events;
  }

  // A release frees the lock.

  /** A call's own file is in the directory only while it holds the lock, or once it has ended with a release that
      broke. */
  ghost predicate NamesOk(s: State) {
    forall owner :: owner in s.calls && s.directory.Some? && owner in s.directory.value ==>
                      s.calls[owner].pc in {Holding, Releasing, Ended}
  }

  lemma {:induction false} StepKeepsNames(s: State, e: Event)
    requires NamesOk(s) && Enabled(s, e)
    ensures NamesOk(Step(s, e))
  {
    if e.Advance? {
      AdvanceChangesOne(s, e.owner, e.outcome);
      AdvanceKeepsOthersOut(s, e.owner, e.outcome);
    }
  }

  /** No name but the caller's own comes into the directory, and that one only together with the lock. */
  lemma {:induction false} AdvanceKeepsOthersOut(s: State, owner: Entry, outcome: Outcome)
    requires NamesOk(s) && Enabled(s, Advance(owner, outcome))
    ensures var t := AdvanceStep(s, owner, outcome);
            && (forall name :: t.directory.Some? && name in t.directory.value && name != owner ==>
                  s.directory.Some? && name in s.directory.value)
            && (t.directory.Some? && owner in t.directory.value ==> t.calls[owner].pc in {Holding, Releasing, Ended})
            && (t.directory.Some? && owner in t.directory.value && s.calls[owner].pc != Publishing ==>
                  s.directory.Some? && owner in s.directory.value)
  {
  }

  lemma {:induction false} RunKeepsNames(s: State, events: seq<Event>, t: State)
    requires NamesOk(s) && Leads(s, events, t)
    ensures NamesOk(t)
    decreases |events|
  {
    if events != [] {
      StepKeepsNames(s, events[0]);
      RunKeepsNames(Step(s, events[0]), events[1..], t);
    }
  }

  predicate InDirectory(s: State, owner: Entry) {
    s.directory.Some? && owner in s.directory.value
  }

  predicate Released(s: State, owner: Entry) {
    owner in s.calls && !InDirectory(s, owner) && s.calls[owner].pc in {Clearing(true), Ended}
  }

  lemma {:induction false} StaysReleased(s: State, e: Event, owner: Entry)
    requires NamesOk(s) && Released(s, owner) && Enabled(s, e)
    ensures Released(Step(s, e), owner)
  {
    if e.Advance? {
      AdvanceChangesOne(s, e.owner, e.outcome);
      AdvanceKeepsOthersOut(s, e.owner, e.outcome);
    }
  }

  lemma {:induction false} RunStaysReleased(s: State, events: seq<Event>, t: State, owner: Entry)
    requires NamesOk(s) && Released(s, owner) && Leads(s, events, t)
    ensures Released(t, owner)
    decreases |events|
  {
    if events != [] {
      StepKeepsNames(s, events[0]);
      StaysReleased(s, events[0], owner);
      RunStaysReleased(Step(s, events[0]), events[1..], t, owner);
    }
  }

  /** Under any interleaving a call whose release has got as far as its `rmdir` has no file of its own in the directory,
      and never has one again. */
  lemma {:induction false} ReleasedForGood(s: State, owner: Entry, events: seq<Event>, t: State)
    requires Reachable(s) && owner in s.calls && s.calls[owner].pc == Clearing(true)
    requires Leads(s, events, t)
    ensures !InDirectory(s, owner) && !InDirectory(t, owner) && owner in t.calls && !HoldsLock(t, owner)
  {
    var s0, before :| Initial(s0) && Leads(s0, before, s);
    RunKeepsNames(s0, before, s);
    RunStaysReleased(s, events, t, owner);
  }

  /** A holder whose release works leaves no directory behind, and whoever comes next has the lock at once. */
  lemma {:induction false} ReleaseFreesTheLock(s: State, owner: Entry, next: Entry, retries: int)
    requires Reachable(s) && HoldsLock(s, owner) && s.calls[owner].pc == Holding
    requires Enabled(s, Begin(next, retries))
    ensures var works := Advance(owner, Works);
            exists t, u ::
              && Leads(s, [works, works, works], t) && t.directory == None
              && Leads(t, [Begin(next, retries), Advance(next, Works)], u)
              && HoldsLock(u, next) && u.directory == Some({next})
  {
    ReachableInv(s);
    var works := Advance(owner, Works);
    var s1 := Step(s, works);
    var s2 := Step(s1, works);
    assert {owner} - {owner} == {};
    assert s2.directory == Some({});
    var t := Step(s2, works);
    LeadsCons(s2, works, [], t);
    LeadsCons(s1, works, [works], t);
    LeadsCons(s, works, [works, works], t);
    var t1 := Step(t, Begin(next, retries));
    var u := Step(t1, Advance(next, Works));
    LeadsCons(t1, Advance(next, Works), [], u);
    LeadsCons(t, Begin(next, retries), [Advance(next, Works)], u);
    assert [works] + [works, works] == [works, works, works];
    assert [Begin(next, retries)] + [Advance(next, Works)] == [Begin(next, retries), Advance(next, Works)];
  }

  // A call that nobody interferes with.

  /** Nobody has the lock: the directory is missing, empty, or that of one owner whose process has exited. */
  predicate Free(s: State) {
    s.directory.None? || s.directory.value == {} || OneExited(s, s.directory.value)
  }

  /** One call runs alone, until it holds the lock at most. No system call breaks, and a rename is refused only for a
      directory that is not empty. */
  ghost predicate Alone(s: State, owner: Entry, events: seq<Event>, t: State)
    decreases |events|
  {
    if events == [] then s == t
    else
      && events[0].Advance? && events[0].owner == owner && Enabled(s, events[0]) && s.calls[owner].pc != Holding
      && !events[0].outcome.Breaks?
      && (events[0].outcome.Refused? ==> s.directory.Some? && s.directory.value != {})
      && Alone(Step(s, events[0]), owner, events[1..], t)
  }

  lemma SameExits(s: State, t: State, names: set<Entry>)
    requires s.live == t.live
    ensures OneExited(s, names) <==> OneExited(t, names)
  {
    assert forall name :: OwnerExited(s, name) <==> OwnerExited(t, name);
  }

  ghost predicate OnTheWay(s: State, owner: Entry) {
    && owner in s.calls && s.calls[owner].tries.recoveries <= 1
    && match s.calls[owner].pc
       case Publishing => Free(s) && (s.calls[owner].tries.recoveries == 0 || s.directory.None?)
       case Listing => s.directory.Some? && OneExited(s, s.directory.value) && s.calls[owner].tries.recoveries == 0
       case Probing(names) =>
         s.directory == Some(names) && OneExited(s, names) && s.calls[owner].tries.recoveries == 0
       case Unlinking(name) => s.directory == Some({name}) && s.calls[owner].tries.recoveries == 0
       case Clearing(released) => !released && s.directory == Some({}) && s.calls[owner].tries.recoveries == 0
       case Holding => s.directory == Some({owner})
       case _ => false
  }

  lemma {:induction false} StaysOnTheWay(s: State, owner: Entry, outcome: Outcome)
    requires OnTheWay(s, owner) && Enabled(s, Advance(owner, outcome)) && s.calls[owner].pc != Holding
    requires !outcome.Breaks? && (outcome.Refused? ==> s.directory.Some? && s.directory.value != {})
    ensures OnTheWay(AdvanceStep(s, owner, outcome), owner)
  {
    var t := AdvanceStep(s, owner, outcome);
    if s.calls[owner].pc.Unlinking? {
      assert {s.calls[owner].pc.owner} - {s.calls[owner].pc.owner} == {};
    }
    assert t.live == s.live;
    if s.directory.Some? {
      SameExits(s, t, s.directory.value);
    }
  }

  lemma {:induction false} AloneStaysOnTheWay(s: State, owner: Entry, events: seq<Event>, t: State)
    requires OnTheWay(s, owner) && Alone(s, owner, events, t)
    ensures OnTheWay(t, owner)
    decreases |events|
  {
    if events != [] {
      StaysOnTheWay(s, owner, events[0].outcome);
      AloneStaysOnTheWay(Step(s, events[0]), owner, events[1..], t);
    }
  }

  /** The call waits for a directory that is not free, and has had nothing but `held` so far. */
  ghost predicate Waits(s: State, owner: Entry, names: set<Entry>, retries: int) {
    && owner in s.calls && s.directory == Some(names) && !Free(s)
    && var call := s.calls[owner];
    && call.tries.recoveries == 0 && call.allowed == retries
    && if call.pc == Ended then |call.rounds| == Clip(call.allowed) + 1
       else
         && (call.pc == Publishing || call.pc == Listing || call.pc == Probing(names))
         && |call.rounds| == Clip(call.allowed) - Clip(call.tries.retries)
  }

  lemma {:induction false} StillWaits(s: State, owner: Entry, outcome: Outcome, names: set<Entry>, retries: int)
    requires Waits(s, owner, names, retries) && Enabled(s, Advance(owner, outcome)) && !outcome.Breaks?
    ensures Waits(AdvanceStep(s, owner, outcome), owner, names, retries)
  {
    var t := AdvanceStep(s, owner, outcome);
    assert t.directory == s.directory;
    SameExits(s, t, names);
  }

  lemma {:induction false} AloneStillWaits(
    s: State, owner: Entry, events: seq<Event>, t: State, names: set<Entry>, retries: int)
    requires Waits(s, owner, names, retries) && Alone(s, owner, events, t)
    ensures Waits(t, owner, names, retries)
    decreases |events|
  {
    if events != [] {
      StillWaits(s, owner, events[0].outcome, names, retries);
      AloneStillWaits(Step(s, events[0]), owner, events[1..], t, names, retries);
    }
  }

  /** A call that runs alone, when it is through, has the lock exactly when nobody had it: otherwise it leaves the
      directory as it was, after as many rounds as it was allowed waits, and one more. */
  lemma {:induction false} AloneAcquiresExactly(s: State, owner: Entry, retries: int, events: seq<Event>, t: State)
    requires Enabled(s, Begin(owner, retries)) && Alone(Step(s, Begin(owner, retries)), owner, events, t)
    requires owner in t.calls && (t.calls[owner].pc == Holding || t.calls[owner].pc == Ended)
    ensures t.calls[owner].pc == Holding <==> Free(s)
    ensures if Free(s) then t.directory == Some({owner})
            else t.directory == s.directory && |t.calls[owner].rounds| == Clip(retries) + 1
  {
    var begun := Step(s, Begin(owner, retries));
    if s.directory.Some? {
      SameExits(s, begun, s.directory.value);
    }
    if Free(s) {
      AloneStaysOnTheWay(begun, owner, events, t);
    } else {
      AloneStillWaits(begun, owner, events, t, s.directory.value, retries);
    }
  }

  // Every call is a run of the loop, whatever the other calls do in between.

  /** The call has got past its loop. */
  predicate Acquired(call: Call) {
    call.pc == Holding || call.pc == Releasing || call.pc == Clearing(true)
  }

  /** The rounds so far are rounds of the loop: all but the last let it go on, and so does the last while
      the call still tries. */
  ghost predicate PlaysLoop(call: Call) {
    var played := Played(Start(call.allowed), call.rounds);
    if Acquired(call) || call.pc == Ended then
      && call.rounds != [] && Played(Start(call.allowed), call.rounds[..|call.rounds| - 1]).Some? && played.None?
      && (Acquired(call) ==> call.rounds[|call.rounds| - 1] == Published)
    else played == Some(call.tries)
  }

  /** What a step does to its call: it ends a round, or leaves the rounds alone. */
  ghost predicate Moved(call: Call, next: Call) {
    if call.pc == Ended then next == call
    else if Acquired(call) then next == call.(pc := next.pc) && (Acquired(next) || next.pc == Ended)
    else
      || (exists round :: next == EndRound(call, round))
      || (next == call.(pc := next.pc) && !Acquired(next) && next.pc != Ended)
  }

  lemma {:induction false} AdvanceMoves(s: State, owner: Entry, outcome: Outcome)
    requires owner in s.calls
    ensures Moved(s.calls[owner], AdvanceStep(s, owner, outcome).calls[owner])
  {
  }

  lemma {:induction false} EndRoundPlays(call: Call, round: Round)
    requires Played(Start(call.allowed), call.rounds) == Some(call.tries) && !Acquired(call) && call.pc != Ended
    ensures PlaysLoop(EndRound(call, round))
  {
    PlayedSnoc(Start(call.allowed), call.rounds, round);
    assert (call.rounds + [round])[..|call.rounds|] == call.rounds;
  }

  lemma {:induction false} MovedPlays(call: Call, next: Call)
    requires PlaysLoop(call) && Moved(call, next)
    ensures PlaysLoop(next)
  {
    if !Acquired(call) && call.pc != Ended && next != call.(pc := next.pc) {
      var round :| next == EndRound(call, round);
      EndRoundPlays(call, round);
    }
  }

  /** What a system call lets its caller note about the round, if it ends it. */
  function Reported(s: State, owner: Entry, outcome: Outcome): seq<Round>
    requires owner in s.calls
  {
    match s.calls[owner].pc
    case Publishing => if outcome.Works? then [Published] else if outcome.Breaks? then [Broken] else []
    case Listing => if outcome.Breaks? then [Broken] else if s.directory.None? then [Missing] else []
    case Probing(names) => if OneExited(s, names) then [] else [Held]
    case Unlinking(_) => if outcome.Breaks? then [Broken] else []
    case Clearing(released) => if released then [] else if outcome.Breaks? then [Broken] else [Recovered]
    case _ => []
  }

  /** The rounds of a call are what its own system calls have reported, in order. */
  lemma {:induction false} RoundsAreReported(s: State, owner: Entry, outcome: Outcome)
    requires owner in s.calls
    ensures AdvanceStep(s, owner, outcome).calls[owner].rounds
            == s.calls[owner].rounds + Reported(s, owner, outcome)
  {
    var rounds := s.calls[owner].rounds;
    assert rounds + [] == rounds;
  }

  ghost predicate AllPlay(s: State) {
    forall owner :: owner in s.calls ==> PlaysLoop(s.calls[owner])
  }

  lemma {:induction false} StepPlays(s: State, e: Event)
    requires AllPlay(s) && Enabled(s, e)
    ensures AllPlay(Step(s, e))
  {
    match e
    case Advance(owner, outcome) =>
      AdvanceMoves(s, owner, outcome);
      AdvanceChangesOne(s, owner, outcome);
      MovedPlays(s.calls[owner], AdvanceStep(s, owner, outcome).calls[owner]);
    case Crash(pid) =>
      forall owner | owner in s.calls
        ensures PlaysLoop(Step(s, e).calls[owner])
      {
        assert PlaysLoop(s.calls[owner]);
      }
    case _ =>
  }

  lemma {:induction false} RunPlays(s: State, events: seq<Event>, t: State)
    requires AllPlay(s) && Leads(s, events, t)
    ensures AllPlay(t)
    decreases |events|
  {
    if events != [] {
      StepPlays(s, events[0]);
      RunPlays(Step(s, events[0]), events[1..], t);
    }
  }

  /** Under any interleaving a call is where the retry loop is after the rounds it has had: still trying with
      the loop's counters, through exactly when the loop acquires, or failed exactly when the loop fails. */
  lemma {:induction false} CallFollowsLoop(s: State, owner: Entry, rounds: nat -> Round)
    requires Reachable(s) && owner in s.calls && Begins(rounds, s.calls[owner].rounds)
    ensures var call := s.calls[owner];
            var v := Acquire(rounds, 0, Start(call.allowed));
            && (Acquired(call) ==> v == Verdict(true, |call.rounds|))
            && (call.pc == Ended ==> v.attempts == |call.rounds|)
            && (!Acquired(call) && call.pc != Ended ==>
                  call.tries.recoveries <= 32 && v == Acquire(rounds, |call.rounds|, call.tries))
  {
    var s0, events :| Initial(s0) && Leads(s0, events, s);
    RunPlays(s0, events, s);
    var call := s.calls[owner];
    assert PlaysLoop(call);
    if Acquired(call) || call.pc == Ended {
      var init, last := call.rounds[..|call.rounds| - 1], call.rounds[|call.rounds| - 1];
      PlayedIsAcquire(rounds, Start(call.allowed), init);
      PlayedSnoc(Start(call.allowed), init, last);
      assert init + [last] == call.rounds;
    } else {
      PlayedIsAcquire(rounds, Start(call.allowed), call.rounds);
    }
  }

  function Continued(listed: seq<Round>): nat -> Round {
    (i: nat) => if i < |listed| then listed[i] else Broken
  }

  /** A call has at most 66 rounds for each wait it was allowed, and 66 more. */
  lemma {:induction false} RoundsAreBounded(s: State, owner: Entry)
    requires Reachable(s) && owner in s.calls
    ensures |s.calls[owner].rounds| <= 66 * (Clip(s.calls[owner].allowed) + 1)
  {
    var call := s.calls[owner];
    var rounds := Continued(call.rounds);
    CallFollowsLoop(s, owner, rounds);
    AttemptsAreBounded(rounds, 0, Start(call.allowed));
    if !Acquired(call) && call.pc != Ended {
      AcquiredExactly(rounds, |call.rounds|, call.tries);
    }
  }

  // Nor does a round go on for ever.

  function Position(pc: Pc): nat {
    match pc
    case Publishing => 0
    case Listing => 1
    case Probing(_) => 2
    case Unlinking(_) => 3
    case Clearing(released) => if released then 2 else 4
    case Holding => 0
    case Releasing => 1
    case Ended => 3
  }

  /** System calls a call has made, at least. */
  function Work(call: Call): nat {
    5 * |call.rounds| + Position(call.pc)
  }

  function Advances(events: seq<Event>, owner: Entry): nat {
    if events == [] then 0
    else (if events[0].Advance? && events[0].owner == owner then 1 else 0) + Advances(events[1..], owner)
  }

  lemma {:induction false} StepWorks(s: State, e: Event, owner: Entry)
    requires owner in s.calls && Enabled(s, e)
    ensures owner in Step(s, e).calls && Step(s, e).calls[owner].allowed == s.calls[owner].allowed
    ensures Work(s.calls[owner]) + (if e.Advance? && e.owner == owner then 1 else 0)
            <= Work(Step(s, e).calls[owner])
  {
  }

  lemma {:induction false} RunWorks(s: State, events: seq<Event>, t: State, owner: Entry)
    requires owner in s.calls && Leads(s, events, t)
    ensures owner in t.calls && t.calls[owner].allowed == s.calls[owner].allowed
    ensures Work(s.calls[owner]) + Advances(events, owner) <= Work(t.calls[owner])
    decreases |events|
  {
    if events != [] {
      StepWorks(s, events[0], owner);
      RunWorks(Step(s, events[0]), events[1..], t, owner);
    }
  }

  /** However the other calls interfere, a call is over after at most 330 system calls for each wait it was
      allowed, and 334 more. */
  lemma {:induction false} CallsAreBounded(s: State, owner: Entry, retries: int, events: seq<Event>, t: State)
    requires Reachable(s) && Enabled(s, Begin(owner, retries)) && Leads(s, [Begin(owner, retries)] + events, t)
    ensures Advances(events, owner) <= 330 * (Clip(retries) + 1) + 4
  {
    var begun := Step(s, Begin(owner, retries));
    assert ([Begin(owner, retries)] + events)[1..] == events;
    RunWorks(begun, events, t, owner);
    ReachableOn(s, [Begin(owner, retries)] + events, t);
    RoundsAreBounded(t, owner);
  }

  lemma {:induction false} ReachableOn(s: State, events: seq<Event>, t: State)
    requires Reachable(s) && Leads(s, events, t)
    ensures Reachable(t)
  {
    var s0, before :| Initial(s0) && Leads(s0, before, s);
    LeadsAppend(s0, before, s, events, t);
  }

  lemma {:induction false} LeadsAppend(s: State, a: seq<Event>, t: State, b: seq<Event>, u: State)
    requires Leads(s, a, t) && Leads(t, b, u)
    ensures Leads(s, a + b, u)
    decreases |a|
  {
    if a == [] {
      assert a + b == b;
    } else {
      assert (a + b)[1..] == a[1..] + b;
      LeadsAppend(Step(s, a[0]), a[1..], t, b, u);
    }
  }
}
