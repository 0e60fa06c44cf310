/** packages/harness-pi/src/run-journal.ts and the begin/execute/settle order of
    packages/harness-pi/src/host.ts, for any number of workers that share a journal directory. */
module RunJournal {
  import opened Options

  type RunId = int
  type Path = int
  type Epoch = int

  datatype Outcome = Completed(entry: int) | Cancelled

  /** A record file: created but not fully written, dispatched, or settled. */
  datatype Record =
    | Partial
    | Dispatched(run: RunId, epoch: Epoch)
    | Settled(run: RunId, epoch: Epoch, outcome: Outcome)

  type Files = map<Path, Record>

  /** What `settle` accepts: a readable dispatched record of the same epoch. */
  predicate Settleable(files: Files, path: Path, epoch: Epoch) {
    path in files && files[path].Dispatched? && files[path].epoch == epoch
  }

  function WithOutcome(record: Record, outcome: Outcome): Record
    requires record.Dispatched?
  {
    Settled(record.run, record.epoch, outcome)
  }

  /** Where an operation of the journal stops with an error. */
  datatype Fault = NoFault | AtOpen | AtWrite | AtSync

  /** The directory after `begin`: a file that was created stays, however the rest fares. */
  function Begun(files: Files, path: Path, run: RunId, epoch: Epoch, fault: Fault): Files {
    if path in files || fault == AtOpen then files
    else if fault == AtWrite then files[path := Partial]
    else files[path := Dispatched(run, epoch)]
  }

  /** The directory after `settle`: the record is replaced in one rename, or not at all. */
  function Replaced(files: Files, path: Path, epoch: Epoch, outcome: Outcome, fault: Fault): Files {
    if Settleable(files, path, epoch) && (fault == NoFault || fault == AtSync)
    then files[path := WithOutcome(files[path], outcome)]
    else files
  }

  /** The journal over its directory. Record paths are any function of the run id: should two ids
      ever share a path, the second is simply refused. */
  class Journal {
    var files: Files
    const pathOf: RunId -> Path

    constructor (pathOf: RunId -> Path, files: Files)
      ensures this.pathOf == pathOf && this.files == files
    {
      this.pathOf := pathOf;
      this.files := files;
    }

    /** `begin`: an exclusive open, then the dispatched record. */
    method Begin(run: RunId, epoch: Epoch, fault: Fault) returns (begun: bool)
      modifies this
      ensures var path := pathOf(run);
              && (begun <==> path !in old(files) && fault == NoFault)
              && files == Begun(old(files), path, run, epoch, fault)
              && (begun ==> files == old(files)[path := Dispatched(run, epoch)])
              && (path in old(files) ==> files == old(files))
    {
      var path := pathOf(run);
      if path in files || fault == AtOpen {
        return false;
      }
      files := files[path := Partial];
      if fault == AtWrite {
        return false;
      }
      files := files[path := Dispatched(run, epoch)];
      return fault != AtSync;
    }

    /** `settle`: the record is read, checked and replaced. */
    method Settle(run: RunId, epoch: Epoch, outcome: Outcome, fault: Fault) returns (settled: bool)
      modifies this
      ensures var path := pathOf(run);
              && (settled <==> Settleable(old(files), path, epoch) && fault == NoFault)
              && files == Replaced(old(files), path, epoch, outcome, fault)
              && (files == old(files) || (path in files && files == old(files)[path := files[path]]))
              && (files != old(files) ==>
                    && path in old(files) && old(files)[path] == Dispatched(old(files)[path].run, epoch)
                    && files[path] == Settled(old(files)[path].run, epoch, outcome))
              && (path in old(files) && old(files)[path] == Dispatched(run, epoch) && fault == NoFault ==>
                    settled && files[path] == Settled(run, epoch, outcome))
    {
      var path := pathOf(run);
      if path !in files {
        return false;
      }
      var previous := files[path];
      if !previous.Dispatched? || previous.epoch != epoch || fault == AtOpen || fault == AtWrite {
        return false;
      }
      files := files[path := Settled(previous.run, previous.epoch, outcome)];
      return fault != AtSync;
    }
  }

  // The workers as a state machine: between two of its steps anything can happen elsewhere.

  /** What the one prompt of a worker does next. */
  datatype Pc =
    | Idle
    | Opening(run: RunId)
    | Writing(run: RunId)
    | Syncing(run: RunId)
    | Executing(run: RunId)
    | Checking(run: RunId, outcome: Outcome)
    | Replacing(run: RunId, outcome: Outcome, previous: Record)

  datatype Worker = Worker(pc: Pc, retired: bool, epoch: Epoch)

  /** `executed` lists every run handed to the native session, in order. */
  datatype State = State(files: Files, workers: map<int, Worker>, executed: seq<RunId>)

  datatype Event =
    | Spawn(worker: int, epoch: Epoch)
    | Crash(worker: int)
    | Prompt(worker: int, run: RunId)
    | Advance(worker: int, ok: bool)
    | Executed(worker: int, outcome: Outcome)
    | Abort(worker: int)

  predicate Enabled(s: State, e: Event) {
    match e
    case Spawn(w, _) => w !in s.workers
    case Crash(w) => w in s.workers
    case Prompt(w, _) => w in s.workers
    case Advance(w, _) => w in s.workers && !s.workers[w].pc.Idle?
    case Executed(w, _) => w in s.workers && s.workers[w].pc.Executing?
    case Abort(w) => w in s.workers
  }

  function Set(s: State, w: int, pc: Pc): State
    requires w in s.workers
  {
    s.(workers := s.workers[w := s.workers[w].(pc := pc)])
  }

  /** The prompt throws: the worker retires and takes no further prompt. */
  function Retire(s: State, w: int): State
    requires w in s.workers
  {
    s.(workers := s.workers[w := s.workers[w].(pc := Idle, retired := true)])
  }

  function AdvanceStep(pathOf: RunId -> Path, s: State, w: int, ok: bool): State
    requires w in s.workers && !s.workers[w].pc.Idle?
  {
    var worker := s.workers[w];
    if !ok then Retire(s, w)
    else
      var path := pathOf(worker.pc.run);
      match worker.pc
      case Opening(run) =>
        if path in s.files then Retire(s, w)
        else Set(s.(files := s.files[path := Partial]), w, Writing(run))
      case Writing(run) =>
        Set(s.(files := s.files[path := Dispatched(run, worker.epoch)]), w, Syncing(run))
      case Syncing(run) => Set(s.(executed := s.executed + [run]), w, Executing(run))
      case Executing(run) => s
      case Checking(run, outcome) =>
        if Settleable(s.files, path, worker.epoch) then Set(s, w, Replacing(run, outcome, s.files[path]))
        else Retire(s, w)
      case Replacing(run, outcome, previous) =>
        if previous.Dispatched?
        then Set(s.(files := s.files[path := WithOutcome(previous, outcome)]), w, Idle)
        else Retire(s, w)
  }

  function Step(pathOf: RunId -> Path, s: State, e: Event): State
    requires Enabled(s, e)
  {
    match e
    case Spawn(w, epoch) => s.(workers := s.workers[w := Worker(Idle, false, epoch)])
    case Crash(w) => s.(workers := s.workers - {w})
    case Prompt(w, run) =>
      // Busy or retired workers refuse.
      if !s.workers[w].pc.Idle? || s.workers[w].retired then s else Set(s, w, Opening(run))
    case Advance(w, ok) => AdvanceStep(pathOf, s, w, ok)
    case Executed(w, outcome) => Set(s, w, Checking(s.workers[w].pc.run, outcome))
    // The host retires: a snapshot that does not match, or the end of its lifetime mid-prompt.
    case Abort(w) => s.(workers := s.workers[w := s.workers[w].(retired := true)])
  }

  ghost predicate Leads(pathOf: RunId -> Path, s: State, events: seq<Event>, t: State)
    decreases |events|
  {
    if events == [] then s == t
    else Enabled(s, events[0]) && Leads(pathOf, Step(pathOf, s, events[0]), events[1..], t)
  }

  /** No worker yet; the directory holds whatever earlier workers left. */
  predicate Initial(s: State) {
    s.workers == map[] && s.executed == []
  }

  ghost predicate Reachable(pathOf: RunId -> Path, s: State) {
    exists s0: State, events :: Initial(s0) && Leads(pathOf, s0, events, s)
  }

  /** The worker's prompt created the run's record and is not finished with it. */
  predicate Owns(s: State, w: int) {
    w in s.workers && !s.workers[w].pc.Idle? && !s.workers[w].pc.Opening?
  }

  /** The worker's prompt is between creating the record and handing its run to the session. */
  predicate Beginning(s: State, w: int) {
    w in s.workers && (s.workers[w].pc.Writing? || s.workers[w].pc.Syncing?)
  }

  /** The record an owning prompt has left so far. */
  function OwnRecord(worker: Worker): Record
    requires !worker.pc.Idle?
  {
    if worker.pc.Writing? then Partial else Dispatched(worker.pc.run, worker.epoch)
  }

  ghost predicate Inv(pathOf: RunId -> Path, s: State) {
    && (forall w :: Owns(s, w) ==>
          var worker := s.workers[w];
          && pathOf(worker.pc.run) in s.files && s.files[pathOf(worker.pc.run)] == OwnRecord(worker)
          && (worker.pc.Replacing? ==> worker.pc.previous == OwnRecord(worker)))
    && (forall v, w :: Owns(s, v) && Owns(s, w) && pathOf(s.workers[v].pc.run) == pathOf(s.workers[w].pc.run)
          ==> v == w)
    && (forall i :: 0 <= i < |s.executed| ==> pathOf(s.executed[i]) in s.files)
    && (forall i, j :: 0 <= i < j < |s.executed| ==> pathOf(s.executed[i]) != pathOf(s.executed[j]))
    && (forall w, i ::
          (Beginning(s, w) && 0 <= i < |s.executed|) ==> pathOf(s.executed[i]) != pathOf(s.workers[w].pc.run))
  }

  /** `begin`: the exclusive open claims the record, and the run reaches the session only afterwards. */
  lemma {:induction false} BeginKeepsInv(pathOf: RunId -> Path, s: State, w: int)
    requires Inv(pathOf, s) && w in s.workers
    requires s.workers[w].pc.Opening? || s.workers[w].pc.Writing? || s.workers[w].pc.Syncing?
    ensures Inv(pathOf, AdvanceStep(pathOf, s, w, true))
  {
    OthersKeepTheirRecord(pathOf, s, w);
  }

  /** `settle` replaces the record of its own prompt. */
  lemma {:induction false} SettleKeepsInv(pathOf: RunId -> Path, s: State, w: int)
    requires Inv(pathOf, s) && w in s.workers
    requires s.workers[w].pc.Executing? || s.workers[w].pc.Checking? || s.workers[w].pc.Replacing?
    ensures Inv(pathOf, AdvanceStep(pathOf, s, w, true))
  {
    OthersKeepTheirRecord(pathOf, s, w);
  }

  /** A step leaves the record of every other owning prompt alone. */
  lemma {:induction false} OthersKeepTheirRecord(pathOf: RunId -> Path, s: State, w: int)
    requires Inv(pathOf, s) && w in s.workers && !s.workers[w].pc.Idle?
    ensures var t := AdvanceStep(pathOf, s, w, true);
            && t.workers.Keys == s.workers.Keys
            && forall v :: v != w && Owns(s, v) ==>
                 var path := pathOf(s.workers[v].pc.run);
                 path in t.files && t.workers[v] == s.workers[v] && t.files[path] == s.files[path]
  {
    var t := AdvanceStep(pathOf, s, w, true);
    forall v | v != w && Owns(s, v)
      ensures pathOf(s.workers[v].pc.run) in t.files && t.workers[v] == s.workers[v]
      ensures t.files[pathOf(s.workers[v].pc.run)] == s.files[pathOf(s.workers[v].pc.run)]
    {
      assert Owns(s, w) || s.workers[w].pc.Opening?;
    }
  }

  lemma {:induction false} AdvanceKeepsInv(pathOf: RunId -> Path, s: State, w: int, ok: bool)
    requires Inv(pathOf, s) && w in s.workers && !s.workers[w].pc.Idle?
    ensures Inv(pathOf, AdvanceStep(pathOf, s, w, ok))
  {
    var pc := s.workers[w].pc;
    if !ok {
      assert AdvanceStep(pathOf, s, w, ok) == Retire(s, w);
    } else if pc.Opening? || pc.Writing? || pc.Syncing? {
      BeginKeepsInv(pathOf, s, w);
    } else {
      SettleKeepsInv(pathOf, s, w);
    }
  }

  lemma {:induction false} StepKeepsInv(pathOf: RunId -> Path, s: State, e: Event)
    requires Inv(pathOf, s) && Enabled(s, e)
    ensures Inv(pathOf, Step(pathOf, s, e))
  {
    if e.Advance? {
      AdvanceKeepsInv(pathOf, s, e.worker, e.ok);
    } else {
      var t := Step(pathOf, s, e);
      assert forall v :: Owns(t, v) ==> Owns(s, v);
    }
  }

  lemma {:induction false} RunKeepsInv(pathOf: RunId -> Path, s: State, events: seq<Event>, t: State)
    requires Inv(pathOf, s) && Leads(pathOf, s, events, t)
    ensures Inv(pathOf, t)
    decreases |events|
  {
    if events != [] {
      StepKeepsInv(pathOf, s, events[0]);
      RunKeepsInv(pathOf, Step(pathOf, s, events[0]), events[1..], t);
    }
  }

  lemma ReachableInv(pathOf: RunId -> Path, s: State)
    requires Reachable(pathOf, s)
    ensures Inv(pathOf, s)
  {
    var s0: State, events :| Initial(s0) && Leads(pathOf, s0, events, s);
    RunKeepsInv(pathOf, s0, events, s);
  }

  /** Over any prompts, crashes and worker restarts no run id is executed twice. */
  lemma ExecutedAtMostOnce(pathOf: RunId -> Path, s: State, i: nat, j: nat)
    requires Reachable(pathOf, s) && i < j < |s.executed|
    ensures s.executed[i] != s.executed[j]
  {
    ReachableInv(pathOf, s);
  }

  /** How far a record has come. */
  function Rank(files: Files, path: Path): nat {
    if path !in files then 0
    else match files[path]
         case Partial => 1
         case Dispatched(_, _) => 2
         case Settled(_, _, _) => 3
  }

  /** Records only move forward, and a settled one is never rewritten. */
  ghost predicate Advances(before: Files, after: Files) {
    forall path :: Rank(before, path) <= Rank(after, path)
      && (Rank(before, path) == 3 ==> path in after && after[path] == before[path])
  }

  lemma {:induction false} StepAdvances(pathOf: RunId -> Path, s: State, e: Event)
    requires Inv(pathOf, s) && Enabled(s, e)
    ensures Advances(s.files, Step(pathOf, s, e).files)
  {
    if e.Advance? {
      assert Owns(s, e.worker) || s.workers[e.worker].pc.Opening?;
    }
  }

  lemma {:induction false} RunAdvances(pathOf: RunId -> Path, s: State, events: seq<Event>, t: State)
    requires Inv(pathOf, s) && Leads(pathOf, s, events, t)
    ensures Advances(s.files, t.files)
    decreases |events|
  {
    if events != [] {
      var next := Step(pathOf, s, events[0]);
      StepAdvances(pathOf, s, events[0]);
      StepKeepsInv(pathOf, s, events[0]);
      RunAdvances(pathOf, next, events[1..], t);
      forall path
        ensures Rank(s.files, path) <= Rank(t.files, path)
        ensures Rank(s.files, path) == 3 ==> path in t.files && t.files[path] == s.files[path]
      {
        assert Rank(s.files, path) <= Rank(next.files, path) <= Rank(t.files, path);
      }
    }
  }

  /** From any reachable state on, records only move forward and a settled one is never rewritten. */
  lemma {:induction false} RecordsOnlyAdvance(pathOf: RunId -> Path, s: State, events: seq<Event>, t: State)
    requires Reachable(pathOf, s) && Leads(pathOf, s, events, t)
    ensures Advances(s.files, t.files)
  {
    ReachableInv(pathOf, s);
    RunAdvances(pathOf, s, events, t);
  }

  // The methods of the journal are steps of a worker, taken without interruption.

  /** The steps of `begin`, up to the execution it allows. */
  function BeginEvents(w: int, present: bool, fault: Fault): seq<Event> {
    if fault == AtOpen then [Advance(w, false)]
    else if present then [Advance(w, true)]
    else if fault == AtWrite then [Advance(w, true), Advance(w, false)]
    else [Advance(w, true), Advance(w, true), Advance(w, fault == NoFault)]
  }

  function SettleEvents(w: int, settleable: bool, fault: Fault): seq<Event> {
    if fault == AtOpen || fault == AtWrite then [Advance(w, false)]
    else if !settleable then [Advance(w, true)]
    else if fault == NoFault then [Advance(w, true), Advance(w, true)]
    else [Advance(w, true), Advance(w, true), Abort(w)]
  }

  lemma {:induction false} OneEvent(pathOf: RunId -> Path, s: State, e: Event)
    requires Enabled(s, e)
    ensures Leads(pathOf, s, [e], Step(pathOf, s, e))
  {
    assert [e][1..] == [];
  }

  lemma {:induction false} OneMore(pathOf: RunId -> Path, s: State, e: Event, events: seq<Event>, t: State)
    requires Enabled(s, e) && Leads(pathOf, Step(pathOf, s, e), events, t)
    ensures Leads(pathOf, s, [e] + events, t)
  {
    assert ([e] + events)[1..] == events;
  }

  /** `Journal.Begin` does to the directory what the worker's steps do; the run is executed exactly when it
      succeeds, and otherwise the worker retires. */
  lemma {:induction false} BeginIsAdvance(pathOf: RunId -> Path, s: State, w: int, fault: Fault)
    requires w in s.workers && s.workers[w].pc.Opening?
    ensures var run, epoch := s.workers[w].pc.run, s.workers[w].epoch;
            var begun := pathOf(run) !in s.files && fault == NoFault;
            Leads(pathOf, s, BeginEvents(w, pathOf(run) in s.files, fault), State(
              Begun(s.files, pathOf(run), run, epoch, fault),
              s.workers[w := if begun then s.workers[w].(pc := Executing(run)) else Worker(Idle, true, epoch)],
              if begun then s.executed + [run] else s.executed))
  {
    var run, path := s.workers[w].pc.run, pathOf(s.workers[w].pc.run);
    if fault == AtOpen || path in s.files {
      OneEvent(pathOf, s, Advance(w, fault != AtOpen));
    } else {
      var created := Step(pathOf, s, Advance(w, true));
      if fault == AtWrite {
        OneEvent(pathOf, created, Advance(w, false));
        OneMore(pathOf, s, Advance(w, true), [Advance(w, false)], Step(pathOf, created, Advance(w, false)));
        assert Step(pathOf, created, Advance(w, false)).workers
            == s.workers[w := Worker(Idle, true, s.workers[w].epoch)];
        assert [Advance(w, true)] + [Advance(w, false)] == BeginEvents(w, false, fault);
      } else {
        var written := Step(pathOf, created, Advance(w, true));
        var last := Advance(w, fault == NoFault);
        OneEvent(pathOf, written, last);
        OneMore(pathOf, created, Advance(w, true), [last], Step(pathOf, written, last));
        OneMore(pathOf, s, Advance(w, true), [Advance(w, true)] + [last], Step(pathOf, written, last));
        assert [Advance(w, true)] + ([Advance(w, true)] + [last]) == BeginEvents(w, false, fault);
        var t, epoch := Step(pathOf, written, last), s.workers[w].epoch;
        assert t.files == s.files[path := Dispatched(run, epoch)];
        assert t.workers == s.workers[w := if last.ok then s.workers[w].(pc := Executing(run))
                                           else Worker(Idle, true, epoch)];
      }
    }
  }

  /** `Journal.Settle` does to the directory what the worker's steps do; the worker stays in service exactly
      when it succeeds. */
  lemma {:induction false} SettleIsAdvance(pathOf: RunId -> Path, s: State, w: int, fault: Fault)
    requires w in s.workers && s.workers[w].pc.Checking?
    ensures var path, worker, outcome := pathOf(s.workers[w].pc.run), s.workers[w], s.workers[w].pc.outcome;
            var settled := Settleable(s.files, path, worker.epoch) && fault == NoFault;
            Leads(pathOf, s, SettleEvents(w, Settleable(s.files, path, worker.epoch), fault), State(
              Replaced(s.files, path, worker.epoch, outcome, fault),
              s.workers[w := Worker(Idle, worker.retired || !settled, worker.epoch)],
              s.executed))
  {
    var path, worker := pathOf(s.workers[w].pc.run), s.workers[w];
    if fault == AtOpen || fault == AtWrite {
      OneEvent(pathOf, s, Advance(w, false));
    } else if !Settleable(s.files, path, worker.epoch) {
      OneEvent(pathOf, s, Advance(w, true));
    } else {
      var checked := Step(pathOf, s, Advance(w, true));
      var replaced := Step(pathOf, checked, Advance(w, true));
      OneEvent(pathOf, checked, Advance(w, true));
      OneMore(pathOf, s, Advance(w, true), [Advance(w, true)], replaced);
      assert [Advance(w, true)] + [Advance(w, true)] == [Advance(w, true), Advance(w, true)];
      assert replaced.workers == s.workers[w := worker.(pc := Idle)];
      if fault == AtSync {
        assert Step(pathOf, replaced, Abort(w)).workers == s.workers[w := Worker(Idle, true, worker.epoch)];
        OneEvent(pathOf, replaced, Abort(w));
        OneMore(pathOf, checked, Advance(w, true), [Abort(w)], Step(pathOf, replaced, Abort(w)));
        OneMore(pathOf, s, Advance(w, true), [Advance(w, true)] + [Abort(w)], Step(pathOf, replaced, Abort(w)));
        assert [Advance(w, true)] + ([Advance(w, true)] + [Abort(w)]) == SettleEvents(w, true, fault);
      }
    }
  }

  /** Only the prompt that began a run settles it: a record becomes settled only by the rename of
      a worker that owns it, and becomes that worker's own run and epoch. */
  lemma {:induction false} OnlyTheOwnerSettles(pathOf: RunId -> Path, s: State, e: Event, path: Path)
    requires Reachable(pathOf, s) && Enabled(s, e)
    requires Rank(s.files, path) < 3 && Rank(Step(pathOf, s, e).files, path) == 3
    ensures e.Advance? && Owns(s, e.worker) && s.workers[e.worker].pc.Replacing?
    ensures var worker := s.workers[e.worker];
            && pathOf(worker.pc.run) == path && Rank(s.files, path) == 2
            && Step(pathOf, s, e).files[path] == Settled(worker.pc.run, worker.epoch, worker.pc.outcome)
  {
    ReachableInv(pathOf, s);
  }

  /** No worker is between creating the record of `path` and handing its run to the session. */
  ghost predicate Unclaimed(pathOf: RunId -> Path, s: State, path: Path) {
    forall w :: Beginning(s, w) ==> pathOf(s.workers[w].pc.run) != path
  }

  function TimesExecuted(pathOf: RunId -> Path, executed: seq<RunId>, path: Path): nat {
    if executed == [] then 0
    else TimesExecuted(pathOf, executed[..|executed| - 1], path)
         + if pathOf(executed[|executed| - 1]) == path then 1 else 0
  }

  lemma {:induction false} StepExecutesNothing(pathOf: RunId -> Path, s: State, e: Event, path: Path)
    requires Enabled(s, e) && Unclaimed(pathOf, s, path)
    ensures TimesExecuted(pathOf, Step(pathOf, s, e).executed, path) == TimesExecuted(pathOf, s.executed, path)
  {
    var t := Step(pathOf, s, e);
    if t.executed != s.executed {
      assert t.executed[..|t.executed| - 1] == s.executed;
      assert Beginning(s, e.worker);
    }
  }

  lemma {:induction false} StepKeepsUnclaimed(pathOf: RunId -> Path, s: State, e: Event, path: Path)
    requires Enabled(s, e) && path in s.files && Unclaimed(pathOf, s, path)
    ensures path in Step(pathOf, s, e).files && Unclaimed(pathOf, Step(pathOf, s, e), path)
  {
    var t := Step(pathOf, s, e);
    forall w | Beginning(t, w)
      ensures pathOf(t.workers[w].pc.run) != path
    {
      assert Beginning(s, w) || (e == Advance(w, true) && s.workers[w].pc.Opening?);
    }
  }

  /** A record that a crash left behind, whole or partial, forbids its run for good. */
  lemma {:induction false} LeftoverForbidsReplay(pathOf: RunId -> Path, s: State, events: seq<Event>, t: State,
                                                 run: RunId)
    requires pathOf(run) in s.files && Unclaimed(pathOf, s, pathOf(run))
    requires Leads(pathOf, s, events, t)
    ensures TimesExecuted(pathOf, t.executed, pathOf(run)) == TimesExecuted(pathOf, s.executed, pathOf(run))
    decreases |events|
  {
    if events != [] {
      StepKeepsUnclaimed(pathOf, s, events[0], pathOf(run));
      StepExecutesNothing(pathOf, s, events[0], pathOf(run));
      LeftoverForbidsReplay(pathOf, Step(pathOf, s, events[0]), events[1..], t, run);
    }
  }

  // The outcome on record is the one the run came to.

  /** Somewhere in the run of events a worker of the epoch reports what its execution of the run came to. */
  ghost predicate Reported(pathOf: RunId -> Path, s: State, events: seq<Event>, record: Record)
    requires record.Settled?
    decreases |events|
  {
    && events != [] && Enabled(s, events[0])
    && (Reports(s, events[0], record) || Reported(pathOf, Step(pathOf, s, events[0]), events[1..], record))
  }

  predicate Reports(s: State, e: Event, record: Record)
    requires record.Settled?
  {
    && e.Executed? && e.outcome == record.outcome && e.worker in s.workers
    && s.workers[e.worker].pc == Executing(record.run) && s.workers[e.worker].epoch == record.epoch
  }

  /** A worker is on its way to write the record. */
  ghost predicate Pending(s: State, record: Record)
    requires record.Settled?
  {
    exists w :: w in s.workers && IsPending(s.workers[w], record)
  }

  predicate IsPending(worker: Worker, record: Record)
    requires record.Settled?
  {
    && (worker.pc.Checking? || worker.pc.Replacing?)
    && worker.pc.run == record.run && worker.pc.outcome == record.outcome && worker.epoch == record.epoch
  }

  lemma {:induction false} SettledWasPending(pathOf: RunId -> Path, s: State, e: Event, path: Path)
    requires Inv(pathOf, s) && Enabled(s, e)
    requires var t := Step(pathOf, s, e); path in t.files && t.files[path].Settled?
    ensures var record := Step(pathOf, s, e).files[path];
            (path in s.files && s.files[path] == record) || Pending(s, record)
  {
    var record := Step(pathOf, s, e).files[path];
    if !(path in s.files && s.files[path] == record) {
      assert e.Advance? && Owns(s, e.worker) && IsPending(s.workers[e.worker], record);
    }
  }

  lemma {:induction false} PendingWasReported(pathOf: RunId -> Path, s: State, e: Event, record: Record)
    requires Enabled(s, e) && record.Settled? && Pending(Step(pathOf, s, e), record)
    ensures Pending(s, record) || Reports(s, e, record)
  {
    var t := Step(pathOf, s, e);
    var w :| w in t.workers && IsPending(t.workers[w], record);
    if !Reports(s, e, record) {
      assert w in s.workers && IsPending(s.workers[w], record);
    }
  }

  lemma {:induction false} RunReports(pathOf: RunId -> Path, s: State, events: seq<Event>, t: State, path: Path)
    requires Inv(pathOf, s) && Leads(pathOf, s, events, t) && path in t.files && t.files[path].Settled?
    ensures var record := t.files[path];
            || (path in s.files && s.files[path] == record)
            || Pending(s, record) || Reported(pathOf, s, events, record)
    decreases |events|
  {
    if events != [] {
      var next := Step(pathOf, s, events[0]);
      StepKeepsInv(pathOf, s, events[0]);
      RunReports(pathOf, next, events[1..], t, path);
      if path in next.files && next.files[path] == t.files[path] {
        SettledWasPending(pathOf, s, events[0], path);
      } else if Pending(next, t.files[path]) {
        PendingWasReported(pathOf, s, events[0], t.files[path]);
      }
    }
  }

  /** A record that became settled during a run carries the outcome that a worker of its epoch reported for its run. */
  lemma {:induction false} SettledAsReported(pathOf: RunId -> Path, s: State, events: seq<Event>, t: State, path: Path)
    requires Initial(s) && Leads(pathOf, s, events, t) && path in t.files && t.files[path].Settled?
    ensures (path in s.files && s.files[path] == t.files[path]) || Reported(pathOf, s, events, t.files[path])
  {
    RunReports(pathOf, s, events, t, path);
  }

  /** What a worker reports of the run it executes is settled, if nothing fails, and the worker goes on. */
  lemma {:induction false} ReportIsSettled(pathOf: RunId -> Path, s: State, w: int, outcome: Outcome)
    requires Reachable(pathOf, s) && w in s.workers && s.workers[w].pc.Executing?
    ensures var run, epoch, path := s.workers[w].pc.run, s.workers[w].epoch, pathOf(s.workers[w].pc.run);
            Leads(pathOf, s, [Executed(w, outcome), Advance(w, true), Advance(w, true)],
                  s.(files := s.files[path := Settled(run, epoch, outcome)],
                     workers := s.workers[w := s.workers[w].(pc := Idle)]))
  {
    ReachableInv(pathOf, s);
    assert Owns(s, w);
    var s1 := Step(pathOf, s, Executed(w, outcome));
    var s2 := Step(pathOf, s1, Advance(w, true));
    var t := Step(pathOf, s2, Advance(w, true));
    OneEvent(pathOf, s2, Advance(w, true));
    OneMore(pathOf, s1, Advance(w, true), [Advance(w, true)], t);
    OneMore(pathOf, s, Executed(w, outcome), [Advance(w, true)] + [Advance(w, true)], t);
    assert [Executed(w, outcome)] + ([Advance(w, true)] + [Advance(w, true)])
        == [Executed(w, outcome), Advance(w, true), Advance(w, true)];
    assert t.workers == s.workers[w := s.workers[w].(pc := Idle)];
  }

  /** A worker that is started, or replaced after a crash, executes a run that has no record, if nothing fails. */
  lemma {:induction false} NewRunIsExecuted(pathOf: RunId -> Path, s: State, w: int, epoch: Epoch, run: RunId)
    requires pathOf(run) !in s.files
    ensures var restart := (if w in s.workers then [Crash(w)] else []) + [Spawn(w, epoch)];
            Leads(pathOf, s, restart + [Prompt(w, run)] + BeginEvents(w, false, NoFault),
                  State(s.files[pathOf(run) := Dispatched(run, epoch)],
                        s.workers[w := Worker(Executing(run), false, epoch)], s.executed + [run]))
  {
    var idle := s.(workers := s.workers[w := Worker(Idle, false, epoch)]);
    var begins := [Prompt(w, run)] + BeginEvents(w, false, NoFault);
    var t := State(s.files[pathOf(run) := Dispatched(run, epoch)],
                   s.workers[w := Worker(Executing(run), false, epoch)], s.executed + [run]);
    var prompted := Step(pathOf, idle, Prompt(w, run));
    BeginIsAdvance(pathOf, prompted, w, NoFault);
    assert t.workers == prompted.workers[w := Worker(Executing(run), false, epoch)];
    OneMore(pathOf, idle, Prompt(w, run), BeginEvents(w, false, NoFault), t);
    if w in s.workers {
      var crashed := Step(pathOf, s, Crash(w));
      assert crashed.workers[w := Worker(Idle, false, epoch)] == idle.workers;
      OneMore(pathOf, crashed, Spawn(w, epoch), begins, t);
      OneMore(pathOf, s, Crash(w), [Spawn(w, epoch)] + begins, t);
      assert [Crash(w)] + ([Spawn(w, epoch)] + begins)
          == [Crash(w)] + [Spawn(w, epoch)] + [Prompt(w, run)] + BeginEvents(w, false, NoFault);
    } else {
      OneMore(pathOf, s, Spawn(w, epoch), begins, t);
      assert [Spawn(w, epoch)] + begins
          == [] + [Spawn(w, epoch)] + [Prompt(w, run)] + BeginEvents(w, false, NoFault);
    }
  }

  /** A worker that has retired takes no prompt any more, until it is replaced. */
  lemma {:induction false} RetiredTakesNothing(pathOf: RunId -> Path, s: State, events: seq<Event>, t: State, w: int)
    requires w in s.workers && s.workers[w].retired && s.workers[w].pc.Idle?
    requires Leads(pathOf, s, events, t) && Crash(w) !in events
    ensures w in t.workers && t.workers[w] == s.workers[w]
    decreases |events|
  {
    if events != [] {
      assert events[0] in events;
      assert forall e :: e in events[1..] ==> e in events;
      RetiredTakesNothing(pathOf, Step(pathOf, s, events[0]), events[1..], t, w);
    }
  }
}
