/** Autosave never lies about what is stored, never overwrites what it has not seen, and never
    forgets an edit. */
module AutosaveResults {
  import opened Options
  import opened AutosaveModel

  /** The save in flight is the last one sent and is based on the acknowledged revision. */
  predicate SavingOk(s: State) {
    s.flow.saving.Some? ==>
      var save := s.flow.saving.value;
      && s.server.sent != [] && save == s.server.sent[|s.server.sent| - 1] && save.id == |s.server.sent| - 1
      && save.base == s.saved.revisionId
      && s.saved.savedSeq < save.edit <= s.saved.editSeq
      && (save.edit == s.saved.editSeq ==> save.doc == s.editor.doc)
      && !s.saved.conflict && s.flow.waiters != []
  }

  /** Waiters wait for a save; edits that are not saved will be. */
  predicate FlowOk(s: State) {
    && s.saved.savedSeq <= s.saved.editSeq
    && (s.flow.saving.None? ==> s.flow.waiters == [])
    && ((s.saved.editSeq != s.saved.savedSeq && !s.saved.conflict && !s.editor.readonly && !s.editor.composing)
          ==> s.saved.timer || s.flow.saving.Some?)
  }

  /** What is acknowledged is stored. */
  predicate StoreOk(s: State) {
    && s.saved.revisionId in s.server.store
    && (s.saved.editSeq == s.saved.savedSeq ==> s.server.store[s.saved.revisionId] == s.editor.doc)
    && (forall r :: r in s.server.store ==> r < s.server.next)
    && (forall i :: 0 <= i < |s.server.sent| ==> s.server.sent[i].id == i)
    && (forall id :: id in s.server.verdicts ==> id < |s.server.sent|)
    && (forall id :: id in s.server.verdicts && s.server.verdicts[id].Taken? ==>
          && s.server.verdicts[id].revision in s.server.store
          && s.server.store[s.server.verdicts[id].revision] == s.server.sent[id].doc)
  }

  predicate Inv(s: State) {
    SavingOk(s) && FlowOk(s) && StoreOk(s)
  }

  /** Editing alone: the server is not involved and no flush moves. */
  predicate Edits(s: State, t: State) {
    && t.server == s.server && t.flow == s.flow
    && t.saved.savedSeq == s.saved.savedSeq && t.saved.revisionId == s.saved.revisionId
    && t.saved.conflict == s.saved.conflict && s.saved.editSeq <= t.saved.editSeq
    && (s.saved.editSeq == t.saved.editSeq ==> t.editor.doc == s.editor.doc)
  }

  lemma {:induction false} CommitEdits(s: State, commit: bool)
    ensures Edits(s, CommitBuffered(s, commit)) && Edits(s, CommitPending(s))
    ensures commit && !s.editor.readonly ==> !CommitBuffered(s, commit).editor.pendingText
    ensures CommitBuffered(s, commit)
            .editor.(doc := s.editor.doc, buffer := s.editor.buffer, pendingText := s.editor.pendingText)
            == s.editor
  {
  }

  lemma {:induction false} EditsKeepInv(s: State, t: State)
    requires SavingOk(s) && StoreOk(s) && s.saved.savedSeq <= s.saved.editSeq && Edits(s, t)
    ensures SavingOk(t) && StoreOk(t)
  {
  }

  /** Inv between two microtasks of an acknowledgement, and what a flush does to it. */
  lemma {:induction false} LoopKeepsInv(s: State, commit: bool)
    requires SavingOk(s) && StoreOk(s) && s.saved.savedSeq <= s.saved.editSeq && !s.saved.conflict
    requires s.flow.saving.None? ==> s.flow.waiters == []
    ensures Inv(Loop(s, commit))
  {
  }

  lemma {:induction false} FlushKeepsInv(s: State, commit: bool)
    requires Inv(s)
    ensures Inv(Flush(s, commit))
  {
    var t := SetTimer(s, false);
    CommitEdits(t, commit);
    var u := CommitBuffered(t, commit);
    EditsKeepInv(t, u);
    if !u.saved.conflict {
      LoopKeepsInv(u, commit);
    }
  }

  /** Inv, except that a waiter not resumed yet may still have to take up the unsaved edits. */
  predicate Resuming(s: State) {
    && SavingOk(s) && StoreOk(s) && s.saved.savedSeq <= s.saved.editSeq && !s.saved.conflict
    && (s.flow.saving.None? ==> s.flow.waiters == [])
  }

  lemma {:induction false} ResumeKeepsInv(s: State, commit: bool)
    requires Resuming(s)
    ensures Resuming(Resume(s, commit))
    ensures FlowOk(s) || !(s.editor.composing && commit) ==> FlowOk(Resume(s, commit))
    ensures Resume(s, commit).editor.composing == s.editor.composing
  {
    if !(s.editor.composing && commit) {
      CommitEdits(s, commit);
      EditsKeepInv(s, CommitBuffered(s, commit));
      LoopKeepsInv(CommitBuffered(s, commit), commit);
    }
  }

  lemma {:induction false} ResumeAllKeepsInv(s: State, waiters: seq<bool>)
    requires Resuming(s) && (waiters == [] ==> FlowOk(s))
    ensures Inv(ResumeAll(s, waiters))
    decreases |waiters|
  {
    if waiters != [] {
      var init := waiters[..|waiters| - 1];
      ResumeAllResumes(s, init);
      ResumeKeepsInv(ResumeAll(s, init), waiters[|waiters| - 1]);
      if s.editor.composing {
        assert FlowOk(Resume(ResumeAll(s, init), waiters[|waiters| - 1]));
      }
    }
  }

  lemma {:induction false} ResumeAllResumes(s: State, waiters: seq<bool>)
    requires Resuming(s)
    ensures Resuming(ResumeAll(s, waiters)) && ResumeAll(s, waiters).editor.composing == s.editor.composing
    decreases |waiters|
  {
    if waiters != [] {
      ResumeAllResumes(s, waiters[..|waiters| - 1]);
      ResumeKeepsInv(ResumeAll(s, waiters[..|waiters| - 1]), waiters[|waiters| - 1]);
    }
  }

  lemma {:induction false} AcceptKeepsInv(s: State)
    requires Inv(s) && SaveTaken(s)
    ensures Inv(Step(s, Accepted))
  {
    var revision := s.server.verdicts[s.flow.saving.value.id].revision;
    assert Resuming(Acknowledged(s, revision));
    ResumeAllKeepsInv(Acknowledged(s, revision), s.flow.waiters);
  }

  lemma {:induction false} ServerKeepsInv(s: State, e: Event)
    requires Inv(s) && Enabled(s, e) && (e.Served? || e.Foreign?)
    ensures Inv(Step(s, e))
  {
  }

  lemma {:induction false} ReadonlyKeepsInv(s: State, value: bool)
    requires Inv(s)
    ensures Inv(SetReadonly(s, value))
  {
    if value != s.editor.readonly {
      var t := s.(editor := s.editor.(readonly := value));
      CommitEdits(SetTimer(t, false), true);
    }
  }

  predicate Local(e: Event) {
    && !e.FlushCall? && !e.TimerFires? && !e.Accepted? && !e.Served?
    && !e.Foreign? && !e.ReadonlySet? && !e.Failed? && !e.Rebased?
  }

  lemma {:induction false} LocalKeepsInv(s: State, e: Event)
    requires Inv(s) && Enabled(s, e) && Local(e)
    ensures Inv(Step(s, e)) && Edits(s, Step(s, e))
  {
    EditsKeepInv(s, Step(s, e));
  }

  lemma {:induction false} StepKeepsInv(s: State, e: Event)
    requires Inv(s) && Enabled(s, e)
    ensures Inv(Step(s, e))
  {
    match e {
      case FlushCall(commit) => FlushKeepsInv(s, commit);
      case TimerFires => FlushKeepsInv(s, false);
      case Accepted => AcceptKeepsInv(s);
      case Served(_) => ServerKeepsInv(s, e);
      case Foreign(_) => ServerKeepsInv(s, e);
      case ReadonlySet(value) => ReadonlyKeepsInv(s, value);
      case Failed(_) => {}
      case Rebased(_, _) => {}
      case _ => LocalKeepsInv(s, e);
    }
  }

  lemma {:induction false} RunKeepsInv(s: State, events: seq<Event>, t: State)
    requires Inv(s) && Leads(s, events, t)
    ensures Inv(t)
    decreases |events|
  {
    if events != [] {
      StepKeepsInv(s, events[0]);
      RunKeepsInv(Step(s, events[0]), events[1..], t);
    }
  }

  lemma {:induction false} ReachableInv(s: State)
    requires Reachable(s)
    ensures Inv(s)
  {
    var s0: State, events: seq<Event> :| Initial(s0) && Leads(s0, events, s);
    RunKeepsInv(s0, events, s);
  }

  // Main results.

  /** An editor that says it is clean shows exactly what is stored under its revision. */
  lemma CleanMeansStored(s: State)
    requires Reachable(s) && !Dirty(s)
    ensures s.saved.revisionId in s.server.store && s.server.store[s.saved.revisionId] == s.editor.doc
    ensures s.flow.saving.None?
  {
    ReachableInv(s);
  }

  /** The edits acknowledged never run ahead of the edits made, and at most one save is in flight:
      the last one sent, based on the last acknowledged revision. */
  lemma OneSaveOnTheAcknowledgedRevision(s: State)
    requires Reachable(s)
    ensures s.saved.savedSeq <= s.saved.editSeq
    ensures s.flow.saving.Some? ==>
              && s.server.sent != [] && s.flow.saving.value == s.server.sent[|s.server.sent| - 1]
              && s.flow.saving.value.base == s.saved.revisionId
              && s.saved.savedSeq < s.flow.saving.value.edit
  {
    ReachableInv(s);
  }

  /** `t` has sent nothing since `s`, or one save that is in flight. */
  predicate SentAtMostOne(s: State, t: State) {
    || (t.server.sent == s.server.sent && t.flow.saving == s.flow.saving)
    || (t.flow.saving.Some? && s.flow.saving.None? && t.server.sent == s.server.sent + [t.flow.saving.value])
  }

  lemma {:induction false} ResumeAllSendsOnce(s: State, waiters: seq<bool>)
    requires s.flow.saving.None?
    ensures SentAtMostOne(s, ResumeAll(s, waiters))
    decreases |waiters|
  {
    if waiters != [] {
      var init := waiters[..|waiters| - 1];
      ResumeAllSendsOnce(s, init);
      CommitEdits(ResumeAll(s, init), waiters[|waiters| - 1]);
    }
  }

  lemma {:induction false} FlushSendsOnce(s: State, commit: bool)
    requires SavingOk(s)
    ensures SentAtMostOne(s, Flush(s, commit))
  {
    CommitEdits(SetTimer(s, false), commit);
  }

  /** A request leaves only when none is in flight, or the one in flight has just been acknowledged;
      it is then the one in flight. */
  lemma {:induction false} SendsOnlyWhenIdle(s: State, e: Event)
    requires Reachable(s) && Enabled(s, e) && Step(s, e).server.sent != s.server.sent
    ensures s.flow.saving.None? || e.Accepted?
    ensures var t := Step(s, e);
            t.flow.saving.Some? && t.server.sent == s.server.sent + [t.flow.saving.value]
  {
    ReachableInv(s);
    if e.Accepted? {
      var revision := s.server.verdicts[s.flow.saving.value.id].revision;
      ResumeAllSendsOnce(Acknowledged(s, revision), s.flow.waiters);
    } else if e.FlushCall? || e.TimerFires? {
      FlushSendsOnce(s, if e.FlushCall? then e.commit else false);
    } else {
      OthersSendNothing(s, e);
    }
  }

  lemma {:induction false} OthersSendNothing(s: State, e: Event)
    requires Enabled(s, e) && !e.Accepted? && !e.FlushCall? && !e.TimerFires?
    ensures Step(s, e).server.sent == s.server.sent
  {
  }

  /** A stored revision never changes, and an autosave that lands replaces exactly the revision it
      was based on. */
  lemma {:induction false} SavesNeverOverwrite(s: State, e: Event)
    requires Reachable(s) && Enabled(s, e)
    ensures forall r :: r in s.server.store ==>
              r in Step(s, e).server.store && Step(s, e).server.store[r] == s.server.store[r]
    ensures e.Served? && Step(s, e).server.head != s.server.head ==>
              && s.server.sent[e.id].base == s.server.head
              && Step(s, e).server.store[Step(s, e).server.head] == s.server.sent[e.id].doc
  {
    ReachableInv(s);
    StoreOnlyGrows(s, e);
  }

  lemma {:induction false} StoreOnlyGrows(s: State, e: Event)
    requires Inv(s) && Enabled(s, e)
    ensures forall r :: r in s.server.store ==>
              r in Step(s, e).server.store && Step(s, e).server.store[r] == s.server.store[r]
  {
    if e.Accepted? {
      ResumeAllKeepsStore(Acknowledged(s, s.server.verdicts[s.flow.saving.value.id].revision), s.flow.waiters);
    } else {
      assert e.Served? || e.Foreign? || Step(s, e).server.store == s.server.store;
    }
  }

  lemma {:induction false} ResumeAllKeepsStore(s: State, waiters: seq<bool>)
    ensures var was, now := s.server, ResumeAll(s, waiters).server;
            now.store == was.store && now.head == was.head && now.verdicts == was.verdicts && was.sent <= now.sent
    decreases |waiters|
  {
    if waiters != [] {
      ResumeAllKeepsStore(s, waiters[..|waiters| - 1]);
      CommitEdits(ResumeAll(s, waiters[..|waiters| - 1]), waiters[|waiters| - 1]);
    }
  }

  /** A conflict is final: it stays, and nothing is sent any more. */
  lemma {:induction false} ConflictIsSticky(s: State, events: seq<Event>, t: State)
    requires Reachable(s) && s.saved.conflict && Leads(s, events, t)
    ensures t.saved.conflict && t.server.sent == s.server.sent && t.saved.savedSeq == s.saved.savedSeq
    decreases |events|
  {
    ReachableInv(s);
    ConflictStays(s, events, t);
  }

  lemma {:induction false} ConflictStays(s: State, events: seq<Event>, t: State)
    requires Inv(s) && s.saved.conflict && Leads(s, events, t)
    ensures t.saved.conflict && t.server.sent == s.server.sent && t.saved.savedSeq == s.saved.savedSeq
    decreases |events|
  {
    if events != [] {
      var next := Step(s, events[0]);
      StepKeepsInv(s, events[0]);
      ConflictStep(s, events[0]);
      ConflictStays(next, events[1..], t);
    }
  }

  lemma {:induction false} ConflictStep(s: State, e: Event)
    requires Inv(s) && s.saved.conflict && Enabled(s, e)
    ensures Step(s, e).saved.conflict && Step(s, e).server.sent == s.server.sent
    ensures Step(s, e).saved.savedSeq == s.saved.savedSeq
  {
    CommitEdits(SetTimer(s, false), true);
  }

  /** Without a conflict, an editor that is writable and not composing always has its unsaved edits
      on their way: in flight, or due at the timer. */
  lemma NoEditIsForgotten(s: State)
    requires Reachable(s) && s.saved.editSeq != s.saved.savedSeq
    requires !s.saved.conflict && !s.editor.readonly && !s.editor.composing
    ensures s.saved.timer || s.flow.saving.Some?
  {
    ReachableInv(s);
  }

  /** Some flush that commits buffered text resolves in this step. */
  predicate Resolves(s: State, t: State) {
    && |s.flow.resolved| <= |t.flow.resolved|
    && exists i :: |s.flow.resolved| <= i < |t.flow.resolved| && t.flow.resolved[i]
  }

  /** When such a flush resolves in a writable editor, nothing is pending, nothing is being composed,
      and the document shown is the stored one. */
  lemma {:induction false} ResolvedFlushMeansSaved(s: State, e: Event)
    requires Reachable(s) && Enabled(s, e) && !s.editor.readonly && Resolves(s, Step(s, e))
    ensures var t := Step(s, e);
            && !Dirty(t) && !t.editor.composing
            && t.saved.revisionId in t.server.store && t.server.store[t.saved.revisionId] == t.editor.doc
  {
    ReachableInv(s);
    StepKeepsInv(s, e);
    if e.Accepted? {
      ResumeAllResolves(Acknowledged(s, s.server.verdicts[s.flow.saving.value.id].revision), s.flow.waiters);
    } else {
      CommitEdits(SetTimer(s, false), true);
    }
  }

  /** Nothing is left that a later waiter could take up. */
  predicate Settled(s: State) {
    && s.saved.editSeq == s.saved.savedSeq && s.flow.saving.None?
    && !s.editor.pendingText && !s.editor.composing && s.editor.buffer.None?
  }

  lemma {:induction false} ResumeAllResolves(s: State, waiters: seq<bool>)
    requires !s.editor.readonly
    ensures var t := ResumeAll(s, waiters);
            && !t.editor.readonly && t.editor.composing == s.editor.composing
            && |s.flow.resolved| <= |t.flow.resolved|
            && (Resolves(s, t) ==> Settled(t))
    decreases |waiters|
  {
    if waiters != [] {
      var init := waiters[..|waiters| - 1];
      ResumeAllResolves(s, init);
      ResumeResolves(s, ResumeAll(s, init), waiters[|waiters| - 1]);
    }
  }

  lemma {:induction false} ResumeResolves(s: State, u: State, commit: bool)
    requires !u.editor.readonly && |s.flow.resolved| <= |u.flow.resolved|
    requires Resolves(s, u) ==> Settled(u)
    ensures var t := Resume(u, commit);
            && !t.editor.readonly && t.editor.composing == u.editor.composing
            && |s.flow.resolved| <= |t.flow.resolved|
            && (Resolves(s, t) ==> Settled(t))
  {
    var t := Resume(u, commit);
    CommitEdits(u, commit);
    if Resolves(s, t) && !Resolves(s, u) {
      var i :| |s.flow.resolved| <= i < |t.flow.resolved| && t.flow.resolved[i];
      assert i == |u.flow.resolved|;
    }
  }

  lemma {:induction false} LeadsSnoc(s: State, events: seq<Event>, t: State, e: Event)
    requires Leads(s, events, t) && Enabled(t, e)
    ensures Leads(s, events + [e], Step(t, e))
    decreases |events|
  {
    if events == [] {
      assert [e][1..] == [];
    } else {
      assert (events + [e])[1..] == events[1..] + [e];
      LeadsSnoc(Step(s, events[0]), events[1..], t, e);
    }
  }

  /** What the traced events say about the state they lead to. */
  lemma {:induction false} EventIsTraced(begun: State, events: seq<Event>, s: State, e: Event)
    requires Initial(begun) && Leads(begun, events, s) && Enabled(s, e)
    ensures var t := Step(s, e);
            && Leads(begun, events + [e], t)
            && (!Dirty(t) ==> t.saved.revisionId in t.server.store
                              && t.server.store[t.saved.revisionId] == t.editor.doc)
            && (t.flow.saving.Some? ==>
                  && t.server.sent != [] && t.flow.saving.value == t.server.sent[|t.server.sent| - 1]
                  && t.flow.saving.value.base == t.saved.revisionId)
            && (s.saved.conflict ==> t.saved.conflict && t.server.sent == s.server.sent)
            && (t.saved.editSeq != t.saved.savedSeq && !t.saved.conflict && !t.editor.readonly && !t.editor.composing
                ==> t.saved.timer || t.flow.saving.Some?)
            && (!s.editor.readonly && Resolves(s, t) ==> !Dirty(t) && !t.editor.composing)
            && forall r :: r in s.server.store ==> r in t.server.store && t.server.store[r] == s.server.store[r]
  {
    var t := Step(s, e);
    LeadsSnoc(begun, events, s, e);
    assert Reachable(s) && Reachable(t);
    OneSaveOnTheAcknowledgedRevision(t);
    SavesNeverOverwrite(s, e);
    if !Dirty(t) {
      CleanMeansStored(t);
    }
    if s.saved.conflict {
      ReachableInv(s);
      ConflictStep(s, e);
    }
    if t.saved.editSeq != t.saved.savedSeq && !t.saved.conflict && !t.editor.readonly && !t.editor.composing {
      NoEditIsForgotten(t);
    }
    if !s.editor.readonly && Resolves(s, t) {
      ResolvedFlushMeansSaved(s, e);
    }
  }
}
