/** The autosave told by its events: what is shown, what is known to be stored, and when saving is over. */
module AutosaveByEvents {
  import opened Options
  import opened AutosaveModel
  import opened AutosaveResults

  // What each event does to the editor.

  /** The event makes the editor commit what has been typed, if it may. */
  predicate Settles(s: State, e: Event) {
    && !s.editor.readonly
    && match e
       case FlushCall(commit) => commit && !s.editor.composing
       case ReadonlySet(value) => value && !s.editor.composing
       case Accepted => true in s.flow.waiters && !s.editor.composing
       case _ => false
  }

  /** Typed text becomes the document. */
  predicate Commits(s: State, e: Event) {
    s.editor.buffer.Some? && (Settles(s, e) || (e.CommitOnly? && !s.editor.readonly))
  }

  function EditorAfter(s: State, e: Event): Editor {
    var was := s.editor;
    Editor(
      if e.Edit? then e.doc else if Commits(s, e) then was.buffer.value else was.doc,
      if e.Input? then Some(e.text) else if Commits(s, e) then None else was.buffer,
      if e.Input? then true
      else was.pendingText && !Settles(s, e) && (was.attached || !(e.Blur? || e.Edit? || Commits(s, e))),
      if e.Input? then true else if e.Detach? then false else was.attached,
      if e.CompositionStart? then true else if e.CompositionEnd? then false else was.composing,
      if e.ReadonlySet? then e.value else was.readonly)
  }

  /** The revision a save in flight has been stored under. */
  function SavedAs(s: State): Revision
    requires SaveTaken(s)
  {
    s.server.verdicts[s.flow.saving.value.id].revision
  }

  function SavedAfter(s: State, e: Event): Saved
    requires Enabled(s, e)
  {
    var was := s.saved;
    Saved(
      was.editSeq + if e.Edit? || Commits(s, e) then 1 else 0,
      if e.Accepted? then s.flow.saving.value.edit else was.savedSeq,
      if e.Accepted? then SavedAs(s)
      else if e.Rebased? && was.revisionId == e.previous && s.flow.saving.None? then e.next else was.revisionId,
      if e == Failed(Conflict) then true else if e == Failed(OtherRefusal) then false else was.conflict,
      TimerAfter(s, e))
  }

  /** The next save is due: after a change, a failure that is no conflict, and whenever the editor may save again. */
  predicate Schedules(s: State, e: Event) {
    || e.Edit? || Commits(s, e)
    || ((e.CompositionEnd? || e.Online? || (e.ReadonlySet? && !e.value && s.editor.readonly)) && Dirty(s))
    || (e.Failed? && !e.failure.Conflict?)
  }

  function TimerAfter(s: State, e: Event): bool {
    if Schedules(s, e) then (!s.saved.conflict || e == Failed(OtherRefusal)) && !EditorAfter(s, e).readonly
    else if e.FlushCall? || e.TimerFires? || (e.ReadonlySet? && e.value && !s.editor.readonly) then false
    else s.saved.timer
  }

  // Acknowledgements: what the waiters do, all in one turn.

  /** The waiters change the editor at most once, at the first that commits. */
  ghost predicate WaitersSettle(s: State, waiters: seq<bool>, t: State) {
    var settles := true in waiters && !s.editor.composing && !s.editor.readonly;
    var commits := settles && s.editor.buffer.Some?;
    && t.editor.doc == (if commits then s.editor.buffer.value else s.editor.doc)
    && t.editor.buffer == (if commits then None else s.editor.buffer)
    && t.editor.pendingText == (s.editor.pendingText && !settles)
    && t.editor.attached == s.editor.attached
    && t.editor.composing == s.editor.composing && t.editor.readonly == s.editor.readonly
    && t.saved.editSeq == s.saved.editSeq + (if commits then 1 else 0)
    && t.saved.savedSeq == s.saved.savedSeq && t.saved.revisionId == s.saved.revisionId
    && t.saved.conflict == s.saved.conflict
    && t.saved.timer == (if commits then !s.saved.conflict else s.saved.timer)
  }

  lemma {:induction false} ResumeSettles(s: State, commit: bool)
    ensures WaitersSettle(s, [commit], Resume(s, commit))
  {
  }

  lemma {:induction false} SettleTwice(s: State, init: seq<bool>, u: State, commit: bool, t: State)
    requires WaitersSettle(s, init, u) && WaitersSettle(u, [commit], t)
    ensures WaitersSettle(s, init + [commit], t)
  {
    assert true in init + [commit] <==> true in init || commit;
  }

  lemma {:induction false} ResumeAllSettles(s: State, waiters: seq<bool>)
    ensures WaitersSettle(s, waiters, ResumeAll(s, waiters))
    decreases |waiters|
  {
    if waiters != [] {
      var init, last := waiters[..|waiters| - 1], waiters[|waiters| - 1];
      ResumeAllSettles(s, init);
      ResumeSettles(ResumeAll(s, init), last);
      SettleTwice(s, init, ResumeAll(s, init), last, ResumeAll(s, waiters));
      assert init + [last] == waiters;
    }
  }

  lemma {:induction false} AcceptedIsTold(s: State)
    requires SaveTaken(s)
    ensures Step(s, Accepted).editor == EditorAfter(s, Accepted) && Step(s, Accepted).saved == SavedAfter(s, Accepted)
  {
    ResumeAllSettles(Acknowledged(s, SavedAs(s)), s.flow.waiters);
  }

  lemma {:induction false} FlushIsTold(s: State, e: Event)
    requires Enabled(s, e) && (e.FlushCall? || e.TimerFires?)
    ensures Step(s, e).editor == EditorAfter(s, e) && Step(s, e).saved == SavedAfter(s, e)
  {
  }

  predicate Types(e: Event) {
    e.Edit? || e.Input? || e.Detach? || e.Blur? || e.CommitOnly?
  }

  lemma {:induction false} TypingIsTold(s: State, e: Event)
    requires Enabled(s, e) && Types(e)
    ensures Step(s, e).editor == EditorAfter(s, e) && Step(s, e).saved == SavedAfter(s, e)
  {
  }

  lemma {:induction false} OtherIsTold(s: State, e: Event)
    requires Enabled(s, e) && !Types(e) && !e.FlushCall? && !e.TimerFires? && !e.Accepted?
    requires s.flow.saving.Some? ==> !s.saved.conflict
    ensures Step(s, e).editor == EditorAfter(s, e) && Step(s, e).saved == SavedAfter(s, e)
  {
  }

  lemma {:induction false} InvStepIsTold(s: State, e: Event)
    requires Inv(s) && Enabled(s, e)
    ensures Step(s, e).editor == EditorAfter(s, e) && Step(s, e).saved == SavedAfter(s, e)
  {
    if e.Accepted? {
      AcceptedIsTold(s);
    } else if e.FlushCall? || e.TimerFires? {
      FlushIsTold(s, e);
    } else if Types(e) {
      TypingIsTold(s, e);
    } else {
      OtherIsTold(s, e);
    }
  }

  /** What is shown and what is acknowledged, after any event in any reachable state. */
  lemma {:induction false} StepIsTold(s: State, e: Event)
    requires Reachable(s) && Enabled(s, e)
    ensures Step(s, e).editor == EditorAfter(s, e) && Step(s, e).saved == SavedAfter(s, e)
  {
    ReachableInv(s);
    InvStepIsTold(s, e);
  }

  // Flags that repeat the last event that set them.

  /** The last value the host has set, if it has set any. */
  function LastReadonly(events: seq<Event>): bool {
    if events == [] then true
    else
      var last := events[|events| - 1];
      if last.ReadonlySet? then last.value else LastReadonly(events[..|events| - 1])
  }

  lemma {:induction false} ReadonlyFollows(s: State, events: seq<Event>, t: State, before: seq<Event>)
    requires Inv(s) && Leads(s, events, t) && s.editor.readonly == LastReadonly(before)
    ensures t.editor.readonly == LastReadonly(before + events)
    decreases |events|
  {
    if events == [] {
      assert before + events == before;
    } else {
      var next := before + [events[0]];
      assert next[..|before|] == before;
      StepKeepsInv(s, events[0]);
      InvStepIsTold(s, events[0]);
      ReadonlyFollows(Step(s, events[0]), events[1..], t, next);
      assert next + events[1..] == before + events;
    }
  }

  // Conflicts.

  lemma {:induction false} ConflictFollows(s: State, events: seq<Event>, t: State)
    requires Inv(s) && Leads(s, events, t)
    ensures t.saved.conflict <==> s.saved.conflict || Failed(Conflict) in events
    decreases |events|
  {
    if events != [] {
      StepKeepsInv(s, events[0]);
      InvStepIsTold(s, events[0]);
      ConflictFollows(Step(s, events[0]), events[1..], t);
      assert events == [events[0]] + events[1..];
    }
  }

  /** After every run: there is a conflict exactly when a save has been refused for one, and the editor is read-only
      exactly when the host said so last, or never said anything. */
  lemma {:induction false} FlagsFollowEvents(begun: State, events: seq<Event>, s: State)
    requires Initial(begun) && Leads(begun, events, s)
    ensures s.saved.conflict <==> Failed(Conflict) in events
    ensures s.editor.readonly == LastReadonly(events)
  {
    ConflictFollows(begun, events, s);
    ReadonlyFollows(begun, events, s, []);
    assert [] + events == events;
  }

  /** Saving is over: nothing is in flight, nothing has been sent or acknowledged since, no flush waits or has
      resolved, and the timer has not been set again. */
  ghost predicate SavingIsOver(s: State, t: State) {
    && t.saved.conflict && t.server.sent == s.server.sent && t.saved.savedSeq == s.saved.savedSeq
    && t.flow.saving.None? && t.flow.waiters == [] && t.flow.resolved == s.flow.resolved
    && (t.saved.timer ==> s.saved.timer)
  }

  lemma {:induction false} OverStaysOver(s: State, t: State, e: Event)
    requires SavingIsOver(s, t) && Enabled(t, e)
    ensures SavingIsOver(s, Step(t, e))
  {
  }

  lemma {:induction false} RunStaysOver(s: State, t: State, events: seq<Event>, u: State)
    requires SavingIsOver(s, t) && Leads(t, events, u)
    ensures SavingIsOver(s, u)
    decreases |events|
  {
    if events != [] {
      OverStaysOver(s, t, events[0]);
      RunStaysOver(s, Step(t, events[0]), events[1..], u);
    }
  }

  /** A save that is refused for a conflict is the last one: whatever comes after it, nothing more is sent, no flush
      resolves, and a timer that is not running is never set again. */
  lemma {:induction false} ConflictEndsSaving(s: State, events: seq<Event>, t: State)
    requires Reachable(s) && s.flow.saving.Some? && Leads(Step(s, Failed(Conflict)), events, t)
    ensures SavingIsOver(s, t)
  {
    RunStaysOver(s, Step(s, Failed(Conflict)), events, t);
  }

  /** Any other failure leaves the edits unsaved and no conflict, rejects the flushes that waited, and sets the timer
      of a writable editor. */
  lemma {:induction false} OtherFailuresTryAgain(s: State, failure: Failure)
    requires Reachable(s) && s.flow.saving.Some? && !failure.Conflict?
    ensures var t := Step(s, Failed(failure));
            && !t.saved.conflict && t.flow == Flow(None, [], s.flow.resolved) && t.server == s.server
            && t.saved.savedSeq < t.saved.editSeq && t.editor == s.editor
            && (t.saved.timer <==> !s.editor.readonly)
  {
    ReachableInv(s);
  }

  // Flushes.

  /** Something is unsaved once the flush has committed what it may. */
  predicate Unsaved(s: State, commit: bool) {
    s.saved.editSeq != s.saved.savedSeq || (commit && !s.editor.readonly && s.editor.buffer.Some?)
  }

  /** What a flush comes to at once: it throws while a text is being composed or after a conflict; it resolves when
      nothing is unsaved and nothing in flight; otherwise it waits, for the save in flight or for one it sends. */
  lemma {:induction false} FlushComesTo(s: State, commit: bool)
    requires Reachable(s)
    ensures var t := Step(s, FlushCall(commit));
            if (commit && s.editor.composing) || s.saved.conflict then t.flow == s.flow && t.server == s.server
            else if !Unsaved(s, commit) && s.flow.saving.None? then
              t.flow == s.flow.(resolved := s.flow.resolved + [commit]) && t.server == s.server
            else
              && t.flow.waiters == s.flow.waiters + [commit] && t.flow.resolved == s.flow.resolved
              && if s.flow.saving.Some? then t.flow.saving == s.flow.saving && t.server == s.server
                 else
                   && t.flow.saving == Some(Save(|s.server.sent|, t.saved.editSeq, s.saved.revisionId, t.editor.doc))
                   && t.server == s.server.(sent := s.server.sent + [t.flow.saving.value])
  {
    ReachableInv(s);
  }

  lemma LeadsCons(s: State, e: Event, events: seq<Event>, t: State)
    requires Enabled(s, e) && Leads(Step(s, e), events, t)
    ensures Leads(s, [e] + events, t)
  {
    assert ([e] + events)[1..] == events;
  }

  /** What is shown once what has been typed is committed. */
  function Shown(s: State): Doc {
    if s.editor.buffer.Some? then s.editor.buffer.value else s.editor.doc
  }

  /** The only waiter of a save resolves with it if nothing has changed meanwhile. */
  lemma {:induction false} WaiterResolves(s: State)
    requires SaveTaken(s) && s.flow.waiters == [true] && !s.editor.composing && s.editor.buffer.None?
    requires s.saved.editSeq == s.flow.saving.value.edit && !s.editor.pendingText
    ensures var t := Step(s, Accepted);
            && t.flow == Flow(None, [], s.flow.resolved + [true]) && !Dirty(t)
            && t.editor.doc == s.editor.doc && t.server == s.server && t.saved.revisionId == SavedAs(s)
  {
    var u := Acknowledged(s, SavedAs(s));
    assert [true][..0] == [];
    assert ResumeAll(u, [true][..0]) == u;
    assert ResumeAll(u, [true]) == Resume(u, true);
  }

  /** The flush has sent what is shown, and nothing else is unsaved. */
  predicate Underway(s: State, doc: Doc, resolved: seq<bool>) {
    && s.flow.saving.Some? && s.flow.waiters == [true] && s.flow.resolved == resolved
    && s.editor.doc == doc && !s.editor.composing && s.editor.buffer.None? && !s.editor.pendingText
    && s.saved.editSeq == s.flow.saving.value.edit
  }

  lemma {:induction false} FlushGetsUnderway(s: State)
    requires Reachable(s) && !s.editor.readonly && !s.editor.composing && !s.saved.conflict
    requires s.flow.saving.None? && s.server.head == s.saved.revisionId && Unsaved(s, true)
    ensures var t, id := Step(s, FlushCall(true)), |s.server.sent|;
            && Underway(t, Shown(s), s.flow.resolved) && id !in t.server.verdicts && t.server.head == s.server.head
            && t.server.sent == s.server.sent + [Save(id, t.saved.editSeq, s.server.head, Shown(s))]
            && t.flow.saving == Some(t.server.sent[id])
  {
    ReachableInv(s);
    FlushComesTo(s, true);
    FlushIsTold(s, FlushCall(true));
  }

  /** A flush that nobody interferes with saves what is shown, typed text included, and resolves. */
  lemma {:induction false} FlushSaves(s: State)
    requires Reachable(s) && !s.editor.readonly && !s.editor.composing && !s.saved.conflict
    requires s.flow.saving.None? && s.server.head == s.saved.revisionId && Unsaved(s, true)
    ensures exists t ::
              && Leads(s, [FlushCall(true), Served(|s.server.sent|), Accepted], t)
              && !Dirty(t) && t.editor.doc == Shown(s) && t.flow == Flow(None, [], s.flow.resolved + [true])
              && t.server.head == t.saved.revisionId && t.server.head in t.server.store
              && t.server.store[t.server.head] == Shown(s)
  {
    var id := |s.server.sent|;
    FlushGetsUnderway(s);
    var s1 := Step(s, FlushCall(true));
    var s2 := Step(s1, Served(id));
    var t := Step(s2, Accepted);
    WaiterResolves(s2);
    LeadsCons(s2, Accepted, [], t);
    LeadsCons(s1, Served(id), [Accepted], t);
    LeadsCons(s, FlushCall(true), [Served(id), Accepted], t);
    assert [FlushCall(true)] + [Served(id), Accepted] == [FlushCall(true), Served(id), Accepted];
  }

  /** An acknowledgement with nothing else unsaved lets every waiter resolve, except those that would commit a text
      still being composed; with something unsaved they all wait for the next save. */
  ghost predicate WaitersGoOn(s: State, waiters: seq<bool>, t: State) {
    var going := Going(waiters, s.editor.composing);
    if s.saved.editSeq != s.saved.savedSeq then
      && t.flow.resolved == s.flow.resolved && t.flow.waiters == going
      && (t.flow.saving.Some? <==> going != []) && t.saved.editSeq >= s.saved.editSeq
    else if s.editor.buffer.None? || s.editor.readonly || s.editor.composing then
      t.flow == Flow(None, [], s.flow.resolved + going) && t.server == s.server
      && t.saved.editSeq == s.saved.editSeq
    else true
  }

  /** The waiters that do not throw. */
  function Going(waiters: seq<bool>, composing: bool): seq<bool> {
    if waiters == [] then []
    else
      var init := Going(waiters[..|waiters| - 1], composing);
      if composing && waiters[|waiters| - 1] then init else init + [waiters[|waiters| - 1]]
  }

  lemma {:induction false} ResumeAllGoesOn(s: State, waiters: seq<bool>)
    requires s.flow.saving.None? && s.flow.waiters == [] && s.saved.savedSeq <= s.saved.editSeq
    ensures WaitersGoOn(s, waiters, ResumeAll(s, waiters))
    decreases |waiters|
  {
    if waiters != [] {
      var init, last := waiters[..|waiters| - 1], waiters[|waiters| - 1];
      ResumeAllGoesOn(s, init);
      ResumeAllSettles(s, init);
      var u := ResumeAll(s, init);
      ResumeSettles(u, last);
      assert s.flow.resolved + Going(waiters, s.editor.composing)
          == if s.editor.composing && last then s.flow.resolved + Going(init, s.editor.composing)
             else s.flow.resolved + Going(init, s.editor.composing) + [last];
    } else {
      assert s.flow.resolved + [] == s.flow.resolved;
    }
  }

  lemma {:induction false} AcknowledgementsGoOn(s: State)
    requires Reachable(s) && SaveTaken(s)
    ensures WaitersGoOn(Acknowledged(s, SavedAs(s)), s.flow.waiters, Step(s, Accepted))
  {
    ReachableInv(s);
    ResumeAllGoesOn(Acknowledged(s, SavedAs(s)), s.flow.waiters);
  }

  /** The store takes a save exactly when its base is still the newest revision, under a new one, and says so; a foreign
      document is stored in the same way. Nothing else moves it, and requests are only added. */
  lemma {:induction false} StoreIsCompareAndSet(s: State, e: Event)
    requires Reachable(s) && Enabled(s, e)
    ensures var was, now := s.server, Step(s, e).server;
            var save := if e.Served? then Some(was.sent[e.id]) else None;
            var taken := if e.Foreign? then Some(e.doc)
                         else if save.Some? && save.value.base == was.head then Some(save.value.doc) else None;
            && (if taken.Some? then now.head !in was.store && now.store == was.store[now.head := taken.value]
                else now.store == was.store && now.head == was.head)
            && now.verdicts == (if save.None? then was.verdicts
                                else was.verdicts[e.id := if taken.Some? then Taken(now.head) else Refused])
            && was.sent <= now.sent
  {
    ReachableInv(s);
    if !e.Served? && !e.Foreign? {
      OthersLeaveStore(s, e);
    }
  }

  lemma {:induction false} OthersLeaveStore(s: State, e: Event)
    requires Enabled(s, e) && !e.Served? && !e.Foreign?
    ensures var was, now := s.server, Step(s, e).server;
            now.store == was.store && now.head == was.head && now.verdicts == was.verdicts && was.sent <= now.sent
  {
    if e.Accepted? {
      ResumeAllKeepsStore(Acknowledged(s, SavedAs(s)), s.flow.waiters);
    }
  }

  /** What the traced events say about what is shown, acknowledged and still to be saved. */
  lemma {:induction false} EventIsTold(begun: State, events: seq<Event>, s: State, e: Event)
    requires Initial(begun) && Leads(begun, events, s) && Enabled(s, e)
    ensures var t := Step(s, e);
            && t.editor == EditorAfter(s, e) && t.saved == SavedAfter(s, e)
            && (t.saved.conflict <==> Failed(Conflict) in events + [e])
            && t.editor.readonly == LastReadonly(events + [e])
            && (t.saved.conflict ==> SavingIsOver(s, t))
            && (e.Failed? && !e.failure.Conflict? ==>
                  t.flow == Flow(None, [], s.flow.resolved) && (t.saved.timer <==> !s.editor.readonly))
  {
    var t := Step(s, e);
    assert Reachable(s);
    StepIsTold(s, e);
    LeadsSnoc(begun, events, s, e);
    FlagsFollowEvents(begun, events + [e], t);
    if e.Failed? && !e.failure.Conflict? {
      OtherFailuresTryAgain(s, e.failure);
    }
    ReachableInv(s);
    if s.saved.conflict {
      OverStaysOver(s, s, e);
    }
  }
}
