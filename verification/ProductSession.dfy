/** packages/design-bento/src/product-session.ts as an object: the variables of its closure as fields, each
    method one run of the event loop. Between two events `Valid` says that the object is where the events it
    has handled lead the model from the state it was opened in, so that what is proved of every reachable
    state is true of every object. `Handle` carries out one more event, and its contract repeats the main
    results in the object's own fields. */
module ProductSession {
  import opened Options
  import M = AutosaveModel
  import Results = AutosaveResults
  import Told = AutosaveByEvents

  class Session {
    var editor: M.Editor
    var editSeq: nat
    var savedSeq: nat
    var revisionId: M.Revision
    var conflict: bool
    var timer: bool
    var saving: Option<M.Save>
    /** The flush calls that await `saving`, and those that have resolved. */
    var waiters: seq<bool>
    var resolved: seq<bool>
    /** The other end of the save requests. */
    var server: M.Server
    /** The state the object was made in, and every event since. */
    ghost const begun: M.State
    ghost var trace: seq<M.Event>

    function State(): M.State
      reads this
    {
      M.State(editor, M.Saved(editSeq, savedSeq, revisionId, conflict, timer), M.Flow(saving, waiters, resolved),
              server)
    }

    /** Between two events the object is where its events lead the model. */
    ghost predicate Valid()
      reads this
    {
      M.Initial(begun) && M.Leads(begun, trace, State())
    }

    /** The object is valid if the document is the stored content of its revision and the server is new. */
    constructor (doc: M.Doc, revisionId: M.Revision, server: M.Server)
      ensures M.Initial(State()) ==> Valid()
      ensures State() == M.State(M.Editor(doc, None, false, false, false, true),
                                 M.Saved(0, 0, revisionId, false, false), M.Flow(None, [], []), server)
    {
      editor := M.Editor(doc, None, false, false, false, true);
      editSeq, savedSeq, this.revisionId, conflict, timer := 0, 0, revisionId, false, false;
      saving, waiters, resolved := None, [], [];
      this.server := server;
      trace := [];
      begun := M.State(M.Editor(doc, None, false, false, false, true), M.Saved(0, 0, revisionId, false, false),
                       M.Flow(None, [], []), server);
    }

    method Schedule()
      modifies this`timer
      ensures State() == M.Schedule(old(State()))
    {
      timer := !conflict && !editor.readonly;
    }

    method Changed(doc: M.Doc)
      modifies this
      ensures State() == M.Changed(old(State()), doc)
    {
      editor := editor.(doc := doc);
      if !editor.attached {
        editor := editor.(pendingText := false);
      }
      editSeq := editSeq + 1;
      Schedule();
    }

    method CommitPending()
      modifies this
      ensures State() == M.CommitPending(old(State()))
    {
      if editor.buffer.Some? {
        var text := editor.buffer.value;
        editor := editor.(buffer := None);
        Changed(text);
      }
    }

    method CommitBuffered(commit: bool)
      modifies this
      ensures State() == M.CommitBuffered(old(State()), commit)
    {
      if commit && !editor.readonly {
        CommitPending();
        editor := editor.(pendingText := false);
      }
    }

    /** `saveOne` up to its request. */
    method SaveOne()
      modifies this
      ensures State() == M.SaveOne(old(State()))
    {
      var save := M.Save(|server.sent|, editSeq, revisionId, editor.doc);
      server := server.(sent := server.sent + [save]);
      saving := Some(save);
    }

    /** The flush loop up to its await, or to its end. */
    method Loop(commit: bool)
      modifies this
      ensures State() == M.Loop(old(State()), commit)
    {
      if editSeq == savedSeq && saving.None? {
        resolved := resolved + [commit];
        return;
      }
      if saving.None? {
        SaveOne();
      }
      waiters := waiters + [commit];
    }

    method Flush(commit: bool)
      modifies this
      ensures State() == M.Flush(old(State()), commit)
    {
      timer := false;
      if editor.composing && commit {
        return;
      }
      CommitBuffered(commit);
      if conflict {
        return;
      }
      Loop(commit);
    }

    method Resume(commit: bool)
      modifies this
      ensures State() == M.Resume(old(State()), commit)
    {
      if editor.composing && commit {
        return;
      }
      CommitBuffered(commit);
      Loop(commit);
    }

    /** The save succeeded: it is acknowledged, then every waiter goes on in turn. */
    method Accept(revision: M.Revision)
      requires saving.Some?
      modifies this
      ensures State() == M.Accept(old(State()), revision)
    {
      revisionId := revision;
      savedSeq := saving.value.edit;
      saving := None;
      var awaiting := waiters;
      waiters := [];
      ghost var acknowledged := State();
      var i := 0;
      while i < |awaiting|
        invariant 0 <= i <= |awaiting|
        invariant State() == M.ResumeAll(acknowledged, awaiting[..i])
      {
        Resume(awaiting[i]);
        i := i + 1;
        assert awaiting[..i][..i - 1] == awaiting[..i - 1];
      }
      assert awaiting[..i] == awaiting;
    }

    /** The save failed: every waiter throws. */
    method Fail(failure: M.Failure)
      modifies this
      ensures State() == M.Fail(old(State()), failure)
    {
      if !failure.NoAnswer? {
        conflict := failure.Conflict?;
      }
      if !conflict {
        Schedule();
      }
      saving := None;
      waiters := [];
    }

    method SetReadonly(value: bool)
      modifies this
      ensures State() == M.SetReadonly(old(State()), value)
    {
      if value == editor.readonly {
        return;
      }
      editor := editor.(readonly := value);
      if value {
        timer := false;
        if !editor.composing {
          CommitPending();
          editor := editor.(pendingText := false);
        }
      } else if M.Dirty(State()) {
        Schedule();
      }
    }

    method Rebase(previous: M.Revision, next: M.Revision) returns (rebased: bool)
      modifies this
      ensures State() == M.Rebase(old(State()), previous, next)
      ensures rebased <==> old(revisionId) == previous && old(saving).None?
    {
      if revisionId != previous || saving.Some? {
        return false;
      }
      revisionId := next;
      return true;
    }

    /** The server's side of a request. */
    method Serve(id: nat)
      requires id < |server.sent|
      modifies this`server
      ensures State() == M.Serve(old(State()), id)
    {
      server := M.Serve(State(), id).server;
    }

    /** One event, as the object carries it out. */
    method CarryOut(e: M.Event)
      requires M.Enabled(State(), e)
      modifies this
      ensures State() == M.Step(old(State()), e)
    {
      match e {
        case Edit(doc) => Changed(doc);
        case Input(text) => editor := editor.(buffer := Some(text), pendingText := true, attached := true);
        case Detach => editor := editor.(attached := false);
        case Blur =>
          if !editor.attached {
            editor := editor.(pendingText := false);
          }
        case CompositionStart => editor := editor.(composing := true);
        case CompositionEnd =>
          editor := editor.(composing := false);
          if M.Dirty(State()) {
            Schedule();
          }
        case Online =>
          if M.Dirty(State()) {
            Schedule();
          }
        case CommitOnly =>
          if !editor.readonly {
            CommitPending();
          }
        case FlushCall(commit) => Flush(commit);
        case TimerFires => Flush(false);
        case ReadonlySet(value) => SetReadonly(value);
        case Rebased(previous, next) => var _ := Rebase(previous, next);
        case Served(id) => Serve(id);
        case Foreign(doc) => server := M.Stored(server, doc);
        case Accepted => Accept(server.verdicts[saving.value.id].revision);
        case Failed(failure) => Fail(failure);
      }
    }

    /** One event of a run. Whatever came before: a clean session shows the stored content of its revision,
        at most one save is in flight and it is based on that revision, stored content never changes, a
        conflict sends nothing more, no edit is forgotten, and a committing flush that resolves has saved. There is
        a conflict exactly when a save has been refused for one, and then saving is over; after any other failure
        the timer of a writable editor is set. What is shown and acknowledged is what the event is told to make
        of it. */
    method Handle(e: M.Event)
      requires Valid() && M.Enabled(State(), e)
      modifies this
      ensures Valid() && trace == old(trace) + [e] && State() == M.Step(old(State()), e)
      ensures !M.Dirty(State()) ==> revisionId in server.store && server.store[revisionId] == editor.doc
      ensures saving.Some? ==>
                server.sent != [] && saving.value == server.sent[|server.sent| - 1] && saving.value.base == revisionId
      ensures forall r :: r in old(server.store) ==> r in server.store && server.store[r] == old(server.store)[r]
      ensures old(conflict) ==> conflict && server.sent == old(server.sent)
      ensures editSeq != savedSeq && !conflict && !editor.readonly && !editor.composing ==> timer || saving.Some?
      ensures !old(editor.readonly) && Results.Resolves(old(State()), State()) ==>
                !M.Dirty(State()) && !editor.composing
      ensures conflict <==> M.Failed(M.Conflict) in trace
      ensures conflict ==> Told.SavingIsOver(old(State()), State())
      ensures e.Failed? && !e.failure.Conflict? ==>
                saving.None? && waiters == [] && resolved == old(resolved) && (timer <==> !editor.readonly)
      ensures editor.readonly == Told.LastReadonly(trace)
      ensures editor == Told.EditorAfter(old(State()), e) && State().saved == Told.SavedAfter(old(State()), e)
    {
      ghost var before, events := State(), trace;
      CarryOut(e);
      trace := events + [e];
      Results.EventIsTraced(begun, events, before, e);
      Told.EventIsTold(begun, events, before, e);
    }
  }
}
