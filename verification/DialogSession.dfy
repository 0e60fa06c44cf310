/** packages/harness-pi/src/session.ts and the `ask` of extension-ui.ts as an object: its fields, and the heap
    of controllers, promises and pending calls it shares with them. Between two events `Valid` says that the
    object is where the events it has handled lead the model, so that what is proved of every reachable state
    is true of every object. `Handle` carries out one more event, and its contract repeats the main results
    in the object's own fields. */
module DialogSession {
  import opened Options
  import M = Dialogs
  import R = DialogResults

  class PiAcpSession {
    const hosted: bool
    var run: Option<M.Run>
    var dialogs: set<M.DialogId>
    var extensionFailed: bool
    var disposed: bool
    /** Abort controllers, retirement promises and suspended calls of `ask`. */
    var world: M.World
    /** Every event since the object was made. */
    ghost var trace: seq<M.Event>

    function State(): M.State
      reads this
    {
      M.State(M.Session(run, dialogs, extensionFailed, disposed, hosted), world)
    }

    /** Between two events the object is where its events lead the model. */
    ghost predicate Valid()
      reads this
    {
      M.Leads(M.Initial(hosted), trace, State())
    }

    constructor (hosted: bool)
      ensures Valid() && State() == M.Initial(hosted) && trace == []
    {
      trace := [];
      this.hosted := hosted;
      run, dialogs, extensionFailed, disposed := None, {}, false, false;
      world := M.World({}, 0, map[], 0, map[], map[], map[]);
    }

    method Suspend(ask: M.Ask) returns (id: M.DialogId)
      modifies this`world
      ensures State() == M.Unopened(old(State()), ask) && id == old(world).nextId
    {
      id := world.nextId;
      world := world.(asks := world.asks[id := ask], nextId := id + 1);
    }

    /** `host.open`: the dialog is in the map before the form is requested. */
    method Open(ask: M.Ask)
      modifies this
      ensures State() == M.Opened(old(State()), ask)
    {
      var id := Suspend(ask);
      world := world.(retired := world.retired[id := M.Pending], openedIn := world.openedIn[id := ask.signal]);
      dialogs := dialogs + {id};
    }

    method Ask(q: M.Question, callerAborted: bool, supported: bool)
      modifies this
      ensures State() == M.Begin(old(State()), q, callerAborted, supported)
    {
      var signal := if run.Some? then Some(run.value.id) else None;
      var ask := M.Ask(signal, q, callerAborted, M.Waiting);
      if signal.None? && hosted {
        var _ := Suspend(ask.(stage := M.Done(M.Thrown)));
        return;
      }
      if !M.Acceptable(q) {
        var _ := Suspend(ask.(stage := M.Done(M.Thrown)));
        return;
      }
      if q.timeout == Some(0) || M.Aborted(State(), ask) {
        var _ := Suspend(ask.(stage := M.Done(M.Nothing)));
        return;
      }
      if supported {
        Open(ask);
      } else {
        var _ := Suspend(ask.(stage := M.Dismissing(M.Thrown)));
      }
    }

    method SetStage(id: M.DialogId, stage: M.Stage)
      requires id in world.asks
      modifies this`world
      ensures State() == M.SetStage(old(State()), id, stage)
    {
      world := world.(asks := world.asks[id := world.asks[id].(stage := stage)]);
    }

    /** `dismiss` from the answer of the peer to its end. */
    method Dismiss(id: M.DialogId, ok: bool)
      requires id in world.asks && world.asks[id].stage.Dismissing?
      modifies this
      ensures State() == M.Dismiss(old(State()), id, ok)
    {
      if id in dialogs {
        world := world.(retired := world.retired[id := if ok then M.Retired else M.Failed]);
      }
      if !ok {
        extensionFailed := true;
      }
      dialogs := dialogs - {id};
      SetStage(id, M.Dismissed(world.asks[id].stage.result, ok));
    }

    method Release(id: M.DialogId) returns (result: M.Result)
      requires id in world.asks && world.asks[id].stage.Dismissed?
      modifies this
      ensures State() == M.Release(old(State()), id) && world.asks[id].stage == M.Done(result)
    {
      var ask := world.asks[id];
      if !ask.stage.ok || ask.stage.result.Thrown? {
        result := M.Thrown;
      } else if M.Aborted(State(), ask) {
        result := M.Nothing;
      } else {
        result := ask.stage.result;
      }
      SetStage(id, M.Done(result));
    }

    method Prompt() returns (begun: bool)
      modifies this
      ensures State() == M.Prompt(old(State()))
      ensures begun <==> !old(disposed) && !old(extensionFailed) && old(run).None?
    {
      if disposed || extensionFailed || run.Some? {
        return false;
      }
      run := Some(M.Run(world.runs, None));
      world := world.(runs := world.runs + 1);
      return true;
    }

    method AbortRun()
      modifies this`world
      ensures State() == M.AbortRun(old(State()))
    {
      if run.Some? {
        world := world.(aborted := world.aborted + {run.value.id});
      }
    }

    /** `finishRun`: first the abort, then the dialogs it will wait for. */
    method BeginFinish()
      requires run.Some?
      modifies this
      ensures State() == M.Finish(old(State()))
    {
      AbortRun();
      run := Some(run.value.(waiting := Some(dialogs)));
    }

    method EndFinish(bodyThrew: bool) returns (threw: bool)
      requires M.Enabled(State(), M.Settled(bodyThrew))
      modifies this
      ensures State() == M.Settle(old(State()), bodyThrew)
      ensures threw == world.settled[old(run).value.id]
    {
      threw := bodyThrew || M.SomeFailed(State(), run.value.waiting.value) || extensionFailed;
      world := world.(settled := world.settled[run.value.id := threw]);
      run := None;
    }

    /** One event, as the object carries it out. */
    method CarryOut(e: M.Event)
      requires M.Enabled(State(), e)
      modifies this
      ensures State() == M.Step(old(State()), e)
    {
      match e {
        case Prompted => var _ := Prompt();
        case Cancelled => AbortRun();
        case Finished => BeginFinish();
        case Settled(bodyThrew) => var _ := EndFinish(bodyThrew);
        case Disposed => disposed := true;
        case Asked(q, callerAborted, supported) => Ask(q, callerAborted, supported);
        case OwnAbort(id) => world := world.(asks := world.asks[id := world.asks[id].(aborted := true)]);
        case AbortSeen(id) => SetStage(id, M.Dismissing(M.Nothing));
        case PeerReply(id, reply) => SetStage(id, M.Dismissing(M.Replied(State(), world.asks[id], reply)));
        case DismissalEnds(id, ok) => Dismiss(id, ok);
        case Released(id) => var _ := Release(id);
      }
    }

    /** One event of a run. Whatever came before: no dialog of a settled prompt is left in the map, a new
        dialog belongs to a prompt that is not aborted, and an answer that is handed over was earned. The
        result of every call that is done is the one its events tell, so an answer is what the user chose. */
    method Handle(e: M.Event)
      requires Valid() && M.Enabled(State(), e)
      modifies this
      ensures Valid() && trace == old(trace) + [e] && State() == M.Step(old(State()), e)
      ensures forall r :: r in world.settled ==> M.RunIsClosed(State(), r)
      ensures forall id :: id in dialogs ==> id in world.retired && world.retired[id].Pending?
      ensures forall id :: id in world.openedIn ==> M.OpenedSince(old(State()), State(), id)
      ensures forall id :: id in world.asks && M.Answers(old(State()), State(), id) ==>
                             M.Earned(old(State()), State(), e, id)
      ensures forall id :: id in world.asks ==> R.ResultIsTold(trace, State(), id)
      ensures extensionFailed <==> R.SomeUndismissed(trace)
      ensures e.Settled? ==> run.None? && old(run).value.id in world.settled
                             && (world.settled[old(run).value.id] <==> e.bodyThrew || R.SomeUndismissed(old(trace)))
    {
      ghost var before, events := State(), trace;
      CarryOut(e);
      trace := events + [e];
      M.EventIsTraced(hosted, events, before, e);
      R.CallsAreTraced(hosted, trace, State());
      if e.Settled? {
        R.PromptThrowsExactly(hosted, events, before, e.bodyThrew);
      }
    }
  }
}
