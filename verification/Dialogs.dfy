/** Extension dialogs: `ask` of packages/harness-pi/src/extension-ui.ts over the dialog map, `prompt`
    and `finishRun` of packages/harness-pi/src/session.ts. Each step runs from one await to the next. */
module Dialogs {
  import opened JsText
  import opened Options

  type RunId = nat
  type DialogId = nat

  const ANSWER_MAX := 8192
  const OPTION_MAX := 1024
  const OPTIONS_MAX := 33

  datatype Question = Question(title: string, placeholder: string, options: Option<seq<string>>, timeout: Option<int>)

  predicate Acceptable(q: Question) {
    && !Blank(q.title) && |q.title| <= ANSWER_MAX && |q.placeholder| <= ANSWER_MAX
    && (q.options.Some? ==>
          && 1 <= |q.options.value| <= OPTIONS_MAX
          && forall i :: 0 <= i < |q.options.value| ==>
               !Blank(q.options.value[i]) && |q.options.value[i]| <= OPTION_MAX)
    && (q.timeout.Some? ==> q.timeout.value >= 0)
  }

  /** What one call of `ask` comes to. */
  datatype Result = Nothing | Answer(value: string) | Thrown

  /** Where a call of `ask` stands. `retired` says how its dismissal went. */
  datatype Stage =
    | Waiting
    | Dismissing(result: Result)
    | Dismissed(result: Result, ok: bool)
    | Done(result: Result)

  /** `signal` is the run whose abort ends the call, if it was made during one; `aborted` is its own
      deadline or the caller's signal. */
  datatype Ask = Ask(signal: Option<RunId>, question: Question, aborted: bool, stage: Stage)

  datatype Retirement = Pending | Retired | Failed

  /** The current prompt; once it finishes, the dialogs it waits for. */
  datatype Run = Run(id: RunId, waiting: Option<set<DialogId>>)

  datatype Session = Session(run: Option<Run>, dialogs: set<DialogId>, extensionFailed: bool, disposed: bool,
                             hosted: bool)

  /** The other objects alive: abort controllers of past and present runs, the calls of `ask`, the
      retirement promise of every dialog ever opened with the run it was opened in, and how every
      finished prompt ended. */
  datatype World = World(aborted: set<RunId>, runs: nat, asks: map<DialogId, Ask>, nextId: nat,
                         retired: map<DialogId, Retirement>, openedIn: map<DialogId, Option<RunId>>,
                         settled: map<RunId, bool>)

  datatype State = State(session: Session, world: World)

  predicate Aborted(s: State, ask: Ask) {
    ask.aborted || s.session.disposed || (ask.signal.Some? && ask.signal.value in s.world.aborted)
  }

  function SetAsk(s: State, id: DialogId, ask: Ask): State {
    s.(world := s.world.(asks := s.world.asks[id := ask]))
  }

  function SetStage(s: State, id: DialogId, stage: Stage): State
    requires id in s.world.asks
  {
    SetAsk(s, id, s.world.asks[id].(stage := stage))
  }

  function Opened(s: State, ask: Ask): State {
    var id := s.world.nextId;
    s.(world := s.world.(asks := s.world.asks[id := ask], nextId := id + 1, retired := s.world.retired[id := Pending],
                         openedIn := s.world.openedIn[id := ask.signal]),
       session := s.session.(dialogs := s.session.dialogs + {id}))
  }

  /** A call that gets no dialog. */
  function Unopened(s: State, ask: Ask): State {
    s.(world := s.world.(asks := s.world.asks[s.world.nextId := ask], nextId := s.world.nextId + 1))
  }

  function NewAsk(s: State, q: Question, callerAborted: bool): Ask {
    Ask(if s.session.run.Some? then Some(s.session.run.value.id) else None, q, callerAborted, Waiting)
  }

  /** `ask` up to its await. `callerAborted` is the caller's signal on entry; `supported` says whether
      the peer can show a form. */
  function Begin(s: State, q: Question, callerAborted: bool, supported: bool): State {
    var ask := NewAsk(s, q, callerAborted);
    if (ask.signal.None? && s.session.hosted) || !Acceptable(q) then Unopened(s, ask.(stage := Done(Thrown)))
    else if q.timeout == Some(0) || Aborted(s, ask) then Unopened(s, ask.(stage := Done(Nothing)))
    else if !supported then Unopened(s, ask.(stage := Dismissing(Thrown)))
    else Opened(s, ask)
  }

  /** What the peer says: the form is declined, submitted with or without a text, or broken. */
  datatype Reply = Declined | Submitted(value: Option<string>) | Broken

  predicate Offered(q: Question, value: string) {
    |value| <= ANSWER_MAX && (q.options.Some? ==> value in q.options.value)
  }

  /** The question is settled; the call goes on to the start of its dismissal. */
  function Replied(s: State, ask: Ask, reply: Reply): Result {
    if reply.Broken? then Thrown
    else if Aborted(s, ask) || reply.Declined? || reply.value.None? then Nothing
    else if !Offered(ask.question, reply.value.value) then Thrown
    else Answer(reply.value.value)
  }

  /** `dismiss` ends: the retirement promise settles and the dialog leaves the map. */
  function Dismiss(s: State, id: DialogId, ok: bool): State
    requires id in s.world.asks && s.world.asks[id].stage.Dismissing?
  {
    var t := SetStage(s, id, Dismissed(s.world.asks[id].stage.result, ok));
    t.(session := t.session.(dialogs := t.session.dialogs - {id}, extensionFailed := t.session.extensionFailed || !ok),
       world := t.world.(retired := if id in t.session.dialogs
                                    then t.world.retired[id := if ok then Retired else Failed] else t.world.retired))
  }

  /** The end of `ask`. */
  function Release(s: State, id: DialogId): State
    requires id in s.world.asks && s.world.asks[id].stage.Dismissed?
  {
    var ask := s.world.asks[id];
    SetStage(s, id, Done(if !ask.stage.ok || ask.stage.result.Thrown? then Thrown
                         else if Aborted(s, ask) then Nothing else ask.stage.result))
  }

  function Prompt(s: State): State {
    if s.session.disposed || s.session.extensionFailed || s.session.run.Some? then s
    else
      s.(session := s.session.(run := Some(Run(s.world.runs, None))), world := s.world.(runs := s.world.runs + 1))
  }

  function AbortRun(s: State): State {
    if s.session.run.None? then s
    else s.(world := s.world.(aborted := s.world.aborted + {s.session.run.value.id}))
  }

  /** `finishRun` up to its await: abort the run, then collect the dialogs. */
  function Finish(s: State): State
    requires s.session.run.Some?
  {
    var t := AbortRun(s);
    t.(session := t.session.(run := Some(t.session.run.value.(waiting := Some(t.session.dialogs)))))
  }

  predicate AllSettled(s: State, ids: set<DialogId>) {
    forall id :: id in ids ==> id in s.world.retired && !s.world.retired[id].Pending?
  }

  predicate SomeFailed(s: State, ids: set<DialogId>) {
    exists id :: id in ids && id in s.world.retired && s.world.retired[id].Failed?
  }

  /** The end of `finishRun`, and of the prompt: `true` when it throws. */
  function Settle(s: State, bodyThrew: bool): State
    requires s.session.run.Some? && s.session.run.value.waiting.Some?
  {
    var run := s.session.run.value;
    var threw := bodyThrew || SomeFailed(s, run.waiting.value) || s.session.extensionFailed;
    s.(session := s.session.(run := None), world := s.world.(settled := s.world.settled[run.id := threw]))
  }

  datatype Event =
    | Prompted
    | Cancelled
    | Finished
    | Settled(bodyThrew: bool)
    | Disposed
    | Asked(question: Question, callerAborted: bool, supported: bool)
    | OwnAbort(id: DialogId)
    | AbortSeen(id: DialogId)
    | PeerReply(id: DialogId, reply: Reply)
    | DismissalEnds(id: DialogId, ok: bool)
    | Released(id: DialogId)

  predicate Enabled(s: State, e: Event) {
    match e
    case Finished => s.session.run.Some? && s.session.run.value.waiting.None?
    case Settled(_) =>
      && s.session.run.Some? && s.session.run.value.waiting.Some?
      && AllSettled(s, s.session.run.value.waiting.value)
    case OwnAbort(id) => id in s.world.asks
    case AbortSeen(id) => id in s.world.asks && s.world.asks[id].stage.Waiting? && Aborted(s, s.world.asks[id])
    case PeerReply(id, _) => id in s.world.asks && s.world.asks[id].stage.Waiting?
    case DismissalEnds(id, _) => id in s.world.asks && s.world.asks[id].stage.Dismissing?
    case Released(id) => id in s.world.asks && s.world.asks[id].stage.Dismissed?
    case _ => true
  }

  function Step(s: State, e: Event): State
    requires Enabled(s, e)
  {
    match e
    case Prompted => Prompt(s)
    case Cancelled => AbortRun(s)
    case Finished => Finish(s)
    case Settled(bodyThrew) => Settle(s, bodyThrew)
    case Disposed => s.(session := s.session.(disposed := true))
    case Asked(q, callerAborted, supported) => Begin(s, q, callerAborted, supported)
    case OwnAbort(id) => SetAsk(s, id, s.world.asks[id].(aborted := true))
    case AbortSeen(id) => SetStage(s, id, Dismissing(Nothing))
    case PeerReply(id, reply) => SetStage(s, id, Dismissing(Replied(s, s.world.asks[id], reply)))
    case DismissalEnds(id, ok) => Dismiss(s, id, ok)
    case Released(id) => Release(s, id)
  }

  ghost predicate Leads(s: State, events: seq<Event>, t: State)
    decreases |events|
  {
    if events == [] then s == t
    else Enabled(s, events[0]) && Leads(Step(s, events[0]), events[1..], t)
  }

  function Initial(hosted: bool): State {
    State(Session(None, {}, false, false, hosted), World({}, 0, map[], 0, map[], map[], map[]))
  }

  ghost predicate Reachable(s: State) {
    exists events: seq<Event> :: Leads(Initial(s.session.hosted), events, s)
  }

  // Invariants.

  /** The dialog map holds exactly the dialogs whose retirement is pending; a failed one is remembered. */
  ghost predicate MapOk(s: State) {
    && s.world.retired.Keys == s.world.openedIn.Keys
    && (forall id :: id in s.world.retired ==> id < s.world.nextId)
    && (forall id :: id in s.session.dialogs <==> id in s.world.retired && s.world.retired[id].Pending?)
    && (forall id :: id in s.world.retired && s.world.retired[id].Failed? ==> s.session.extensionFailed)
  }

  /** The run whose dialogs may still be open, if any: the current one, whose finish waits for them. */
  ghost predicate RunOk(s: State) {
    && (s.session.run.Some? ==> s.session.run.value.id < s.world.runs)
    && (s.session.run.Some? && s.session.run.value.waiting.Some? ==> s.session.run.value.id in s.world.aborted)
    && (forall id :: id in s.session.dialogs && id in s.world.openedIn && s.world.openedIn[id].Some? ==>
          && s.session.run.Some? && s.session.run.value.id == s.world.openedIn[id].value
          && (s.session.run.value.waiting.Some? ==> id in s.session.run.value.waiting.value))
    && (forall id :: id in s.world.openedIn && s.world.openedIn[id].Some? ==> s.world.openedIn[id].value < s.world.runs)
    && (forall r :: r in s.world.settled ==> r < s.world.runs && (s.session.run.Some? ==> r != s.session.run.value.id))
  }

  /** A result on its way to the extension is an answer that was offered. */
  ghost predicate AsksOk(s: State) {
    forall id :: id in s.world.asks ==>
      var ask := s.world.asks[id];
      && id < s.world.nextId
      && (!ask.stage.Waiting? && ask.stage.result.Answer? ==> Offered(ask.question, ask.stage.result.value))
  }

  /** A prompt that returned left no failed retirement behind. */
  ghost predicate SettledOk(s: State) {
    forall r :: r in s.world.settled ==> RunIsClosed(s, r)
  }

  ghost predicate RunIsClosed(s: State, r: RunId) {
    forall id :: id in s.world.openedIn && s.world.openedIn[id] == Some(r) ==>
      && id in s.world.retired && !s.world.retired[id].Pending?
      && (r in s.world.settled && !s.world.settled[r] ==> s.world.retired[id].Retired?)
  }

  ghost predicate Inv(s: State) {
    MapOk(s) && RunOk(s) && AsksOk(s) && SettledOk(s)
  }

  lemma {:induction false} UnopenedKeepsInv(s: State, ask: Ask)
    requires Inv(s) && (!ask.stage.Waiting? ==> !ask.stage.result.Answer?)
    ensures Inv(Unopened(s, ask))
  {
    var t := Unopened(s, ask);
    forall r | r in t.world.settled
      ensures RunIsClosed(t, r)
    {
      assert RunIsClosed(s, r);
    }
  }

  lemma {:induction false} OpenedKeepsInv(s: State, ask: Ask)
    requires Inv(s) && ask.stage.Waiting?
    requires ask.signal.Some? ==>
               s.session.run.Some? && s.session.run.value.id == ask.signal.value && ask.signal.value !in s.world.aborted
    ensures Inv(Opened(s, ask))
  {
    var t := Opened(s, ask);
    assert s.world.nextId !in s.world.retired;
    forall r | r in t.world.settled
      ensures RunIsClosed(t, r)
    {
      assert RunIsClosed(s, r);
    }
  }

  lemma {:induction false} BeginKeepsInv(s: State, q: Question, callerAborted: bool, supported: bool)
    requires Inv(s)
    ensures Inv(Begin(s, q, callerAborted, supported))
  {
    var ask := NewAsk(s, q, callerAborted);
    if Begin(s, q, callerAborted, supported) == Opened(s, ask) {
      OpenedKeepsInv(s, ask);
    } else {
      UnopenedKeepsInv(s, ask.(stage := Done(Thrown)));
      UnopenedKeepsInv(s, ask.(stage := Done(Nothing)));
      UnopenedKeepsInv(s, ask.(stage := Dismissing(Thrown)));
    }
  }

  lemma {:induction false} DismissKeepsInv(s: State, id: DialogId, ok: bool)
    requires Inv(s) && id in s.world.asks && s.world.asks[id].stage.Dismissing?
    ensures Inv(Dismiss(s, id, ok))
  {
    var t := Dismiss(s, id, ok);
    forall r | r in t.world.settled
      ensures RunIsClosed(t, r)
    {
      assert RunIsClosed(s, r);
    }
  }

  lemma {:induction false} SettleKeepsInv(s: State, bodyThrew: bool)
    requires Inv(s) && Enabled(s, Settled(bodyThrew))
    ensures Inv(Settle(s, bodyThrew))
  {
    var t := Settle(s, bodyThrew);
    var run := s.session.run.value;
    assert forall id :: id in s.session.dialogs ==> id in s.world.openedIn && s.world.openedIn[id].None?;
    forall r | r in t.world.settled
      ensures RunIsClosed(t, r)
    {
      assert r != run.id ==> RunIsClosed(s, r);
    }
  }

  lemma {:induction false} StepKeepsInv(s: State, e: Event)
    requires Inv(s) && Enabled(s, e)
    ensures Inv(Step(s, e))
  {
    match e {
      case Asked(q, callerAborted, supported) => BeginKeepsInv(s, q, callerAborted, supported);
      case DismissalEnds(id, ok) => DismissKeepsInv(s, id, ok);
      case Settled(bodyThrew) => SettleKeepsInv(s, bodyThrew);
      case _ => OtherKeepsInv(s, e);
    }
  }

  lemma {:induction false} OtherKeepsInv(s: State, e: Event)
    requires Inv(s) && Enabled(s, e) && !e.Asked? && !e.DismissalEnds? && !e.Settled?
    ensures Inv(Step(s, e))
  {
    var t := Step(s, e);
    assert MapOk(t) && AsksOk(t);
    assert RunOk(t);
    forall r | r in t.world.settled
      ensures RunIsClosed(t, r)
    {
      assert RunIsClosed(s, r);
    }
  }

  lemma {:induction false} RunKeepsInv(s: State, events: seq<Event>, t: State)
    requires Inv(s) && Leads(s, events, t)
    ensures Inv(t)
    decreases |events|
  {
    if events != [] {
      StepKeepsInv(s, events[0]);
      RunKeepsInv(Step(s, events[0]), events[1..], t);
    }
  }

  lemma {:induction false} ReachableInv(s: State)
    requires Reachable(s)
    ensures Inv(s)
  {
    var events: seq<Event> :| Leads(Initial(s.session.hosted), events, s);
    RunKeepsInv(Initial(s.session.hosted), events, s);
  }

  // Main results.

  /** Once a prompt has settled, every dialog opened during it is out of the map with its retirement
      settled; and when the prompt returned rather than threw, every one was retired. */
  lemma SettledPromptLeavesNoDialog(s: State, id: DialogId, r: RunId)
    requires Reachable(s) && r in s.world.settled && id in s.world.openedIn && s.world.openedIn[id] == Some(r)
    ensures id !in s.session.dialogs && id in s.world.retired && !s.world.retired[id].Pending?
    ensures !s.world.settled[r] ==> s.world.retired[id].Retired?
  {
    ReachableInv(s);
    assert RunIsClosed(s, r);
  }

  /** A dialog opens only under a run that is not aborted, and outside any run only without a host. */
  lemma {:induction false} OpensUnderTheRun(s: State, e: Event, id: DialogId)
    requires Enabled(s, e) && id !in s.world.openedIn && id in Step(s, e).world.openedIn
    ensures var signal := Step(s, e).world.openedIn[id];
            && !s.session.disposed
            && (signal.None? ==> !s.session.hosted && s.session.run.None?)
            && (signal.Some? ==> s.session.run == Some(Run(signal.value, s.session.run.value.waiting))
                                 && signal.value !in s.world.aborted)
  {
  }

  /** What a run of events may have opened since `s`. */
  ghost predicate OpenedSince(s: State, t: State, id: DialogId) {
    id in t.world.openedIn && id !in s.world.openedIn ==>
      && !s.session.disposed
      && (t.world.openedIn[id].None? ==> !s.session.hosted)
      && (t.world.openedIn[id].Some? ==>
            var r := t.world.openedIn[id].value;
            r !in s.world.aborted && (r >= s.world.runs || (s.session.run.Some? && s.session.run.value.id == r)))
  }

  /** Along any run of events a dialog opens only before the session is disposed, outside a prompt only
      without a host, and otherwise under the current prompt or a later one, never under one that is aborted. */
  lemma {:induction false} NoDialogAfterAbort(s: State, events: seq<Event>, t: State, id: DialogId)
    requires Reachable(s) && Leads(s, events, t)
    ensures OpenedSince(s, t, id)
  {
    ReachableInv(s);
    RunOpens(s, events, t, id);
  }

  lemma {:induction false} RunOpens(s: State, events: seq<Event>, t: State, id: DialogId)
    requires Inv(s) && Leads(s, events, t)
    ensures OpenedSince(s, t, id)
    decreases |events|
  {
    if events != [] {
      var next := Step(s, events[0]);
      StepKeepsInv(s, events[0]);
      AbortsLast(s, events[0]);
      RunOpens(next, events[1..], t, id);
      if id !in s.world.openedIn && id in next.world.openedIn {
        OpensUnderTheRun(s, events[0], id);
        OpenedStay(next, events[1..], t, id);
      }
    }
  }

  lemma {:induction false} OpenedStay(s: State, events: seq<Event>, t: State, id: DialogId)
    requires Inv(s) && Leads(s, events, t) && id in s.world.openedIn
    ensures id in t.world.openedIn && t.world.openedIn[id] == s.world.openedIn[id]
    decreases |events|
  {
    if events != [] {
      StepKeepsInv(s, events[0]);
      OpenedStay(Step(s, events[0]), events[1..], t, id);
    }
  }

  /** Aborted runs stay aborted, so none of them ever opens another dialog. */
  lemma {:induction false} AbortedRunOpensNothing(s: State, events: seq<Event>, t: State, r: RunId, id: DialogId)
    requires Reachable(s) && Leads(s, events, t) && r in s.world.aborted
    requires id in t.world.openedIn && t.world.openedIn[id] == Some(r)
    ensures id in s.world.openedIn && s.world.openedIn[id] == Some(r)
  {
    ReachableInv(s);
    AbortedOpensNothing(s, events, t, r, id);
  }

  /** A step of an aborted run opens nothing. */
  lemma {:induction false} AbortedStepOpensNothing(s: State, e: Event, r: RunId, id: DialogId)
    requires Inv(s) && Enabled(s, e) && r in s.world.aborted
    requires id in Step(s, e).world.openedIn && Step(s, e).world.openedIn[id] == Some(r)
    ensures id in s.world.openedIn && s.world.openedIn[id] == Some(r)
  {
    assert !e.Asked? ==> Step(s, e).world.openedIn == s.world.openedIn;
  }

  lemma {:induction false} AbortedOpensNothing(s: State, events: seq<Event>, t: State, r: RunId, id: DialogId)
    requires Inv(s) && Leads(s, events, t) && r in s.world.aborted
    requires id in t.world.openedIn && t.world.openedIn[id] == Some(r)
    ensures id in s.world.openedIn && s.world.openedIn[id] == Some(r)
    decreases |events|
  {
    if events != [] {
      StepKeepsInv(s, events[0]);
      AbortsLast(s, events[0]);
      AbortedOpensNothing(Step(s, events[0]), events[1..], t, r, id);
      AbortedStepOpensNothing(s, events[0], r, id);
    }
  }

  lemma {:induction false} AbortsLast(s: State, e: Event)
    requires Enabled(s, e)
    ensures s.world.aborted <= Step(s, e).world.aborted
  {
  }

  /** Only its release ends a call with an answer. */
  lemma {:induction false} OnlyReleaseAnswers(s: State, e: Event, id: DialogId)
    requires Inv(s) && Enabled(s, e) && e != Released(id)
    ensures var t := Step(s, e);
            (id in t.world.asks && t.world.asks[id].stage.Done? && t.world.asks[id].stage.result.Answer?)
            ==> (id in s.world.asks && s.world.asks[id].stage.Done?)
  {
  }

  /** An answer reaches the extension only when its dismissal succeeded, nothing aborted the call, and
      the answer is one that was offered. */
  lemma {:induction false} AnswerIsEarned(s: State, e: Event, id: DialogId)
    requires Reachable(s) && Enabled(s, e)
    requires id in Step(s, e).world.asks && Step(s, e).world.asks[id].stage.Done?
    requires Step(s, e).world.asks[id].stage.result.Answer?
    requires !(id in s.world.asks && s.world.asks[id].stage.Done?)
    ensures e == Released(id) && !Aborted(s, s.world.asks[id])
    ensures s.world.asks[id].stage == Dismissed(Step(s, e).world.asks[id].stage.result, true)
    ensures Offered(s.world.asks[id].question, Step(s, e).world.asks[id].stage.result.value)
  {
    ReachableInv(s);
    if e != Released(id) {
      OnlyReleaseAnswers(s, e, id);
    }
  }

  lemma {:induction false} LeadsSnoc(s: State, events: seq<Event>, t: State, e: Event)
    requires Leads(s, events, t) && Enabled(t, e)
    ensures Leads(s, events + [e], Step(t, e))
    decreases |events|
  {
    if events == [] {
      assert [e][1..] == [];
    } else {
      assert (events + [e])[1..] == events[1..] + [e];
      LeadsSnoc(Step(s, events[0]), events[1..], t, e);
    }
  }

  /** An answer reaches the extension in the step from `s` to `t`. */
  predicate Answers(s: State, t: State, id: DialogId) {
    && id in t.world.asks && t.world.asks[id].stage.Done? && t.world.asks[id].stage.result.Answer?
    && !(id in s.world.asks && s.world.asks[id].stage.Done?)
  }

  /** The call was neither aborted nor answered with anything but what it offered. */
  predicate Earned(s: State, t: State, e: Event, id: DialogId)
    requires Answers(s, t, id)
  {
    && e == Released(id) && id in s.world.asks && !Aborted(s, s.world.asks[id])
    && s.world.asks[id].stage == Dismissed(t.world.asks[id].stage.result, true)
    && Offered(s.world.asks[id].question, t.world.asks[id].stage.result.value)
  }

  /** What the traced events say about the state they lead to. */
  lemma {:induction false} EventIsTraced(hosted: bool, events: seq<Event>, s: State, e: Event)
    requires Leads(Initial(hosted), events, s) && s.session.hosted == hosted && Enabled(s, e)
    ensures var t := Step(s, e);
            && Leads(Initial(hosted), events + [e], t) && t.session.hosted == hosted
            && (forall r :: r in t.world.settled ==> RunIsClosed(t, r))
            && (forall id :: id in t.session.dialogs ==> id in t.world.retired && t.world.retired[id].Pending?)
            && (forall id :: id in t.world.openedIn ==> OpenedSince(s, t, id))
            && (forall id :: id in t.world.asks && Answers(s, t, id) ==> Earned(s, t, e, id))
  {
    var t := Step(s, e);
    LeadsSnoc(Initial(hosted), events, s, e);
    assert Reachable(s);
    ReachableInv(s);
    StepKeepsInv(s, e);
    assert [e][1..] == [];
    assert Leads(s, [e], t);
    forall id | id in t.world.openedIn
      ensures OpenedSince(s, t, id)
    {
      RunOpens(s, [e], t, id);
    }
    forall id | id in t.world.asks && Answers(s, t, id)
      ensures Earned(s, t, e, id)
    {
      AnswerIsEarned(s, e, id);
    }
  }
}
