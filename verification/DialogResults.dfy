/** What a call of `ask` comes to, read from the events of the whole run. */
module DialogResults {
  import opened Options
  import opened Dialogs
  import opened JsText

  /** What the peer has replied to the call. */
  function Heard(events: seq<Event>, id: DialogId): Option<Reply> {
    if events == [] then None
    else
      var last := events[|events| - 1];
      if last.PeerReply? && last.id == id then Some(last.reply) else Heard(events[..|events| - 1], id)
  }

  /** The dismissal of the call's dialog has failed. */
  predicate Undismissed(events: seq<Event>, id: DialogId) {
    DismissalEnds(id, false) in events
  }

  /** What a reply alone stands for: the text the user submitted, if it was offered, and nothing if there is none. */
  function Meaning(q: Question, reply: Reply): Result {
    match reply
    case Broken => Thrown
    case Declined => Nothing
    case Submitted(value) =>
      if value.None? then Nothing else if Offered(q, value.value) then Answer(value.value) else Thrown
  }

  /** Where a call stands, told by the events. */
  ghost predicate Told(events: seq<Event>, s: State, id: DialogId)
    requires id in s.world.asks
  {
    var ask, heard := s.world.asks[id], Heard(events, id);
    && (heard.Some? ==> id in s.world.openedIn)
    && match ask.stage
       case Waiting => heard.None? && !Undismissed(events, id) && id in s.world.openedIn
       case Dismissing(result) => !Undismissed(events, id) && Stands(s, ask, heard, id, result)
       case Dismissed(result, ok) => ok == !Undismissed(events, id) && Stands(s, ask, heard, id, result)
       case Done(result) =>
         if Undismissed(events, id) then result == Thrown else Stands(s, ask, heard, id, result)
  }

  /** The result as far as it is settled: only a reply can bring an answer or a failure to a call with a dialog, and
      without an abort the result is what the reply means. */
  predicate Stands(s: State, ask: Ask, heard: Option<Reply>, id: DialogId, result: Result) {
    && (result.Answer? ==> heard == Some(Submitted(Some(result.value))) && Offered(ask.question, result.value))
    && (id !in s.world.openedIn ==> heard.None?)
    && (id in s.world.openedIn ==>
          && (result.Thrown? ==> heard.Some? && Meaning(ask.question, heard.value) == Thrown)
          && (heard == Some(Broken) ==> result == Thrown)
          && (!Aborted(s, ask) ==> heard.Some? && result == Meaning(ask.question, heard.value)))
  }

  ghost predicate AllTold(events: seq<Event>, s: State) {
    && (forall id :: id in s.world.asks ==> id < s.world.nextId && Told(events, s, id))
    && (forall id :: id in s.world.openedIn ==> id < s.world.nextId)
    && (forall id :: id >= s.world.nextId ==> Heard(events, id).None? && !Undismissed(events, id))
  }

  lemma {:induction false} HeardSnoc(events: seq<Event>, e: Event, id: DialogId)
    ensures Heard(events + [e], id) == if e.PeerReply? && e.id == id then Some(e.reply) else Heard(events, id)
    ensures Undismissed(events + [e], id) <==> Undismissed(events, id) || e == DismissalEnds(id, false)
  {
    assert (events + [e])[..|events|] == events;
  }

  /** The event is one of this call. */
  predicate Concerns(e: Event, id: DialogId) {
    match e
    case OwnAbort(other) => other == id
    case AbortSeen(other) => other == id
    case PeerReply(other, _) => other == id
    case DismissalEnds(other, _) => other == id
    case Released(other) => other == id
    case _ => false
  }

  /** The call is still there, with its question and its signal, and nothing takes an abort back. */
  predicate GoesOn(s: State, t: State, id: DialogId)
    requires id in s.world.asks
  {
    && id in t.world.asks
    && var ask, next := s.world.asks[id], t.world.asks[id];
    && next.question == ask.question && next.signal == ask.signal
    && (Aborted(s, ask) ==> Aborted(t, next))
    && (id in s.world.openedIn <==> id in t.world.openedIn)
  }

  lemma {:induction false} OtherCallsStay(s: State, e: Event, id: DialogId)
    requires Enabled(s, e) && id in s.world.asks && id < s.world.nextId && !Concerns(e, id)
    ensures GoesOn(s, Step(s, e), id) && Step(s, e).world.asks[id] == s.world.asks[id]
  {
  }

  lemma {:induction false} CallsStay(s: State, e: Event, id: DialogId)
    requires Enabled(s, e) && id in s.world.asks && id < s.world.nextId
    ensures GoesOn(s, Step(s, e), id)
  {
    if !Concerns(e, id) {
      OtherCallsStay(s, e, id);
    }
  }

  lemma {:induction false} OldCallIsTold(events: seq<Event>, s: State, e: Event, id: DialogId)
    requires AllTold(events, s) && Enabled(s, e) && id in s.world.asks
    ensures id in Step(s, e).world.asks && Told(events + [e], Step(s, e), id)
  {
    HeardSnoc(events, e, id);
    assert Told(events, s, id);
    if Concerns(e, id) {
      ConcernedCallIsTold(events, s, e, id);
    } else {
      OtherCallsStay(s, e, id);
    }
  }

  lemma {:induction false} ConcernedCallIsTold(events: seq<Event>, s: State, e: Event, id: DialogId)
    requires id in s.world.asks && Told(events, s, id) && Enabled(s, e) && Concerns(e, id)
    ensures id in Step(s, e).world.asks && Told(events + [e], Step(s, e), id)
  {
    HeardSnoc(events, e, id);
  }

  ghost predicate NewCall(events: seq<Event>, s: State, t: State) {
    && t.world.nextId == s.world.nextId + 1 && t.world.asks.Keys == s.world.asks.Keys + {s.world.nextId}
    && t.world.openedIn.Keys <= s.world.openedIn.Keys + {s.world.nextId}
    && Told(events, t, s.world.nextId)
  }

  lemma {:induction false} UnopenedIsTold(events: seq<Event>, s: State, ask: Ask)
    requires s.world.nextId !in s.world.openedIn
    requires Heard(events, s.world.nextId).None? && !Undismissed(events, s.world.nextId)
    requires (ask.stage.Done? || ask.stage.Dismissing?) && !ask.stage.result.Answer?
    ensures NewCall(events, s, Unopened(s, ask))
  {
  }

  lemma {:induction false} OpenedIsTold(events: seq<Event>, s: State, ask: Ask)
    requires Heard(events, s.world.nextId).None? && !Undismissed(events, s.world.nextId) && ask.stage.Waiting?
    ensures NewCall(events, s, Opened(s, ask))
  {
  }

  lemma {:induction false} NewCallIsTold(events: seq<Event>, s: State, e: Event)
    requires AllTold(events, s) && e.Asked?
    ensures NewCall(events + [e], s, Step(s, e))
  {
    HeardSnoc(events, e, s.world.nextId);
    var ask, longer := NewAsk(s, e.question, e.callerAborted), events + [e];
    UnopenedIsTold(longer, s, ask.(stage := Done(Thrown)));
    UnopenedIsTold(longer, s, ask.(stage := Done(Nothing)));
    UnopenedIsTold(longer, s, ask.(stage := Dismissing(Thrown)));
    OpenedIsTold(longer, s, ask);
  }

  lemma {:induction false} StepIsTold(events: seq<Event>, s: State, e: Event)
    requires AllTold(events, s) && Enabled(s, e)
    ensures AllTold(events + [e], Step(s, e))
  {
    var t := Step(s, e);
    if e.Asked? {
      NewCallIsTold(events, s, e);
    }
    forall id | id in t.world.asks
      ensures id < t.world.nextId && Told(events + [e], t, id)
    {
      if id in s.world.asks {
        OldCallIsTold(events, s, e, id);
      }
    }
    forall id | id >= t.world.nextId
      ensures Heard(events + [e], id).None? && !Undismissed(events + [e], id)
    {
      HeardSnoc(events, e, id);
    }
  }

  lemma {:induction false} RunIsTold(before: seq<Event>, s: State, events: seq<Event>, t: State)
    requires AllTold(before, s) && Leads(s, events, t)
    ensures AllTold(before + events, t)
    decreases |events|
  {
    if events == [] {
      assert before + events == before;
    } else {
      StepIsTold(before, s, events[0]);
      RunIsTold(before + [events[0]], Step(s, events[0]), events[1..], t);
      assert before + [events[0]] + events[1..] == before + events;
    }
  }

  /** What the events say of a call that is done. An answer is the text the peer submitted for it, one that was
      offered, and its dialog was dismissed. A failed dismissal throws. Without an abort the result is what the reply
      means; with one it is that or nothing, unless the reply was broken. */
  ghost predicate ResultIsTold(events: seq<Event>, t: State, id: DialogId) {
    id in t.world.asks && t.world.asks[id].stage.Done? ==>
      var ask := t.world.asks[id];
      var result, heard, shown := ask.stage.result, Heard(events, id), id in t.world.openedIn;
      && (result.Answer? ==>
            && PeerReply(id, Submitted(Some(result.value))) in events
            && Fits(ask.question, result.value) && !Undismissed(events, id))
      && (Undismissed(events, id) ==> result == Thrown)
      && (shown && !Undismissed(events, id) && !Aborted(t, ask) ==>
            heard.Some? && result == Meaning(ask.question, heard.value))
      && (shown && !Undismissed(events, id) && result != Nothing ==>
            heard.Some? && result == Meaning(ask.question, heard.value))
  }

  /** The text is short enough and, if the question lists options, one of them. */
  predicate Fits(q: Question, text: string) {
    |text| <= 8192
    && (q.options.Some? ==> exists i :: 0 <= i < |q.options.value| && q.options.value[i] == text)
  }

  lemma {:induction false} HeardIsEvent(events: seq<Event>, id: DialogId)
    requires Heard(events, id).Some?
    ensures PeerReply(id, Heard(events, id).value) in events
  {
    var last := events[|events| - 1];
    if !(last.PeerReply? && last.id == id) {
      HeardIsEvent(events[..|events| - 1], id);
    }
  }

  lemma {:induction false} ToldIsResult(events: seq<Event>, t: State, id: DialogId)
    requires id in t.world.asks && Told(events, t, id)
    ensures ResultIsTold(events, t, id)
  {
    if Heard(events, id).Some? {
      HeardIsEvent(events, id);
    }
  }

  /** After every run the result of every call that is done is the one its events tell. */
  lemma {:induction false} ResultFollowsEvents(hosted: bool, events: seq<Event>, t: State, id: DialogId)
    requires Leads(Initial(hosted), events, t)
    ensures ResultIsTold(events, t, id)
  {
    RunIsTold([], Initial(hosted), events, t);
    assert [] + events == events;
    if id in t.world.asks {
      ToldIsResult(events, t, id);
    }
  }

  /** An offered text that the user submits reaches the extension, if nothing aborts the call and its dialog is
      dismissed; and no other text ever does. */
  lemma {:induction false} TheChosenAnswerArrives(hosted: bool, events: seq<Event>, t: State, id: DialogId, v: string)
    requires Leads(Initial(hosted), events, t) && id in t.world.asks && t.world.asks[id].stage.Done?
    requires Heard(events, id) == Some(Submitted(Some(v)))
    ensures Fits(t.world.asks[id].question, v) && !Aborted(t, t.world.asks[id]) && !Undismissed(events, id)
            ==> t.world.asks[id].stage == Done(Answer(v))
    ensures t.world.asks[id].stage.result.Answer? ==> t.world.asks[id].stage.result.value == v
  {
    RunIsTold([], Initial(hosted), events, t);
    assert [] + events == events;
    assert Told(events, t, id);
  }

  // Aborts.

  /** The call is over without an answer, or is bound to be. */
  predicate Barred(s: State, id: DialogId) {
    id in s.world.asks && (Aborted(s, s.world.asks[id]) || s.world.asks[id].stage.Done?)
    && (s.world.asks[id].stage.Done? ==> !s.world.asks[id].stage.result.Answer?)
  }

  lemma {:induction false} StaysBarred(s: State, e: Event, id: DialogId)
    requires Barred(s, id) && id < s.world.nextId && Enabled(s, e)
    ensures Barred(Step(s, e), id)
  {
    if Concerns(e, id) {
      CallsStay(s, e, id);
    } else {
      OtherCallsStay(s, e, id);
    }
  }

  lemma {:induction false} RunStaysBarred(s: State, events: seq<Event>, t: State, id: DialogId)
    requires Inv(s) && Barred(s, id) && Leads(s, events, t)
    ensures Barred(t, id)
    decreases |events|
  {
    if events != [] {
      assert id < s.world.nextId;
      StaysBarred(s, events[0], id);
      StepKeepsInv(s, events[0]);
      RunStaysBarred(Step(s, events[0]), events[1..], t, id);
    }
  }

  /** The event aborts the call: its own deadline or signal, the end or cancellation of the prompt it was made in, or
      the end of the session. */
  predicate Ends(s: State, e: Event, ask: Ask, id: DialogId) {
    || e == OwnAbort(id) || e.Disposed?
    || ((e.Cancelled? || e.Finished?) && s.session.run.Some? && ask.signal == Some(s.session.run.value.id))
  }

  /** A call that is not done when such an event comes never gets an answer. */
  lemma {:induction false} NoAnswerAfterAbort(s: State, e: Event, id: DialogId, events: seq<Event>, t: State)
    requires Reachable(s) && Enabled(s, e) && id in s.world.asks && !s.world.asks[id].stage.Done?
    requires Ends(s, e, s.world.asks[id], id) && Leads(Step(s, e), events, t)
    ensures id in t.world.asks && (t.world.asks[id].stage.Done? ==> !t.world.asks[id].stage.result.Answer?)
  {
    ReachableInv(s);
    StepKeepsInv(s, e);
    RunStaysBarred(Step(s, e), events, t, id);
  }

  // Failures.

  predicate FailsToDismiss(e: Event) {
    e.DismissalEnds? && !e.ok
  }

  ghost predicate SomeUndismissed(events: seq<Event>) {
    exists i :: 0 <= i < |events| && FailsToDismiss(events[i])
  }

  lemma {:induction false} StepFails(s: State, e: Event)
    requires Enabled(s, e)
    ensures Step(s, e).session.extensionFailed <==> s.session.extensionFailed || FailsToDismiss(e)
  {
  }

  lemma {:induction false} RunFails(s: State, events: seq<Event>, t: State)
    requires Leads(s, events, t)
    ensures t.session.extensionFailed <==> s.session.extensionFailed || SomeUndismissed(events)
    decreases |events|
  {
    if events != [] {
      StepFails(s, events[0]);
      RunFails(Step(s, events[0]), events[1..], t);
      if SomeUndismissed(events[1..]) {
        var i :| 0 <= i < |events| - 1 && FailsToDismiss(events[1..][i]);
        assert FailsToDismiss(events[i + 1]);
      }
      if SomeUndismissed(events) {
        var i :| 0 <= i < |events| && FailsToDismiss(events[i]);
        assert i > 0 ==> FailsToDismiss(events[1..][i - 1]);
      }
    }
  }

  /** A prompt throws exactly when its body did or some dismissal has failed so far, in it or before. */
  lemma {:induction false} PromptThrowsExactly(hosted: bool, events: seq<Event>, s: State, bodyThrew: bool)
    requires Leads(Initial(hosted), events, s) && Enabled(s, Settled(bodyThrew))
    ensures var t := Step(s, Settled(bodyThrew));
            && t.session.run.None? && s.session.run.value.id in t.world.settled
            && (t.world.settled[s.session.run.value.id] <==> bodyThrew || SomeUndismissed(events))
  {
    RunFails(Initial(hosted), events, s);
    RunKeepsInv(Initial(hosted), events, s);
  }

  /** A prompt begins exactly when none is running, the session is open and no dismissal has failed. */
  lemma {:induction false} PromptBeginsExactly(hosted: bool, events: seq<Event>, s: State)
    requires Leads(Initial(hosted), events, s)
    ensures var t := Step(s, Prompted);
            if s.session.run.None? && !s.session.disposed && !SomeUndismissed(events)
            then t.session.run == Some(Run(s.world.runs, None)) && s.world.runs !in s.world.aborted
            else t == s
  {
    RunFails(Initial(hosted), events, s);
    AbortsAreRuns(Initial(hosted), events, s);
  }

  ghost predicate OnlyRunsAborted(s: State) {
    && (s.session.run.Some? ==> s.session.run.value.id < s.world.runs)
    && (forall r :: r in s.world.aborted ==> r < s.world.runs)
  }

  lemma {:induction false} AbortsAreRuns(s: State, events: seq<Event>, t: State)
    requires OnlyRunsAborted(s) && Leads(s, events, t)
    ensures OnlyRunsAborted(t)
    decreases |events|
  {
    if events != [] {
      AbortsAreRuns(Step(s, events[0]), events[1..], t);
    }
  }

  /** The question may be asked: every text is there and short enough, and the deadline lies ahead. */
  predicate Proper(q: Question) {
    && !Blank(q.title) && |q.title| <= 8192 && |q.placeholder| <= 8192
    && (q.options.Some? ==>
          && 0 < |q.options.value| <= 33
          && forall option :: option in q.options.value ==> !Blank(option) && |option| <= 1024)
    && (q.timeout.Some? ==> q.timeout.value >= 0)
  }

  lemma {:induction false} ProperIsAcceptable(q: Question)
    ensures Acceptable(q) <==> Proper(q)
  {
    if q.options.Some? && Acceptable(q) {
      forall option | option in q.options.value
        ensures !Blank(option) && |option| <= 1024
      {
        var i :| 0 <= i < |q.options.value| && q.options.value[i] == option;
      }
    }
  }

  /** A question gets a dialog exactly when it is put where it may be, is proper, is not over already, and can be
      shown. Without one the call throws or comes to nothing, and only the last case waits for a dismissal. */
  lemma {:induction false} DialogOpensExactly(s: State, q: Question, callerAborted: bool, supported: bool)
    requires Reachable(s)
    ensures var t, id := Step(s, Asked(q, callerAborted, supported)), s.world.nextId;
            var refused := (s.session.run.None? && s.session.hosted) || !Proper(q);
            var over := || q.timeout == Some(0) || callerAborted || s.session.disposed
                        || (s.session.run.Some? && s.session.run.value.id in s.world.aborted);
            && id in t.world.asks && id !in s.world.asks && t.world.asks[id].question == q
            && (id in t.session.dialogs <==> !refused && !over && supported)
            && (id in t.session.dialogs <==> t.world.asks[id].stage == Waiting)
            && (id !in t.session.dialogs ==>
                  && t.session == s.session
                  && t.world.asks[id].stage ==
                     if refused then Done(Thrown) else if over then Done(Nothing) else Dismissing(Thrown))
  {
    ReachableInv(s);
    ProperIsAcceptable(q);
  }

  // Progress.

  /** A call leaves its await exactly at the event it waits for, and what is settled by then stays so up to the
      release. */
  lemma {:induction false} CallGoesOnExactly(s: State, e: Event, id: DialogId)
    requires Reachable(s) && Enabled(s, e) && id in s.world.asks
    ensures id in Step(s, e).world.asks
    ensures var was, now := s.world.asks[id].stage, Step(s, e).world.asks[id].stage;
            match was
            case Waiting =>
              if e == AbortSeen(id) then now == Dismissing(Nothing)
              else if e.PeerReply? && e.id == id then now.Dismissing?
              else now == was
            case Dismissing(result) =>
              if e.DismissalEnds? && e.id == id then now == Dismissed(result, e.ok) && id !in Step(s, e).session.dialogs
              else now == was
            case Dismissed(_, _) => if e == Released(id) then now.Done? else now == was
            case Done(_) => now == was
  {
    ReachableInv(s);
    if !Concerns(e, id) {
      OtherCallsStay(s, e, id);
    }
  }

  /** The prompt has finished and awaits these dialogs, of which the second lot is still open. */
  ghost predicate Awaits(s: State, dialogs: set<DialogId>, open: set<DialogId>) {
    && s.session.run.Some? && s.session.run.value.waiting == Some(dialogs) && open <= dialogs
    && (forall id :: id in dialogs ==> id in s.world.retired && id < s.world.nextId)
    && (forall id :: id in dialogs ==> (s.world.retired[id].Pending? <==> id in open))
    && (forall id :: id in dialogs ==> (id in s.session.dialogs <==> id in open))
  }

  ghost predicate Dismissals(events: seq<Event>, id: DialogId) {
    DismissalEnds(id, true) in events || DismissalEnds(id, false) in events
  }

  lemma {:induction false} StepAwaits(s: State, e: Event, dialogs: set<DialogId>, open: set<DialogId>)
    requires Awaits(s, dialogs, open) && Enabled(s, e) && !e.Settled?
    ensures Awaits(Step(s, e), dialogs, if e.DismissalEnds? then open - {e.id} else open)
  {
  }

  lemma {:induction false} RunAwaits(s: State, events: seq<Event>, t: State, dialogs: set<DialogId>,
                                     open: set<DialogId>, b: bool)
    requires Awaits(s, dialogs, open) && Leads(s, events, t)
    requires forall i :: 0 <= i < |events| ==> !events[i].Settled?
    ensures Enabled(t, Settled(b)) <==> forall id :: id in open ==> Dismissals(events, id)
    decreases |events|
  {
    if events == [] {
      assert forall id :: id in open ==> !Dismissals([], id);
    } else {
      var e := events[0];
      var left := if e.DismissalEnds? then open - {e.id} else open;
      StepAwaits(s, e, dialogs, open);
      RunAwaits(Step(s, e), events[1..], t, dialogs, left, b);
      assert events == [e] + events[1..];
      assert forall id :: id in open ==> (id in left || (e.DismissalEnds? && e.id == id));
      assert forall id :: Dismissals(events, id) <==>
                            Dismissals(events[1..], id) || (e.DismissalEnds? && e.id == id);
    }
  }

  /** A prompt that has finished can settle exactly when every dialog that was open then has been dismissed. */
  lemma {:induction false} PromptSettlesExactly(s: State, events: seq<Event>, t: State, bodyThrew: bool)
    requires Reachable(s) && Enabled(s, Finished) && Leads(Step(s, Finished), events, t)
    requires forall i :: 0 <= i < |events| ==> !events[i].Settled?
    ensures Enabled(t, Settled(bodyThrew)) <==> forall id :: id in s.session.dialogs ==> Dismissals(events, id)
  {
    ReachableInv(s);
    RunAwaits(Step(s, Finished), events, t, s.session.dialogs, s.session.dialogs, bodyThrew);
  }

  /** What the traced events say about the calls and the prompts of the state they lead to. */
  lemma {:induction false} CallsAreTraced(hosted: bool, events: seq<Event>, t: State)
    requires Leads(Initial(hosted), events, t)
    ensures forall id :: id in t.world.asks ==> ResultIsTold(events, t, id)
    ensures t.session.extensionFailed <==> SomeUndismissed(events)
  {
    RunFails(Initial(hosted), events, t);
    forall id | id in t.world.asks
      ensures ResultIsTold(events, t, id)
    {
      ResultFollowsEvents(hosted, events, t, id);
    }
  }
}
