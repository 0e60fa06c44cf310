/** The autosave of packages/design-bento/src/product-session.ts, with the server it saves to. Each
    function is one run of the event loop: everything up to the next await, together with the
    microtasks that follow at once. */
module AutosaveModel {
  import opened Options

  type Doc = string
  type Revision = nat

  /** The document, text typed but not committed to it yet, and whether that text's node is still
      attached and editable. */
  datatype Editor = Editor(doc: Doc, buffer: Option<Doc>, pendingText: bool, attached: bool, composing: bool,
                           readonly: bool)

  datatype Saved = Saved(editSeq: nat, savedSeq: nat, revisionId: Revision, conflict: bool, timer: bool)

  /** A save request: its number, the edit it submits, its base and its content. */
  datatype Save = Save(id: nat, edit: nat, base: Revision, doc: Doc)

  /** The save in flight, the flush calls that await it (true for those that commit buffered text),
      and the flush calls that have resolved. */
  datatype Flow = Flow(saving: Option<Save>, waiters: seq<bool>, resolved: seq<bool>)

  datatype Verdict = Taken(revision: Revision) | Refused

  /** A compare-and-set store. Every request ever sent is in `sent`; it may be served late, even
      after its sender gave up on it. */
  datatype Server = Server(store: map<Revision, Doc>, head: Revision, next: Revision,
                           sent: seq<Save>, verdicts: map<nat, Verdict>)

  datatype State = State(editor: Editor, saved: Saved, flow: Flow, server: Server)

  predicate Dirty(s: State) {
    s.editor.pendingText || s.saved.editSeq != s.saved.savedSeq
  }

  function Schedule(s: State): State {
    s.(saved := s.saved.(timer := !s.saved.conflict && !s.editor.readonly))
  }

  function SetTimer(s: State, timer: bool): State {
    s.(saved := s.saved.(timer := timer))
  }

  function SetPendingText(s: State, pending: bool): State {
    s.(editor := s.editor.(pendingText := pending))
  }

  /** Every change of the document ends in `changed`. */
  function Changed(s: State, doc: Doc): State {
    Schedule(s.(editor := s.editor.(doc := doc, pendingText := s.editor.pendingText && s.editor.attached),
                saved := s.saved.(editSeq := s.saved.editSeq + 1)))
  }

  function CommitPending(s: State): State {
    if s.editor.buffer.None? then s
    else Changed(s.(editor := s.editor.(buffer := None)), s.editor.buffer.value)
  }

  function CommitBuffered(s: State, commit: bool): State {
    if commit && !s.editor.readonly then SetPendingText(CommitPending(s), false) else s
  }

  function SaveOne(s: State): State {
    var save := Save(|s.server.sent|, s.saved.editSeq, s.saved.revisionId, s.editor.doc);
    s.(flow := s.flow.(saving := Some(save)), server := s.server.(sent := s.server.sent + [save]))
  }

  /** The head of the flush loop: resolve when nothing is queued, else await a save. */
  function Loop(s: State, commit: bool): State {
    if s.saved.editSeq == s.saved.savedSeq && s.flow.saving.None?
    then s.(flow := s.flow.(resolved := s.flow.resolved + [commit]))
    else
      var t := if s.flow.saving.None? then SaveOne(s) else s;
      t.(flow := t.flow.(waiters := t.flow.waiters + [commit]))
  }

  function Flush(s: State, commit: bool): State {
    var t := SetTimer(s, false);
    if s.editor.composing && commit then t
    else
      var u := CommitBuffered(t, commit);
      if u.saved.conflict then u else Loop(u, commit)
  }

  /** A flush goes on after a save that succeeded. */
  function Resume(s: State, commit: bool): State {
    if s.editor.composing && commit then s else Loop(CommitBuffered(s, commit), commit)
  }

  function ResumeAll(s: State, waiters: seq<bool>): State {
    if waiters == [] then s
    else Resume(ResumeAll(s, waiters[..|waiters| - 1]), waiters[|waiters| - 1])
  }

  function Acknowledged(s: State, revision: Revision): State
    requires s.flow.saving.Some?
  {
    s.(saved := s.saved.(revisionId := revision, savedSeq := s.flow.saving.value.edit),
       flow := s.flow.(saving := None, waiters := []))
  }

  /** The save succeeded: all its waiters go on before anything else happens. */
  function Accept(s: State, revision: Revision): State
    requires s.flow.saving.Some?
  {
    ResumeAll(Acknowledged(s, revision), s.flow.waiters)
  }

  /** How a save fails: a conflict, another refusal (a running job included), or no answer at all. */
  datatype Failure = Conflict | OtherRefusal | NoAnswer

  /** The save failed: all its waiters throw. */
  function Fail(s: State, failure: Failure): State {
    var conflict := if failure.NoAnswer? then s.saved.conflict else failure.Conflict?;
    var t := s.(saved := s.saved.(conflict := conflict), flow := s.flow.(saving := None, waiters := []));
    if conflict then t else Schedule(t)
  }

  function SetReadonly(s: State, value: bool): State {
    if value == s.editor.readonly then s
    else
      var t := s.(editor := s.editor.(readonly := value));
      if value then
        var u := SetTimer(t, false);
        if u.editor.composing then u else SetPendingText(CommitPending(u), false)
      else if Dirty(t) then Schedule(t) else t
  }

  function Rebase(s: State, previous: Revision, next: Revision): State {
    if s.saved.revisionId != previous || s.flow.saving.Some? then s
    else s.(saved := s.saved.(revisionId := next))
  }

  /** The server handles a request: it takes the content only onto the revision it was based on. */
  function Serve(s: State, id: nat): State
    requires id < |s.server.sent|
  {
    var save := s.server.sent[id];
    if save.base != s.server.head then s.(server := s.server.(verdicts := s.server.verdicts[id := Refused]))
    else s.(server := Stored(s.server, save.doc).(verdicts := s.server.verdicts[id := Taken(s.server.next)]))
  }

  function Stored(server: Server, doc: Doc): Server {
    server.(store := server.store[server.next := doc], head := server.next, next := server.next + 1)
  }

  datatype Event =
    | Edit(doc: Doc)
    | Input(text: Doc)
    | Detach
    | Blur
    | CompositionStart
    | CompositionEnd
    | Online
    | CommitOnly
    | FlushCall(commit: bool)
    | TimerFires
    | ReadonlySet(value: bool)
    | Rebased(previous: Revision, next: Revision)
    | Served(id: nat)
    | Foreign(doc: Doc)
    | Accepted
    | Failed(failure: Failure)

  /** The verdict on the save in flight says that it was taken. */
  predicate SaveTaken(s: State) {
    && s.flow.saving.Some? && s.flow.saving.value.id in s.server.verdicts
    && s.server.verdicts[s.flow.saving.value.id].Taken?
  }

  predicate Enabled(s: State, e: Event) {
    match e
    case TimerFires => s.saved.timer
    // A rebase announces a revision with the same content.
    case Rebased(previous, next) =>
      previous in s.server.store && next in s.server.store && s.server.store[previous] == s.server.store[next]
    case Served(id) => id < |s.server.sent| && id !in s.server.verdicts
    case Accepted => SaveTaken(s)
    case Failed(_) => s.flow.saving.Some?
    case _ => true
  }

  function Step(s: State, e: Event): State
    requires Enabled(s, e)
  {
    match e
    case Edit(doc) => Changed(s, doc)
    case Input(text) => s.(editor := s.editor.(buffer := Some(text), pendingText := true, attached := true))
    case Detach => s.(editor := s.editor.(attached := false))
    case Blur => if s.editor.attached then s else SetPendingText(s, false)
    case CompositionStart => s.(editor := s.editor.(composing := true))
    case CompositionEnd =>
      var t := s.(editor := s.editor.(composing := false));
      if Dirty(t) then Schedule(t) else t
    case Online => if Dirty(s) then Schedule(s) else s
    case CommitOnly => if s.editor.readonly then s else CommitPending(s)
    case FlushCall(commit) => Flush(s, commit)
    case TimerFires => Flush(s, false)
    case ReadonlySet(value) => SetReadonly(s, value)
    case Rebased(previous, next) => Rebase(s, previous, next)
    case Served(id) => Serve(s, id)
    case Foreign(doc) => s.(server := Stored(s.server, doc))
    case Accepted => Accept(s, s.server.verdicts[s.flow.saving.value.id].revision)
    case Failed(failure) => Fail(s, failure)
  }

  ghost predicate Leads(s: State, events: seq<Event>, t: State)
    decreases |events|
  {
    if events == [] then s == t
    else Enabled(s, events[0]) && Leads(Step(s, events[0]), events[1..], t)
  }

  /** The editor opens a stored revision; it is read-only until the host says otherwise. */
  predicate Initial(s: State) {
    && s.editor == Editor(s.editor.doc, None, false, false, false, true)
    && s.saved == Saved(0, 0, s.saved.revisionId, false, false)
    && s.flow == Flow(None, [], [])
    && s.server.sent == [] && s.server.verdicts == map[]
    && s.saved.revisionId in s.server.store && s.server.store[s.saved.revisionId] == s.editor.doc
    && forall r :: r in s.server.store ==> r < s.server.next
  }

  ghost predicate Reachable(s: State) {
    exists s0: State, events: seq<Event> :: Initial(s0) && Leads(s0, events, s)
  }
}
