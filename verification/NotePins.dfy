/** packages/design-bento/src/note-pins.ts as an object: the closure's variables as fields, and every handler
    as a method that has the effect the model gives it. Between two events `Valid` says that the object is
    where the events it has handled lead the model, so that what is proved of every reachable state is true
    of every object. It also remembers every batch that `read` has handed out, because that is what a later
    settlement is about. */
module NotePins {
  import opened JsText
  import opened Options
  import M = NotePinsModel
  import Results = NotePinsResults
  import Steps = NotePinsSteps
  import Told = NotePinsByEvents
  import Epochs = NotePinsEpochs

  class Canvas {
    const page: M.Page
    var pins: seq<M.Pin>
    var epoch: nat
    var readonly: bool
    var busy: bool
    var editing: Option<M.Editor>
    var unpublished: bool
    var timer: bool
    var inFlight: Option<M.Flight>
    var keys: nat
    /** The other end of the publisher: what it was sent and has answered. */
    var host: M.Host
    /** Every event since the object was made, and every batch `read` has returned. */
    ghost var trace: seq<M.Moment>
    ghost var handed: seq<M.Batch>

    function State(): M.State
      reads this
    {
      M.State(M.Notes(pins, editing, epoch, keys), M.Mode(readonly, busy),
              M.Publisher(unpublished, timer, inFlight), host)
    }

    /** Between two events the object is where its events lead the model, and a batch read at the
        present epoch holds the present notes. */
    ghost predicate Valid()
      reads this
    {
      M.Leads(page, M.Initial(), trace, State()) && Results.StillHeld(page, handed, State())
    }

    constructor (page: M.Page)
      ensures Valid() && this.page == page && State() == M.Initial() && trace == [] && handed == []
    {
      trace, handed := [], [];
      this.page := page;
      pins, epoch, editing, keys := [], 0, None, 0;
      readonly, busy := true, false;
      unpublished, timer, inFlight := false, false, None;
      host := M.Host([], map[], [M.Batch(0, [])]);
    }

    method SchedulePublish()
      modifies this
      ensures State() == M.Schedule(page, old(State()))
    {
      if page.publishes {
        unpublished := true;
        timer := true;
      }
    }

    /** Every pin is trimmed in place. */
    method TrimTargets(present: set<M.Id>)
      modifies this`pins
      ensures |pins| == |old(pins)|
      ensures forall k :: 0 <= k < |pins| ==> pins[k] == M.PrunePin(old(pins)[k], present)
    {
      ghost var before := pins;
      var i := 0;
      while i < |pins|
        modifies this`pins
        invariant 0 <= i <= |pins| == |before|
        invariant forall k :: 0 <= k < i ==> pins[k] == M.PrunePin(before[k], present)
        invariant forall k :: i <= k < |pins| ==> pins[k] == before[k]
      {
        pins := pins[i := M.PrunePin(pins[i], present)];
        i := i + 1;
      }
    }

    /** Then those without a target are dropped. */
    method DropTargets(present: set<M.Id>)
      modifies this`pins
      ensures pins == M.PrunePins(old(pins), present)
    {
      ghost var before := pins;
      TrimTargets(present);
      var kept: seq<M.Pin> := [];
      var i := 0;
      while i < |pins|
        invariant 0 <= i <= |pins|
        invariant kept == M.PrunePins(before[..i], present)
      {
        assert before[..i + 1][..i] == before[..i];
        if pins[i].elementIds != [] {
          kept := kept + [pins[i]];
        }
        i := i + 1;
      }
      assert before[..|pins|] == before;
      pins := kept;
    }

    method Prune(present: set<M.Id>) returns (pruned: bool)
      modifies this
      ensures State() == M.Prune(page, old(State()), present)
      ensures pruned == M.AnyStale(old(pins), present)
    {
      if !M.AnyStale(pins, present) {
        return false;
      }
      DropTargets(present);
      if editing.Some? && !M.Has(pins, editing.value.key) {
        editing := None;
      }
      epoch := epoch + 1;
      SchedulePublish();
      return true;
    }

    /** Redraws; markers are placed after a prune, and a prune that found something redraws again. */
    method Render(present: set<M.Id>)
      modifies this
      ensures State() == M.Prune(page, old(State()), present)
    {
      var pruned := Prune(present);
      if pruned {
        Results.PruneIsIdempotent(page, old(State()), present);
        pruned := Prune(present);
      }
    }

    method Changed(present: set<M.Id>)
      modifies this
      ensures State() == M.Changed(page, old(State()), present)
    {
      epoch := epoch + 1;
      Render(present);
      SchedulePublish();
    }

    method CloseEditor(present: set<M.Id>)
      modifies this
      ensures State() == M.Close(page, old(State()), present)
    {
      if editing.None? {
        return;
      }
      var editor := editing.value;
      editing := None;
      if Blank(M.TextOf(pins, editor)) && M.Has(pins, editor.key) {
        pins := M.Without(pins, editor.key);
        Changed(present);
        return;
      }
      Render(present);
    }

    method OpenEditor(pin: M.Pin, present: set<M.Id>)
      modifies this
      ensures State() == M.Open(page, old(State()), pin, present)
    {
      if editing.Some? && editing.value.key == pin.key {
        return;
      }
      CloseEditor(present);
      editing := Some(M.Editor(pin.key, pin.text));
      Render(present);
    }

    method Place(pin: M.Pin, present: set<M.Id>)
      modifies this
      ensures State() == M.Place(page, old(State()), pin, present)
    {
      pins, keys := pins + [pin], keys + 1;
      Changed(present);
    }

    /** A note without a point joins the plain note on the same targets. */
    method AddTo(i: nat, text: string, present: set<M.Id>)
      requires i < |pins|
      modifies this
      ensures State() == if Blank(text)
                         then M.Open(page, M.Changed(page, old(State()), present), old(pins)[i], present)
                         else M.Changed(page, M.SetPins(old(State()), M.Merged(old(pins), i, text)), present)
    {
      var existing := pins[i];
      if !Blank(text) {
        pins := M.Merged(pins, i, text);
      }
      Changed(present);
      if Blank(text) {
        OpenEditor(existing, present);
      }
    }

    method Add(ids: seq<M.Id>, text: string, point: Option<M.Target>, present: set<M.Id>)
      modifies this
      ensures State() == M.Add(page, old(State()), ids, text, point, present)
    {
      if readonly || busy || ids == [] {
        return;
      }
      var pin := M.Pin(keys, M.Distinct(ids), text, point, None);
      var i := if point.Some? then |pins| else M.FindSame(pins, pin);
      if i < |pins| {
        AddTo(i, text, present);
        return;
      }
      if |pins| >= M.NOTES_MAX {
        Render(present);
        return;
      }
      Place(pin, present);
      if Blank(text) {
        OpenEditor(pin, present);
      }
    }

    method AddRegion(id: M.Id, region: M.Region, present: set<M.Id>)
      modifies this
      ensures State() == M.AddRegion(page, old(State()), id, region, present)
    {
      if readonly || busy {
        return;
      }
      if M.OtherImage(pins, id) || |pins| >= M.NOTES_MAX {
        Render(present);
        return;
      }
      var pin := M.Pin(keys, [id], "", None, Some(region));
      Place(pin, present);
      OpenEditor(pin, present);
    }

    method Clear(present: set<M.Id>)
      modifies this
      ensures State() == M.Clear(page, old(State()), present)
    {
      CloseEditor(present);
      pins := [];
      Changed(present);
    }

    method Type(text: string)
      requires editing.Some?
      modifies this
      ensures State() == M.Type(page, old(State()), text)
    {
      var editor := editing.value;
      if Trim(M.TextOf(pins, editor)) != Trim(text) {
        epoch := epoch + 1;
        SchedulePublish();
      }
      if M.Has(pins, editor.key) {
        pins := M.SetText(pins, editor.key, text);
      } else {
        editing := Some(editor.(text := text));
      }
    }

    method Read(expected: Option<nat>, present: set<M.Id>) returns (batch: Option<M.Batch>)
      requires Valid()
      modifies this
      ensures (State(), batch) == Results.Read(page, old(State()), expected, present)
      ensures Valid() && trace == old(trace) + [M.Moment(M.Rendered, present)]
      ensures handed == old(handed) + if batch.Some? then [batch.value] else []
      ensures batch.None? <==> expected.Some? && expected.value != epoch
      ensures batch.Some? ==> batch.value.epoch == epoch && exists ks :: Told.Lists(page, pins, batch.value.notes, ks)
    {
      ghost var before, moments, taken := State(), trace, handed;
      ghost var ks := Told.ReadLists(page, before, expected, present);
      Render(present);
      batch := None;
      if expected.None? || expected.value == epoch {
        batch := Some(M.Batch(epoch, M.Sent(page, pins)));
      }
      trace := moments + [M.Moment(M.Rendered, present)];
      handed := taken + if batch.Some? then [batch.value] else [];
      Results.MomentIsTraced(page, moments, before, M.Moment(M.Rendered, present));
      Results.HeldStays(page, taken, before, State());
      assert taken + [] == taken;
    }

    method Grow(extra: seq<M.Pin>, present: set<M.Id>)
      modifies this
      ensures State() == M.Grow(page, old(State()), extra, present)
    {
      if extra == [] {
        return;
      }
      pins, keys := pins + extra, keys + |extra|;
      var _ := Prune(present);
      Changed(present);
    }

    method Restore(notes: seq<M.Note>, present: set<M.Id>)
      modifies this
      ensures State() == M.Restore(page, old(State()), notes, present)
    {
      var extra := M.Extra(page, State(), notes);
      Grow(extra, present);
    }

    method Settle(expected: nat, sent: bool, instance: Option<string>, present: set<M.Id>) returns (settled: bool)
      modifies this
      ensures State() == M.Settle(page, old(State()), expected, sent, instance, present)
      ensures settled == M.Settles(page, old(State()), expected, sent, instance)
    {
      busy := false;
      if (instance.Some? && instance.value != "" && instance.value != page.instance) || !sent || expected != epoch {
        Render(present);
        SchedulePublish();
        return false;
      }
      CloseEditor(present);
      pins := [];
      Changed(present);
      return true;
    }

    method SetReadonly(value: bool, present: set<M.Id>)
      modifies this
      ensures State() == M.SetReadonly(page, old(State()), value, present)
    {
      if readonly && !value {
        busy := false;
      }
      readonly := value;
      if value {
        CloseEditor(present);
      }
      Render(present);
    }

    /** `flush` from where no publish is in flight up to its own publish. */
    method Flush(force: bool)
      modifies this
      ensures State() == M.Flush(page, old(State()), force)
    {
      if inFlight.Some? || !page.publishes || !unpublished || (busy && !force) {
        return;
      }
      unpublished := false;
      var batch := M.Batch(epoch, M.Sent(page, pins));
      inFlight := Some(M.Flight(|host.sends|, batch));
      host := host.(sends := host.sends + [batch], outstanding := host.outstanding[|host.sends| := batch]);
    }

    /** A publish ends: acknowledged, or failed and therefore unpublished again. */
    method Answer(serial: nat, ok: bool)
      requires serial in host.outstanding
      modifies this
      ensures State() == M.Answer(old(State()), serial, ok)
    {
      var batch := host.outstanding[serial];
      host := host.(outstanding := host.outstanding - {serial});
      if ok {
        host := host.(acks := host.acks + [batch]);
      } else {
        unpublished := true;
      }
    }

    /** The flush that sent `serial` goes on. */
    method Land(serial: nat)
      modifies this
      ensures State() == M.Land(old(State()), serial)
    {
      if inFlight.Some? && inFlight.value.serial == serial {
        inFlight := None;
      }
    }

    method StartFlush(force: bool)
      modifies this
      ensures State() == M.StartFlush(page, old(State()), force)
    {
      timer := false;
      Flush(force);
    }

    method SendAll(present: set<M.Id>) returns (begun: bool)
      modifies this
      ensures State() == M.SendAll(page, old(State()), present)
      ensures begun == M.Sends(old(State()))
    {
      if readonly || busy || pins == [] {
        return false;
      }
      CloseEditor(present);
      busy := true;
      Render(present);
      StartFlush(true);
      return true;
    }

    /** One event, as the object carries it out. */
    method CarryOut(m: M.Moment)
      requires M.Enabled(State(), m)
      modifies this
      ensures State() == M.Step(page, old(State()), m)
    {
      match m.event {
        case Added(ids, text, point) => Add(ids, text, point, m.present);
        case RegionAdded(id, region) => AddRegion(id, region, m.present);
        case Cleared => Clear(m.present);
        case Typed(text) => Type(text);
        case Closed => CloseEditor(m.present);
        case Opened(i) =>
          if !readonly && !busy {
            OpenEditor(pins[i], m.present);
          }
        case Rendered => Render(m.present);
        case Restored(notes) => Restore(notes, m.present);
        case Settled(expected, sent, instance) => var _ := Settle(expected, sent, instance, m.present);
        case ReadonlySet(value) => SetReadonly(value, m.present);
        case SentAll => var _ := SendAll(m.present);
        case RequestFailed =>
          busy := false;
          Render(m.present);
        case FlushStarted => StartFlush(false);
        case FlushResumed(force) => Flush(force);
        case Answered(serial, ok) => Answer(serial, ok);
        case Landed(serial) => Land(serial);
      }
    }

    /** One event of a run. Whatever came before: at most ten notes, one publish on its way, batches sent
        in the order of their epochs, and a quiet publisher has delivered the notes. A draft that is
        settled carried exactly the notes it clears. What is then on the canvas, whether that counts as a change,
        and what the publisher makes of it is what the event is told to do. */
    method Handle(m: M.Moment)
      requires Valid() && M.Enabled(State(), m)
      modifies this
      ensures Valid() && trace == old(trace) + [m] && handed == old(handed) && State() == M.Step(page, old(State()), m)
      ensures |pins| <= M.NOTES_MAX
      ensures forall a, b :: a in host.outstanding && b in host.outstanding ==> a == b
      ensures Steps.Ascending(host.sends)
      ensures page.publishes && !unpublished && inFlight.None? ==>
                host.acks != [] && host.acks[|host.acks| - 1] == M.Batch(epoch, M.Sent(page, pins))
      ensures m.event.Settled? && M.Settles(page, old(State()), m.event.expected, m.event.sent, m.event.instance) ==>
                && pins == []
                && forall b :: b in handed && b.epoch == m.event.expected ==> b.notes == M.Sent(page, old(pins))
      ensures Told.AllWellFormed(trace) ==>
                && pins == Told.Canvas(page, old(State()), m) && State().mode == Told.ModeAfter(old(State()), m.event)
                && (epoch > old(epoch) <==> Epochs.Disturbs(page, old(State()), m))
                && if Epochs.Sending(page, old(State()), m) then Epochs.Publishes(page, old(State()), State())
                   else Epochs.PublishesNothing(page, old(State()), m, State())
    {
      ghost var before, moments, taken := State(), trace, handed;
      CarryOut(m);
      trace, handed := moments + [m], taken;
      Results.MomentIsTraced(page, moments, before, m);
      Results.HeldStays(page, taken, before, State());
      if Told.AllWellFormed(trace) {
        assert forall k :: k in moments ==> k in trace;
        assert m in trace;
        Epochs.MomentIsTold(page, moments, before, m);
      }
    }
  }
}
