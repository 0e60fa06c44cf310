/** When the notes of the canvas count as changed, and what the publisher makes of it. */
module NotePinsEpochs {
  import opened JsText
  import opened Options
  import opened NotePinsModel
  import opened NotePinsSteps
  import opened NotePinsResults
  import opened NotePinsByEvents

  /** One of the pin's targets, or the place of its point, has left the page. */
  ghost predicate Leaves(pin: Pin, present: set<Id>) {
    || (exists id :: id in pin.elementIds && id !in present)
    || (pin.point.Some? && pin.point.value.elementId !in present)
  }

  ghost predicate SomeLeave(pins: seq<Pin>, present: set<Id>) {
    exists i :: 0 <= i < |pins| && Leaves(pins[i], present)
  }

  ghost predicate Emptied(notes: Notes) {
    && notes.editor.Some?
    && exists i :: 0 <= i < |notes.pins| && notes.pins[i].key == notes.editor.value.key && !HasMark(notes.pins[i].text)
  }

  /** The text in the editor: that of its pin, or its own once the pin has gone. */
  ghost predicate EditorShows(notes: Notes, text: string) {
    && notes.editor.Some?
    && var key := notes.editor.value.key;
    if Has(notes.pins, key) then
      exists i :: 0 <= i < |notes.pins| && notes.pins[i].key == key && notes.pins[i].text == text
    else notes.editor.value.text == text
  }

  /** The event changes what there is to send. */
  ghost predicate Disturbs(page: Page, s: State, m: Moment) {
    || Empties(page, s, m.event) || Placed(page, s, m.event) != []
    || (m.event.Added? && MayAdd(s) && m.event.ids != [] && Goes(s, m.event.ids, m.event.point) < |s.notes.pins|)
    || (m.event.Typed? && exists text :: EditorShows(s.notes, text) && Trim(text) != Trim(m.event.text))
    || (Closes(page, s, m.event) && Emptied(s.notes))
    || (Redraws(page, s, m.event) && SomeLeave(s.notes.pins, m.present))
  }

  lemma {:induction false} LeavesExactly(pins: seq<Pin>, present: set<Id>)
    ensures AnyStale(pins, present) <==> SomeLeave(pins, present)
  {
    forall i | 0 <= i < |pins|
      ensures Stale(pins[i], present) <==> Leaves(pins[i], present)
    {
    }
  }

  lemma {:induction false} EmptiedExactly(notes: Notes)
    requires Keyed(notes.pins, notes.keys)
    ensures Emptied(notes) <==> notes.editor.Some? && Has(notes.pins, notes.editor.value.key)
                                && Blank(TextOf(notes.pins, notes.editor.value))
  {
    if notes.editor.Some? && Has(notes.pins, notes.editor.value.key) {
      var i :| 0 <= i < |notes.pins| && notes.pins[i].key == notes.editor.value.key;
      TextOfPin(notes.pins, notes.editor.value, notes.keys, i);
      BlankExactly(notes.pins[i].text);
      KeysAreDistinct(notes.pins, notes.keys);
    }
  }

  lemma {:induction false} TextOfNone(pins: seq<Pin>, editor: Editor)
    requires !Has(pins, editor.key)
    ensures TextOf(pins, editor) == editor.text
  {
    if pins != [] {
      assert pins[|pins| - 1].key != editor.key;
      TextOfNone(pins[..|pins| - 1], editor);
    }
  }

  lemma {:induction false} EditorShowsExactly(notes: Notes, text: string)
    requires Keyed(notes.pins, notes.keys) && notes.editor.Some?
    ensures EditorShows(notes, text) <==> TextOf(notes.pins, notes.editor.value) == text
  {
    var editor := notes.editor.value;
    if Has(notes.pins, editor.key) {
      var i :| 0 <= i < |notes.pins| && notes.pins[i].key == editor.key;
      TextOfPin(notes.pins, editor, notes.keys, i);
      KeysAreDistinct(notes.pins, notes.keys);
    } else {
      TextOfNone(notes.pins, editor);
    }
  }

  lemma {:induction false} ChangedIsLater(page: Page, s: State, present: set<Id>)
    ensures Changed(page, s, present).notes.epoch > s.notes.epoch
  {
  }

  lemma {:induction false} CloseIsLater(page: Page, s: State, present: set<Id>)
    requires Orderly(s.notes)
    ensures Close(page, s, present).notes.epoch >= s.notes.epoch
    ensures Close(page, s, present).notes.epoch > s.notes.epoch
            <==> s.notes.editor.Some? && (Emptied(s.notes) || SomeLeave(s.notes.pins, present))
    ensures Close(page, s, present).notes.epoch == s.notes.epoch ==>
              Close(page, s, present).notes.pins == s.notes.pins && Close(page, s, present).notes.editor.None?
  {
    LeavesExactly(s.notes.pins, present);
    EmptiedExactly(s.notes);
  }

  lemma {:induction false} OpenIsLater(page: Page, s: State, pin: Pin, present: set<Id>)
    requires Orderly(s.notes)
    ensures Open(page, s, pin, present).notes.epoch >= s.notes.epoch
    ensures Open(page, s, pin, present).notes.epoch > s.notes.epoch <==>
              && !(s.notes.editor.Some? && s.notes.editor.value.key == pin.key)
              && (Emptied(s.notes) || SomeLeave(s.notes.pins, present))
  {
    CloseIsLater(page, s, present);
    LeavesExactly(s.notes.pins, present);
  }

  lemma {:induction false} OpenedChangeIsLater(page: Page, s: State, pin: Pin, present: set<Id>)
    requires Sound(s.notes)
    ensures Open(page, Changed(page, s, present), pin, present).notes.epoch > s.notes.epoch
  {
    ChangedIsLater(page, s, present);
    ChangedIs(page, s, present);
    OpenIsLater(page, Changed(page, s, present), pin, present);
  }

  lemma {:induction false} JoinIsLater(page: Page, s: State, i: nat, text: string, present: set<Id>)
    requires Sound(s.notes) && i < |s.notes.pins|
    ensures Changed(page, SetPins(s, Merged(s.notes.pins, i, text)), present).notes.epoch > s.notes.epoch
    ensures Open(page, Changed(page, s, present), s.notes.pins[i], present).notes.epoch > s.notes.epoch
  {
    ChangedIsLater(page, SetPins(s, Merged(s.notes.pins, i, text)), present);
    OpenedChangeIsLater(page, s, s.notes.pins[i], present);
  }

  lemma {:induction false} PlaceIsLater(page: Page, s: State, pin: Pin, present: set<Id>)
    requires Sound(s.notes) && |s.notes.pins| < 10 && pin.key == s.notes.keys && Targeted(pin)
    ensures Place(page, s, pin, present).notes.epoch > s.notes.epoch
    ensures Open(page, Place(page, s, pin, present), pin, present).notes.epoch > s.notes.epoch
  {
    WithPinIsSound(s, pin);
    ChangedIsLater(page, WithPin(s, pin), present);
    OpenedChangeIsLater(page, WithPin(s, pin), pin, present);
  }

  lemma {:induction false} AddIsLater(page: Page, s: State, m: Moment)
    requires Sound(s.notes) && m.event.Added? && MayAdd(s) && m.event.ids != []
    requires Goes(s, m.event.ids, m.event.point) < |s.notes.pins| || |s.notes.pins| < 10
    ensures Step(page, s, m).notes.epoch > s.notes.epoch
  {
    var ids, text, point := m.event.ids, m.event.text, m.event.point;
    AddGoes(s, ids, text, point);
    var i := Goes(s, ids, point);
    if i < |s.notes.pins| {
      JoinIsLater(page, s, i, text, m.present);
    } else {
      PlaceIsLater(page, s, Pin(s.notes.keys, Distinct(ids), text, point, None), m.present);
    }
  }

  lemma {:induction false} PruneIsLater(page: Page, s: State, present: set<Id>)
    ensures Prune(page, s, present).notes.epoch >= s.notes.epoch
    ensures Prune(page, s, present).notes.epoch > s.notes.epoch <==> SomeLeave(s.notes.pins, present)
  {
    LeavesExactly(s.notes.pins, present);
  }

  ghost predicate DisturbsExactly(page: Page, s: State, m: Moment)
    requires Enabled(s, m)
  {
    Step(page, s, m).notes.epoch > s.notes.epoch <==> Disturbs(page, s, m)
  }

  lemma {:induction false} AddDisturbs(page: Page, s: State, m: Moment)
    requires Sound(s.notes) && m.event.Added?
    ensures DisturbsExactly(page, s, m)
  {
    var ids, point := m.event.ids, m.event.point;
    AddGoes(s, ids, m.event.text, point);
    if MayAdd(s) && ids != [] {
      if Goes(s, ids, point) < |s.notes.pins| || |s.notes.pins| < 10 {
        AddIsLater(page, s, m);
      } else {
        PruneIsLater(page, s, m.present);
        FullClosesNothing(page, s, m.event);
      }
    }
  }

  /** A canvas that is full opens no editor for a new note, and so closes none. */
  lemma {:induction false} FullClosesNothing(page: Page, s: State, e: Event)
    requires (e.Added? && |s.notes.pins| >= 10 && Goes(s, e.ids, e.point) >= |s.notes.pins|)
             || (e.RegionAdded? && Placed(page, s, e) == [])
    ensures !Closes(page, s, e)
  {
  }

  lemma {:induction false} RegionDisturbs(page: Page, s: State, m: Moment)
    requires Sound(s.notes) && m.event.RegionAdded?
    ensures DisturbsExactly(page, s, m)
  {
    if MayAdd(s) {
      if MarksOther(s.notes.pins, m.event.id) || |s.notes.pins| >= 10 {
        PruneIsLater(page, s, m.present);
        FullClosesNothing(page, s, m.event);
      } else {
        PlaceIsLater(page, s, Pin(s.notes.keys, [m.event.id], "", None, Some(m.event.region)), m.present);
      }
    }
  }

  lemma {:induction false} RestoreDisturbs(page: Page, s: State, m: Moment)
    requires Sound(s.notes) && m.event.Restored?
    ensures DisturbsExactly(page, s, m)
  {
    ExtraIs(page, s, m);
    var extra := Extra(page, s, m.event.notes);
    if extra != [] {
      var grown := Grown(s, extra);
      PruneIsLater(page, grown, m.present);
      ChangedIsLater(page, Prune(page, grown, m.present), m.present);
    }
  }

  lemma {:induction false} TypeDisturbs(page: Page, s: State, m: Moment)
    requires Sound(s.notes) && m.event.Typed? && Enabled(s, m)
    ensures DisturbsExactly(page, s, m)
  {
    var shown := TextOf(s.notes.pins, s.notes.editor.value);
    EditorShowsExactly(s.notes, shown);
    forall text | EditorShows(s.notes, text)
      ensures text == shown
    {
      EditorShowsExactly(s.notes, text);
    }
  }

  lemma {:induction false} OpenedDisturbs(page: Page, s: State, m: Moment)
    requires Sound(s.notes) && m.event.Opened? && Enabled(s, m)
    ensures DisturbsExactly(page, s, m)
  {
    var pin := s.notes.pins[m.event.index];
    OpenIsLater(page, s, pin, m.present);
    assert Closes(page, s, m.event) <==>
           MayAdd(s) && s.notes.editor.Some? && s.notes.editor.value.key != pin.key by {
      assert Opens(page, s, m.event, pin.key) <==> MayAdd(s);
    }
  }

  lemma {:induction false} CloserDisturbs(page: Page, s: State, m: Moment)
    requires Sound(s.notes) && (m.event.Closed? || m.event.ReadonlySet? || m.event.SentAll?)
    ensures DisturbsExactly(page, s, m)
  {
    CloseIsLater(page, s, m.present);
    match m.event
    case ReadonlySet(value) =>
      var moded := s.(mode := Mode(value, s.mode.busy && !(s.mode.readonly && !value)));
      CloseIsLater(page, moded, m.present);
      PruneIsLater(page, moded, m.present);
      PruneIsLater(page, Close(page, moded, m.present), m.present);
    case SentAll => PruneIsLater(page, SetBusy(Close(page, s, m.present), true), m.present);
    case _ =>
  }

  lemma {:induction false} RedrawDisturbs(page: Page, s: State, m: Moment)
    requires Sound(s.notes) && (m.event.Rendered? || m.event.Settled? || m.event.RequestFailed? || m.event.Cleared?)
    ensures DisturbsExactly(page, s, m)
  {
    if Empties(page, s, m.event) {
      ClearIsLater(page, s, m.present);
      ClearIsLater(page, SetBusy(s, false), m.present);
    } else {
      PruneIsLater(page, s, m.present);
      PruneIsLater(page, SetBusy(s, false), m.present);
    }
  }

  lemma {:induction false} ClearIsLater(page: Page, s: State, present: set<Id>)
    requires Orderly(s.notes)
    ensures Clear(page, s, present).notes.epoch > s.notes.epoch
  {
    CloseIsLater(page, s, present);
    ChangedIsLater(page, SetPins(Close(page, s, present), []), present);
  }

  /** The epoch moves exactly when an event changes what there is to send. */
  lemma {:induction false} EpochMovesExactly(page: Page, s: State, m: Moment)
    requires Sound(s.notes) && Enabled(s, m)
    ensures Step(page, s, m).notes.epoch > s.notes.epoch <==> Disturbs(page, s, m)
  {
    match m.event
    case Added(_, _, _) => AddDisturbs(page, s, m);
    case RegionAdded(_, _) => RegionDisturbs(page, s, m);
    case Restored(_) => RestoreDisturbs(page, s, m);
    case Typed(_) => TypeDisturbs(page, s, m);
    case Opened(_) => OpenedDisturbs(page, s, m);
    case Closed => CloserDisturbs(page, s, m);
    case ReadonlySet(_) => CloserDisturbs(page, s, m);
    case SentAll => CloserDisturbs(page, s, m);
    case Cleared => RedrawDisturbs(page, s, m);
    case Rendered => RedrawDisturbs(page, s, m);
    case Settled(_, _, _) => RedrawDisturbs(page, s, m);
    case RequestFailed => RedrawDisturbs(page, s, m);
    case _ =>
  }

  // Drafts.

  ghost predicate NothingDisturbs(page: Page, s: State, moments: seq<Moment>)
    decreases |moments|
  {
    moments != [] && Enabled(s, moments[0]) ==>
      && WellFormed(moments[0]) && !Disturbs(page, s, moments[0])
      && NothingDisturbs(page, Step(page, s, moments[0]), moments[1..])
  }

  lemma {:induction false} UndisturbedEpoch(page: Page, s: State, moments: seq<Moment>, t: State)
    requires Inv(page, s) && Sound(s.notes) && Leads(page, s, moments, t) && NothingDisturbs(page, s, moments)
    ensures t.notes.epoch == s.notes.epoch
    decreases |moments|
  {
    if moments != [] {
      EpochMovesExactly(page, s, moments[0]);
      StepKeepsInv(page, s, moments[0]);
      StepKeepsSound(page, s, moments[0]);
      UndisturbedEpoch(page, Step(page, s, moments[0]), moments[1..], t);
    }
  }

  /** A draft that is read, and sent while nothing disturbs the notes, is settled: the canvas is cleared. */
  lemma {:induction false} UndisturbedDraftSettles(page: Page, before: seq<Moment>, s: State, present: set<Id>,
                                                   moments: seq<Moment>, t: State, now: set<Id>)
    requires Leads(page, Initial(), before, s) && AllWellFormed(before)
    requires Leads(page, Read(page, s, None, present).0, moments, t)
    requires NothingDisturbs(page, Read(page, s, None, present).0, moments)
    ensures Read(page, s, None, present).1.Some?
    ensures var batch := Read(page, s, None, present).1.value;
            && Sent(page, t.notes.pins) == batch.notes
            && Step(page, t, Moment(Settled(batch.epoch, true, Some(page.instance)), now)).notes.pins == []
  {
    var r := Prune(page, s, present);
    assert Reachable(page, s);
    ReachableInv(page, s);
    RunKeepsSound(page, Initial(), before, s);
    StepKeepsInv(page, s, Moment(Rendered, present));
    StepKeepsSound(page, s, Moment(Rendered, present));
    UndisturbedEpoch(page, r, moments, t);
    RunKeepsInv(page, r, moments, t);
    RunKeepsSoundQuietly(page, r, moments, t);
    EmptiesAre(page, t, Moment(Settled(r.notes.epoch, true, Some(page.instance)), now));
  }

  lemma {:induction false} RunKeepsSoundQuietly(page: Page, s: State, moments: seq<Moment>, t: State)
    requires Sound(s.notes) && Leads(page, s, moments, t) && NothingDisturbs(page, s, moments)
    ensures Sound(t.notes)
    decreases |moments|
  {
    if moments != [] {
      StepKeepsSound(page, s, moments[0]);
      RunKeepsSoundQuietly(page, Step(page, s, moments[0]), moments[1..], t);
    }
  }

  // The publisher.

  /** A later epoch is a change to publish, and nothing else is. */
  predicate Tells(page: Page, s: State, t: State) {
    && t.host == s.host && t.notes.epoch >= s.notes.epoch
    && t.publisher == if page.publishes && t.notes.epoch > s.notes.epoch
                      then s.publisher.(unpublished := true, timer := true) else s.publisher
  }

  lemma {:induction false} PruneTells(page: Page, s: State, present: set<Id>)
    ensures Tells(page, s, Prune(page, s, present)) && Tells(page, s, Changed(page, s, present))
  {
  }

  lemma {:induction false} CloseTells(page: Page, s: State, present: set<Id>)
    ensures Tells(page, s, Close(page, s, present))
  {
    if s.notes.editor.Some? {
      var closed := SetEditor(s, None);
      PruneTells(page, closed, present);
      PruneTells(page, SetPins(closed, Without(s.notes.pins, s.notes.editor.value.key)), present);
    }
  }

  lemma {:induction false} OpenTells(page: Page, s: State, pin: Pin, present: set<Id>)
    ensures Tells(page, s, Open(page, s, pin, present))
  {
    CloseTells(page, s, present);
    PruneTells(page, SetEditor(Close(page, s, present), Some(Editor(pin.key, pin.text))), present);
  }

  lemma {:induction false} PlaceTells(page: Page, s: State, pin: Pin, present: set<Id>)
    ensures Tells(page, s, Place(page, s, pin, present))
    ensures Tells(page, s, Open(page, Place(page, s, pin, present), pin, present))
  {
    PruneTells(page, WithPin(s, pin), present);
    OpenTells(page, Place(page, s, pin, present), pin, present);
  }

  lemma {:induction false} JoinTells(page: Page, s: State, i: nat, text: string, present: set<Id>)
    requires i < |s.notes.pins|
    ensures Tells(page, s, Changed(page, SetPins(s, Merged(s.notes.pins, i, text)), present))
    ensures Tells(page, s, Open(page, Changed(page, s, present), s.notes.pins[i], present))
  {
    PruneTells(page, SetPins(s, Merged(s.notes.pins, i, text)), present);
    PruneTells(page, s, present);
    OpenTells(page, Changed(page, s, present), s.notes.pins[i], present);
  }

  lemma {:induction false} AddTells(page: Page, s: State, ids: seq<Id>, text: string, point: Option<Target>,
                                    present: set<Id>)
    ensures Tells(page, s, Add(page, s, ids, text, point, present))
  {
    var pins, pin := s.notes.pins, Pin(s.notes.keys, Distinct(ids), text, point, None);
    var i := if point.Some? then |pins| else FindSame(pins, pin);
    if i < |pins| {
      JoinTells(page, s, i, text, present);
    } else {
      PruneTells(page, s, present);
      PlaceTells(page, s, pin, present);
    }
  }

  lemma {:induction false} RegionTells(page: Page, s: State, id: Id, region: Region, present: set<Id>)
    ensures Tells(page, s, AddRegion(page, s, id, region, present))
  {
    PruneTells(page, s, present);
    PlaceTells(page, s, Pin(s.notes.keys, [id], "", None, Some(region)), present);
  }

  lemma {:induction false} RestoreTells(page: Page, s: State, notes: seq<Note>, present: set<Id>)
    ensures Tells(page, s, Restore(page, s, notes, present))
  {
    var grown := Grown(s, Extra(page, s, notes));
    PruneTells(page, grown, present);
    PruneTells(page, Prune(page, grown, present), present);
  }

  lemma {:induction false} ClearTells(page: Page, s: State, present: set<Id>)
    ensures Tells(page, s, Clear(page, s, present))
  {
    CloseTells(page, s, present);
    PruneTells(page, SetPins(Close(page, s, present), []), present);
  }

  lemma {:induction false} ReadonlyTells(page: Page, s: State, value: bool, present: set<Id>)
    ensures Tells(page, s, SetReadonly(page, s, value, present))
  {
    var moded := s.(mode := Mode(value, s.mode.busy && !(s.mode.readonly && !value)));
    CloseTells(page, moded, present);
    PruneTells(page, moded, present);
    PruneTells(page, Close(page, moded, present), present);
  }

  /** A settlement that is refused is published again, whether or not anything has changed. */
  predicate Refuses(page: Page, s: State, e: Event) {
    e.Settled? && !Empties(page, s, e)
  }

  lemma {:induction false} HandlerTells(page: Page, s: State, m: Moment)
    requires Enabled(s, m) && !Publishing(m.event) && !Refuses(page, s, m.event)
    ensures Tells(page, s, Step(page, s, m))
  {
    match m.event
    case Added(ids, text, point) => AddTells(page, s, ids, text, point, m.present);
    case RegionAdded(id, region) => RegionTells(page, s, id, region, m.present);
    case Restored(notes) => RestoreTells(page, s, notes, m.present);
    case Cleared => ClearTells(page, s, m.present);
    case Settled(_, _, _) => ClearTells(page, SetBusy(s, false), m.present);
    case Closed => CloseTells(page, s, m.present);
    case Opened(i) => OpenTells(page, s, s.notes.pins[i], m.present);
    case ReadonlySet(value) => ReadonlyTells(page, s, value, m.present);
    case Rendered => PruneTells(page, s, m.present);
    case RequestFailed => PruneTells(page, SetBusy(s, false), m.present);
    case _ =>
  }

  /** The batch that is sent holds the notes of the moment, under their epoch. */
  ghost predicate Publishes(page: Page, s: State, t: State) {
    var batch := Batch(t.notes.epoch, Sent(page, t.notes.pins));
    && t.host.sends == s.host.sends + [batch] && t.host.acks == s.host.acks
    && t.host.outstanding == s.host.outstanding[|s.host.sends| := batch]
    && !t.publisher.unpublished && t.publisher.inFlight == Some(Flight(|s.host.sends|, batch))
  }

  /** The flush of the event finds something to publish, and may. */
  ghost predicate Sending(page: Page, s: State, m: Moment) {
    && page.publishes && s.publisher.inFlight.None?
    && match m.event
       case FlushStarted => s.publisher.unpublished && !s.mode.busy
       case FlushResumed(force) => s.publisher.unpublished && (force || !s.mode.busy)
       case SentAll => MayAdd(s) && s.notes.pins != [] && (s.publisher.unpublished || Disturbs(page, s, m))
       case _ => false
  }

  lemma {:induction false} SendAllPublishes(page: Page, s: State, m: Moment)
    requires Sound(s.notes) && m.event.SentAll? && Sends(s)
    ensures var t := Step(page, s, m);
            if Sending(page, s, m) then Publishes(page, s, t)
            else t.host == s.host && t.publisher.inFlight == s.publisher.inFlight
                 && (t.publisher.unpublished
                     <==> s.publisher.unpublished || (page.publishes && Disturbs(page, s, m)))
  {
    var closed := Close(page, s, m.present);
    var ready := Prune(page, SetBusy(closed, true), m.present);
    CloseTells(page, s, m.present);
    PruneTells(page, SetBusy(closed, true), m.present);
    EpochMovesExactly(page, s, m);
    assert Step(page, s, m).notes == ready.notes;
  }

  /** What is still in flight: the flush that sent it has not gone on yet. */
  function FlightAfter(s: State, e: Event): Option<Flight> {
    if e.Landed? && s.publisher.inFlight.Some? && s.publisher.inFlight.value.serial == e.serial then None
    else s.publisher.inFlight
  }

  function AcksAfter(s: State, m: Moment): seq<Batch>
    requires Enabled(s, m)
  {
    if m.event.Answered? && m.event.ok then s.host.acks + [s.host.outstanding[m.event.serial]] else s.host.acks
  }

  /** There is something to publish that was not there before. */
  ghost predicate Unpublishes(page: Page, s: State, m: Moment) {
    || (m.event.Answered? && !m.event.ok)
    || (page.publishes && (Disturbs(page, s, m) || Refuses(page, s, m.event)))
  }

  ghost predicate PublishesNothing(page: Page, s: State, m: Moment, t: State)
    requires Enabled(s, m)
  {
    && t.host.sends == s.host.sends && t.host.acks == AcksAfter(s, m)
    && (t.publisher.unpublished <==> s.publisher.unpublished || Unpublishes(page, s, m))
    && t.publisher.inFlight == FlightAfter(s, m.event)
  }

  /** What the publisher is told, sends and hears, after any event: an event that changes what there is to send, or
      refuses a settlement, is to be published; a flush sends the notes of the moment exactly when there is
      something to publish, nothing in flight, and no request under way unless it is forced; a failed publish is
      to be repeated. */
  lemma {:induction false} PublisherFollowsEvents(page: Page, s: State, m: Moment)
    requires Sound(s.notes) && Enabled(s, m)
    ensures if Sending(page, s, m) then Publishes(page, s, Step(page, s, m))
            else PublishesNothing(page, s, m, Step(page, s, m))
  {
    if m.event.SentAll? {
      if Sends(s) {
        SendAllPublishes(page, s, m);
      }
    } else if !Publishing(m.event) {
      HandlersPublishNothing(page, s, m);
    }
  }

  lemma {:induction false} HandlersPublishNothing(page: Page, s: State, m: Moment)
    requires Sound(s.notes) && Enabled(s, m) && !Publishing(m.event)
    ensures PublishesNothing(page, s, m, Step(page, s, m))
  {
    EpochMovesExactly(page, s, m);
    if Refuses(page, s, m.event) {
      PruneTells(page, SetBusy(s, false), m.present);
    } else {
      HandlerTells(page, s, m);
    }
  }

  /** A flush that finds something unpublished, and whose publish is answered, delivers the present notes. */
  lemma {:induction false} FlushDelivers(page: Page, s: State, present: set<Id>)
    requires page.publishes && s.publisher.unpublished && s.publisher.inFlight.None? && !s.mode.busy
    requires |s.host.sends| !in s.host.outstanding
    ensures var n := |s.host.sends|;
            exists t ::
              && Leads(page, s, [Moment(FlushStarted, present), Moment(Answered(n, true), present),
                                 Moment(Landed(n), present)], t)
              && !t.publisher.unpublished && t.publisher.inFlight.None? && t.notes == s.notes
              && t.host.acks == s.host.acks + [Batch(s.notes.epoch, Sent(page, s.notes.pins))]
  {
    var n := |s.host.sends|;
    var flush, answer, land := Moment(FlushStarted, present), Moment(Answered(n, true), present),
                               Moment(Landed(n), present);
    var s1 := Step(page, s, flush);
    var s2 := Step(page, s1, answer);
    var t := Step(page, s2, land);
    LeadsCons(page, s2, land, [], t);
    LeadsCons(page, s1, answer, [land], t);
    LeadsCons(page, s, flush, [answer, land], t);
    assert [flush] + [answer, land] == [flush, answer, land];
  }

  lemma LeadsCons(page: Page, s: State, m: Moment, moments: seq<Moment>, t: State)
    requires Enabled(s, m) && Leads(page, Step(page, s, m), moments, t)
    ensures Leads(page, s, [m] + moments, t)
  {
    assert ([m] + moments)[1..] == moments;
  }

  // Restoring what was read.

  ghost predicate RoundsOnce(page: Page) {
    forall at :: page.round(page.round(at)) == page.round(at)
  }

  lemma {:induction false} RoundedOnce(page: Page, pin: Pin, key: nat)
    requires RoundsOnce(page) && NoDup(pin.elementIds)
    ensures ToNote(page, Restoring(key, ToNote(page, pin))) == ToNote(page, pin)
  {
    TrimOnce(pin.text);
    DistinctIsSame(pin.elementIds);
    if pin.region.Some? && pin.region.value.Stroke? {
      StrokeRoundsOnce(page, pin.region.value.points);
    }
  }

  lemma {:induction false} StrokeRoundsOnce(page: Page, points: seq<Point>)
    requires RoundsOnce(page)
    ensures RoundRegion(page, RoundRegion(page, Stroke(points))) == RoundRegion(page, Stroke(points))
  {
    var once := RoundRegion(page, Stroke(points));
    var twice := RoundRegion(page, once);
    assert forall i :: 0 <= i < |points| ==> twice.points[i] == once.points[i];
    assert twice.points == once.points;
  }

  lemma {:induction false} DistinctIsSame(ids: seq<Id>)
    requires NoDup(ids)
    ensures Distinct(ids) == ids
  {
    if ids != [] {
      var init := ids[..|ids| - 1];
      DistinctIsSame(init);
      assert ids[|ids| - 1] !in init;
    }
  }

  lemma {:induction false} SentOfRestored(page: Page, pins: seq<Pin>, key: nat)
    requires RoundsOnce(page) && AllTargeted(pins)
    ensures Sent(page, RestoringAll(key, Sent(page, pins))) == Sent(page, pins)
  {
    if pins != [] {
      var init, last := pins[..|pins| - 1], pins[|pins| - 1];
      assert Targeted(last);
      SentOfRestored(page, init, key);
      if !Blank(last.text) {
        var sent, note := Sent(page, init), ToNote(page, last);
        RoundedOnce(page, last, key + |sent|);
        TrimOnce(last.text);
        RestoringSnoc(key, sent, note);
        assert Sent(page, RestoringAll(key, sent) + [Restoring(key + |sent|, note)])
            == Sent(page, RestoringAll(key, sent)) + [note] by {
          assert (RestoringAll(key, sent) + [Restoring(key + |sent|, note)])[..|sent|] == RestoringAll(key, sent);
        }
      } else {
        assert Sent(page, init) + [] == Sent(page, init);
      }
    }
  }

  lemma {:induction false} RestoringSnoc(key: nat, notes: seq<Note>, note: Note)
    ensures RestoringAll(key, notes + [note]) == RestoringAll(key, notes) + [Restoring(key + |notes|, note)]
  {
  }

  lemma {:induction false} NothingIsThere(page: Page, notes: seq<Note>)
    ensures Missing(page, notes, {}) == notes
  {
    if notes != [] {
      NothingIsThere(page, notes[1..]);
    }
  }

  lemma {:induction false} SentIsOnPage(page: Page, pins: seq<Pin>, present: set<Id>)
    requires AllTargeted(pins)
    requires forall i :: 0 <= i < |pins| ==> !Leaves(pins[i], present)
    ensures forall note :: note in Sent(page, pins) ==>
              && note.elementIds != [] && NoDup(note.elementIds)
              && (forall id :: id in note.elementIds ==> id in present)
              && (note.point.Some? ==> note.point.value.elementId in present)
  {
    if pins != [] {
      SentIsOnPage(page, pins[..|pins| - 1], present);
      var last := pins[|pins| - 1];
      assert Targeted(last) && !Leaves(last, present);
    }
  }

  /** Nothing of what is restored onto an empty canvas is there already, and all of it fits. */
  lemma {:induction false} AllIsPlaced(page: Page, s: State, u: State)
    requires Sound(s.notes) && u.notes.pins == []
    ensures var notes := Sent(page, s.notes.pins);
            Placed(page, u, Restored(notes)) == RestoringAll(u.notes.keys, notes)
  {
    var notes := Sent(page, s.notes.pins);
    SentIsShort(page, s.notes.pins);
    NothingIsThere(page, notes);
    assert Already(page, []) == {};
    assert notes[..|notes|] == notes;
  }

  /** What was read, restored onto an empty canvas that shows its targets, reads the same again. */
  lemma {:induction false} RestoredReadsTheSame(page: Page, s: State, u: State, present: set<Id>)
    requires RoundsOnce(page) && Sound(s.notes) && Sound(u.notes) && u.notes.pins == []
    requires forall i :: 0 <= i < |s.notes.pins| ==> !Leaves(s.notes.pins[i], present)
    ensures var t := Step(page, u, Moment(Restored(Sent(page, s.notes.pins)), present));
            && Sent(page, t.notes.pins) == Sent(page, s.notes.pins)
            && |t.notes.pins| == |Sent(page, s.notes.pins)|
            && (Sent(page, s.notes.pins) != [] ==> t.notes.epoch > u.notes.epoch)
  {
    var notes, keys := Sent(page, s.notes.pins), u.notes.keys;
    var m := Moment(Restored(notes), present);
    SentIsOnPage(page, s.notes.pins, present);
    AllIsPlaced(page, s, u);
    RestoredStays(page, notes, keys, present);
    CanvasIsTold(page, u, m);
    SentOfRestored(page, s.notes.pins, keys);
    EpochMovesExactly(page, u, m);
    RestoredCanvas(page, u, m);
  }

  lemma {:induction false} RestoredCanvas(page: Page, u: State, m: Moment)
    requires m.event.Restored? && u.notes.pins == []
    requires Becoming(Placed(page, u, m.event), OffPage(m.present)) == Placed(page, u, m.event)
    ensures Canvas(page, u, m) == Placed(page, u, m.event)
  {
    var placed := Placed(page, u, m.event);
    assert [] + placed == placed;
    if placed == [] {
      CanvasIs(page, u, m, Stays());
    } else {
      CanvasIs(page, u, m, OffPage(m.present));
    }
  }

  lemma {:induction false} RestoredStays(page: Page, notes: seq<Note>, key: nat, present: set<Id>)
    requires forall note :: note in notes ==>
               && note.elementIds != [] && NoDup(note.elementIds)
               && (forall id :: id in note.elementIds ==> id in present)
               && (note.point.Some? ==> note.point.value.elementId in present)
    ensures Becoming(RestoringAll(key, notes), OffPage(present)) == RestoringAll(key, notes)
  {
    var pins := RestoringAll(key, notes);
    forall i | 0 <= i < |pins|
      ensures OffPage(present)(pins[i]) == Stays()(pins[i])
    {
      assert notes[i] in notes;
      DistinctIsSame(notes[i].elementIds);
      FreshStays(notes[i].elementIds, present);
    }
    BecomingSame(pins, OffPage(present), Stays());
    AllStay(pins);
  }

  // The editor.

  /** The editor stands as long as its pin does, and closes when the pin goes. */
  ghost predicate EditorStands(s: State, t: State) {
    if s.notes.editor.None? || Has(t.notes.pins, s.notes.editor.value.key) then t.notes.editor == s.notes.editor
    else if Has(s.notes.pins, s.notes.editor.value.key) then t.notes.editor.None?
    else t.notes.editor.None? || t.notes.editor == s.notes.editor
  }

  /** Pins that come and texts that change leave the editor's pin where it is. */
  ghost predicate SamePinOpen(s: State, u: State) {
    && u.notes.editor == s.notes.editor
    && (s.notes.editor.Some? ==>
          (Has(u.notes.pins, s.notes.editor.value.key) <==> Has(s.notes.pins, s.notes.editor.value.key)))
  }

  lemma {:induction false} MergedPinOpen(s: State, i: nat, text: string)
    requires i < |s.notes.pins|
    ensures SamePinOpen(s, SetPins(s, Merged(s.notes.pins, i, text)))
  {
    var merged := Merged(s.notes.pins, i, text);
    assert forall k :: 0 <= k < |merged| ==> merged[k].key == s.notes.pins[k].key;
  }

  lemma {:induction false} MorePinOpen(s: State, extra: seq<Pin>, keys: nat)
    requires s.notes.editor.Some? ==> s.notes.editor.value.key < s.notes.keys
    requires forall i :: 0 <= i < |extra| ==> extra[i].key >= s.notes.keys
    ensures SamePinOpen(s, s.(notes := s.notes.(pins := s.notes.pins + extra, keys := keys)))
  {
    var all := s.notes.pins + extra;
    if s.notes.editor.Some? {
      if i :| 0 <= i < |s.notes.pins| && s.notes.pins[i].key == s.notes.editor.value.key {
        assert all[i].key == s.notes.editor.value.key;
      }
    }
  }

  lemma {:induction false} PruneStands(page: Page, s: State, present: set<Id>)
    ensures EditorStands(s, Prune(page, s, present)) && EditorStands(s, Changed(page, s, present))
  {
  }

  /** The editor of the pin is open, if the pin is on the canvas. */
  ghost predicate Shows(t: State, key: nat) {
    Has(t.notes.pins, key) ==> t.notes.editor.Some? && t.notes.editor.value.key == key
  }

  lemma {:induction false} OpenShows(page: Page, s: State, pin: Pin, present: set<Id>)
    ensures Shows(Open(page, s, pin, present), pin.key)
  {
    PruneStands(page, SetEditor(Close(page, s, present), Some(Editor(pin.key, pin.text))), present);
  }

  lemma {:induction false} AddShows(page: Page, s: State, m: Moment, key: nat)
    requires Sound(s.notes) && m.event.Added? && Opens(page, s, m.event, key)
    ensures Shows(Step(page, s, m), key)
  {
    var ids, text, point := m.event.ids, m.event.text, m.event.point;
    AddGoes(s, ids, text, point);
    BlankExactly(text);
    var i, pin := Goes(s, ids, point), Pin(s.notes.keys, Distinct(ids), text, point, None);
    if i < |s.notes.pins| {
      OpenShows(page, Changed(page, s, m.present), s.notes.pins[i], m.present);
    } else {
      OpenShows(page, Place(page, s, pin, m.present), pin, m.present);
    }
  }

  /** An event that opens an editor leaves it open, unless its pin goes at once. */
  lemma {:induction false} EditorFollowsEvents(page: Page, s: State, m: Moment, key: nat)
    requires Sound(s.notes) && Enabled(s, m) && Opens(page, s, m.event, key)
    ensures Shows(Step(page, s, m), key)
  {
    match m.event
    case Added(_, _, _) => AddShows(page, s, m, key);
    case RegionAdded(id, region) =>
      var pin := Pin(s.notes.keys, [id], "", None, Some(region));
      OpenShows(page, Place(page, s, pin, m.present), pin, m.present);
    case Opened(i) => OpenShows(page, s, s.notes.pins[i], m.present);
  }

  ghost predicate OpensNone(page: Page, s: State, e: Event) {
    forall key :: !Opens(page, s, e, key)
  }

  lemma {:induction false} AddStands(page: Page, s: State, m: Moment)
    requires Sound(s.notes) && m.event.Added? && OpensNone(page, s, m.event)
    ensures EditorStands(s, Step(page, s, m))
  {
    var ids, text, point := m.event.ids, m.event.text, m.event.point;
    AddGoes(s, ids, text, point);
    BlankExactly(text);
    var pins, i := s.notes.pins, Goes(s, ids, point);
    PruneStands(page, s, m.present);
    if MayAdd(s) && ids != [] {
      if i < |pins| {
        assert HasMark(text) || Opens(page, s, m.event, pins[i].key);
        MergedPinOpen(s, i, text);
        PruneStands(page, SetPins(s, Merged(pins, i, text)), m.present);
      } else if |pins| < 10 {
        assert HasMark(text) || Opens(page, s, m.event, s.notes.keys);
        var pin := Pin(s.notes.keys, Distinct(ids), text, point, None);
        MorePinOpen(s, [pin], s.notes.keys + 1);
        PruneStands(page, WithPin(s, pin), m.present);
      }
    }
  }

  ghost predicate EditorIsTold(page: Page, s: State, e: Event, t: State)
    requires e.Typed? ==> s.notes.editor.Some?
  {
    if Closes(page, s, e) || Empties(page, s, e) then t.notes.editor.None?
    else if e.Typed? then
      var key := s.notes.editor.value.key;
      t.notes.editor == if Has(s.notes.pins, key) then s.notes.editor else Some(Editor(key, e.text))
    else EditorStands(s, t)
  }

  /** An event that opens no editor closes the one that is open, empties the canvas, or leaves the editor alone. */
  lemma {:induction false} EditorStandsOtherwise(page: Page, s: State, m: Moment)
    requires Sound(s.notes) && Enabled(s, m) && OpensNone(page, s, m.event)
    ensures EditorIsTold(page, s, m.event, Step(page, s, m))
  {
    match m.event
    case Added(_, _, _) => AddStands(page, s, m);
    case RegionAdded(_, _) =>
      assert Placed(page, s, m.event) == [] || Opens(page, s, m.event, s.notes.keys);
      PruneStands(page, s, m.present);
    case Opened(i) =>
      var key := s.notes.pins[i].key;
      assert !Opens(page, s, m.event, key);
    case Restored(notes) => RestoreStands(page, s, notes, m.present);
    case Closed => CloserStands(page, s, m);
    case ReadonlySet(_) => CloserStands(page, s, m);
    case SentAll => CloserStands(page, s, m);
    case Cleared => CloserStands(page, s, m);
    case Settled(_, _, _) => CloserStands(page, s, m);
    case _ => PruneStands(page, s, m.present);
  }

  lemma {:induction false} CloserStands(page: Page, s: State, m: Moment)
    requires Sound(s.notes) && Enabled(s, m)
    requires m.event.Closed? || m.event.ReadonlySet? || m.event.SentAll? || m.event.Cleared? || m.event.Settled?
    ensures EditorIsTold(page, s, m.event, Step(page, s, m))
  {
    CloseFrames(page, s, m.present);
    PruneStands(page, SetBusy(s, false), m.present);
    match m.event
    case ReadonlySet(value) => ReadonlyStands(page, s, value, m.present);
    case SentAll => SendAllStands(page, s, m.present);
    case Cleared => ClearStands(page, s, m.present);
    case Settled(_, _, _) => ClearStands(page, SetBusy(s, false), m.present);
    case _ =>
  }

  lemma {:induction false} ClearStands(page: Page, s: State, present: set<Id>)
    ensures Clear(page, s, present).notes.editor.None?
  {
    CloseFrames(page, s, present);
    PruneStands(page, SetPins(Close(page, s, present), []), present);
  }

  lemma {:induction false} RestoreStands(page: Page, s: State, notes: seq<Note>, present: set<Id>)
    requires Sound(s.notes)
    ensures EditorStands(s, Restore(page, s, notes, present))
  {
    var grown := Grown(s, Extra(page, s, notes));
    MorePinOpen(s, Extra(page, s, notes), grown.notes.keys);
    PruneStands(page, grown, present);
    PruneStands(page, Prune(page, grown, present), present);
    StillGone(page, grown, present);
  }

  /** A pin that has gone does not come back with another look at the page. */
  lemma {:induction false} StillGone(page: Page, s: State, present: set<Id>)
    ensures Changed(page, Prune(page, s, present), present).notes.pins == Prune(page, s, present).notes.pins
  {
    PruneOnce(s.notes.pins, present);
  }

  lemma {:induction false} ReadonlyStands(page: Page, s: State, value: bool, present: set<Id>)
    ensures var t := SetReadonly(page, s, value, present);
            if value then t.notes.editor.None? else EditorStands(s, t)
  {
    var moded := s.(mode := Mode(value, s.mode.busy && !(s.mode.readonly && !value)));
    CloseFrames(page, moded, present);
    PruneStands(page, moded, present);
    PruneStands(page, Close(page, moded, present), present);
  }

  lemma {:induction false} SendAllStands(page: Page, s: State, present: set<Id>)
    ensures Sends(s) ==> SendAll(page, s, present).notes.editor.None?
    ensures !Sends(s) ==> SendAll(page, s, present) == s
  {
    CloseFrames(page, s, present);
    PruneStands(page, SetBusy(Close(page, s, present), true), present);
  }

  /** What the traced events say about the next one. */
  lemma {:induction false} MomentIsTold(page: Page, moments: seq<Moment>, s: State, m: Moment)
    requires Leads(page, Initial(), moments, s) && AllWellFormed(moments)
    requires Enabled(s, m) && WellFormed(m)
    ensures var t := Step(page, s, m);
            && t.notes.pins == Canvas(page, s, m) && t.mode == ModeAfter(s, m.event)
            && (t.notes.epoch > s.notes.epoch <==> Disturbs(page, s, m))
            && if Sending(page, s, m) then Publishes(page, s, t) else PublishesNothing(page, s, m, t)
  {
    RunKeepsSound(page, Initial(), moments, s);
    CanvasIsTold(page, s, m);
    ModeFollowsEvents(page, s, m);
    EpochMovesExactly(page, s, m);
    PublisherFollowsEvents(page, s, m);
  }
}
