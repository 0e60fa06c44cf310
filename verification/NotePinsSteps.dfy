/** What each handler of note-pins.ts does to the things the results speak of, handler by handler. `Moves`: the
    notes stand still, or the epoch moves on and the publisher is told; so equal epochs mean equal notes. `Inv`
    adds the publisher: what is in flight, what was acknowledged, and that a change is either unpublished or on
    its way. `Keeps`: a written note whose targets are on the canvas survives every handler but those that
    clear, settle or edit it. Each is carried over whole runs at the end of its part. */
module NotePinsSteps {
  import opened JsText
  import opened Options
  import opened NotePinsModel

  // The canvas never holds more than the allowed notes, and no pin twice.

  predicate Keyed(pins: seq<Pin>, keys: nat) {
    if pins == [] then true
    else
      var last := pins[|pins| - 1];
      var init := pins[..|pins| - 1];
      last.key < keys && !Has(init, last.key) && Keyed(init, keys)
  }

  predicate Orderly(notes: Notes) {
    |notes.pins| <= NOTES_MAX && Keyed(notes.pins, notes.keys)
  }

  lemma {:induction false} KeysAreDistinct(pins: seq<Pin>, keys: nat)
    requires Keyed(pins, keys)
    ensures forall i :: 0 <= i < |pins| ==> pins[i].key < keys
    ensures forall i, j :: 0 <= i < j < |pins| ==> pins[i].key != pins[j].key
  {
    if pins != [] {
      KeysAreDistinct(pins[..|pins| - 1], keys);
    }
  }

  lemma {:induction false} DistinctKeys(pins: seq<Pin>, keys: nat)
    requires forall i :: 0 <= i < |pins| ==> pins[i].key < keys
    requires forall i, j :: 0 <= i < j < |pins| ==> pins[i].key != pins[j].key
    ensures Keyed(pins, keys)
  {
    if pins != [] {
      DistinctKeys(pins[..|pins| - 1], keys);
    }
  }

  lemma {:induction false} Appended(pins: seq<Pin>, pin: Pin, keys: nat)
    requires Keyed(pins, keys) && pin.key < keys && !Has(pins, pin.key)
    ensures Keyed(pins + [pin], keys)
  {
    assert (pins + [pin])[..|pins|] == pins;
  }

  /** `few` holds no pin that `pins` does not. */
  predicate Fewer(few: seq<Pin>, pins: seq<Pin>) {
    |few| <= |pins| && forall i :: 0 <= i < |few| ==> Has(pins, few[i].key)
  }

  lemma {:induction false} FewerGrows(few: seq<Pin>, pins: seq<Pin>, pin: Pin)
    requires pins != [] && Fewer(few, pins[..|pins| - 1]) && pin.key == pins[|pins| - 1].key
    ensures Fewer(few, pins) && Fewer(few + [pin], pins)
  {
    var init := pins[..|pins| - 1];
    forall i | 0 <= i < |few|
      ensures Has(pins, few[i].key)
    {
      var j :| 0 <= j < |init| && init[j].key == few[i].key;
      assert pins[j].key == few[i].key;
    }
  }

  lemma {:induction false} PruneKeepsOrder(pins: seq<Pin>, present: set<Id>, keys: nat)
    requires Keyed(pins, keys)
    ensures Keyed(PrunePins(pins, present), keys) && Fewer(PrunePins(pins, present), pins)
  {
    if pins != [] {
      var init := pins[..|pins| - 1];
      var pruned := PrunePins(init, present);
      var last := PrunePin(pins[|pins| - 1], present);
      PruneKeepsOrder(init, present, keys);
      FewerGrows(pruned, pins, last);
      if last.elementIds == [] {
        assert PrunePins(pins, present) == pruned;
      } else {
        Appended(pruned, last, keys);
      }
    }
  }

  lemma {:induction false} WithoutKeepsOrder(pins: seq<Pin>, key: nat, keys: nat)
    requires Keyed(pins, keys)
    ensures Keyed(Without(pins, key), keys) && Fewer(Without(pins, key), pins)
    ensures !Has(Without(pins, key), key)
  {
    if pins != [] {
      var init := pins[..|pins| - 1];
      var kept := Without(init, key);
      var last := pins[|pins| - 1];
      WithoutKeepsOrder(init, key, keys);
      FewerGrows(kept, pins, last);
      if last.key == key {
        assert Without(pins, key) == kept;
      } else {
        Appended(kept, last, keys);
      }
    }
  }

  lemma {:induction false} ExtraKeepsOrder(pins: seq<Pin>, extra: seq<Pin>, keys: nat)
    requires Keyed(pins, keys)
    requires forall i :: 0 <= i < |extra| ==> extra[i].key == keys + i
    ensures Keyed(pins + extra, keys + |extra|)
  {
    KeysAreDistinct(pins, keys);
    var all := pins + extra;
    forall i | 0 <= i < |all|
      ensures all[i].key < keys + |extra| && (all[i].key < keys <==> i < |pins|)
      ensures i >= |pins| ==> all[i].key == keys + i - |pins|
    {
      assert i >= |pins| ==> all[i] == extra[i - |pins|];
    }
    DistinctKeys(all, keys + |extra|);
  }

  // What a handler may do to the notes: stand still, or move to a later epoch and tell the publisher.

  predicate Moves(page: Page, s: State, t: State) {
    && s.notes.epoch <= t.notes.epoch
    && (s.notes.epoch == t.notes.epoch ==> Sent(page, s.notes.pins) == Sent(page, t.notes.pins))
    && s.host == t.host && s.publisher.inFlight == t.publisher.inFlight
    && (s.publisher.unpublished || (page.publishes && s.notes.epoch < t.notes.epoch) ==> t.publisher.unpublished)
    && (Orderly(s.notes) ==> Orderly(t.notes))
  }

  lemma {:induction false} PruneMoves(page: Page, s: State, present: set<Id>)
    requires Orderly(s.notes)
    ensures Moves(page, s, Prune(page, s, present))
  {
    PruneKeepsOrder(s.notes.pins, present, s.notes.keys);
  }

  /** Whatever was done to the pins, `changed` makes it a later epoch. */
  lemma {:induction false} ChangedMoves(page: Page, s: State, t: State, present: set<Id>)
    requires Orderly(t.notes) && t.notes.epoch >= s.notes.epoch
    requires t.host == s.host && t.publisher.inFlight == s.publisher.inFlight
    requires s.publisher.unpublished ==> t.publisher.unpublished
    ensures Moves(page, s, Changed(page, t, present))
    ensures s.notes.epoch < Changed(page, t, present).notes.epoch
  {
    PruneMoves(page, NextEpoch(t), present);
  }

  lemma {:induction false} CloseMoves(page: Page, s: State, present: set<Id>)
    requires Orderly(s.notes)
    ensures Moves(page, s, Close(page, s, present))
  {
    if s.notes.editor.Some? {
      var key := s.notes.editor.value.key;
      var closed := SetEditor(s, None);
      WithoutKeepsOrder(s.notes.pins, key, s.notes.keys);
      ChangedMoves(page, s, SetPins(closed, Without(s.notes.pins, key)), present);
      PruneMoves(page, closed, present);
    }
  }

  lemma {:induction false} OpenMoves(page: Page, s: State, pin: Pin, present: set<Id>)
    requires Orderly(s.notes)
    ensures Moves(page, s, Open(page, s, pin, present))
  {
    CloseMoves(page, s, present);
    PruneMoves(page, SetEditor(Close(page, s, present), Some(Editor(pin.key, pin.text))), present);
  }

  lemma {:induction false} PlaceMoves(page: Page, s: State, pin: Pin, present: set<Id>)
    requires Orderly(s.notes) && |s.notes.pins| < NOTES_MAX && pin.key == s.notes.keys
    ensures Moves(page, s, Place(page, s, pin, present))
  {
    ExtraKeepsOrder(s.notes.pins, [pin], s.notes.keys);
    ChangedMoves(page, s, s.(notes := s.notes.(pins := s.notes.pins + [pin], keys := s.notes.keys + 1)), present);
  }

  lemma {:induction false} MergeMoves(page: Page, s: State, i: nat, text: string, present: set<Id>)
    requires Orderly(s.notes) && i < |s.notes.pins|
    ensures Moves(page, s, Changed(page, SetPins(s, s.notes.pins[i := s.notes.pins[i].(text := text)]), present))
  {
    var pins := s.notes.pins[i := s.notes.pins[i].(text := text)];
    KeysAreDistinct(s.notes.pins, s.notes.keys);
    DistinctKeys(pins, s.notes.keys);
    ChangedMoves(page, s, SetPins(s, pins), present);
  }

  lemma {:induction false} AddMoves(page: Page, s: State, ids: seq<Id>, text: string, point: Option<Target>,
                                    present: set<Id>)
    requires Orderly(s.notes)
    ensures Moves(page, s, Add(page, s, ids, text, point, present))
  {
    var pins := s.notes.pins;
    var pin := Pin(s.notes.keys, Distinct(ids), text, point, None);
    var i := if point.Some? then |pins| else FindSame(pins, pin);
    if i < |pins| {
      MergeMoves(page, s, i, Merge(pins[i].text, text), present);
      ChangedMoves(page, s, s, present);
      OpenMoves(page, Changed(page, s, present), pins[i], present);
    } else if |pins| >= NOTES_MAX {
      PruneMoves(page, s, present);
    } else {
      PlaceMoves(page, s, pin, present);
      PlaceAndOpenMoves(page, s, pin, present);
    }
  }

  /** A pin is placed and its editor opened. */
  lemma {:induction false} PlaceAndOpenMoves(page: Page, s: State, pin: Pin, present: set<Id>)
    requires Orderly(s.notes) && |s.notes.pins| < NOTES_MAX && pin.key == s.notes.keys
    ensures Moves(page, s, Open(page, Place(page, s, pin, present), pin, present))
  {
    var placed := Place(page, s, pin, present);
    PlaceMoves(page, s, pin, present);
    OpenMoves(page, placed, pin, present);
    MovesOn(page, s, placed, Open(page, placed, pin, present));
  }

  lemma {:induction false} MovesOn(page: Page, s: State, t: State, u: State)
    requires Moves(page, s, t) && Moves(page, t, u)
    ensures Moves(page, s, u)
  {
  }

  lemma {:induction false} AddRegionMoves(page: Page, s: State, id: Id, region: Region, present: set<Id>)
    requires Orderly(s.notes)
    ensures Moves(page, s, AddRegion(page, s, id, region, present))
  {
    if OtherImage(s.notes.pins, id) || |s.notes.pins| >= NOTES_MAX {
      PruneMoves(page, s, present);
    } else {
      PlaceAndOpenMoves(page, s, Pin(s.notes.keys, [id], "", None, Some(region)), present);
    }
  }

  lemma {:induction false} ClearMoves(page: Page, s: State, present: set<Id>)
    requires Orderly(s.notes)
    ensures Moves(page, s, Clear(page, s, present)) && Clear(page, s, present).notes.pins == []
  {
    CloseMoves(page, s, present);
    ChangedMoves(page, s, SetPins(Close(page, s, present), []), present);
  }

  /** A keystroke that leaves the trimmed text alone leaves the sent notes alone. */
  lemma {:induction false} SameTextSameNotes(page: Page, pins: seq<Pin>, editor: Editor, keys: nat, text: string)
    requires Keyed(pins, keys) && Trim(TextOf(pins, editor)) == Trim(text)
    ensures Sent(page, SetText(pins, editor.key, text)) == Sent(page, pins)
  {
    if pins != [] {
      var init := pins[..|pins| - 1];
      if pins[|pins| - 1].key == editor.key {
        UntouchedText(init, editor.key, text);
      } else {
        SameTextSameNotes(page, init, editor, keys, text);
      }
      assert SetText(pins, editor.key, text)[..|pins| - 1] == SetText(init, editor.key, text);
    }
  }

  lemma {:induction false} UntouchedText(pins: seq<Pin>, key: nat, text: string)
    requires !Has(pins, key)
    ensures SetText(pins, key, text) == pins
  {
    forall i | 0 <= i < |pins|
      ensures SetText(pins, key, text)[i] == pins[i]
    {
      assert pins[i].key != key;
    }
  }

  lemma {:induction false} SetTextKeepsOrder(pins: seq<Pin>, key: nat, text: string, keys: nat)
    requires Keyed(pins, keys)
    ensures Keyed(SetText(pins, key, text), keys)
  {
    KeysAreDistinct(pins, keys);
    DistinctKeys(SetText(pins, key, text), keys);
  }

  lemma {:induction false} TypeMoves(page: Page, s: State, text: string)
    requires Orderly(s.notes) && s.notes.editor.Some?
    ensures Moves(page, s, Type(page, s, text))
  {
    var editor := s.notes.editor.value;
    SetTextKeepsOrder(s.notes.pins, editor.key, text, s.notes.keys);
    if Trim(TextOf(s.notes.pins, editor)) == Trim(text) {
      SameTextSameNotes(page, s.notes.pins, editor, s.notes.keys, text);
    }
  }

  lemma {:induction false} GrownMoves(page: Page, s: State, extra: seq<Pin>, present: set<Id>)
    requires Orderly(s.notes) && |s.notes.pins| + |extra| <= NOTES_MAX
    requires forall i :: 0 <= i < |extra| ==> extra[i].key == s.notes.keys + i
    ensures var grown := s.(notes := s.notes.(pins := s.notes.pins + extra, keys := s.notes.keys + |extra|));
            Moves(page, s, Changed(page, Prune(page, grown, present), present))
  {
    var grown := s.(notes := s.notes.(pins := s.notes.pins + extra, keys := s.notes.keys + |extra|));
    ExtraKeepsOrder(s.notes.pins, extra, s.notes.keys);
    PruneMoves(page, grown, present);
    ChangedMoves(page, s, Prune(page, grown, present), present);
  }

  lemma {:induction false} RestoreMoves(page: Page, s: State, notes: seq<Note>, present: set<Id>)
    requires Orderly(s.notes)
    ensures Moves(page, s, Restore(page, s, notes, present))
  {
    GrownMoves(page, s, Extra(page, s, notes), present);
  }

  lemma {:induction false} SettleMoves(page: Page, s: State, expected: nat, sent: bool, instance: Option<string>,
                                       present: set<Id>)
    requires Orderly(s.notes)
    ensures Moves(page, s, Settle(page, s, expected, sent, instance, present))
  {
    ClearMoves(page, SetBusy(s, false), present);
    PruneMoves(page, SetBusy(s, false), present);
  }

  lemma {:induction false} SetReadonlyMoves(page: Page, s: State, value: bool, present: set<Id>)
    requires Orderly(s.notes)
    ensures Moves(page, s, SetReadonly(page, s, value, present))
  {
    var moded := s.(mode := Mode(value, s.mode.busy && !(s.mode.readonly && !value)));
    CloseMoves(page, moded, present);
    PruneMoves(page, if value then Close(page, moded, present) else moded, present);
  }

  // The publisher.

  predicate Ascending(batches: seq<Batch>) {
    forall i, j :: 0 <= i < j < |batches| ==> batches[i].epoch <= batches[j].epoch
  }

  /** The batch the host answered or will answer last. */
  function Latest(s: State): Batch
    requires s.host.acks != []
  {
    if s.publisher.inFlight.Some? then s.publisher.inFlight.value.batch else s.host.acks[|s.host.acks| - 1]
  }

  predicate Current(page: Page, s: State, batch: Batch) {
    batch == Batch(s.notes.epoch, Sent(page, s.notes.pins))
  }

  ghost predicate Inv(page: Page, s: State) {
    && Orderly(s.notes)
    && s.host.acks != [] && Ascending(s.host.acks) && Ascending(s.host.sends)
    && (forall b :: b in s.host.sends || b in s.host.acks ==> b.epoch <= s.notes.epoch)
    && (forall n :: n in s.host.outstanding ==>
          s.publisher.inFlight.Some? && s.publisher.inFlight.value == Flight(n, s.host.outstanding[n]))
    && (s.publisher.inFlight.Some? ==>
          && s.host.sends != []
          && s.publisher.inFlight.value == Flight(|s.host.sends| - 1, s.host.sends[|s.host.sends| - 1])
          && s.host.acks[|s.host.acks| - 1].epoch <= s.publisher.inFlight.value.batch.epoch)
    && (page.publishes && !s.publisher.unpublished ==> Current(page, s, Latest(s)))
    && (page.publishes && !s.publisher.unpublished
        && s.publisher.inFlight.Some? && s.publisher.inFlight.value.serial !in s.host.outstanding ==>
          s.host.acks[|s.host.acks| - 1] == s.publisher.inFlight.value.batch)
  }

  lemma {:induction false} MovingKeepsInv(page: Page, s: State, t: State)
    requires Inv(page, s) && Moves(page, s, t)
    ensures Inv(page, t)
  {
  }

  lemma {:induction false} FlushKeepsInv(page: Page, s: State, force: bool)
    requires Inv(page, s)
    ensures Inv(page, Flush(page, s, force))
  {
  }

  lemma {:induction false} StartKeepsInv(page: Page, s: State, force: bool)
    requires Inv(page, s)
    ensures Inv(page, StartFlush(page, s, force))
  {
    FlushKeepsInv(page, s.(publisher := s.publisher.(timer := false)), force);
  }

  /** `sendAll` up to its publish. */
  function Readied(page: Page, s: State, present: set<Id>): State {
    Prune(page, SetBusy(Close(page, s, present), true), present)
  }

  lemma {:induction false} ReadiedMoves(page: Page, s: State, present: set<Id>)
    requires Orderly(s.notes)
    ensures Moves(page, s, Readied(page, s, present))
  {
    CloseMoves(page, s, present);
    PruneMoves(page, SetBusy(Close(page, s, present), true), present);
  }

  lemma {:induction false} SendAllKeepsInv(page: Page, s: State, present: set<Id>)
    requires Inv(page, s)
    ensures Inv(page, SendAll(page, s, present)) && Later(page, s, SendAll(page, s, present))
  {
    if Sends(s) {
      ReadiedMoves(page, s, present);
      MovingKeepsInv(page, s, Readied(page, s, present));
      StartKeepsInv(page, Readied(page, s, present), true);
    }
  }

  lemma {:induction false} AnswerKeepsInv(page: Page, s: State, serial: nat, ok: bool)
    requires Inv(page, s) && serial in s.host.outstanding
    ensures Inv(page, Answer(s, serial, ok))
  {
    var t := Answer(s, serial, ok);
    assert forall n :: n in t.host.outstanding ==> false;
  }

  lemma {:induction false} LandKeepsInv(page: Page, s: State, serial: nat)
    requires Inv(page, s) && serial !in s.host.outstanding
    ensures Inv(page, Land(s, serial))
  {
    if s.publisher.inFlight.Some? && s.publisher.inFlight.value.serial == serial {
      assert forall n :: n in s.host.outstanding ==> n == serial;
    }
  }

  /** Time goes forward, and equal epochs mean equal notes. */
  predicate Later(page: Page, s: State, t: State) {
    && s.notes.epoch <= t.notes.epoch
    && (s.notes.epoch == t.notes.epoch ==> Sent(page, s.notes.pins) == Sent(page, t.notes.pins))
  }

  predicate Publishing(e: Event) {
    e.SentAll? || e.FlushStarted? || e.FlushResumed? || e.Answered? || e.Landed?
  }

  lemma {:induction false} HandlerMoves(page: Page, s: State, m: Moment)
    requires Orderly(s.notes) && Enabled(s, m) && !Publishing(m.event)
    ensures Moves(page, s, Step(page, s, m))
  {
    match m.event {
      case Added(ids, text, point) => AddMoves(page, s, ids, text, point, m.present);
      case RegionAdded(id, region) => AddRegionMoves(page, s, id, region, m.present);
      case Cleared => ClearMoves(page, s, m.present);
      case Typed(text) => TypeMoves(page, s, text);
      case Closed => CloseMoves(page, s, m.present);
      case Opened(i) => OpenMoves(page, s, s.notes.pins[i], m.present);
      case Rendered => PruneMoves(page, s, m.present);
      case Restored(notes) => RestoreMoves(page, s, notes, m.present);
      case Settled(expected, sent, instance) => SettleMoves(page, s, expected, sent, instance, m.present);
      case ReadonlySet(value) => SetReadonlyMoves(page, s, value, m.present);
      case RequestFailed => PruneMoves(page, SetBusy(s, false), m.present);
    }
  }

  lemma {:induction false} PublishingKeepsInv(page: Page, s: State, m: Moment)
    requires Inv(page, s) && Enabled(s, m) && Publishing(m.event)
    ensures Inv(page, Step(page, s, m)) && Later(page, s, Step(page, s, m))
  {
    match m.event {
      case SentAll => SendAllKeepsInv(page, s, m.present);
      case FlushStarted => StartKeepsInv(page, s, false);
      case FlushResumed(force) => FlushKeepsInv(page, s, force);
      case Answered(serial, ok) => AnswerKeepsInv(page, s, serial, ok);
      case Landed(serial) => LandKeepsInv(page, s, serial);
    }
  }

  lemma {:induction false} StepKeepsInv(page: Page, s: State, m: Moment)
    requires Inv(page, s) && Enabled(s, m)
    ensures Inv(page, Step(page, s, m)) && Later(page, s, Step(page, s, m))
  {
    if Publishing(m.event) {
      PublishingKeepsInv(page, s, m);
    } else {
      HandlerMoves(page, s, m);
      MovingKeepsInv(page, s, Step(page, s, m));
    }
  }

  lemma {:induction false} RunKeepsInv(page: Page, s: State, moments: seq<Moment>, t: State)
    requires Inv(page, s) && Leads(page, s, moments, t)
    ensures Inv(page, t) && Later(page, s, t)
    decreases |moments|
  {
    if moments != [] {
      StepKeepsInv(page, s, moments[0]);
      RunKeepsInv(page, Step(page, s, moments[0]), moments[1..], t);
    }
  }

  lemma {:induction false} LeadsSnoc(page: Page, s: State, moments: seq<Moment>, t: State, m: Moment)
    requires Leads(page, s, moments, t) && Enabled(t, m)
    ensures Leads(page, s, moments + [m], Step(page, t, m))
    decreases |moments|
  {
    if moments == [] {
      assert [m][1..] == [];
    } else {
      assert (moments + [m])[1..] == moments[1..] + [m];
      LeadsSnoc(page, Step(page, s, moments[0]), moments[1..], t, m);
    }
  }

  lemma {:induction false} ReachableInv(page: Page, s: State)
    requires Reachable(page, s)
    ensures Inv(page, s)
  {
    var moments: seq<Moment> :| Leads(page, Initial(), moments, s);
    assert Inv(page, Initial());
    RunKeepsInv(page, Initial(), moments, s);
  }

  // A written note that is not settled stays.

  /** What is to stay of a written note: its pin, its targets, and how its trimmed text begins. */
  datatype Standing = Standing(key: nat, ids: seq<Id>, start: string)

  predicate Stands(pin: Pin, n: Standing) {
    pin.key == n.key && pin.elementIds == n.ids && !Blank(pin.text) && n.start <= Trim(pin.text)
  }

  ghost predicate Written(pins: seq<Pin>, n: Standing) {
    exists i :: 0 <= i < |pins| && Stands(pins[i], n)
  }

  /** What is merged behind a written text leaves the text where it is. */
  lemma {:induction false} MergeIsWritten(held: string, text: string)
    requires !Blank(held)
    ensures !Blank(Merge(held, text)) && Trim(held) <= Trim(Merge(held, text))
  {
    var i, j := TrimSplits(held);
    TrimKeepsBeginning(Trim(held), "\n" + text);
    assert Trim(held) + ("\n" + text) == Trim(held) + "\n" + text;
  }

  lemma {:induction false} AllPresent(ids: seq<Id>, present: set<Id>)
    requires forall id :: id in ids ==> id in present
    ensures Present(ids, present) == ids
  {
    if ids != [] {
      var init := ids[..|ids| - 1];
      assert forall id :: id in init ==> id in ids;
      AllPresent(init, present);
      assert ids[|ids| - 1] in ids;
    }
  }

  lemma {:induction false} WrittenAtLast(pins: seq<Pin>, last: Pin, n: Standing)
    ensures Written(pins + [last], n)
            <==> Written(pins, n) || Stands(last, n)
  {
    var all := pins + [last];
    if Written(pins, n) {
      var i :| 0 <= i < |pins| && Stands(pins[i], n);
      assert all[i] == pins[i];
    }
    assert all[|pins|] == last;
  }

  lemma {:induction false} PrunedStaysWritten(pins: seq<Pin>, present: set<Id>, n: Standing)
    requires Written(pins, n) && OnCanvas(n.ids, present)
    ensures Written(PrunePins(pins, present), n)
  {
    var init, last := pins[..|pins| - 1], pins[|pins| - 1];
    var pruned := PrunePin(last, present);
    assert pins == init + [last];
    WrittenAtLast(init, last, n);
    if Written(init, n) {
      PrunedStaysWritten(init, present, n);
    } else {
      AllPresent(n.ids, present);
    }
    WrittenAtLast(PrunePins(init, present), pruned, n);
    assert pruned.elementIds == [] ==> PrunePins(pins, present) == PrunePins(init, present);
  }

  lemma {:induction false} WithoutStaysWritten(pins: seq<Pin>, other: nat, n: Standing)
    requires Written(pins, n) && other != n.key
    ensures Written(Without(pins, other), n)
  {
    var init, last := pins[..|pins| - 1], pins[|pins| - 1];
    assert pins == init + [last];
    WrittenAtLast(init, last, n);
    if Written(init, n) {
      WithoutStaysWritten(init, other, n);
    }
    WrittenAtLast(Without(init, other), last, n);
    assert last.key == other ==> Without(pins, other) == Without(init, other);
  }

  /** The editor of a written pin shows its text. */
  lemma {:induction false} EditorShowsText(pins: seq<Pin>, editor: Editor, n: Standing, keys: nat)
    requires Keyed(pins, keys) && Written(pins, n) && editor.key == n.key
    ensures !Blank(TextOf(pins, editor))
  {
    var init, last := pins[..|pins| - 1], pins[|pins| - 1];
    var i :| 0 <= i < |pins| && Stands(pins[i], n);
    if i < |init| {
      assert init[i] == pins[i];
      assert Has(init, editor.key);
      EditorShowsText(init, editor, n, keys);
    }
  }

  /** What a handler keeps, if the pin's targets are on the canvas. */
  ghost predicate Keeps(s: State, t: State, n: Standing) {
    Orderly(t.notes) && (Written(s.notes.pins, n) ==> Written(t.notes.pins, n))
  }

  ghost predicate OnCanvas(ids: seq<Id>, present: set<Id>) {
    ids != [] && forall id :: id in ids ==> id in present
  }

  lemma {:induction false} PruneKeeps(page: Page, s: State, present: set<Id>, n: Standing)
    requires Orderly(s.notes) && OnCanvas(n.ids, present)
    ensures Keeps(s, Prune(page, s, present), n)
  {
    PruneMoves(page, s, present);
    if Written(s.notes.pins, n) {
      PrunedStaysWritten(s.notes.pins, present, n);
    }
  }

  lemma {:induction false} ChangedKeeps(page: Page, s: State, present: set<Id>, n: Standing)
    requires Orderly(s.notes) && OnCanvas(n.ids, present)
    ensures Keeps(s, Changed(page, s, present), n)
  {
    PruneKeeps(page, NextEpoch(s), present, n);
  }

  lemma {:induction false} CloseKeeps(page: Page, s: State, present: set<Id>, n: Standing)
    requires Orderly(s.notes) && OnCanvas(n.ids, present)
    ensures Keeps(s, Close(page, s, present), n)
  {
    if s.notes.editor.Some? {
      var editor := s.notes.editor.value;
      var closed := SetEditor(s, None);
      WithoutKeepsOrder(s.notes.pins, editor.key, s.notes.keys);
      ChangedKeeps(page, SetPins(closed, Without(s.notes.pins, editor.key)), present, n);
      PruneKeeps(page, closed, present, n);
      if Written(s.notes.pins, n) {
        if editor.key == n.key {
          EditorShowsText(s.notes.pins, editor, n, s.notes.keys);
        } else {
          WithoutStaysWritten(s.notes.pins, editor.key, n);
        }
      }
    }
  }

  lemma {:induction false} OpenKeeps(page: Page, s: State, pin: Pin, present: set<Id>, n: Standing)
    requires Orderly(s.notes) && OnCanvas(n.ids, present)
    ensures Keeps(s, Open(page, s, pin, present), n)
  {
    CloseKeeps(page, s, present, n);
    PruneKeeps(page, SetEditor(Close(page, s, present), Some(Editor(pin.key, pin.text))), present, n);
  }

  lemma {:induction false} MoreStaysWritten(pins: seq<Pin>, extra: seq<Pin>, n: Standing)
    requires Written(pins, n)
    ensures Written(pins + extra, n)
  {
    var i :| 0 <= i < |pins| && Stands(pins[i], n);
    assert (pins + extra)[i] == pins[i];
  }

  function Grown(s: State, extra: seq<Pin>): State {
    s.(notes := s.notes.(pins := s.notes.pins + extra, keys := s.notes.keys + |extra|))
  }

  lemma {:induction false} ExtraKeeps(s: State, extra: seq<Pin>, n: Standing)
    requires Orderly(s.notes) && |s.notes.pins| + |extra| <= NOTES_MAX
    requires forall i :: 0 <= i < |extra| ==> extra[i].key == s.notes.keys + i
    ensures Keeps(s, Grown(s, extra), n)
  {
    ExtraKeepsOrder(s.notes.pins, extra, s.notes.keys);
    if Written(s.notes.pins, n) {
      MoreStaysWritten(s.notes.pins, extra, n);
    }
  }

  lemma {:induction false} PlaceKeeps(page: Page, s: State, pin: Pin, present: set<Id>, n: Standing)
    requires Orderly(s.notes) && |s.notes.pins| < NOTES_MAX && pin.key == s.notes.keys && OnCanvas(n.ids, present)
    ensures Keeps(s, Place(page, s, pin, present), n)
  {
    ExtraKeeps(s, [pin], n);
    ChangedKeeps(page, Grown(s, [pin]), present, n);
  }

  lemma {:induction false} MergedKeeps(page: Page, s: State, i: nat, text: string, present: set<Id>, n: Standing)
    requires Orderly(s.notes) && i < |s.notes.pins| && OnCanvas(n.ids, present)
    ensures Keeps(s, Changed(page, SetPins(s, Merged(s.notes.pins, i, text)), present), n)
  {
    var pins := Merged(s.notes.pins, i, text);
    KeysAreDistinct(s.notes.pins, s.notes.keys);
    DistinctKeys(pins, s.notes.keys);
    if Written(s.notes.pins, n) {
      var k :| 0 <= k < |s.notes.pins| && Stands(s.notes.pins[k], n);
      if k == i {
        MergeIsWritten(s.notes.pins[i].text, text);
      }
      assert Stands(pins[k], n);
    }
    ChangedKeeps(page, SetPins(s, pins), present, n);
  }

  lemma {:induction false} AddKeeps(page: Page, s: State, added: seq<Id>, text: string, point: Option<Target>,
                                    present: set<Id>, n: Standing)
    requires Orderly(s.notes) && OnCanvas(n.ids, present)
    ensures Keeps(s, Add(page, s, added, text, point, present), n)
  {
    var pins := s.notes.pins;
    var pin := Pin(s.notes.keys, Distinct(added), text, point, None);
    var i := if point.Some? then |pins| else FindSame(pins, pin);
    if i < |pins| {
      MergedKeeps(page, s, i, text, present, n);
      ChangedKeeps(page, s, present, n);
      OpenKeeps(page, Changed(page, s, present), pins[i], present, n);
    } else if |pins| >= NOTES_MAX {
      PruneKeeps(page, s, present, n);
    } else {
      PlaceKeeps(page, s, pin, present, n);
      OpenKeeps(page, Place(page, s, pin, present), pin, present, n);
    }
  }

  lemma {:induction false} AddRegionKeeps(page: Page, s: State, id: Id, region: Region, present: set<Id>,
                                          n: Standing)
    requires Orderly(s.notes) && OnCanvas(n.ids, present)
    ensures Keeps(s, AddRegion(page, s, id, region, present), n)
  {
    PruneKeeps(page, s, present, n);
    if |s.notes.pins| < NOTES_MAX {
      var pin := Pin(s.notes.keys, [id], "", None, Some(region));
      PlaceKeeps(page, s, pin, present, n);
      OpenKeeps(page, Place(page, s, pin, present), pin, present, n);
    }
  }

  lemma {:induction false} TypeKeeps(page: Page, s: State, text: string, n: Standing)
    requires Orderly(s.notes) && s.notes.editor.Some? && s.notes.editor.value.key != n.key
    ensures Keeps(s, Type(page, s, text), n)
  {
    var pins, edited := s.notes.pins, s.notes.editor.value.key;
    TypeMoves(page, s, text);
    if Written(pins, n) {
      var i :| 0 <= i < |pins| && Stands(pins[i], n);
      assert SetText(pins, edited, text)[i] == pins[i];
    }
  }

  lemma {:induction false} GrownKeeps(page: Page, s: State, grown: State, present: set<Id>, n: Standing)
    requires Keeps(s, grown, n) && OnCanvas(n.ids, present)
    ensures Keeps(s, Changed(page, Prune(page, grown, present), present), n)
  {
    PruneKeeps(page, grown, present, n);
    ChangedKeeps(page, Prune(page, grown, present), present, n);
  }

  lemma {:induction false} RestoreKeeps(page: Page, s: State, notes: seq<Note>, present: set<Id>, n: Standing)
    requires Orderly(s.notes) && OnCanvas(n.ids, present)
    ensures Keeps(s, Restore(page, s, notes, present), n)
  {
    var extra := Extra(page, s, notes);
    ExtraKeeps(s, extra, n);
    GrownKeeps(page, s, Grown(s, extra), present, n);
  }

  /** The event neither clears the canvas, nor settles the draft, nor types into the pin's editor, and
      the pin's targets are on the canvas. A settlement that is refused is no such event. */
  ghost predicate Spares(page: Page, s: State, m: Moment, n: Standing) {
    && OnCanvas(n.ids, m.present) && !m.event.Cleared?
    && (m.event.Typed? ==> s.notes.editor.Some? ==> s.notes.editor.value.key != n.key)
    && (m.event.Settled? ==> !Settles(page, s, m.event.expected, m.event.sent, m.event.instance))
  }

  ghost predicate AllSpare(page: Page, s: State, moments: seq<Moment>, n: Standing)
    decreases |moments|
  {
    moments != [] && Enabled(s, moments[0]) ==>
      Spares(page, s, moments[0], n) && AllSpare(page, Step(page, s, moments[0]), moments[1..], n)
  }

  lemma {:induction false} StepKeepsWritten(page: Page, s: State, m: Moment, n: Standing)
    requires Orderly(s.notes) && Enabled(s, m) && Spares(page, s, m, n)
    ensures Keeps(s, Step(page, s, m), n)
  {
    match m.event {
      case Added(added, text, point) => AddKeeps(page, s, added, text, point, m.present, n);
      case RegionAdded(id, region) => AddRegionKeeps(page, s, id, region, m.present, n);
      case Typed(text) => TypeKeeps(page, s, text, n);
      case Closed => CloseKeeps(page, s, m.present, n);
      case Opened(i) => OpenKeeps(page, s, s.notes.pins[i], m.present, n);
      case Rendered => PruneKeeps(page, s, m.present, n);
      case Restored(notes) => RestoreKeeps(page, s, notes, m.present, n);
      case Settled(_, _, _) => PruneKeeps(page, SetBusy(s, false), m.present, n);
      case ReadonlySet(value) => SetReadonlyKeeps(page, s, value, m.present, n);
      case SentAll => SendAllKeeps(page, s, m.present, n);
      case RequestFailed => PruneKeeps(page, SetBusy(s, false), m.present, n);
      case _ =>
    }
  }

  lemma {:induction false} SetReadonlyKeeps(page: Page, s: State, value: bool, present: set<Id>, n: Standing)
    requires Orderly(s.notes) && OnCanvas(n.ids, present)
    ensures Keeps(s, SetReadonly(page, s, value, present), n)
  {
    var moded := s.(mode := Mode(value, s.mode.busy && !(s.mode.readonly && !value)));
    CloseKeeps(page, moded, present, n);
    PruneKeeps(page, if value then Close(page, moded, present) else moded, present, n);
  }

  lemma {:induction false} SendAllKeeps(page: Page, s: State, present: set<Id>, n: Standing)
    requires Orderly(s.notes) && OnCanvas(n.ids, present)
    ensures Keeps(s, SendAll(page, s, present), n)
  {
    if Sends(s) {
      CloseKeeps(page, s, present, n);
      PruneKeeps(page, SetBusy(Close(page, s, present), true), present, n);
    }
  }

  lemma {:induction false} RunKeepsWritten(page: Page, s: State, moments: seq<Moment>, t: State, n: Standing)
    requires Orderly(s.notes) && Leads(page, s, moments, t) && AllSpare(page, s, moments, n)
    ensures Keeps(s, t, n)
    decreases |moments|
  {
    if moments != [] {
      StepKeepsWritten(page, s, moments[0], n);
      RunKeepsWritten(page, Step(page, s, moments[0]), moments[1..], t, n);
    }
  }

  predicate Carries(note: Note, n: Standing) {
    note.elementIds == n.ids && n.start <= note.prompt && note.prompt != ""
  }

  lemma {:induction false} WrittenIsSent(page: Page, pins: seq<Pin>, n: Standing)
    requires Written(pins, n)
    ensures exists note :: note in Sent(page, pins) && Carries(note, n)
  {
    var init, last := pins[..|pins| - 1], pins[|pins| - 1];
    assert pins == init + [last];
    WrittenAtLast(init, last, n);
    if Written(init, n) {
      WrittenIsSent(page, init, n);
      var note :| note in Sent(page, init) && Carries(note, n);
      assert note in Sent(page, pins);
    } else {
      assert ToNote(page, last) in Sent(page, pins);
    }
  }
}
