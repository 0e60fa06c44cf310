/** packages/design-bento/src/note-pins.ts without its drawing: what every handler does to the notes,
    to their epoch and to the publisher. `present` is the set of elements on the canvas when the
    handler runs. */
module NotePinsModel {
  import opened JsText
  import opened Options

  /** DESIGN_NOTES_MAX of packages/shared/src/design-selection-commands.ts. */
  const NOTES_MAX := 10

  type Id = string
  type Point = (real, real)
  datatype Region = Box(from: Point, to: Point) | Stroke(points: seq<Point>)
  datatype Target = Target(elementId: Id, at: Point)

  /** What main receives for one pin. */
  datatype Note = Note(elementIds: seq<Id>, prompt: string, point: Option<Target>, region: Option<Region>)

  /** A pin on the canvas; `key` is its object identity. */
  datatype Pin = Pin(key: nat, elementIds: seq<Id>, text: string, point: Option<Target>, region: Option<Region>)

  /** The open editor. `text` is its pin's text once the pin has left the canvas. */
  datatype Editor = Editor(key: nat, text: string)

  datatype Notes = Notes(pins: seq<Pin>, editor: Option<Editor>, epoch: nat, keys: nat)
  datatype Mode = Mode(readonly: bool, busy: bool)

  /** The notes of one epoch, as handed to the host. */
  datatype Batch = Batch(epoch: nat, notes: seq<Note>)
  datatype Flight = Flight(serial: nat, batch: Batch)
  datatype Publisher = Publisher(unpublished: bool, timer: bool, inFlight: Option<Flight>)

  /** The other end: batches sent in order, those not answered yet, and those acknowledged. */
  datatype Host = Host(sends: seq<Batch>, outstanding: map<nat, Batch>, acks: seq<Batch>)

  datatype State = State(notes: Notes, mode: Mode, publisher: Publisher, host: Host)

  /** The page: its identity, whether a publisher is configured, and how coordinates are rounded. */
  datatype Page = Page(instance: string, publishes: bool, round: Point -> Point)

  // Targets and notes.

  function Distinct(ids: seq<Id>): seq<Id> {
    if ids == [] then []
    else
      var rest := Distinct(ids[..|ids| - 1]);
      if ids[|ids| - 1] in rest then rest else rest + [ids[|ids| - 1]]
  }

  predicate SameTargets(a: Pin, b: Pin) {
    |a.elementIds| == |b.elementIds| && forall i :: 0 <= i < |a.elementIds| ==> a.elementIds[i] in b.elementIds
  }

  /** The first plain pin on the same targets, or the number of pins. */
  function FindSame(pins: seq<Pin>, pin: Pin): (i: nat)
    ensures i <= |pins|
    ensures i < |pins| ==> pins[i].point.None? && pins[i].region.None? && SameTargets(pins[i], pin)
    ensures forall j :: 0 <= j < i ==> !(pins[j].point.None? && pins[j].region.None? && SameTargets(pins[j], pin))
  {
    if pins == [] then 0
    else
      var i := FindSame(pins[..|pins| - 1], pin);
      var last := pins[|pins| - 1];
      if i < |pins| - 1 then i
      else if last.point.None? && last.region.None? && SameTargets(last, pin) then |pins| - 1
      else |pins|
  }

  function RoundRegion(page: Page, region: Region): Region {
    match region
    case Box(from, to) => Box(page.round(from), page.round(to))
    case Stroke(points) => Stroke(seq(|points|, i requires 0 <= i < |points| => page.round(points[i])))
  }

  function ToNote(page: Page, pin: Pin): Note {
    Note(pin.elementIds, Trim(pin.text),
         if pin.point.None? then None else Some(Target(pin.point.value.elementId, page.round(pin.point.value.at))),
         if pin.region.None? then None else Some(RoundRegion(page, pin.region.value)))
  }

  /** The notes that count: those of the pins with text. */
  function Sent(page: Page, pins: seq<Pin>): seq<Note> {
    if pins == [] then []
    else
      var last := pins[|pins| - 1];
      Sent(page, pins[..|pins| - 1]) + if Blank(last.text) then [] else [ToNote(page, last)]
  }

  predicate Has(pins: seq<Pin>, key: nat) {
    exists i :: 0 <= i < |pins| && pins[i].key == key
  }

  function TextOf(pins: seq<Pin>, editor: Editor): string {
    if pins == [] then editor.text
    else if pins[|pins| - 1].key == editor.key then pins[|pins| - 1].text
    else TextOf(pins[..|pins| - 1], editor)
  }

  function SetText(pins: seq<Pin>, key: nat, text: string): (r: seq<Pin>)
    ensures |r| == |pins|
    ensures forall i :: 0 <= i < |pins| ==> r[i] == if pins[i].key == key then pins[i].(text := text) else pins[i]
  {
    if pins == [] then []
    else
      var last := pins[|pins| - 1];
      SetText(pins[..|pins| - 1], key, text) + [if last.key == key then last.(text := text) else last]
  }

  function Without(pins: seq<Pin>, key: nat): seq<Pin> {
    if pins == [] then []
    else
      var last := pins[|pins| - 1];
      Without(pins[..|pins| - 1], key) + if last.key == key then [] else [last]
  }

  // Pruning.

  predicate Stale(pin: Pin, present: set<Id>) {
    (exists i :: 0 <= i < |pin.elementIds| && pin.elementIds[i] !in present)
    || (pin.point.Some? && pin.point.value.elementId !in present)
  }

  function Present(ids: seq<Id>, present: set<Id>): seq<Id> {
    if ids == [] then []
    else
      var last := ids[|ids| - 1];
      Present(ids[..|ids| - 1], present) + if last in present then [last] else []
  }

  function PrunePin(pin: Pin, present: set<Id>): Pin {
    pin.(elementIds := Present(pin.elementIds, present),
         point := if pin.point.Some? && pin.point.value.elementId !in present then None else pin.point)
  }

  /** Every pin loses its absent targets; pins left without a target are dropped. */
  function PrunePins(pins: seq<Pin>, present: set<Id>): seq<Pin> {
    if pins == [] then []
    else
      var last := PrunePin(pins[|pins| - 1], present);
      PrunePins(pins[..|pins| - 1], present) + if last.elementIds == [] then [] else [last]
  }

  predicate AnyStale(pins: seq<Pin>, present: set<Id>) {
    exists i :: 0 <= i < |pins| && Stale(pins[i], present)
  }

  // Steps shared by the handlers.

  function Schedule(page: Page, s: State): State {
    if page.publishes then s.(publisher := s.publisher.(unpublished := true, timer := true)) else s
  }

  function NextEpoch(s: State): State {
    s.(notes := s.notes.(epoch := s.notes.epoch + 1))
  }

  function PrunedNotes(notes: Notes, present: set<Id>): Notes {
    var pins := PrunePins(notes.pins, present);
    notes.(pins := pins,
           editor := if notes.editor.Some? && !Has(pins, notes.editor.value.key) then None else notes.editor)
  }

  /** `prune`; also all that `render` does to the state. */
  function Prune(page: Page, s: State, present: set<Id>): State {
    if !AnyStale(s.notes.pins, present) then s
    else Schedule(page, NextEpoch(s.(notes := PrunedNotes(s.notes, present))))
  }

  function Changed(page: Page, s: State, present: set<Id>): State {
    Schedule(page, Prune(page, NextEpoch(s), present))
  }

  function SetPins(s: State, pins: seq<Pin>): State {
    s.(notes := s.notes.(pins := pins))
  }

  function SetEditor(s: State, editor: Option<Editor>): State {
    s.(notes := s.notes.(editor := editor))
  }

  /** A written note stays, an empty one goes. */
  function Close(page: Page, s: State, present: set<Id>): State {
    if s.notes.editor.None? then s
    else
      var editor := s.notes.editor.value;
      var closed := SetEditor(s, None);
      if Blank(TextOf(s.notes.pins, editor)) && Has(s.notes.pins, editor.key)
      then Changed(page, SetPins(closed, Without(s.notes.pins, editor.key)), present)
      else Prune(page, closed, present)
  }

  function Open(page: Page, s: State, pin: Pin, present: set<Id>): State {
    if s.notes.editor.Some? && s.notes.editor.value.key == pin.key then s
    else Prune(page, SetEditor(Close(page, s, present), Some(Editor(pin.key, pin.text))), present)
  }

  function Merge(held: string, text: string): string {
    if Blank(held) then text else Trim(held) + "\n" + text
  }

  function Merged(pins: seq<Pin>, i: nat, text: string): seq<Pin>
    requires i < |pins|
  {
    pins[i := pins[i].(text := Merge(pins[i].text, text))]
  }

  function Place(page: Page, s: State, pin: Pin, present: set<Id>): State {
    Changed(page, s.(notes := s.notes.(pins := s.notes.pins + [pin], keys := s.notes.keys + 1)), present)
  }

  function Add(page: Page, s: State, ids: seq<Id>, text: string, point: Option<Target>, present: set<Id>): State {
    if s.mode.readonly || s.mode.busy || ids == [] then s
    else
      var pins := s.notes.pins;
      var pin := Pin(s.notes.keys, Distinct(ids), text, point, None);
      var i := if point.Some? then |pins| else FindSame(pins, pin);
      if i < |pins| then
        if Blank(text) then Open(page, Changed(page, s, present), pins[i], present)
        else Changed(page, SetPins(s, Merged(pins, i, text)), present)
      else if |pins| >= NOTES_MAX then Prune(page, s, present)
      else if Blank(text) then Open(page, Place(page, s, pin, present), pin, present)
      else Place(page, s, pin, present)
  }

  predicate OtherImage(pins: seq<Pin>, id: Id) {
    exists i :: 0 <= i < |pins| && pins[i].region.Some? && (pins[i].elementIds == [] || pins[i].elementIds[0] != id)
  }

  function AddRegion(page: Page, s: State, id: Id, region: Region, present: set<Id>): State {
    var pin := Pin(s.notes.keys, [id], "", None, Some(region));
    if s.mode.readonly || s.mode.busy then s
    else if OtherImage(s.notes.pins, id) || |s.notes.pins| >= NOTES_MAX then Prune(page, s, present)
    else Open(page, Place(page, s, pin, present), pin, present)
  }

  function Clear(page: Page, s: State, present: set<Id>): State {
    Changed(page, SetPins(Close(page, s, present), []), present)
  }

  /** The editor's input handler. */
  function Type(page: Page, s: State, text: string): State
    requires s.notes.editor.Some?
  {
    var editor := s.notes.editor.value;
    var moved := if Trim(TextOf(s.notes.pins, editor)) != Trim(text) then Schedule(page, NextEpoch(s)) else s;
    if Has(s.notes.pins, editor.key) then SetPins(moved, SetText(s.notes.pins, editor.key, text))
    else SetEditor(moved, Some(editor.(text := text)))
  }

  function Held(page: Page, pins: seq<Pin>): set<Note> {
    set i | 0 <= i < |pins| :: ToNote(page, pins[i])
  }

  function Incoming(note: Note, key: nat): Pin {
    Pin(key, Distinct(note.elementIds), note.prompt, note.point, note.region)
  }

  /** The given notes that the canvas does not hold yet, at most `room` of them. */
  function Fresh(page: Page, notes: seq<Note>, held: set<Note>, room: nat, key: nat): (r: seq<Pin>)
    ensures |r| <= room
    ensures forall i :: 0 <= i < |r| ==> r[i].key == key + i
  {
    if notes == [] || room == 0 then []
    else
      var pin := Incoming(notes[0], key);
      if ToNote(page, pin) in held then Fresh(page, notes[1..], held, room, key)
      else [pin] + Fresh(page, notes[1..], held, room - 1, key + 1)
  }

  /** The pins `restore` adds: those the canvas does not hold and still has room for. */
  function Extra(page: Page, s: State, notes: seq<Note>): (r: seq<Pin>)
    ensures |s.notes.pins| <= NOTES_MAX ==> |s.notes.pins| + |r| <= NOTES_MAX
    ensures forall i :: 0 <= i < |r| ==> r[i].key == s.notes.keys + i
  {
    var pins := s.notes.pins;
    Fresh(page, notes, Held(page, pins), if |pins| <= NOTES_MAX then NOTES_MAX - |pins| else 0, s.notes.keys)
  }

  function Grow(page: Page, s: State, extra: seq<Pin>, present: set<Id>): State {
    if extra == [] then s
    else
      var grown := s.(notes := s.notes.(pins := s.notes.pins + extra, keys := s.notes.keys + |extra|));
      Changed(page, Prune(page, grown, present), present)
  }

  function Restore(page: Page, s: State, notes: seq<Note>, present: set<Id>): State {
    Grow(page, s, Extra(page, s, notes), present)
  }

  function SetBusy(s: State, busy: bool): State {
    s.(mode := s.mode.(busy := busy))
  }

  predicate OwnInstance(page: Page, instance: Option<string>) {
    instance.None? || instance.value == "" || instance.value == page.instance
  }

  /** The draft is settled: it was sent, from this page, and nothing changed since. */
  predicate Settles(page: Page, s: State, expected: nat, sent: bool, instance: Option<string>) {
    OwnInstance(page, instance) && sent && expected == s.notes.epoch
  }

  function Settle(page: Page, s: State, expected: nat, sent: bool, instance: Option<string>, present: set<Id>): State {
    if Settles(page, s, expected, sent, instance) then Clear(page, SetBusy(s, false), present)
    else Schedule(page, Prune(page, SetBusy(s, false), present))
  }

  function SetReadonly(page: Page, s: State, value: bool, present: set<Id>): State {
    var mode := Mode(value, s.mode.busy && !(s.mode.readonly && !value));
    var moded := s.(mode := mode);
    Prune(page, if value then Close(page, moded, present) else moded, present)
  }

  /** `flush` once no publish is in flight: from its start, or resumed after waiting. */
  function Flush(page: Page, s: State, force: bool): State {
    if s.publisher.inFlight.Some? || !page.publishes || !s.publisher.unpublished || (s.mode.busy && !force) then s
    else
      var batch := Batch(s.notes.epoch, Sent(page, s.notes.pins));
      var serial := |s.host.sends|;
      s.(publisher := s.publisher.(unpublished := false, inFlight := Some(Flight(serial, batch))),
         host := s.host.(sends := s.host.sends + [batch], outstanding := s.host.outstanding[serial := batch]))
  }

  function StartFlush(page: Page, s: State, force: bool): State {
    Flush(page, s.(publisher := s.publisher.(timer := false)), force)
  }

  predicate Sends(s: State) {
    !s.mode.readonly && !s.mode.busy && s.notes.pins != []
  }

  function SendAll(page: Page, s: State, present: set<Id>): State {
    if !Sends(s) then s
    else StartFlush(page, Prune(page, SetBusy(Close(page, s, present), true), present), true)
  }

  /** The host answers a publish: it took the batch, or the call failed. */
  function Answer(s: State, serial: nat, ok: bool): State
    requires serial in s.host.outstanding
  {
    var host := s.host.(outstanding := s.host.outstanding - {serial});
    if ok then s.(host := host.(acks := s.host.acks + [s.host.outstanding[serial]]))
    else s.(host := host, publisher := s.publisher.(unpublished := true))
  }

  /** The flush that sent `serial` goes on after its publish. */
  function Land(s: State, serial: nat): State {
    if s.publisher.inFlight.Some? && s.publisher.inFlight.value.serial == serial
    then s.(publisher := s.publisher.(inFlight := None)) else s
  }

  // Runs.

  datatype Event =
    | Added(ids: seq<Id>, text: string, point: Option<Target>)
    | RegionAdded(id: Id, region: Region)
    | Cleared
    | Typed(text: string)
    | Closed
    | Opened(index: nat)
    | Rendered
    | Restored(notes: seq<Note>)
    | Settled(expected: nat, sent: bool, instance: Option<string>)
    | ReadonlySet(value: bool)
    | SentAll
    | RequestFailed
    | FlushStarted
    | FlushResumed(force: bool)
    | Answered(serial: nat, ok: bool)
    | Landed(serial: nat)

  /** An event together with the elements on the canvas at that moment. */
  datatype Moment = Moment(event: Event, present: set<Id>)

  predicate Enabled(s: State, m: Moment) {
    match m.event
    case Typed(_) => s.notes.editor.Some?
    case Opened(i) => i < |s.notes.pins|
    case Answered(serial, _) => serial in s.host.outstanding
    case Landed(serial) => serial < |s.host.sends| && serial !in s.host.outstanding
    case _ => true
  }

  function Step(page: Page, s: State, m: Moment): State
    requires Enabled(s, m)
  {
    match m.event
    case Added(ids, text, point) => Add(page, s, ids, text, point, m.present)
    case RegionAdded(id, region) => AddRegion(page, s, id, region, m.present)
    case Cleared => Clear(page, s, m.present)
    case Typed(text) => Type(page, s, text)
    case Closed => Close(page, s, m.present)
    case Opened(i) => if s.mode.readonly || s.mode.busy then s else Open(page, s, s.notes.pins[i], m.present)
    case Rendered => Prune(page, s, m.present)
    case Restored(notes) => Restore(page, s, notes, m.present)
    case Settled(expected, sent, instance) => Settle(page, s, expected, sent, instance, m.present)
    case ReadonlySet(value) => SetReadonly(page, s, value, m.present)
    case SentAll => SendAll(page, s, m.present)
    case RequestFailed => Prune(page, SetBusy(s, false), m.present)
    case FlushStarted => StartFlush(page, s, false)
    case FlushResumed(force) => Flush(page, s, force)
    case Answered(serial, ok) => Answer(s, serial, ok)
    case Landed(serial) => Land(s, serial)
  }

  ghost predicate Leads(page: Page, s: State, moments: seq<Moment>, t: State)
    decreases |moments|
  {
    if moments == [] then s == t
    else Enabled(s, moments[0]) && Leads(page, Step(page, s, moments[0]), moments[1..], t)
  }

  /** A new page: nothing on the canvas, and a host that holds nothing for it. */
  function Initial(): State {
    State(Notes([], None, 0, 0), Mode(true, false), Publisher(false, false, None),
          Host([], map[], [Batch(0, [])]))
  }

  ghost predicate Reachable(page: Page, s: State) {
    exists moments: seq<Moment> :: Leads(page, Initial(), moments, s)
  }
}
