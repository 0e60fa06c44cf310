/** What is on the canvas, told pin by pin and event by event, and what a reader of the notes gets. */
module NotePinsByEvents {
  import opened JsText
  import opened Options
  import opened NotePinsModel
  import opened NotePinsSteps
  import opened NotePinsResults

  // Lists that keep some entries of another, in order.

  /** The positions are those of the set, in ascending order. */
  ghost predicate Picks(ks: seq<nat>, kept: set<nat>) {
    && (forall i, j :: 0 <= i < j < |ks| ==> ks[i] < ks[j])
    && (forall k :: k in ks <==> k in kept)
  }

  lemma {:induction false} PicksGrow(ks: seq<nat>, kept: set<nat>, n: nat)
    requires Picks(ks, kept) && forall k :: k in kept ==> k < n
    ensures Picks(ks + [n], kept + {n})
  {
    assert forall i :: 0 <= i < |ks| ==> ks[i] in kept;
  }

  // The notes of a batch.

  ghost predicate SamePoint(page: Page, pin: Pin, note: Note) {
    if pin.point.None? then note.point.None?
    else note.point == Some(Target(pin.point.value.elementId, page.round(pin.point.value.at)))
  }

  ghost predicate SameRegion(page: Page, pin: Pin, note: Note) {
    match pin.region
    case None => note.region.None?
    case Some(Box(from, to)) => note.region == Some(Box(page.round(from), page.round(to)))
    case Some(Stroke(points)) =>
      && note.region.Some? && note.region.value.Stroke? && |note.region.value.points| == |points|
      && forall i :: 0 <= i < |points| ==> note.region.value.points[i] == page.round(points[i])
  }

  /** The note says what is on the pin: its targets, its text without the white space around it, and its rounded
      point and region. */
  ghost predicate Says(page: Page, pin: Pin, note: Note) {
    && note.elementIds == pin.elementIds && IsCore(pin.text, note.prompt)
    && SamePoint(page, pin, note) && SameRegion(page, pin, note)
  }

  /** The positions of the pins with text. */
  ghost function Marked(pins: seq<Pin>): set<nat> {
    set k: nat | k < |pins| && HasMark(pins[k].text)
  }

  /** The notes are those of the pins with text, in the order of the canvas. */
  ghost predicate Lists(page: Page, pins: seq<Pin>, notes: seq<Note>, ks: seq<nat>) {
    && |ks| == |notes| && Picks(ks, Marked(pins))
    && forall i :: 0 <= i < |notes| ==> ks[i] < |pins| && Says(page, pins[ks[i]], notes[i])
  }

  lemma {:induction false} ToNoteSays(page: Page, pin: Pin)
    ensures Says(page, pin, ToNote(page, pin))
  {
    TrimExactly(pin.text, Trim(pin.text));
  }

  lemma {:induction false} ListGrows(page: Page, pins: seq<Pin>, notes: seq<Note>, ks: seq<nat>, last: Pin)
    requires Lists(page, pins, notes, ks)
    ensures HasMark(last.text) ==> Lists(page, pins + [last], notes + [ToNote(page, last)], ks + [|pins|])
    ensures !HasMark(last.text) ==> Lists(page, pins + [last], notes, ks)
  {
    var all := pins + [last];
    ToNoteSays(page, last);
    assert Marked(all) == if HasMark(last.text) then Marked(pins) + {|pins|} else Marked(pins);
    PicksGrow(ks, Marked(pins), |pins|);
  }

  /** The notes that are sent list, in the order of the canvas, exactly the pins with text, each as it is. */
  lemma {:induction false} SentLists(page: Page, pins: seq<Pin>) returns (ks: seq<nat>)
    ensures Lists(page, pins, Sent(page, pins), ks)
  {
    ks := [];
    if pins == [] {
      assert Marked(pins) == {};
    } else {
      var n := |pins| - 1;
      ks := SentLists(page, pins[..n]);
      BlankExactly(pins[n].text);
      ListGrows(page, pins[..n], Sent(page, pins[..n]), ks, pins[n]);
      assert pins[..n] + [pins[n]] == pins;
      if HasMark(pins[n].text) {
        ks := ks + [n];
      }
    }
  }

  /** `read` changes nothing but what has left the page, and what it returns lists what is then on the canvas. */
  lemma {:induction false} ReadLists(page: Page, s: State, expected: Option<nat>, present: set<Id>)
    returns (ks: seq<nat>)
    ensures var t, batch := Read(page, s, expected, present).0, Read(page, s, expected, present).1;
            && (batch.None? <==> expected.Some? && expected.value != t.notes.epoch)
            && (batch.Some? ==> batch.value.epoch == t.notes.epoch
                                && Lists(page, t.notes.pins, batch.value.notes, ks))
  {
    ks := SentLists(page, Read(page, s, expected, present).0.notes.pins);
  }

  // Targets.

  ghost predicate NoDup(ids: seq<Id>) {
    forall i, j :: 0 <= i < j < |ids| ==> ids[i] != ids[j]
  }

  /** The pin has targets, none of them twice. */
  ghost predicate Targeted(pin: Pin) {
    pin.elementIds != [] && NoDup(pin.elementIds)
  }

  ghost predicate AllTargeted(pins: seq<Pin>) {
    forall i :: 0 <= i < |pins| ==> Targeted(pins[i])
  }

  /** The positions at which an id stands for the first time. */
  ghost function Firsts(ids: seq<Id>): set<nat> {
    set k: nat | k < |ids| && ids[k] !in ids[..k]
  }

  ghost function Here(ids: seq<Id>, present: set<Id>): set<nat> {
    set k: nat | k < |ids| && ids[k] in present
  }

  /** `some` are the entries of `all` at the positions. */
  ghost predicate Taken(some: seq<Id>, all: seq<Id>, ks: seq<nat>) {
    |some| == |ks| && forall i :: 0 <= i < |ks| ==> ks[i] < |all| && some[i] == all[ks[i]]
  }

  lemma {:induction false} TakenGrows(some: seq<Id>, all: seq<Id>, ks: seq<nat>, last: Id)
    requires Taken(some, all, ks)
    ensures Taken(some, all + [last], ks) && Taken(some + [last], all + [last], ks + [|all|])
  {
  }

  lemma {:induction false} FirstsGrow(ids: seq<Id>, last: Id)
    ensures Firsts(ids + [last]) == if last in ids then Firsts(ids) else Firsts(ids) + {|ids|}
  {
    var all := ids + [last];
    assert forall k :: 0 <= k <= |ids| ==> all[..k] == ids[..k];
    assert ids[..|ids|] == ids;
  }

  /** `Distinct` keeps the first occurrence of every id, in order, and nothing else. */
  lemma {:induction false} DistinctKeepsFirst(ids: seq<Id>) returns (ks: seq<nat>)
    ensures Picks(ks, Firsts(ids)) && Taken(Distinct(ids), ids, ks)
    ensures forall id :: id in Distinct(ids) <==> id in ids
    ensures NoDup(Distinct(ids))
  {
    ks := [];
    if ids == [] {
      assert Firsts(ids) == {};
    } else {
      var n := |ids| - 1;
      var init, last := ids[..n], ids[n];
      ks := DistinctKeepsFirst(init);
      assert init + [last] == ids;
      FirstsGrow(init, last);
      TakenGrows(Distinct(init), init, ks, last);
      if last !in init {
        PicksGrow(ks, Firsts(init), n);
        ks := ks + [n];
      }
    }
  }

  lemma {:induction false} HereGrows(ids: seq<Id>, last: Id, present: set<Id>)
    ensures Here(ids + [last], present) == if last in present then Here(ids, present) + {|ids|} else Here(ids, present)
  {
  }

  /** Pruning keeps, in order, exactly the targets that are on the page. */
  lemma {:induction false} PresentKeeps(ids: seq<Id>, present: set<Id>) returns (ks: seq<nat>)
    ensures Picks(ks, Here(ids, present)) && Taken(Present(ids, present), ids, ks)
    ensures NoDup(ids) ==> NoDup(Present(ids, present))
  {
    ks := [];
    if ids == [] {
      assert Here(ids, present) == {};
    } else {
      var n := |ids| - 1;
      var init, last := ids[..n], ids[n];
      ks := PresentKeeps(init, present);
      assert init + [last] == ids;
      HereGrows(init, last, present);
      TakenGrows(Present(init, present), init, ks, last);
      if last in present {
        PicksGrow(ks, Here(init, present), n);
        ks := ks + [n];
      }
    }
  }

  lemma {:induction false} CountDistinct(ids: seq<Id>)
    requires NoDup(ids)
    ensures |(set id | id in ids)| == |ids|
  {
    if ids != [] {
      var n := |ids| - 1;
      CountDistinct(ids[..n]);
      assert (set id | id in ids) == (set id | id in ids[..n]) + {ids[n]};
    }
  }

  lemma {:induction false} SameTargetsAreEqual(a: Pin, b: Pin)
    requires NoDup(a.elementIds) && NoDup(b.elementIds) && SameTargets(a, b)
    ensures forall id :: id in a.elementIds <==> id in b.elementIds
  {
    var x, y := (set id | id in a.elementIds), (set id | id in b.elementIds);
    CountDistinct(a.elementIds);
    CountDistinct(b.elementIds);
    assert x <= y;
    FullSubset(x, y);
    assert forall id :: id in b.elementIds ==> id in y;
  }

  lemma {:induction false} EqualTargetsAreSame(a: Pin, b: Pin)
    requires NoDup(a.elementIds) && NoDup(b.elementIds)
    requires forall id :: id in a.elementIds <==> id in b.elementIds
    ensures SameTargets(a, b)
  {
    CountDistinct(a.elementIds);
    CountDistinct(b.elementIds);
    assert (set id | id in a.elementIds) == (set id | id in b.elementIds);
  }

  /** Pins have the same targets exactly when the sets of their ids are the same. */
  lemma {:induction false} SameTargetsExactly(a: Pin, b: Pin)
    requires NoDup(a.elementIds) && NoDup(b.elementIds)
    ensures SameTargets(a, b) <==> (forall id :: id in a.elementIds <==> id in b.elementIds)
  {
    if SameTargets(a, b) {
      SameTargetsAreEqual(a, b);
    }
    if forall id :: id in a.elementIds <==> id in b.elementIds {
      EqualTargetsAreSame(a, b);
    }
  }

  lemma {:induction false} FullSubset<T>(x: set<T>, y: set<T>)
    requires x <= y && |x| == |y|
    ensures x == y
  {
    assert |y - x| == |y| - |x|;
  }

  // What becomes of every pin.

  /** Every pin becomes what `f` says, or goes. */
  ghost function Becoming(pins: seq<Pin>, f: Pin -> Option<Pin>): seq<Pin> {
    if pins == [] then []
    else
      var last := f(pins[|pins| - 1]);
      Becoming(pins[..|pins| - 1], f) + if last.None? then [] else [last.value]
  }

  ghost function Then(f: Pin -> Option<Pin>, g: Pin -> Option<Pin>): Pin -> Option<Pin> {
    (pin: Pin) => if f(pin).None? then None else g(f(pin).value)
  }

  lemma {:induction false} BecomingSnoc(pins: seq<Pin>, last: Pin, f: Pin -> Option<Pin>)
    ensures Becoming(pins + [last], f) == Becoming(pins, f) + if f(last).None? then [] else [f(last).value]
  {
    assert (pins + [last])[..|pins|] == pins;
  }

  lemma {:induction false} BecomingTwice(pins: seq<Pin>, f: Pin -> Option<Pin>, g: Pin -> Option<Pin>)
    ensures Becoming(Becoming(pins, f), g) == Becoming(pins, Then(f, g))
  {
    if pins != [] {
      var init, last := pins[..|pins| - 1], pins[|pins| - 1];
      BecomingTwice(init, f, g);
      if f(last).Some? {
        BecomingSnoc(Becoming(init, f), f(last).value, g);
      } else {
        assert Becoming(init, f) + [] == Becoming(init, f);
      }
    }
  }

  ghost predicate Agree(pins: seq<Pin>, f: Pin -> Option<Pin>, g: Pin -> Option<Pin>) {
    forall i :: 0 <= i < |pins| ==> f(pins[i]) == g(pins[i])
  }

  lemma {:induction false} BecomingSame(pins: seq<Pin>, f: Pin -> Option<Pin>, g: Pin -> Option<Pin>)
    requires Agree(pins, f, g)
    ensures Becoming(pins, f) == Becoming(pins, g)
  {
    if pins != [] {
      BecomingSame(pins[..|pins| - 1], f, g);
    }
  }

  ghost function Stays(): Pin -> Option<Pin> {
    (pin: Pin) => Some(pin)
  }

  lemma {:induction false} AllStay(pins: seq<Pin>)
    ensures Becoming(pins, Stays()) == pins
  {
    if pins != [] {
      AllStay(pins[..|pins| - 1]);
    }
  }

  /** Off the page: a pin loses the targets and the point that have left, and goes with its last target. */
  ghost function OffPage(present: set<Id>): Pin -> Option<Pin> {
    (pin: Pin) =>
      var ids := Present(pin.elementIds, present);
      if ids == [] then None
      else Some(Pin(pin.key, ids, pin.text,
                    if pin.point.Some? && pin.point.value.elementId in present then pin.point else None, pin.region))
  }

  /** Closing the editor: its pin goes if it has no text. */
  ghost function Closing(editor: Option<Editor>): Pin -> Option<Pin> {
    (pin: Pin) => if editor.Some? && pin.key == editor.value.key && !HasMark(pin.text) then None else Some(pin)
  }

  ghost function Writing(key: nat, text: string): Pin -> Option<Pin> {
    (pin: Pin) => Some(if pin.key == key then pin.(text := text) else pin)
  }

  lemma {:induction false} PrunePinsIs(pins: seq<Pin>, present: set<Id>)
    ensures PrunePins(pins, present) == Becoming(pins, OffPage(present))
  {
    if pins != [] {
      PrunePinsIs(pins[..|pins| - 1], present);
    }
  }

  lemma {:induction false} FreshStays(ids: seq<Id>, present: set<Id>)
    requires forall i :: 0 <= i < |ids| ==> ids[i] in present
    ensures Present(ids, present) == ids
  {
    if ids != [] {
      FreshStays(ids[..|ids| - 1], present);
    }
  }

  /** Where nothing is stale nothing leaves. */
  lemma {:induction false} NothingStale(pins: seq<Pin>, present: set<Id>)
    requires AllTargeted(pins) && !AnyStale(pins, present)
    ensures Becoming(pins, OffPage(present)) == pins
  {
    forall i | 0 <= i < |pins|
      ensures OffPage(present)(pins[i]) == Stays()(pins[i])
    {
      assert !Stale(pins[i], present) && Targeted(pins[i]);
      FreshStays(pins[i].elementIds, present);
    }
    BecomingSame(pins, OffPage(present), Stays());
    AllStay(pins);
  }

  lemma {:induction false} PruneIs(page: Page, s: State, present: set<Id>)
    requires AllTargeted(s.notes.pins)
    ensures Prune(page, s, present).notes.pins == Becoming(s.notes.pins, OffPage(present))
  {
    PrunePinsIs(s.notes.pins, present);
    if !AnyStale(s.notes.pins, present) {
      NothingStale(s.notes.pins, present);
    }
  }

  lemma {:induction false} WithoutIs(pins: seq<Pin>, key: nat)
    ensures Without(pins, key) == Becoming(pins, (pin: Pin) => if pin.key == key then None else Some(pin))
  {
    if pins != [] {
      WithoutIs(pins[..|pins| - 1], key);
    }
  }

  lemma {:induction false} TextOfPin(pins: seq<Pin>, editor: Editor, keys: nat, i: nat)
    requires Keyed(pins, keys) && i < |pins| && pins[i].key == editor.key
    ensures TextOf(pins, editor) == pins[i].text && Has(pins, editor.key)
  {
    var n := |pins| - 1;
    if i < n {
      assert pins[..n][i] == pins[i];
      TextOfPin(pins[..n], editor, keys, i);
    }
  }

  /** Whatever is done with a closed editor's pin is what `Closing` says. */
  lemma {:induction false} ClosingIs(pins: seq<Pin>, editor: Editor, keys: nat)
    requires Keyed(pins, keys)
    ensures Becoming(pins, Closing(Some(editor))) ==
            if Blank(TextOf(pins, editor)) && Has(pins, editor.key) then Without(pins, editor.key) else pins
  {
    if Has(pins, editor.key) {
      var i :| 0 <= i < |pins| && pins[i].key == editor.key;
      TextOfPin(pins, editor, keys, i);
      KeysAreDistinct(pins, keys);
      BlankExactly(pins[i].text);
      if Blank(pins[i].text) {
        WithoutIs(pins, editor.key);
        BecomingSame(pins, Closing(Some(editor)), (pin: Pin) => if pin.key == editor.key then None else Some(pin));
      } else {
        BecomingSame(pins, Closing(Some(editor)), Stays());
        AllStay(pins);
      }
    } else {
      forall i | 0 <= i < |pins|
        ensures Closing(Some(editor))(pins[i]) == Stays()(pins[i])
      {
        assert pins[i].key != editor.key;
      }
      BecomingSame(pins, Closing(Some(editor)), Stays());
      AllStay(pins);
    }
  }

  lemma {:induction false} BecomingTargeted(pins: seq<Pin>, f: Pin -> Option<Pin>)
    requires forall i :: 0 <= i < |pins| ==> f(pins[i]).Some? ==> Targeted(f(pins[i]).value)
    ensures AllTargeted(Becoming(pins, f))
  {
    if pins != [] {
      BecomingTargeted(pins[..|pins| - 1], f);
    }
  }

  lemma {:induction false} OffPageTargeted(pins: seq<Pin>, present: set<Id>)
    requires AllTargeted(pins)
    ensures AllTargeted(Becoming(pins, OffPage(present)))
  {
    forall i | 0 <= i < |pins|
      ensures OffPage(present)(pins[i]).Some? ==> Targeted(OffPage(present)(pins[i]).value)
    {
      assert Targeted(pins[i]);
      var ks := PresentKeeps(pins[i].elementIds, present);
    }
    BecomingTargeted(pins, OffPage(present));
  }

  lemma {:induction false} ClosingTargeted(pins: seq<Pin>, editor: Option<Editor>)
    requires AllTargeted(pins)
    ensures AllTargeted(Becoming(pins, Closing(editor)))
  {
    forall i | 0 <= i < |pins|
      ensures Closing(editor)(pins[i]).Some? ==> Targeted(Closing(editor)(pins[i]).value)
    {
      assert Targeted(pins[i]);
    }
    BecomingTargeted(pins, Closing(editor));
  }

  lemma {:induction false} CloseIs(page: Page, s: State, present: set<Id>)
    requires Orderly(s.notes) && AllTargeted(s.notes.pins)
    ensures Close(page, s, present).notes.pins ==
            if s.notes.editor.None? then s.notes.pins
            else Becoming(s.notes.pins, Then(Closing(s.notes.editor), OffPage(present)))
  {
    if s.notes.editor.Some? {
      var pins, editor := s.notes.pins, s.notes.editor.value;
      ClosingIs(pins, editor, s.notes.keys);
      ClosingTargeted(pins, s.notes.editor);
      BecomingTwice(pins, Closing(s.notes.editor), OffPage(present));
      var closed := SetEditor(s, None);
      PruneIs(page, closed, present);
      PruneIs(page, NextEpoch(SetPins(closed, Becoming(pins, Closing(s.notes.editor)))), present);
    }
  }

  lemma {:induction false} OffPageTwice(pins: seq<Pin>, present: set<Id>)
    ensures Becoming(Becoming(pins, OffPage(present)), OffPage(present)) == Becoming(pins, OffPage(present))
  {
    BecomingTwice(pins, OffPage(present), OffPage(present));
    forall i | 0 <= i < |pins|
      ensures Then(OffPage(present), OffPage(present))(pins[i]) == OffPage(present)(pins[i])
    {
      PresentIsPresent(pins[i].elementIds, present);
      FreshStays(Present(pins[i].elementIds, present), present);
    }
    BecomingSame(pins, Then(OffPage(present), OffPage(present)), OffPage(present));
  }

  ghost function ClosedOn(editor: Option<Editor>, present: set<Id>): Pin -> Option<Pin> {
    Then(Closing(editor), OffPage(present))
  }

  lemma {:induction false} NoEditorCloses(pins: seq<Pin>, present: set<Id>)
    ensures Becoming(pins, ClosedOn(None, present)) == Becoming(pins, OffPage(present))
  {
    BecomingSame(pins, ClosedOn(None, present), OffPage(present));
  }

  /** Pruning before an editor is closed adds nothing to the pruning after it. */
  lemma {:induction false} OffPageThenClosed(pins: seq<Pin>, editor: Option<Editor>, present: set<Id>)
    ensures Becoming(Becoming(pins, OffPage(present)), ClosedOn(editor, present))
         == Becoming(pins, ClosedOn(editor, present))
  {
    BecomingTwice(pins, OffPage(present), ClosedOn(editor, present));
    forall i | 0 <= i < |pins|
      ensures Then(OffPage(present), ClosedOn(editor, present))(pins[i]) == ClosedOn(editor, present)(pins[i])
    {
      PresentIsPresent(pins[i].elementIds, present);
      FreshStays(Present(pins[i].elementIds, present), present);
    }
    BecomingSame(pins, Then(OffPage(present), ClosedOn(editor, present)), ClosedOn(editor, present));
  }

  lemma {:induction false} ClosedTargeted(pins: seq<Pin>, editor: Option<Editor>, present: set<Id>)
    requires AllTargeted(pins)
    ensures AllTargeted(Becoming(pins, ClosedOn(editor, present)))
  {
    ClosingTargeted(pins, editor);
    OffPageTargeted(Becoming(pins, Closing(editor)), present);
    BecomingTwice(pins, Closing(editor), OffPage(present));
  }

  lemma {:induction false} ClosedThenOffPage(pins: seq<Pin>, editor: Option<Editor>, present: set<Id>)
    ensures Becoming(Becoming(pins, ClosedOn(editor, present)), OffPage(present))
         == Becoming(pins, ClosedOn(editor, present))
  {
    BecomingTwice(pins, Closing(editor), OffPage(present));
    OffPageTwice(Becoming(pins, Closing(editor)), present);
  }

  /** A canvas as every run of well-formed events leaves it. */
  ghost predicate Sound(notes: Notes) {
    Orderly(notes) && AllTargeted(notes.pins) && (notes.editor.Some? ==> notes.editor.value.key < notes.keys)
  }

  lemma {:induction false} OpenIs(page: Page, s: State, pin: Pin, present: set<Id>)
    requires Sound(s.notes)
    ensures Open(page, s, pin, present).notes.pins ==
            if s.notes.editor.Some? && s.notes.editor.value.key == pin.key then s.notes.pins
            else Becoming(s.notes.pins, ClosedOn(s.notes.editor, present))
  {
    var pins, editor := s.notes.pins, s.notes.editor;
    if !(editor.Some? && editor.value.key == pin.key) {
      CloseIs(page, s, present);
      ClosedTargeted(pins, editor, present);
      var closed := SetEditor(Close(page, s, present), Some(Editor(pin.key, pin.text)));
      PruneIs(page, closed, present);
      ClosedThenOffPage(pins, editor, present);
      NoEditorCloses(pins, present);
    }
  }

  lemma {:induction false} ChangedIs(page: Page, s: State, present: set<Id>)
    requires Orderly(s.notes) && AllTargeted(s.notes.pins)
    ensures var t := Changed(page, s, present);
            && t.notes.pins == Becoming(s.notes.pins, OffPage(present)) && AllTargeted(t.notes.pins)
            && Orderly(t.notes) && t.notes.keys == s.notes.keys
            && (t.notes.editor == s.notes.editor
                || (t.notes.editor.None? && s.notes.editor.Some? && !Has(t.notes.pins, s.notes.editor.value.key)))
  {
    PruneIs(page, NextEpoch(s), present);
    OffPageTargeted(s.notes.pins, present);
    PruneMoves(page, NextEpoch(s), present);
  }

  /** A change followed by the opening of an editor: the other editor closes. */
  lemma {:induction false} ChangeThenOpenIs(page: Page, s: State, pin: Pin, present: set<Id>)
    requires Sound(s.notes)
    ensures Open(page, Changed(page, s, present), pin, present).notes.pins ==
            Becoming(s.notes.pins, if s.notes.editor.Some? && s.notes.editor.value.key == pin.key then OffPage(present)
                                   else ClosedOn(s.notes.editor, present))
  {
    var pins, editor := s.notes.pins, s.notes.editor;
    var t := Changed(page, s, present);
    ChangedIs(page, s, present);
    OpenIs(page, t, pin, present);
    if t.notes.editor != editor {
      ClosingIs(t.notes.pins, editor.value, t.notes.keys);
      BecomingTwice(t.notes.pins, Closing(editor), OffPage(present));
      NoEditorCloses(t.notes.pins, present);
      OffPageTwice(pins, present);
    }
    OffPageThenClosed(pins, editor, present);
  }

  // The canvas after an event.

  /** The event may place or join a note. */
  predicate MayAdd(s: State) {
    !s.mode.readonly && !s.mode.busy
  }

  ghost predicate Plain(pin: Pin) {
    pin.point.None? && pin.region.None?
  }

  /** The first plain pin on just these targets, or the number of pins. */
  ghost function Joined(pins: seq<Pin>, ids: seq<Id>): nat {
    if pins == [] then 0
    else if Plain(pins[0]) && (forall id :: id in pins[0].elementIds <==> id in ids) then 0
    else 1 + Joined(pins[1..], ids)
  }

  lemma {:induction false} JoinedIsFirst(pins: seq<Pin>, ids: seq<Id>)
    ensures var i := Joined(pins, ids);
            && i <= |pins|
            && (i < |pins| ==> Plain(pins[i]) && (forall id :: id in pins[i].elementIds <==> id in ids))
            && (forall j :: 0 <= j < i ==>
                  !(Plain(pins[j]) && (forall id :: id in pins[j].elementIds <==> id in ids)))
  {
    if pins != [] && Joined(pins, ids) > 0 {
      JoinedIsFirst(pins[1..], ids);
      forall j | 0 <= j < Joined(pins, ids)
        ensures !(Plain(pins[j]) && (forall id :: id in pins[j].elementIds <==> id in ids))
      {
        assert j > 0 ==> pins[j] == pins[1..][j - 1];
      }
    }
  }

  lemma {:induction false} FindSameIsJoined(pins: seq<Pin>, pin: Pin, ids: seq<Id>)
    requires AllTargeted(pins) && NoDup(pin.elementIds) && forall id :: id in pin.elementIds <==> id in ids
    ensures FindSame(pins, pin) == Joined(pins, ids)
  {
    JoinedIsFirst(pins, ids);
    forall i | 0 <= i < |pins|
      ensures SameTargets(pins[i], pin) <==> (forall id :: id in pins[i].elementIds <==> id in ids)
    {
      assert Targeted(pins[i]);
      SameTargetsExactly(pins[i], pin);
    }
  }

  /** What the pins would send if all of them had text. */
  ghost function Already(page: Page, pins: seq<Pin>): set<Note> {
    set i | 0 <= i < |pins| :: ToNote(page, pins[i])
  }

  function Restoring(key: nat, note: Note): Pin {
    Pin(key, Distinct(note.elementIds), note.prompt, note.point, note.region)
  }

  /** What restoring brings: the notes that are not there already, by what their pins would send. */
  ghost function Missing(page: Page, notes: seq<Note>, already: set<Note>): seq<Note> {
    if notes == [] then []
    else
      var rest := Missing(page, notes[1..], already);
      if ToNote(page, Restoring(0, notes[0])) in already then rest else [notes[0]] + rest
  }

  ghost function RestoringAll(key: nat, notes: seq<Note>): (r: seq<Pin>)
    ensures |r| == |notes| && forall i :: 0 <= i < |r| ==> r[i] == Restoring(key + i, notes[i])
    decreases |notes|
  {
    if notes == [] then [] else [Restoring(key, notes[0])] + RestoringAll(key + 1, notes[1..])
  }

  function Least(a: nat, b: nat): nat {
    if a <= b then a else b
  }

  lemma {:induction false} FirstOf(note: Note, rest: seq<Note>, room: nat)
    requires room > 0
    ensures ([note] + rest)[..Least(room, 1 + |rest|)] == [note] + rest[..Least(room - 1, |rest|)]
  {
  }

  lemma {:induction false} FreshIs(page: Page, notes: seq<Note>, already: set<Note>, room: nat, key: nat)
    ensures var missing := Missing(page, notes, already);
            Fresh(page, notes, already, room, key) == RestoringAll(key, missing[..Least(room, |missing|)])
    decreases |notes|
  {
    if notes != [] && room > 0 {
      var rest := Missing(page, notes[1..], already);
      assert ToNote(page, Incoming(notes[0], key)) == ToNote(page, Restoring(0, notes[0]));
      if ToNote(page, Restoring(0, notes[0])) in already {
        FreshIs(page, notes[1..], already, room, key);
      } else {
        FreshIs(page, notes[1..], already, room - 1, key + 1);
        FirstOf(notes[0], rest, room);
        RestoringOneMore(key, notes[0], rest[..Least(room - 1, |rest|)]);
      }
    }
  }

  lemma {:induction false} RestoringOneMore(key: nat, note: Note, rest: seq<Note>)
    ensures RestoringAll(key, [note] + rest) == [Restoring(key, note)] + RestoringAll(key + 1, rest)
  {
    assert ([note] + rest)[1..] == rest;
  }

  /** Where an added note goes: the index of the note it joins, or the number of pins. */
  ghost function Goes(s: State, ids: seq<Id>, point: Option<Target>): nat {
    if point.Some? then |s.notes.pins| else Joined(s.notes.pins, ids)
  }

  /** A mark on another image is there already. */
  ghost predicate MarksOther(pins: seq<Pin>, id: Id) {
    exists i :: 0 <= i < |pins| && pins[i].region.Some? && (pins[i].elementIds == [] || pins[i].elementIds[0] != id)
  }

  /** The pins an event places behind the others. */
  ghost function Placed(page: Page, s: State, e: Event): seq<Pin> {
    var pins, keys := s.notes.pins, s.notes.keys;
    match e
    case Added(ids, text, point) =>
      if MayAdd(s) && ids != [] && Goes(s, ids, point) == |pins| && |pins| < 10
      then [Pin(keys, Distinct(ids), text, point, None)] else []
    case RegionAdded(id, region) =>
      if MayAdd(s) && |pins| < 10 && !MarksOther(pins, id) then [Pin(keys, [id], "", None, Some(region))] else []
    case Restored(notes) =>
      var missing := Missing(page, notes, Already(page, pins));
      RestoringAll(keys, missing[..Least(if |pins| <= 10 then 10 - |pins| else 0, |missing|)])
    case _ => []
  }

  /** The text an event writes: into the edited pin, or behind that of the note it joins. */
  ghost function Writes(s: State, e: Event): Pin -> Option<Pin> {
    match e
    case Typed(text) => if s.notes.editor.Some? then Writing(s.notes.editor.value.key, text) else Stays()
    case Added(ids, text, point) =>
      if MayAdd(s) && ids != [] && Goes(s, ids, point) < |s.notes.pins| && HasMark(text) then
        JoinedIsFirst(s.notes.pins, ids);
        var held := s.notes.pins[Goes(s, ids, point)];
        Writing(held.key, if HasMark(held.text) then Trim(held.text) + "\n" + text else text)
      else Stays()
    case _ => Stays()
  }

  /** The event opens the editor of the pin with the key. */
  ghost predicate Opens(page: Page, s: State, e: Event, key: nat) {
    match e
    case Added(ids, text, point) =>
      && MayAdd(s) && ids != [] && !HasMark(text)
      && if Goes(s, ids, point) < |s.notes.pins| then s.notes.pins[Goes(s, ids, point)].key == key
         else |s.notes.pins| < 10 && key == s.notes.keys
    case RegionAdded(_, _) => Placed(page, s, e) != [] && key == s.notes.keys
    case Opened(i) => MayAdd(s) && i < |s.notes.pins| && s.notes.pins[i].key == key
    case _ => false
  }

  /** The event closes the editor that is open. */
  ghost predicate Closes(page: Page, s: State, e: Event) {
    s.notes.editor.Some? &&
    match e
    case Closed => true
    case ReadonlySet(value) => value
    case SentAll => MayAdd(s) && s.notes.pins != []
    case _ => exists key :: Opens(page, s, e, key) && key != s.notes.editor.value.key
  }

  /** The event draws the canvas again, and finds out what has left the page. */
  ghost predicate Redraws(page: Page, s: State, e: Event) {
    match e
    case Added(ids, _, _) => MayAdd(s) && ids != []
    case RegionAdded(_, _) => MayAdd(s)
    case Closed => s.notes.editor.Some?
    case Opened(i) =>
      MayAdd(s) && !(s.notes.editor.Some? && i < |s.notes.pins| && s.notes.pins[i].key == s.notes.editor.value.key)
    case Restored(_) => Placed(page, s, e) != []
    case SentAll => MayAdd(s) && s.notes.pins != []
    case Rendered => true
    case Settled(_, _, _) => true
    case ReadonlySet(_) => true
    case RequestFailed => true
    case _ => false
  }

  /** The event takes every note away: a clear, and the settlement of a draft that was sent from this page at the
      present epoch. */
  predicate Empties(page: Page, s: State, e: Event) {
    match e
    case Cleared => true
    case Settled(expected, sent, instance) =>
      sent && expected == s.notes.epoch && (instance.None? || instance.value == "" || instance.value == page.instance)
    case _ => false
  }

  /** The canvas after an event, pin by pin. */
  ghost function Canvas(page: Page, s: State, m: Moment): seq<Pin> {
    if Empties(page, s, m.event) then []
    else
      Becoming(s.notes.pins + Placed(page, s, m.event),
               Then(Writes(s, m.event),
                    if Closes(page, s, m.event) then ClosedOn(s.notes.editor, m.present)
                    else if Redraws(page, s, m.event) then OffPage(m.present) else Stays()))
  }

  lemma {:induction false} ThenAfterStays(pins: seq<Pin>, f: Pin -> Option<Pin>)
    ensures Becoming(pins, Then(Stays(), f)) == Becoming(pins, f)
  {
    BecomingSame(pins, Then(Stays(), f), f);
  }

  /** An event that writes and places nothing. */
  lemma {:induction false} CanvasIs(page: Page, s: State, m: Moment, f: Pin -> Option<Pin>)
    requires !Empties(page, s, m.event) && Writes(s, m.event) == Stays()
    requires f == if Closes(page, s, m.event) then ClosedOn(s.notes.editor, m.present)
                  else if Redraws(page, s, m.event) then OffPage(m.present) else Stays()
    ensures Canvas(page, s, m) == Becoming(s.notes.pins + Placed(page, s, m.event), f)
  {
    ThenAfterStays(s.notes.pins + Placed(page, s, m.event), f);
  }

  /** The notes an event brings back have targets, as every note has. */
  ghost predicate WellFormed(m: Moment) {
    m.event.Restored? ==> forall note :: note in m.event.notes ==> note.elementIds != []
  }

  ghost predicate Told(page: Page, s: State, m: Moment)
    requires Enabled(s, m)
  {
    Step(page, s, m).notes.pins == Canvas(page, s, m)
  }

  lemma {:induction false} WritingIs(pins: seq<Pin>, key: nat, text: string)
    ensures Becoming(pins, Writing(key, text)) == SetText(pins, key, text)
  {
    if pins != [] {
      WritingIs(pins[..|pins| - 1], key, text);
    }
  }

  lemma {:induction false} WritingAt(pins: seq<Pin>, keys: nat, i: nat, text: string)
    requires Keyed(pins, keys) && i < |pins|
    ensures pins[i := pins[i].(text := text)] == Becoming(pins, Writing(pins[i].key, text))
  {
    KeysAreDistinct(pins, keys);
    WritingIs(pins, pins[i].key, text);
    assert pins[i := pins[i].(text := text)] == SetText(pins, pins[i].key, text);
  }

  lemma {:induction false} WritingTargeted(pins: seq<Pin>, key: nat, text: string)
    requires AllTargeted(pins)
    ensures AllTargeted(SetText(pins, key, text))
  {
    forall i | 0 <= i < |pins|
      ensures Targeted(SetText(pins, key, text)[i])
    {
      assert Targeted(pins[i]);
    }
  }

  lemma {:induction false} StandsStill(page: Page, s: State, m: Moment)
    requires Enabled(s, m) && Step(page, s, m).notes.pins == s.notes.pins && !Empties(page, s, m.event)
    requires Placed(page, s, m.event) == [] && Writes(s, m.event) == Stays()
    requires !Closes(page, s, m.event) && !Redraws(page, s, m.event)
    ensures Told(page, s, m)
  {
    CanvasIs(page, s, m, Stays());
    AllStay(s.notes.pins);
    assert s.notes.pins + [] == s.notes.pins;
  }

  lemma {:induction false} DrawsAgain(page: Page, s: State, m: Moment)
    requires Enabled(s, m) && Step(page, s, m).notes.pins == Becoming(s.notes.pins, OffPage(m.present))
    requires !Empties(page, s, m.event) && Placed(page, s, m.event) == [] && Writes(s, m.event) == Stays()
    requires !Closes(page, s, m.event) && Redraws(page, s, m.event)
    ensures Told(page, s, m)
  {
    CanvasIs(page, s, m, OffPage(m.present));
    assert s.notes.pins + [] == s.notes.pins;
  }

  /** An added note goes where the code looks for it. */
  lemma {:induction false} AddGoes(s: State, ids: seq<Id>, text: string, point: Option<Target>)
    requires Sound(s.notes)
    ensures var pin := Pin(s.notes.keys, Distinct(ids), text, point, None);
            (if point.Some? then |s.notes.pins| else FindSame(s.notes.pins, pin)) == Goes(s, ids, point)
    ensures Goes(s, ids, point) <= |s.notes.pins|
    ensures ids != [] ==> Targeted(Pin(s.notes.keys, Distinct(ids), text, point, None))
  {
    var ks := DistinctKeepsFirst(ids);
    FindSameIsJoined(s.notes.pins, Pin(s.notes.keys, Distinct(ids), text, point, None), ids);
    JoinedIsFirst(s.notes.pins, ids);
    if ids != [] {
      assert ids[0] in Distinct(ids);
    }
  }

  lemma {:induction false} JoinIsTold(page: Page, s: State, m: Moment)
    requires Sound(s.notes) && m.event.Added? && MayAdd(s) && m.event.ids != []
    requires Goes(s, m.event.ids, m.event.point) < |s.notes.pins|
    ensures Told(page, s, m)
  {
    var ids, text, point := m.event.ids, m.event.text, m.event.point;
    var pins, i := s.notes.pins, Goes(s, ids, point);
    AddGoes(s, ids, text, point);
    BlankExactly(text);
    BlankExactly(pins[i].text);
    assert pins + [] == pins;
    if HasMark(text) {
      var merged := Merge(pins[i].text, text);
      WritingAt(pins, s.notes.keys, i, merged);
      WritingTargeted(pins, pins[i].key, merged);
      WritingIs(pins, pins[i].key, merged);
      SetTextKeepsOrder(pins, pins[i].key, merged, s.notes.keys);
      ChangedIs(page, SetPins(s, Merged(pins, i, text)), m.present);
      BecomingTwice(pins, Writing(pins[i].key, merged), OffPage(m.present));
    } else {
      assert Opens(page, s, m.event, pins[i].key);
      ChangeThenOpenIs(page, s, pins[i], m.present);
      NoEditorCloses(pins, m.present);
      CanvasIs(page, s, m, if Closes(page, s, m.event) then ClosedOn(s.notes.editor, m.present)
                           else OffPage(m.present));
    }
  }

  /** A canvas with one pin more. */
  function WithPin(s: State, pin: Pin): State {
    s.(notes := s.notes.(pins := s.notes.pins + [pin], keys := s.notes.keys + 1))
  }

  lemma {:induction false} WithPinIsSound(s: State, pin: Pin)
    requires Sound(s.notes) && |s.notes.pins| < 10 && pin.key == s.notes.keys && Targeted(pin)
    ensures Sound(WithPin(s, pin).notes)
  {
    ExtraKeepsOrder(s.notes.pins, [pin], s.notes.keys);
  }

  lemma {:induction false} PlaceIsTold(page: Page, s: State, m: Moment)
    requires Sound(s.notes) && m.event.Added? && MayAdd(s) && m.event.ids != []
    requires Goes(s, m.event.ids, m.event.point) == |s.notes.pins|
    ensures Told(page, s, m)
  {
    var ids, text, point := m.event.ids, m.event.text, m.event.point;
    var pins := s.notes.pins;
    AddGoes(s, ids, text, point);
    BlankExactly(text);
    if |pins| >= 10 {
      PruneIs(page, s, m.present);
      CanvasIs(page, s, m, OffPage(m.present));
      assert pins + [] == pins;
    } else {
      var pin := Pin(s.notes.keys, Distinct(ids), text, point, None);
      WithPinIsSound(s, pin);
      ChangedIs(page, WithPin(s, pin), m.present);
      ChangeThenOpenIs(page, WithPin(s, pin), pin, m.present);
      NoEditorCloses(pins + [pin], m.present);
      assert !HasMark(text) ==> Opens(page, s, m.event, s.notes.keys);
      CanvasIs(page, s, m, if Closes(page, s, m.event) then ClosedOn(s.notes.editor, m.present)
                           else OffPage(m.present));
    }
  }

  lemma {:induction false} AddIsTold(page: Page, s: State, m: Moment)
    requires Sound(s.notes) && m.event.Added?
    ensures Told(page, s, m)
  {
    if !MayAdd(s) || m.event.ids == [] {
      StandsStill(page, s, m);
    } else {
      AddGoes(s, m.event.ids, m.event.text, m.event.point);
      if Goes(s, m.event.ids, m.event.point) < |s.notes.pins| {
        JoinIsTold(page, s, m);
      } else {
        PlaceIsTold(page, s, m);
      }
    }
  }

  lemma {:induction false} MarkIs(page: Page, s: State, m: Moment)
    requires Sound(s.notes) && m.event.RegionAdded? && MayAdd(s)
    requires !MarksOther(s.notes.pins, m.event.id) && |s.notes.pins| < 10
    ensures var pins, pin := s.notes.pins, Pin(s.notes.keys, [m.event.id], "", None, Some(m.event.region));
            AddRegion(page, s, m.event.id, m.event.region, m.present).notes.pins
            == Becoming(pins + [pin], ClosedOn(s.notes.editor, m.present))
  {
    var pin := Pin(s.notes.keys, [m.event.id], "", None, Some(m.event.region));
    WithPinIsSound(s, pin);
    ChangeThenOpenIs(page, WithPin(s, pin), pin, m.present);
    NoEditorCloses(s.notes.pins + [pin], m.present);
  }

  lemma {:induction false} MarkIsTold(page: Page, s: State, m: Moment)
    requires Sound(s.notes) && m.event.RegionAdded? && MayAdd(s)
    requires !MarksOther(s.notes.pins, m.event.id) && |s.notes.pins| < 10
    ensures Told(page, s, m)
  {
    MarkIs(page, s, m);
    var all := s.notes.pins + Placed(page, s, m.event);
    NoEditorCloses(all, m.present);
    assert Opens(page, s, m.event, s.notes.keys);
    CanvasIs(page, s, m, if Closes(page, s, m.event) then ClosedOn(s.notes.editor, m.present)
                         else OffPage(m.present));
  }

  lemma {:induction false} RegionIsTold(page: Page, s: State, m: Moment)
    requires Sound(s.notes) && m.event.RegionAdded?
    ensures Told(page, s, m)
  {
    if !MayAdd(s) {
      StandsStill(page, s, m);
    } else if MarksOther(s.notes.pins, m.event.id) || |s.notes.pins| >= 10 {
      PruneIs(page, s, m.present);
      DrawsAgain(page, s, m);
    } else {
      MarkIsTold(page, s, m);
    }
  }

  lemma {:induction false} MissingAreNotes(page: Page, notes: seq<Note>, already: set<Note>)
    ensures forall i :: 0 <= i < |Missing(page, notes, already)| ==> Missing(page, notes, already)[i] in notes
  {
    if notes != [] {
      MissingAreNotes(page, notes[1..], already);
    }
  }

  lemma {:induction false} GrowIs(page: Page, s: State, extra: seq<Pin>, present: set<Id>)
    requires Sound(s.notes) && AllTargeted(s.notes.pins + extra) && extra != []
    requires |s.notes.pins| + |extra| <= NOTES_MAX
    requires forall i :: 0 <= i < |extra| ==> extra[i].key == s.notes.keys + i
    ensures Grow(page, s, extra, present).notes.pins == Becoming(s.notes.pins + extra, OffPage(present))
  {
    var grown := Grown(s, extra);
    ExtraKeepsOrder(s.notes.pins, extra, s.notes.keys);
    PruneIs(page, grown, present);
    PruneMoves(page, grown, present);
    OffPageTargeted(s.notes.pins + extra, present);
    ChangedIs(page, Prune(page, grown, present), present);
    OffPageTwice(s.notes.pins + extra, present);
  }

  lemma {:induction false} ExtraIs(page: Page, s: State, m: Moment)
    requires Sound(s.notes) && m.event.Restored?
    ensures Placed(page, s, m.event) == Extra(page, s, m.event.notes)
  {
    FreshIs(page, m.event.notes, Already(page, s.notes.pins), 10 - |s.notes.pins|, s.notes.keys);
  }

  lemma {:induction false} RestoreIsTold(page: Page, s: State, m: Moment)
    requires Sound(s.notes) && m.event.Restored? && WellFormed(m)
    ensures Told(page, s, m)
  {
    ExtraIs(page, s, m);
    if Placed(page, s, m.event) == [] {
      StandsStill(page, s, m);
    } else {
      RestoredAreTargeted(page, s, m);
      GrowIs(page, s, Extra(page, s, m.event.notes), m.present);
      CanvasIs(page, s, m, OffPage(m.present));
    }
  }

  lemma {:induction false} RestoringIsTargeted(key: nat, note: Note)
    requires note.elementIds != []
    ensures Targeted(Restoring(key, note))
  {
    var ks := DistinctKeepsFirst(note.elementIds);
    assert note.elementIds[0] in Distinct(note.elementIds);
  }

  lemma {:induction false} RestoredAreTargeted(page: Page, s: State, m: Moment)
    requires AllTargeted(s.notes.pins) && m.event.Restored? && WellFormed(m)
    ensures AllTargeted(s.notes.pins + Placed(page, s, m.event))
  {
    var missing := Missing(page, m.event.notes, Already(page, s.notes.pins));
    MissingAreNotes(page, m.event.notes, Already(page, s.notes.pins));
    var extra := Placed(page, s, m.event);
    forall i | 0 <= i < |extra|
      ensures Targeted(extra[i])
    {
      assert missing[i] in m.event.notes;
      RestoringIsTargeted(s.notes.keys + i, missing[i]);
    }
  }

  lemma {:induction false} CloserIsTold(page: Page, s: State, m: Moment)
    requires Sound(s.notes) && Enabled(s, m)
    requires m.event.Closed? || m.event.Opened? || m.event.ReadonlySet? || m.event.SentAll?
    ensures Told(page, s, m)
  {
    var pins, e := s.notes.pins, m.event;
    assert pins + [] == pins;
    CloseIs(page, s, m.present);
    NoEditorCloses(pins, m.present);
    match e
    case Closed =>
      if s.notes.editor.None? {
        StandsStill(page, s, m);
      } else {
        CanvasIs(page, s, m, ClosedOn(s.notes.editor, m.present));
      }
    case Opened(i) => OpenedIsTold(page, s, m);
    case ReadonlySet(value) => ReadonlyIsTold(page, s, m);
    case SentAll => SentAllIsTold(page, s, m);
  }

  lemma {:induction false} OpenedIsTold(page: Page, s: State, m: Moment)
    requires Sound(s.notes) && Enabled(s, m) && m.event.Opened?
    ensures Told(page, s, m)
  {
    var pins, editor := s.notes.pins, s.notes.editor;
    assert pins + [] == pins;
    var pin := pins[m.event.index];
    if !MayAdd(s) || (editor.Some? && editor.value.key == pin.key) {
      assert forall key :: Opens(page, s, m.event, key) ==> key == pin.key;
      StandsStill(page, s, m);
    } else {
      assert Opens(page, s, m.event, pin.key);
      OpenIs(page, s, pin, m.present);
      NoEditorCloses(pins, m.present);
      CanvasIs(page, s, m, if Closes(page, s, m.event) then ClosedOn(editor, m.present) else OffPage(m.present));
    }
  }

  /** Closing the editor, if one is open, and drawing the canvas again. */
  lemma {:induction false} CloseThenPruneIs(page: Page, s: State, present: set<Id>)
    requires Sound(s.notes)
    ensures var t := Close(page, s, present);
            && AllTargeted(t.notes.pins)
            && Becoming(t.notes.pins, OffPage(present)) == Becoming(s.notes.pins, ClosedOn(s.notes.editor, present))
  {
    CloseIs(page, s, present);
    ClosedTargeted(s.notes.pins, s.notes.editor, present);
    ClosedThenOffPage(s.notes.pins, s.notes.editor, present);
    NoEditorCloses(s.notes.pins, present);
  }

  /** Once the canvas has closed its editor, it is drawn. */
  lemma {:induction false} ClosesAre(page: Page, s: State, m: Moment)
    requires m.event.ReadonlySet? || m.event.SentAll?
    requires !Empties(page, s, m.event) && Redraws(page, s, m.event)
    requires m.event.ReadonlySet? ==> m.event.value
    ensures Canvas(page, s, m) == Becoming(s.notes.pins, ClosedOn(s.notes.editor, m.present))
  {
    var pins := s.notes.pins;
    assert pins + [] == pins;
    NoEditorCloses(pins, m.present);
    CanvasIs(page, s, m, if Closes(page, s, m.event) then ClosedOn(s.notes.editor, m.present)
                         else OffPage(m.present));
  }

  lemma {:induction false} SetReadonlyIs(page: Page, s: State, value: bool, present: set<Id>)
    requires Sound(s.notes)
    ensures SetReadonly(page, s, value, present).notes.pins ==
            Becoming(s.notes.pins, if value then ClosedOn(s.notes.editor, present) else OffPage(present))
  {
    var moded := s.(mode := Mode(value, s.mode.busy && !(s.mode.readonly && !value)));
    if value {
      CloseThenPruneIs(page, moded, present);
      PruneIs(page, Close(page, moded, present), present);
    } else {
      PruneIs(page, moded, present);
    }
  }

  lemma {:induction false} ReadonlyIsTold(page: Page, s: State, m: Moment)
    requires Sound(s.notes) && m.event.ReadonlySet?
    ensures Told(page, s, m)
  {
    SetReadonlyIs(page, s, m.event.value, m.present);
    if m.event.value {
      ClosesAre(page, s, m);
    } else {
      assert s.notes.pins + [] == s.notes.pins;
      CanvasIs(page, s, m, OffPage(m.present));
    }
  }

  lemma {:induction false} SendAllIs(page: Page, s: State, present: set<Id>)
    requires Sound(s.notes) && Sends(s)
    ensures SendAll(page, s, present).notes.pins == Becoming(s.notes.pins, ClosedOn(s.notes.editor, present))
  {
    CloseThenPruneIs(page, s, present);
    PruneIs(page, SetBusy(Close(page, s, present), true), present);
  }

  lemma {:induction false} SentAllIsTold(page: Page, s: State, m: Moment)
    requires Sound(s.notes) && m.event.SentAll?
    ensures Told(page, s, m)
  {
    if !Sends(s) {
      StandsStill(page, s, m);
    } else {
      SendAllIs(page, s, m.present);
      ClosesAre(page, s, m);
    }
  }

  lemma {:induction false} TypeIsTold(page: Page, s: State, m: Moment)
    requires Sound(s.notes) && Enabled(s, m) && m.event.Typed?
    ensures Told(page, s, m)
  {
    var pins, key, text := s.notes.pins, s.notes.editor.value.key, m.event.text;
    assert pins + [] == pins;
    WritingIs(pins, key, text);
    BecomingTwice(pins, Writing(key, text), Stays());
    AllStay(SetText(pins, key, text));
    if !Has(pins, key) {
      UntouchedText(pins, key, text);
    }
    assert !Closes(page, s, m.event);
  }

  lemma {:induction false} EmptiesAre(page: Page, s: State, m: Moment)
    requires Sound(s.notes) && Enabled(s, m) && Empties(page, s, m.event)
    ensures Told(page, s, m)
  {
    ClearMoves(page, SetBusy(s, false), m.present);
    ClearMoves(page, s, m.present);
  }

  lemma {:induction false} RedrawIsTold(page: Page, s: State, m: Moment)
    requires Sound(s.notes) && (m.event.Rendered? || m.event.Settled? || m.event.RequestFailed? || m.event.Cleared?)
    ensures Told(page, s, m)
  {
    if Empties(page, s, m.event) {
      EmptiesAre(page, s, m);
    } else {
      PruneIs(page, s, m.present);
      PruneIs(page, SetBusy(s, false), m.present);
      DrawsAgain(page, s, m);
    }
  }

  /** After any event the canvas is, pin by pin, what is told of it. */
  lemma {:induction false} CanvasIsTold(page: Page, s: State, m: Moment)
    requires Sound(s.notes) && Enabled(s, m) && WellFormed(m)
    ensures Told(page, s, m)
  {
    match m.event
    case Added(_, _, _) => AddIsTold(page, s, m);
    case RegionAdded(_, _) => RegionIsTold(page, s, m);
    case Restored(_) => RestoreIsTold(page, s, m);
    case Typed(_) => TypeIsTold(page, s, m);
    case Closed => CloserIsTold(page, s, m);
    case Opened(_) => CloserIsTold(page, s, m);
    case ReadonlySet(_) => CloserIsTold(page, s, m);
    case SentAll => CloserIsTold(page, s, m);
    case Cleared => RedrawIsTold(page, s, m);
    case Rendered => RedrawIsTold(page, s, m);
    case Settled(_, _, _) => RedrawIsTold(page, s, m);
    case RequestFailed => RedrawIsTold(page, s, m);
    case _ => StandsStill(page, s, m);
  }

  // Runs of well-formed events keep the canvas sound.

  lemma {:induction false} WritesTargeted(pins: seq<Pin>, s: State, e: Event)
    requires AllTargeted(pins)
    ensures AllTargeted(Becoming(pins, Writes(s, e)))
  {
    forall i | 0 <= i < |pins|
      ensures Writes(s, e)(pins[i]).Some? && Targeted(Writes(s, e)(pins[i]).value)
    {
      assert Targeted(pins[i]);
    }
    BecomingTargeted(pins, Writes(s, e));
  }

  lemma {:induction false} PlacedTargeted(page: Page, s: State, m: Moment)
    requires Sound(s.notes) && WellFormed(m)
    ensures AllTargeted(s.notes.pins + Placed(page, s, m.event))
  {
    var pins := s.notes.pins;
    assert pins + [] == pins;
    match m.event
    case Added(ids, text, point) => AddGoes(s, ids, text, point);
    case Restored(_) => RestoredAreTargeted(page, s, m);
    case _ =>
  }

  lemma {:induction false} CanvasTargeted(page: Page, s: State, m: Moment)
    requires Sound(s.notes) && WellFormed(m)
    ensures AllTargeted(Canvas(page, s, m))
  {
    if !Empties(page, s, m.event) {
      var all, w := s.notes.pins + Placed(page, s, m.event), Writes(s, m.event);
      PlacedTargeted(page, s, m);
      WritesTargeted(all, s, m.event);
      var written := Becoming(all, w);
      ClosedTargeted(written, s.notes.editor, m.present);
      OffPageTargeted(written, m.present);
      AllStay(written);
      BecomingTwice(all, w, ClosedOn(s.notes.editor, m.present));
      BecomingTwice(all, w, OffPage(m.present));
      BecomingTwice(all, w, Stays());
    }
  }

  predicate EditorOk(notes: Notes) {
    notes.editor.Some? ==> notes.editor.value.key < notes.keys
  }

  /** The mode and the count of keys stand, and so does the editor, unless it is closed. */
  predicate Framed(s: State, t: State) {
    t.mode == s.mode && t.notes.keys == s.notes.keys
    && (t.notes.editor == s.notes.editor || t.notes.editor.None?)
  }

  lemma {:induction false} PruneFrames(page: Page, s: State, present: set<Id>)
    ensures Framed(s, Prune(page, s, present)) && Framed(s, Changed(page, s, present))
  {
  }

  lemma {:induction false} CloseFrames(page: Page, s: State, present: set<Id>)
    ensures Framed(s, Close(page, s, present)) && Close(page, s, present).notes.editor.None?
  {
    if s.notes.editor.Some? {
      var closed := SetEditor(s, None);
      PruneFrames(page, closed, present);
      PruneFrames(page, SetPins(closed, Without(s.notes.pins, s.notes.editor.value.key)), present);
    }
  }

  lemma {:induction false} OpenFrames(page: Page, s: State, pin: Pin, present: set<Id>)
    ensures var t := Open(page, s, pin, present);
            && t.mode == s.mode && t.notes.keys == s.notes.keys
            && (t.notes.editor.Some? ==> t.notes.editor.value.key == pin.key)
  {
    CloseFrames(page, s, present);
    PruneFrames(page, SetEditor(Close(page, s, present), Some(Editor(pin.key, pin.text))), present);
  }

  lemma {:induction false} PlaceFrames(page: Page, s: State, pin: Pin, present: set<Id>)
    requires pin.key == s.notes.keys && EditorOk(s.notes)
    ensures Place(page, s, pin, present).mode == s.mode && EditorOk(Place(page, s, pin, present).notes)
    ensures Open(page, Place(page, s, pin, present), pin, present).mode == s.mode
    ensures EditorOk(Open(page, Place(page, s, pin, present), pin, present).notes)
  {
    PruneFrames(page, WithPin(s, pin), present);
    OpenFrames(page, Place(page, s, pin, present), pin, present);
  }

  lemma {:induction false} JoinFrames(page: Page, s: State, i: nat, text: string, present: set<Id>)
    requires Keyed(s.notes.pins, s.notes.keys) && EditorOk(s.notes) && i < |s.notes.pins|
    ensures var t := Changed(page, SetPins(s, Merged(s.notes.pins, i, text)), present);
            t.mode == s.mode && EditorOk(t.notes)
    ensures var t := Open(page, Changed(page, s, present), s.notes.pins[i], present);
            t.mode == s.mode && EditorOk(t.notes)
  {
    KeysAreDistinct(s.notes.pins, s.notes.keys);
    PruneFrames(page, s, present);
    PruneFrames(page, SetPins(s, Merged(s.notes.pins, i, text)), present);
    OpenFrames(page, Changed(page, s, present), s.notes.pins[i], present);
  }

  lemma {:induction false} AddFrames(page: Page, s: State, ids: seq<Id>, text: string, point: Option<Target>,
                                     present: set<Id>)
    requires Keyed(s.notes.pins, s.notes.keys) && EditorOk(s.notes)
    ensures var t := Add(page, s, ids, text, point, present); t.mode == s.mode && EditorOk(t.notes)
  {
    var pins, pin := s.notes.pins, Pin(s.notes.keys, Distinct(ids), text, point, None);
    var i := if point.Some? then |pins| else FindSame(pins, pin);
    if i < |pins| {
      JoinFrames(page, s, i, text, present);
    } else if |pins| >= NOTES_MAX {
      PruneFrames(page, s, present);
    } else {
      PlaceFrames(page, s, pin, present);
    }
  }

  lemma {:induction false} RegionFrames(page: Page, s: State, id: Id, region: Region, present: set<Id>)
    requires EditorOk(s.notes)
    ensures var t := AddRegion(page, s, id, region, present); t.mode == s.mode && EditorOk(t.notes)
  {
    PruneFrames(page, s, present);
    PlaceFrames(page, s, Pin(s.notes.keys, [id], "", None, Some(region)), present);
  }

  lemma {:induction false} RestoreFrames(page: Page, s: State, notes: seq<Note>, present: set<Id>)
    requires EditorOk(s.notes)
    ensures var t := Restore(page, s, notes, present); t.mode == s.mode && EditorOk(t.notes)
  {
    var grown := Grown(s, Extra(page, s, notes));
    PruneFrames(page, grown, present);
    PruneFrames(page, Prune(page, grown, present), present);
  }

  lemma {:induction false} ClearFrames(page: Page, s: State, present: set<Id>)
    requires EditorOk(s.notes)
    ensures Clear(page, s, present).mode == s.mode && EditorOk(Clear(page, s, present).notes)
  {
    CloseFrames(page, s, present);
    PruneFrames(page, SetPins(Close(page, s, present), []), present);
  }

  lemma {:induction false} SetReadonlyFrames(page: Page, s: State, value: bool, present: set<Id>)
    requires EditorOk(s.notes)
    ensures var t := SetReadonly(page, s, value, present);
            t.mode == ModeAfter(s, ReadonlySet(value)) && EditorOk(t.notes)
  {
    var moded := s.(mode := Mode(value, s.mode.busy && !(s.mode.readonly && !value)));
    CloseFrames(page, moded, present);
    PruneFrames(page, moded, present);
    PruneFrames(page, Close(page, moded, present), present);
  }

  lemma {:induction false} SendAllFrames(page: Page, s: State, present: set<Id>)
    requires EditorOk(s.notes)
    ensures var t := SendAll(page, s, present); t.mode == ModeAfter(s, SentAll) && EditorOk(t.notes)
  {
    CloseFrames(page, s, present);
    PruneFrames(page, SetBusy(Close(page, s, present), true), present);
  }

  /** Whether the canvas takes notes, and whether a request is on its way. */
  function ModeAfter(s: State, e: Event): Mode {
    match e
    case SentAll => Mode(s.mode.readonly, s.mode.busy || (!s.mode.readonly && s.notes.pins != []))
    case Settled(_, _, _) => s.mode.(busy := false)
    case RequestFailed => s.mode.(busy := false)
    case ReadonlySet(value) => Mode(value, s.mode.busy && (value || !s.mode.readonly))
    case _ => s.mode
  }

  /** The mode after an event, and that an open editor belongs to a pin that was placed. */
  lemma {:induction false} ModeFollowsEvents(page: Page, s: State, m: Moment)
    requires Keyed(s.notes.pins, s.notes.keys) && EditorOk(s.notes) && Enabled(s, m)
    ensures Step(page, s, m).mode == ModeAfter(s, m.event) && EditorOk(Step(page, s, m).notes)
  {
    PruneFrames(page, s, m.present);
    PruneFrames(page, SetBusy(s, false), m.present);
    match m.event
    case Added(ids, text, point) => AddFrames(page, s, ids, text, point, m.present);
    case RegionAdded(id, region) => RegionFrames(page, s, id, region, m.present);
    case Restored(notes) => RestoreFrames(page, s, notes, m.present);
    case Cleared => ClearFrames(page, s, m.present);
    case Settled(_, _, _) => ClearFrames(page, SetBusy(s, false), m.present);
    case Closed => CloseFrames(page, s, m.present);
    case Opened(i) =>
      KeysAreDistinct(s.notes.pins, s.notes.keys);
      OpenFrames(page, s, s.notes.pins[i], m.present);
    case ReadonlySet(value) => SetReadonlyFrames(page, s, value, m.present);
    case SentAll => SendAllFrames(page, s, m.present);
    case _ =>
  }

  lemma {:induction false} StepKeepsOrder(page: Page, s: State, m: Moment)
    requires Orderly(s.notes) && Enabled(s, m)
    ensures Orderly(Step(page, s, m).notes)
  {
    if m.event.SentAll? {
      ReadiedMoves(page, s, m.present);
    } else if !Publishing(m.event) {
      HandlerMoves(page, s, m);
    }
  }

  lemma {:induction false} StepKeepsSound(page: Page, s: State, m: Moment)
    requires Sound(s.notes) && Enabled(s, m) && WellFormed(m)
    ensures Sound(Step(page, s, m).notes)
  {
    StepKeepsOrder(page, s, m);
    ModeFollowsEvents(page, s, m);
    CanvasIsTold(page, s, m);
    CanvasTargeted(page, s, m);
  }

  ghost predicate AllWellFormed(moments: seq<Moment>) {
    forall m :: m in moments ==> WellFormed(m)
  }

  lemma {:induction false} RunKeepsSound(page: Page, s: State, moments: seq<Moment>, t: State)
    requires Sound(s.notes) && Leads(page, s, moments, t) && AllWellFormed(moments)
    ensures Sound(t.notes)
    decreases |moments|
  {
    if moments != [] {
      assert moments[0] in moments;
      StepKeepsSound(page, s, moments[0]);
      assert forall m :: m in moments[1..] ==> m in moments;
      RunKeepsSound(page, Step(page, s, moments[0]), moments[1..], t);
    }
  }

  /** After every run the next event makes of the canvas, pin by pin, what is told of it. */
  lemma {:induction false} CanvasFollowsEvents(page: Page, moments: seq<Moment>, s: State, m: Moment)
    requires Leads(page, Initial(), moments, s) && AllWellFormed(moments)
    requires Enabled(s, m) && WellFormed(m)
    ensures Step(page, s, m).notes.pins == Canvas(page, s, m)
  {
    RunKeepsSound(page, Initial(), moments, s);
    CanvasIsTold(page, s, m);
  }
}
