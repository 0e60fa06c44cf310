/** `mapArtworkAssets` of packages/design-authoring/src/canvas-format.ts: asset sources rewritten in place,
    in a graph whose objects may be shared. An object is a cell of `objects`; a reference is its index. Two
    places that hold the same reference share the object, and what one visit writes the other reads. The
    traversal is a class, whose methods are the nested functions of the original. */
module ArtworkMapper {
  import opened ArtworkTree
  import opened Options

  /** What the mapper looks at and writes: `type === 'image'`, `kind === 'image'` and `src`; the rest of
      the object is `data`. */
  datatype Leaf = Leaf(src: string, typeImage: bool, kindImage: bool, data: string)

  /** Fonts always carry an asset, elements of kind image and fills of type image do. */
  predicate IsAsset(leaf: Leaf, at: At) {
    match at
    case FontAt(_) => true
    case ElementAt(_) => leaf.kindImage
    case OtherAt => false
    case _ => leaf.typeImage
  }

  /** One call of the callback. */
  datatype Call = Call(src: string, at: At)

  /** The callback: the new source, and the calls on which it throws instead. */
  datatype Callback = Callback(rename: string -> string, throws: Call -> bool)

  // What the traversal does, visit by visit.

  datatype Rewriting = Rewriting(objects: seq<Leaf>, originals: map<nat, string>, calls: seq<Call>, thrown: bool)

  predicate InGraph(slots: seq<Slot<nat>>, size: nat) {
    forall k :: 0 <= k < |slots| ==> slots[k].leaf < size
  }

  function Source(callback: Callback, s: Rewriting, ref: nat, at: At): (t: Rewriting)
    requires ref < |s.objects|
    ensures |t.objects| == |s.objects|
  {
    if s.thrown then s
    else
      var original := if ref in s.originals then s.originals[ref] else s.objects[ref].src;
      var t := s.(originals := s.originals[ref := original], calls := s.calls + [Call(original, at)]);
      if callback.throws(Call(original, at)) then t.(thrown := true)
      else t.(objects := s.objects[ref := s.objects[ref].(src := callback.rename(original))])
  }

  function Visit(callback: Callback, s: Rewriting, slot: Slot<nat>): (t: Rewriting)
    requires slot.leaf < |s.objects|
    ensures |t.objects| == |s.objects|
  {
    if IsAsset(s.objects[slot.leaf], slot.at) then Source(callback, s, slot.leaf, slot.at) else s
  }

  function VisitAll(callback: Callback, s: Rewriting, slots: seq<Slot<nat>>): (t: Rewriting)
    requires InGraph(slots, |s.objects|)
    ensures |t.objects| == |s.objects|
  {
    if slots == [] then s
    else Visit(callback, VisitAll(callback, s, slots[..|slots| - 1]), slots[|slots| - 1])
  }

  lemma {:induction false} VisitJoin(callback: Callback, s: Rewriting, a: seq<Slot<nat>>, b: seq<Slot<nat>>)
    requires InGraph(a, |s.objects|) && InGraph(b, |s.objects|)
    ensures InGraph(a + b, |s.objects|)
    ensures VisitAll(callback, s, a + b) == VisitAll(callback, VisitAll(callback, s, a), b)
  {
    if b == [] {
      assert a + b == a;
    } else {
      VisitJoin(callback, s, a, b[..|b| - 1]);
      assert (a + b)[..|a + b| - 1] == a + b[..|b| - 1];
    }
  }

  // The traversal itself.

  class Mapper {
    const callback: Callback
    const objects: array<Leaf>
    var originals: map<nat, string>
    var calls: seq<Call>
    var thrown: bool

    ghost function State(): (s: Rewriting)
      reads this, objects
      ensures |s.objects| == objects.Length
    {
      Rewriting(objects[..], originals, calls, thrown)
    }

    constructor (callback: Callback, objects: array<Leaf>)
      ensures this.callback == callback && this.objects == objects
      ensures State() == Rewriting(objects[..], map[], [], false)
    {
      this.callback, this.objects := callback, objects;
      originals, calls, thrown := map[], [], false;
    }

    /** Always maps the original source of an object, however often it is visited. */
    method RewriteSource(ref: nat, at: At)
      requires ref < objects.Length && !thrown
      modifies this, objects
      ensures State() == Source(callback, old(State()), ref, at)
    {
      if ref !in originals {
        originals := originals[ref := objects[ref].src];
      }
      var original := originals[ref];
      calls := calls + [Call(original, at)];
      if callback.throws(Call(original, at)) {
        thrown := true;
      } else {
        objects[ref] := objects[ref].(src := callback.rename(original));
      }
    }

    method VisitOne(ref: nat, at: At)
      requires ref < objects.Length
      modifies this, objects
      ensures State() == Visit(callback, old(State()), Slot(ref, at))
    {
      if !thrown && IsAsset(objects[ref], at) {
        RewriteSource(ref, at);
      }
    }

    method VisitOption(ref: Option<nat>, at: At)
      requires InGraph(OptionSlots(ref, at), objects.Length)
      modifies this, objects
      ensures State() == VisitAll(callback, old(State()), OptionSlots(ref, at))
    {
      if ref.Some? {
        ghost var slots := OptionSlots(ref, at);
        assert slots[0].leaf < objects.Length;
        assert slots[..0] == [] && slots == [Slot(ref.value, at)];
        VisitOne(ref.value, at);
      }
    }

    method VisitList(refs: seq<Option<nat>>, family: Family)
      requires InGraph(ListSlots(refs, family), objects.Length)
      modifies this, objects
      ensures State() == VisitAll(callback, old(State()), ListSlots(refs, family))
    {
      ghost var begun := State();
      for k := 0 to |refs|
        invariant InGraph(ListSlots(refs[..k], family), objects.Length)
        invariant State() == VisitAll(callback, begun, ListSlots(refs[..k], family))
      {
        ListGrows(refs, family, k, objects.Length);
        VisitOption(refs[k], Place(family, k));
        VisitJoin(callback, begun, ListSlots(refs[..k], family), OptionSlots(refs[k], Place(family, k)));
      }
      assert refs[..|refs|] == refs;
    }

    method VisitRows(element: nat, rows: seq<seq<Option<nat>>>)
      requires InGraph(RowSlots(element, rows), objects.Length)
      modifies this, objects
      ensures State() == VisitAll(callback, old(State()), RowSlots(element, rows))
    {
      ghost var begun := State();
      for r := 0 to |rows|
        invariant InGraph(RowSlots(element, rows[..r]), objects.Length)
        invariant State() == VisitAll(callback, begun, RowSlots(element, rows[..r]))
      {
        RowsGrow(element, rows, r, objects.Length);
        VisitList(rows[r], Cells(element, r));
        VisitJoin(callback, begun, RowSlots(element, rows[..r]), ListSlots(rows[r], Cells(element, r)));
      }
      assert rows[..|rows|] == rows;
    }

    method VisitElement(i: nat, e: Element<nat>)
      requires InGraph(ElementSlots(i, e), objects.Length)
      modifies this, objects
      ensures State() == VisitAll(callback, old(State()), ElementSlots(i, e))
    {
      ghost var begun, n := State(), objects.Length;
      ghost var own, table, others := OwnSlots(i, e), TableSlots(i, e), ListSlots(Full(e.others), Others);
      InGraphParts(own + table, others, n);
      InGraphParts(own, table, n);
      VisitOwn(i, e);
      VisitTable(i, e);
      VisitJoin(callback, begun, own, table);
      NothingElse(callback, State(), e.others);
      VisitJoin(callback, begun, own + table, others);
    }

    method VisitOwn(i: nat, e: Element<nat>)
      requires InGraph(OwnSlots(i, e), objects.Length)
      modifies this, objects
      ensures State() == VisitAll(callback, old(State()), OwnSlots(i, e))
    {
      ghost var begun, n := State(), objects.Length;
      var self := Some(e.self);
      ghost var a, b := OptionSlots(self, ElementAt(i)), OptionSlots(e.fill, FillAt(i));
      ghost var c := OptionSlots(e.chart, ChartAt(i));
      assert OwnSlots(i, e) == a + b + c;
      InGraphParts(a + b, c, n);
      InGraphParts(a, b, n);
      VisitOption(self, ElementAt(i));
      VisitOption(e.fill, FillAt(i));
      VisitJoin(callback, begun, a, b);
      VisitOption(e.chart, ChartAt(i));
      VisitJoin(callback, begun, a + b, c);
    }

    method VisitTable(i: nat, e: Element<nat>)
      requires InGraph(TableSlots(i, e), objects.Length)
      modifies this, objects
      ensures State() == VisitAll(callback, old(State()), TableSlots(i, e))
    {
      ghost var begun, n := State(), objects.Length;
      ghost var a, b, c := RowSlots(i, e.rows), ListSlots(e.style, Styles(i)), ListSlots(e.body, Bodies(i));
      InGraphParts(a + b, c, n);
      InGraphParts(a, b, n);
      VisitRows(i, e.rows);
      VisitList(e.style, Styles(i));
      VisitJoin(callback, begun, a, b);
      VisitList(e.body, Bodies(i));
      VisitJoin(callback, begun, a + b, c);
    }

    method VisitElements(elements: seq<Element<nat>>)
      requires InGraph(ElementsSlots(elements), objects.Length)
      modifies this, objects
      ensures State() == VisitAll(callback, old(State()), ElementsSlots(elements))
    {
      ghost var begun := State();
      for i := 0 to |elements|
        invariant InGraph(ElementsSlots(elements[..i]), objects.Length)
        invariant State() == VisitAll(callback, begun, ElementsSlots(elements[..i]))
      {
        ElementsGrow(elements, i, objects.Length);
        VisitElement(i, elements[i]);
        VisitJoin(callback, begun, ElementsSlots(elements[..i]), ElementSlots(i, elements[i]));
      }
      assert elements[..|elements|] == elements;
    }

    method MapArtworkAssets(p: Project<nat>)
      requires InGraph(Slots(p), objects.Length)
      modifies this, objects
      ensures State() == VisitAll(callback, old(State()), Slots(p))
    {
      ghost var begun, n := State(), objects.Length;
      ghost var a, b, c := FontSlots(p.fonts), OptionSlots(p.background, BackgroundAt), ElementsSlots(p.elements);
      InGraphParts(a + b, c, n);
      InGraphParts(a, b, n);
      if p.fonts.Some? {
        VisitList(Full(p.fonts.value), Fonts);
      }
      VisitOption(p.background, BackgroundAt);
      VisitJoin(callback, begun, a, b);
      VisitElements(p.elements);
      VisitJoin(callback, begun, a + b, c);
    }
  }

  lemma {:induction false} InGraphParts(a: seq<Slot<nat>>, b: seq<Slot<nat>>, n: nat)
    requires InGraph(a + b, n)
    ensures InGraph(a, n) && InGraph(b, n)
  {
    forall k | 0 <= k < |a|
      ensures a[k].leaf < n
    {
      assert (a + b)[k] == a[k];
    }
    forall k | 0 <= k < |b|
      ensures b[k].leaf < n
    {
      assert (a + b)[|a| + k] == b[k];
    }
  }

  lemma {:induction false} ListPrefix(refs: seq<Option<nat>>, family: Family, k: nat, n: nat)
    requires k <= |refs| && InGraph(ListSlots(refs, family), n)
    ensures InGraph(ListSlots(refs[..k], family), n)
    decreases |refs|
  {
    if k == |refs| {
      assert refs[..k] == refs;
    } else {
      var last := |refs| - 1;
      InGraphParts(ListSlots(refs[..last], family), OptionSlots(refs[last], Place(family, last)), n);
      ListPrefix(refs[..last], family, k, n);
      assert refs[..last][..k] == refs[..k];
    }
  }

  lemma {:induction false} ListGrows(refs: seq<Option<nat>>, family: Family, k: nat, n: nat)
    requires k < |refs| && InGraph(ListSlots(refs, family), n)
    ensures ListSlots(refs[..k + 1], family) == ListSlots(refs[..k], family) + OptionSlots(refs[k], Place(family, k))
    ensures InGraph(ListSlots(refs[..k + 1], family), n) && InGraph(OptionSlots(refs[k], Place(family, k)), n)
  {
    ListPrefix(refs, family, k + 1, n);
    assert refs[..k + 1][..k] == refs[..k];
    InGraphParts(ListSlots(refs[..k], family), OptionSlots(refs[k], Place(family, k)), n);
  }

  lemma {:induction false} RowsPrefix(element: nat, rows: seq<seq<Option<nat>>>, r: nat, n: nat)
    requires r <= |rows| && InGraph(RowSlots(element, rows), n)
    ensures InGraph(RowSlots(element, rows[..r]), n)
    decreases |rows|
  {
    if r == |rows| {
      assert rows[..r] == rows;
    } else {
      var last := |rows| - 1;
      InGraphParts(RowSlots(element, rows[..last]), ListSlots(rows[last], Cells(element, last)), n);
      RowsPrefix(element, rows[..last], r, n);
      assert rows[..last][..r] == rows[..r];
    }
  }

  lemma {:induction false} RowsGrow(element: nat, rows: seq<seq<Option<nat>>>, r: nat, n: nat)
    requires r < |rows| && InGraph(RowSlots(element, rows), n)
    ensures RowSlots(element, rows[..r + 1]) == RowSlots(element, rows[..r]) + ListSlots(rows[r], Cells(element, r))
    ensures InGraph(RowSlots(element, rows[..r + 1]), n) && InGraph(ListSlots(rows[r], Cells(element, r)), n)
  {
    RowsPrefix(element, rows, r + 1, n);
    assert rows[..r + 1][..r] == rows[..r];
    InGraphParts(RowSlots(element, rows[..r]), ListSlots(rows[r], Cells(element, r)), n);
  }

  lemma {:induction false} ElementsPrefix(elements: seq<Element<nat>>, i: nat, n: nat)
    requires i <= |elements| && InGraph(ElementsSlots(elements), n)
    ensures InGraph(ElementsSlots(elements[..i]), n)
    decreases |elements|
  {
    if i == |elements| {
      assert elements[..i] == elements;
    } else {
      var last := |elements| - 1;
      InGraphParts(ElementsSlots(elements[..last]), ElementSlots(last, elements[last]), n);
      ElementsPrefix(elements[..last], i, n);
      assert elements[..last][..i] == elements[..i];
    }
  }

  lemma {:induction false} ElementsGrow(elements: seq<Element<nat>>, i: nat, n: nat)
    requires i < |elements| && InGraph(ElementsSlots(elements), n)
    ensures ElementsSlots(elements[..i + 1]) == ElementsSlots(elements[..i]) + ElementSlots(i, elements[i])
    ensures InGraph(ElementsSlots(elements[..i + 1]), n) && InGraph(ElementSlots(i, elements[i]), n)
  {
    ElementsPrefix(elements, i + 1, n);
    assert elements[..i + 1][..i] == elements[..i];
    InGraphParts(ElementsSlots(elements[..i]), ElementSlots(i, elements[i]), n);
  }

  /** No asset is looked for at other places. */
  lemma {:induction false} NothingElse(callback: Callback, s: Rewriting, others: seq<nat>)
    requires InGraph(ListSlots(Full(others), Others), |s.objects|)
    ensures VisitAll(callback, s, ListSlots(Full(others), Others)) == s
  {
    OtherPlaces(Full(others));
    NoAssets(callback, s, ListSlots(Full(others), Others));
  }

  lemma {:induction false} OtherPlaces(refs: seq<Option<nat>>)
    ensures forall k :: 0 <= k < |ListSlots(refs, Others)| ==> ListSlots(refs, Others)[k].at == OtherAt
  {
    if refs != [] {
      OtherPlaces(refs[..|refs| - 1]);
    }
  }

  lemma {:induction false} NoAssets(callback: Callback, s: Rewriting, slots: seq<Slot<nat>>)
    requires InGraph(slots, |s.objects|) && forall k :: 0 <= k < |slots| ==> slots[k].at == OtherAt
    ensures VisitAll(callback, s, slots) == s
  {
    if slots != [] {
      NoAssets(callback, s, slots[..|slots| - 1]);
    }
  }
}
