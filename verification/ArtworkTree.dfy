/** The shape of an artwork of packages/design-authoring/src/canvas-format.ts: which of its places may
    hold an asset, in the order `mapArtworkAssets` visits them. A place holds a `T`: a value when the
    artwork is seen as a tree, an object reference when it is the graph the program rewrites. */
module ArtworkTree {
  import opened Options

  /** A place, as its path in `design.yaml` names it. `OtherAt` is every place no asset is looked for. */
  datatype At =
    | FontAt(font: nat)
    | BackgroundAt
    | ElementAt(element: nat)
    | FillAt(element: nat)
    | ChartAt(element: nat)
    | CellAt(element: nat, row: nat, column: nat)
    | StyleAt(element: nat, slot: nat)
    | BodyAt(element: nat, body: nat)
    | OtherAt

  /** An element: the object itself, its fill and chart fill, the fills of its table's cells, of the five
      named table styles and of the body styles, and whatever else it refers to. */
  datatype Element<T> = Element(
    id: string, zIndex: Option<int>, data: string,
    self: T, fill: Option<T>, chart: Option<T>,
    rows: seq<seq<Option<T>>>, style: seq<Option<T>>, body: seq<Option<T>>, others: seq<T>)

  datatype Project<T> = Project(
    format: string, title: Option<string>, size: (int, int), diagnostics: Option<string>,
    fonts: Option<seq<T>>, background: Option<T>, elements: seq<Element<T>>)

  datatype Slot<T> = Slot(leaf: T, at: At)

  /** Places that stand in a list. */
  datatype Family = Fonts | Cells(element: nat, row: nat) | Styles(element: nat) | Bodies(element: nat) | Others

  function Place(family: Family, k: nat): At {
    match family
    case Fonts => FontAt(k)
    case Cells(element, row) => CellAt(element, row, k)
    case Styles(element) => StyleAt(element, k)
    case Bodies(element) => BodyAt(element, k)
    case Others => OtherAt
  }

  // The places of an artwork, in the order of the traversal.

  function OptionSlots<T>(x: Option<T>, at: At): seq<Slot<T>> {
    if x.None? then [] else [Slot(x.value, at)]
  }

  function ListSlots<T>(xs: seq<Option<T>>, family: Family): seq<Slot<T>> {
    if xs == [] then [] else ListSlots(xs[..|xs| - 1], family) + OptionSlots(xs[|xs| - 1], Place(family, |xs| - 1))
  }

  function RowSlots<T>(element: nat, rows: seq<seq<Option<T>>>): seq<Slot<T>> {
    if rows == [] then []
    else
      var r := |rows| - 1;
      RowSlots(element, rows[..r]) + ListSlots(rows[r], Cells(element, r))
  }

  function Full<T>(xs: seq<T>): seq<Option<T>> {
    seq(|xs|, k requires 0 <= k < |xs| => Some(xs[k]))
  }

  function OwnSlots<T>(i: nat, e: Element<T>): seq<Slot<T>> {
    [Slot(e.self, ElementAt(i))] + OptionSlots(e.fill, FillAt(i)) + OptionSlots(e.chart, ChartAt(i))
  }

  function TableSlots<T>(i: nat, e: Element<T>): seq<Slot<T>> {
    RowSlots(i, e.rows) + ListSlots(e.style, Styles(i)) + ListSlots(e.body, Bodies(i))
  }

  function ElementSlots<T>(i: nat, e: Element<T>): seq<Slot<T>> {
    OwnSlots(i, e) + TableSlots(i, e) + ListSlots(Full(e.others), Others)
  }

  function ElementsSlots<T>(elements: seq<Element<T>>): seq<Slot<T>> {
    if elements == [] then []
    else
      var i := |elements| - 1;
      ElementsSlots(elements[..i]) + ElementSlots(i, elements[i])
  }

  function FontSlots<T>(fonts: Option<seq<T>>): seq<Slot<T>> {
    if fonts.None? then [] else ListSlots(Full(fonts.value), Fonts)
  }

  function Slots<T>(p: Project<T>): seq<Slot<T>> {
    FontSlots(p.fonts) + OptionSlots(p.background, BackgroundAt) + ElementsSlots(p.elements)
  }

  // Fonts, background and elements.

  /** A place of an element: neither a font's nor the background's. */
  predicate InElements(at: At) {
    !at.FontAt? && !at.BackgroundAt?
  }

  lemma {:induction false} ListPlaces<T>(xs: seq<Option<T>>, family: Family)
    ensures forall k :: 0 <= k < |ListSlots(xs, family)| ==>
              (InElements(ListSlots(xs, family)[k].at) <==> !family.Fonts?)
  {
    if xs != [] {
      ListPlaces(xs[..|xs| - 1], family);
    }
  }

  lemma {:induction false} RowPlaces<T>(element: nat, rows: seq<seq<Option<T>>>)
    ensures forall k :: 0 <= k < |RowSlots(element, rows)| ==> InElements(RowSlots(element, rows)[k].at)
  {
    if rows != [] {
      var r := |rows| - 1;
      RowPlaces(element, rows[..r]);
      ListPlaces(rows[r], Cells(element, r));
    }
  }

  lemma {:induction false} ElementPlaces<T>(i: nat, e: Element<T>)
    ensures forall k :: 0 <= k < |ElementSlots(i, e)| ==> InElements(ElementSlots(i, e)[k].at)
  {
    RowPlaces(i, e.rows);
    ListPlaces(e.style, Styles(i));
    ListPlaces(e.body, Bodies(i));
    ListPlaces(Full(e.others), Others);
  }

  lemma {:induction false} ElementsPlaces<T>(elements: seq<Element<T>>)
    ensures forall k :: 0 <= k < |ElementsSlots(elements)| ==> InElements(ElementsSlots(elements)[k].at)
  {
    if elements != [] {
      var i := |elements| - 1;
      ElementsPlaces(elements[..i]);
      ElementPlaces(i, elements[i]);
    }
  }

  lemma {:induction false} OtherPlaces<T>(fonts: Option<seq<T>>, background: Option<T>)
    ensures var slots := FontSlots(fonts) + OptionSlots(background, BackgroundAt);
            forall k :: 0 <= k < |slots| ==> !InElements(slots[k].at)
  {
    if fonts.Some? {
      ListPlaces(Full(fonts.value), Fonts);
    }
  }

  /** The places of the elements are the last ones, and the only ones of their kind. */
  ghost predicate EndsIn<T>(slots: seq<Slot<T>>, elements: seq<Slot<T>>) {
    && |elements| <= |slots|
    && (forall k :: 0 <= k < |slots| - |elements| ==> !InElements(slots[k].at))
    && (forall k :: 0 <= k < |elements| ==>
          slots[|slots| - |elements| + k] == elements[k] && InElements(elements[k].at))
  }

  lemma {:induction false} Joined<T>(others: seq<Slot<T>>, elements: seq<Slot<T>>)
    requires forall k :: 0 <= k < |others| ==> !InElements(others[k].at)
    requires forall k :: 0 <= k < |elements| ==> InElements(elements[k].at)
    ensures EndsIn(others + elements, elements)
  {
  }

  lemma {:induction false} SlotsBySection<T>(p: Project<T>)
    ensures EndsIn(Slots(p), ElementsSlots(p.elements))
  {
    OtherPlaces(p.fonts, p.background);
    ElementsPlaces(p.elements);
    Joined(FontSlots(p.fonts) + OptionSlots(p.background, BackgroundAt), ElementsSlots(p.elements));
  }

  // Changing what every place holds.

  function MapOption<T, U>(x: Option<T>, g: (T, At) -> U, at: At): Option<U> {
    if x.None? then None else Some(g(x.value, at))
  }

  function MapList<T, U>(xs: seq<Option<T>>, g: (T, At) -> U, family: Family): seq<Option<U>> {
    seq(|xs|, k requires 0 <= k < |xs| => MapOption(xs[k], g, Place(family, k)))
  }

  function MapRows<T, U>(element: nat, rows: seq<seq<Option<T>>>, g: (T, At) -> U): seq<seq<Option<U>>> {
    seq(|rows|, r requires 0 <= r < |rows| => MapList(rows[r], g, Cells(element, r)))
  }

  function MapFull<T, U>(xs: seq<T>, g: (T, At) -> U, family: Family): seq<U> {
    seq(|xs|, k requires 0 <= k < |xs| => g(xs[k], Place(family, k)))
  }

  function MapElement<T, U>(i: nat, e: Element<T>, g: (T, At) -> U): Element<U> {
    Element(e.id, e.zIndex, e.data, g(e.self, ElementAt(i)),
            MapOption(e.fill, g, FillAt(i)), MapOption(e.chart, g, ChartAt(i)),
            MapRows(i, e.rows, g), MapList(e.style, g, Styles(i)), MapList(e.body, g, Bodies(i)),
            MapFull(e.others, g, Others))
  }

  function MapElements<T, U>(elements: seq<Element<T>>, g: (T, At) -> U): seq<Element<U>> {
    seq(|elements|, i requires 0 <= i < |elements| => MapElement(i, elements[i], g))
  }

  function MapFonts<T, U>(fonts: Option<seq<T>>, g: (T, At) -> U): Option<seq<U>> {
    if fonts.None? then None else Some(MapFull(fonts.value, g, Fonts))
  }

  function MapProject<T, U>(p: Project<T>, g: (T, At) -> U): Project<U> {
    Project(p.format, p.title, p.size, p.diagnostics,
            MapFonts(p.fonts, g), MapOption(p.background, g, BackgroundAt), MapElements(p.elements, g))
  }

  function MapSlots<T, U>(slots: seq<Slot<T>>, g: (T, At) -> U): seq<Slot<U>> {
    seq(|slots|, k requires 0 <= k < |slots| => Slot(g(slots[k].leaf, slots[k].at), slots[k].at))
  }

  // Mapping the artwork maps its places.

  lemma {:induction false} MapSlotsJoin<T, U>(a: seq<Slot<T>>, b: seq<Slot<T>>, g: (T, At) -> U)
    ensures MapSlots(a + b, g) == MapSlots(a, g) + MapSlots(b, g)
  {
  }

  lemma {:induction false} ListSlotsMap<T, U>(xs: seq<Option<T>>, g: (T, At) -> U, family: Family)
    ensures ListSlots(MapList(xs, g, family), family) == MapSlots(ListSlots(xs, family), g)
  {
    if xs != [] {
      var n := |xs| - 1;
      ListSlotsMap(xs[..n], g, family);
      assert MapList(xs, g, family)[..n] == MapList(xs[..n], g, family);
      MapSlotsJoin(ListSlots(xs[..n], family), OptionSlots(xs[n], Place(family, n)), g);
    }
  }

  lemma {:induction false} FullSlotsMap<T, U>(xs: seq<T>, g: (T, At) -> U, family: Family)
    ensures ListSlots(Full(MapFull(xs, g, family)), family) == MapSlots(ListSlots(Full(xs), family), g)
  {
    ListSlotsMap(Full(xs), g, family);
    assert Full(MapFull(xs, g, family)) == MapList(Full(xs), g, family);
  }

  lemma {:induction false} RowSlotsMap<T, U>(element: nat, rows: seq<seq<Option<T>>>, g: (T, At) -> U)
    ensures RowSlots(element, MapRows(element, rows, g)) == MapSlots(RowSlots(element, rows), g)
  {
    if rows != [] {
      var r := |rows| - 1;
      RowSlotsMap(element, rows[..r], g);
      assert MapRows(element, rows, g)[..r] == MapRows(element, rows[..r], g);
      ListSlotsMap(rows[r], g, Cells(element, r));
      MapSlotsJoin(RowSlots(element, rows[..r]), ListSlots(rows[r], Cells(element, r)), g);
    }
  }

  lemma {:induction false} ThreeSlotsMap<T, U>(a: seq<Slot<T>>, b: seq<Slot<T>>, c: seq<Slot<T>>, g: (T, At) -> U)
    ensures MapSlots(a + b + c, g) == MapSlots(a, g) + MapSlots(b, g) + MapSlots(c, g)
  {
    MapSlotsJoin(a, b, g);
    MapSlotsJoin(a + b, c, g);
  }

  lemma {:induction false} OptionSlotsMap<T, U>(x: Option<T>, g: (T, At) -> U, at: At)
    ensures OptionSlots(MapOption(x, g, at), at) == MapSlots(OptionSlots(x, at), g)
  {
  }

  lemma {:induction false} OwnSlotsMap<T, U>(i: nat, e: Element<T>, g: (T, At) -> U)
    ensures OwnSlots(i, MapElement(i, e, g)) == MapSlots(OwnSlots(i, e), g)
  {
    var self := [Slot(e.self, ElementAt(i))];
    ThreeSlotsMap(self, OptionSlots(e.fill, FillAt(i)), OptionSlots(e.chart, ChartAt(i)), g);
    OptionSlotsMap(e.fill, g, FillAt(i));
    OptionSlotsMap(e.chart, g, ChartAt(i));
    assert MapSlots(self, g) == [Slot(g(e.self, ElementAt(i)), ElementAt(i))];
  }

  lemma {:induction false} TableSlotsMap<T, U>(i: nat, e: Element<T>, g: (T, At) -> U)
    ensures TableSlots(i, MapElement(i, e, g)) == MapSlots(TableSlots(i, e), g)
  {
    ThreeSlotsMap(RowSlots(i, e.rows), ListSlots(e.style, Styles(i)), ListSlots(e.body, Bodies(i)), g);
    RowSlotsMap(i, e.rows, g);
    ListSlotsMap(e.style, g, Styles(i));
    ListSlotsMap(e.body, g, Bodies(i));
  }

  lemma {:induction false} ElementSlotsMap<T, U>(i: nat, e: Element<T>, g: (T, At) -> U)
    ensures ElementSlots(i, MapElement(i, e, g)) == MapSlots(ElementSlots(i, e), g)
  {
    ThreeSlotsMap(OwnSlots(i, e), TableSlots(i, e), ListSlots(Full(e.others), Others), g);
    OwnSlotsMap(i, e, g);
    TableSlotsMap(i, e, g);
    FullSlotsMap(e.others, g, Others);
  }

  lemma {:induction false} LastElementMaps<T, U>(elements: seq<Element<T>>, g: (T, At) -> U)
    requires elements != []
    ensures var i := |elements| - 1;
            MapElements(elements, g) == MapElements(elements[..i], g) + [MapElement(i, elements[i], g)]
  {
  }

  lemma {:induction false} ElementsSlotsSnoc<T>(elements: seq<Element<T>>, e: Element<T>)
    ensures ElementsSlots(elements + [e]) == ElementsSlots(elements) + ElementSlots(|elements|, e)
  {
    assert (elements + [e])[..|elements|] == elements;
  }

  lemma {:induction false} ElementsSlotsMap<T, U>(elements: seq<Element<T>>, g: (T, At) -> U)
    ensures ElementsSlots(MapElements(elements, g)) == MapSlots(ElementsSlots(elements), g)
  {
    if elements != [] {
      var i := |elements| - 1;
      var init, e := elements[..i], elements[i];
      ElementsSlotsMap(init, g);
      LastElementMaps(elements, g);
      ElementsSlotsSnoc(MapElements(init, g), MapElement(i, e, g));
      ElementSlotsMap(i, e, g);
      MapSlotsJoin(ElementsSlots(init), ElementSlots(i, e), g);
    }
  }

  lemma {:induction false} SlotsMap<T, U>(p: Project<T>, g: (T, At) -> U)
    ensures Slots(MapProject(p, g)) == MapSlots(Slots(p), g)
  {
    ThreeSlotsMap(FontSlots(p.fonts), OptionSlots(p.background, BackgroundAt), ElementsSlots(p.elements), g);
    FontSlotsMap(p.fonts, g);
    OptionSlotsMap(p.background, g, BackgroundAt);
    ElementsSlotsMap(p.elements, g);
  }

  lemma {:induction false} FontSlotsMap<T, U>(fonts: Option<seq<T>>, g: (T, At) -> U)
    ensures FontSlots(MapFonts(fonts, g)) == MapSlots(FontSlots(fonts), g)
  {
    if fonts.Some? {
      FullSlotsMap(fonts.value, g, Fonts);
    }
  }

  // An artwork is determined by its shape and its places.

  ghost predicate Agree<T, U>(slots: seq<Slot<T>>, g: (T, At) -> U, h: (T, At) -> U) {
    forall k :: 0 <= k < |slots| ==> g(slots[k].leaf, slots[k].at) == h(slots[k].leaf, slots[k].at)
  }

  lemma {:induction false} AgreeOnParts<T, U>(a: seq<Slot<T>>, b: seq<Slot<T>>, g: (T, At) -> U, h: (T, At) -> U)
    requires Agree(a + b, g, h)
    ensures Agree(a, g, h) && Agree(b, g, h)
  {
    forall k | 0 <= k < |a|
      ensures g(a[k].leaf, a[k].at) == h(a[k].leaf, a[k].at)
    {
      assert (a + b)[k] == a[k];
    }
    forall k | 0 <= k < |b|
      ensures g(b[k].leaf, b[k].at) == h(b[k].leaf, b[k].at)
    {
      assert (a + b)[|a| + k] == b[k];
    }
  }

  lemma {:induction false} AgreeOnList<T, U>(xs: seq<Option<T>>, g: (T, At) -> U, h: (T, At) -> U, family: Family)
    requires Agree(ListSlots(xs, family), g, h)
    ensures MapList(xs, g, family) == MapList(xs, h, family)
  {
    if xs != [] {
      var n := |xs| - 1;
      var last := OptionSlots(xs[n], Place(family, n));
      AgreeOnParts(ListSlots(xs[..n], family), last, g, h);
      AgreeOnList(xs[..n], g, h, family);
      assert xs[n].Some? ==> last[0] == Slot(xs[n].value, Place(family, n));
      assert MapList(xs, g, family) == MapList(xs[..n], g, family) + [MapOption(xs[n], g, Place(family, n))];
      assert MapList(xs, h, family) == MapList(xs[..n], h, family) + [MapOption(xs[n], h, Place(family, n))];
    }
  }

  lemma {:induction false} AgreeOnFull<T, U>(xs: seq<T>, g: (T, At) -> U, h: (T, At) -> U, family: Family)
    requires Agree(ListSlots(Full(xs), family), g, h)
    ensures MapFull(xs, g, family) == MapFull(xs, h, family)
  {
    AgreeOnList(Full(xs), g, h, family);
    forall k | 0 <= k < |xs|
      ensures MapFull(xs, g, family)[k] == MapFull(xs, h, family)[k]
    {
      assert MapList(Full(xs), g, family)[k] == MapList(Full(xs), h, family)[k];
    }
  }

  lemma {:induction false} AgreeOnRows<T, U>(element: nat, rows: seq<seq<Option<T>>>, g: (T, At) -> U, h: (T, At) -> U)
    requires Agree(RowSlots(element, rows), g, h)
    ensures MapRows(element, rows, g) == MapRows(element, rows, h)
  {
    if rows != [] {
      var r := |rows| - 1;
      AgreeOnParts(RowSlots(element, rows[..r]), ListSlots(rows[r], Cells(element, r)), g, h);
      AgreeOnRows(element, rows[..r], g, h);
      AgreeOnList(rows[r], g, h, Cells(element, r));
      assert MapRows(element, rows, g) == MapRows(element, rows[..r], g) + [MapList(rows[r], g, Cells(element, r))];
      assert MapRows(element, rows, h) == MapRows(element, rows[..r], h) + [MapList(rows[r], h, Cells(element, r))];
    }
  }

  lemma {:induction false} AgreeOnElement<T, U>(i: nat, e: Element<T>, g: (T, At) -> U, h: (T, At) -> U)
    requires Agree(ElementSlots(i, e), g, h)
    ensures MapElement(i, e, g) == MapElement(i, e, h)
  {
    var self := [Slot(e.self, ElementAt(i))];
    var fill, chart := OptionSlots(e.fill, FillAt(i)), OptionSlots(e.chart, ChartAt(i));
    var rows, style, body := RowSlots(i, e.rows), ListSlots(e.style, Styles(i)), ListSlots(e.body, Bodies(i));
    AgreeOnParts(OwnSlots(i, e) + TableSlots(i, e), ListSlots(Full(e.others), Others), g, h);
    AgreeOnParts(OwnSlots(i, e), TableSlots(i, e), g, h);
    AgreeOnParts(self + fill, chart, g, h);
    AgreeOnParts(self, fill, g, h);
    AgreeOnParts(rows + style, body, g, h);
    AgreeOnParts(rows, style, g, h);
    assert self[0] == Slot(e.self, ElementAt(i));
    assert e.fill.Some? ==> fill[0] == Slot(e.fill.value, FillAt(i));
    assert e.chart.Some? ==> chart[0] == Slot(e.chart.value, ChartAt(i));
    AgreeOnRows(i, e.rows, g, h);
    AgreeOnList(e.style, g, h, Styles(i));
    AgreeOnList(e.body, g, h, Bodies(i));
    AgreeOnFull(e.others, g, h, Others);
  }

  lemma {:induction false} AgreeOnElements<T, U>(elements: seq<Element<T>>, g: (T, At) -> U, h: (T, At) -> U)
    requires Agree(ElementsSlots(elements), g, h)
    ensures MapElements(elements, g) == MapElements(elements, h)
  {
    if elements != [] {
      var i := |elements| - 1;
      AgreeOnParts(ElementsSlots(elements[..i]), ElementSlots(i, elements[i]), g, h);
      AgreeOnElements(elements[..i], g, h);
      AgreeOnElement(i, elements[i], g, h);
      LastElementMaps(elements, g);
      LastElementMaps(elements, h);
    }
  }

  lemma {:induction false} AgreeMakesEqual<T, U>(p: Project<T>, g: (T, At) -> U, h: (T, At) -> U)
    requires Agree(Slots(p), g, h)
    ensures MapProject(p, g) == MapProject(p, h)
  {
    var fonts, background := FontSlots(p.fonts), OptionSlots(p.background, BackgroundAt);
    AgreeOnParts(fonts + background, ElementsSlots(p.elements), g, h);
    AgreeOnParts(fonts, background, g, h);
    if p.fonts.Some? {
      AgreeOnFull(p.fonts.value, g, h, Fonts);
    }
    assert p.background.Some? ==> background[0] == Slot(p.background.value, BackgroundAt);
    AgreeOnElements(p.elements, g, h);
  }

  /** Two maps make the same artwork exactly when they agree on every place. */
  lemma {:induction false} EqualExactlyWhenAgreeing<T, U>(p: Project<T>, g: (T, At) -> U, h: (T, At) -> U)
    ensures MapProject(p, g) == MapProject(p, h) <==> Agree(Slots(p), g, h)
  {
    SlotsMap(p, g);
    SlotsMap(p, h);
    if MapProject(p, g) == MapProject(p, h) {
      forall k | 0 <= k < |Slots(p)|
        ensures g(Slots(p)[k].leaf, Slots(p)[k].at) == h(Slots(p)[k].leaf, Slots(p)[k].at)
      {
        assert MapSlots(Slots(p), g)[k] == MapSlots(Slots(p), h)[k];
      }
    }
    if Agree(Slots(p), g, h) {
      AgreeMakesEqual(p, g, h);
    }
  }

  /** Two maps in a row. */
  function Compose<T, U, V>(g: (T, At) -> U, h: (U, At) -> V): (T, At) -> V {
    (x, at) => h(g(x, at), at)
  }

  lemma {:induction false} MapTwice<T, U, V>(p: Project<T>, g: (T, At) -> U, h: (U, At) -> V)
    ensures MapProject(MapProject(p, g), h) == MapProject(p, Compose(g, h))
  {
    forall i | 0 <= i < |p.elements|
      ensures MapElement(i, MapElement(i, p.elements[i], g), h) == MapElement(i, p.elements[i], Compose(g, h))
    {
      ElementTwice(i, p.elements[i], g, h);
    }
    assert MapElements(MapElements(p.elements, g), h) == MapElements(p.elements, Compose(g, h));
    if p.fonts.Some? {
      FullTwice(p.fonts.value, g, h, Fonts);
    }
  }

  lemma {:induction false} FullTwice<T, U, V>(xs: seq<T>, g: (T, At) -> U, h: (U, At) -> V, family: Family)
    ensures MapFull(MapFull(xs, g, family), h, family) == MapFull(xs, Compose(g, h), family)
  {
  }

  lemma {:induction false} ListTwice<T, U, V>(xs: seq<Option<T>>, g: (T, At) -> U, h: (U, At) -> V, family: Family)
    ensures MapList(MapList(xs, g, family), h, family) == MapList(xs, Compose(g, h), family)
  {
  }

  lemma {:induction false} ElementTwice<T, U, V>(i: nat, e: Element<T>, g: (T, At) -> U, h: (U, At) -> V)
    ensures MapElement(i, MapElement(i, e, g), h) == MapElement(i, e, Compose(g, h))
  {
    forall r | 0 <= r < |e.rows|
      ensures MapRows(i, MapRows(i, e.rows, g), h)[r] == MapRows(i, e.rows, Compose(g, h))[r]
    {
      ListTwice(e.rows[r], g, h, Cells(i, r));
    }
    assert MapRows(i, MapRows(i, e.rows, g), h) == MapRows(i, e.rows, Compose(g, h));
    ListTwice(e.style, g, h, Styles(i));
    ListTwice(e.body, g, h, Bodies(i));
    FullTwice(e.others, g, h, Others);
  }
}
