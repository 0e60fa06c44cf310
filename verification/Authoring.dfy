/** Export and intake of packages/design-authoring: `artworkToDocument`, `validateYaml`, `importYaml` and
    `exportAuthoring` of src/canvas-format.ts and `intakeAuthoring` of src/intake.ts. Artworks and stored
    documents are graphs whose objects may be shared, as YAML anchors share them. */
module Authoring {
  import opened ArtworkAliasing
  import opened ArtworkMapper
  import opened ArtworkTree
  import opened Options

  type Bytes = seq<int>

  predicate IsHex(c: char) {
    '0' <= c <= '9' || 'a' <= c <= 'f'
  }

  /** A SHA-256 digest as 64 hexadecimal digits. */
  type Digest = s: string | |s| == 64 && forall k :: 0 <= k < |s| ==> IsHex(s[k])
    witness seq(64, _ => '0')

  datatype Kind = ImageKind | FontKind

  function KindOf(at: At): Kind {
    if at.FontAt? then FontKind else ImageKind
  }

  const WHITE := Leaf("", false, false, "solid #FFFFFF")

  datatype Document<T> = Document(
    width: int, height: int, background: T, fonts: Option<seq<T>>, elements: seq<Element<T>>, diagnostics: string)

  /** What the program calls and this model does not look into: SHA-256, asset admission by size and
      content, the field checks of `validateYaml`, `assertProjectionDocument`, YAML, and the router of
      inputs that are not artwork. The checks read what an artwork contains; the parser may share objects,
      the printer writes every occurrence out. */
  datatype Kernel = Kernel(
    hash: Bytes -> Digest, admits: (Bytes, Kind) -> bool,
    shapeOk: Project<Leaf> -> bool, documentOk: Document<Leaf> -> bool,
    parse: Bytes -> Option<Artwork>, stringify: Project<Leaf> -> Bytes,
    routed: map<string, Bytes> -> bool)

  const ENTRY := "design.yaml"
  const FORMAT := "molly-canvas/1"

  // Names of assets.

  /** `asset:` and 64 hexadecimal digits. */
  predicate Canonical(src: string) {
    |src| == 70 && src[..6] == "asset:" && forall k :: 6 <= k < 70 ==> IsHex(src[k])
  }

  function AssetName(digest: Digest): (src: string)
    ensures Canonical(src) && src[6..] == digest
  {
    assert ("asset:" + digest)[6..] == digest;
    "asset:" + digest
  }

  function DigestOf(src: string): (digest: Digest)
    requires Canonical(src)
    ensures src == "asset:" + digest
  {
    src[6..]
  }

  function MediaName(digest: Digest): string {
    "media/" + digest
  }

  predicate IsLetter(c: char) {
    'a' <= c <= 'z' || 'A' <= c <= 'Z'
  }

  predicate IsSchemeChar(c: char) {
    IsLetter(c) || '0' <= c <= '9' || c == '+' || c == '.' || c == '-'
  }

  /** `//`, or a URL scheme and a colon. */
  predicate IsRemote(src: string) {
    || (|src| >= 2 && src[0] == '/' && src[1] == '/')
    || (src != "" && IsLetter(src[0])
        && exists n :: 0 < n < |src| && src[n] == ':' && forall k :: 0 < k < n ==> IsSchemeChar(src[k]))
  }

  /** `media/` and one segment that is no dot name, without backslashes or control characters. */
  predicate IsMediaPath(src: string) {
    && |src| > 6 && src[..6] == "media/"
    && (forall k :: 6 <= k < |src| ==> src[k] != '/' && src[k] != '\\')
    && (forall k :: 0 <= k < |src| ==> src[k] as int >= 32)
    && src[6..] != "." && src[6..] != ".."
  }

  lemma {:induction false} MediaNames(digest: Digest)
    ensures IsMediaPath(MediaName(digest)) && !IsRemote(MediaName(digest)) && MediaName(digest) != ENTRY
    ensures MediaName(digest)[6..] == digest
  {
  }

  // Documents.

  function Numbered(elements: seq<Element<Leaf>>): seq<Element<Leaf>> {
    seq(|elements|, i requires 0 <= i < |elements| =>
      elements[i].(zIndex := if elements[i].zIndex.None? then Some(i) else elements[i].zIndex))
  }

  /** `artworkToDocument`: what the document contains. */
  function ToDocument(p: Project<Leaf>): Document<Leaf> {
    Document(p.size.0, p.size.1, if p.background.None? then WHITE else p.background.value, p.fonts,
             Numbered(p.elements), if p.diagnostics.None? then "[]" else p.diagnostics.value)
  }

  /** The project `exportAuthoring` writes, before its assets are renamed. */
  function FromDocument<T>(d: Document<T>): Project<T> {
    Project(FORMAT, None, (d.width, d.height), Some(d.diagnostics), d.fonts, Some(d.background), d.elements)
  }

  /** The document with every omitted stacking position filled in. */
  function Filled(d: Document<Leaf>): Document<Leaf> {
    d.(elements := Numbered(d.elements))
  }

  /** A document as the program holds it, with objects that may be shared. */
  datatype Stored = Stored(document: Document<nat>, objects: seq<Leaf>)

  predicate WithinObjects(d: Stored) {
    InGraph(Slots(FromDocument(d.document)), |d.objects|)
  }

  type StoredDocument = d: Stored | WithinObjects(d)
    witness Stored(Document(0, 0, 0, None, [], ""), [WHITE])

  /** Where an object of a document of `n` objects stands once fonts, background and elements have been
      cloned, each with objects of its own. */
  function Section(n: nat, ref: nat, at: At): nat {
    if at.FontAt? then ref else if at.BackgroundAt? then n + ref else n + n + ref
  }

  function Sections(n: nat): (nat, At) -> nat {
    (ref: nat, at: At) => Section(n, ref, at)
  }

  lemma {:induction false} SectionsAreWithin(p: Project<nat>, n: nat)
    requires InGraph(Slots(p), n)
    ensures InGraph(Slots(MapProject(p, Sections(n))), n + n + n)
  {
    SlotsMap(p, Sections(n));
  }

  /** The artwork an export starts from. `structuredClone` is called once for the fonts, once for the
      background and once for the elements: sharing within each of them survives, sharing between them
      does not. */
  function Exporting(d: StoredDocument): Artwork {
    SectionsAreWithin(FromDocument(d.document), |d.objects|);
    Graph(MapProject(FromDocument(d.document), Sections(|d.objects|)), d.objects + d.objects + d.objects)
  }

  /** What a reader of the document sees. */
  function ContentOf(d: StoredDocument): Document<Leaf> {
    var stored, reader := d.document, Reader(d.objects);
    Document(stored.width, stored.height, Read(d.objects, stored.background), MapFonts(stored.fonts, reader),
             MapElements(stored.elements, reader), stored.diagnostics)
  }

  /** The clones of places, among more objects. */
  ghost predicate Cloned(objects: seq<Leaf>, slots: seq<Slot<nat>>, more: seq<Leaf>, clones: seq<Slot<nat>>) {
    |clones| == |slots| && forall k :: 0 <= k < |slots| ==> ClonedTo(objects, slots[k], more, clones[k])
  }

  predicate ClonedTo(objects: seq<Leaf>, slot: Slot<nat>, more: seq<Leaf>, clone: Slot<nat>) {
    && slot.leaf < |objects| && clone == Slot(Section(|objects|, slot.leaf, slot.at), slot.at)
    && clone.leaf < |more| && more[clone.leaf] == objects[slot.leaf]
  }

  lemma {:induction false} SectionHolds(objects: seq<Leaf>, slot: Slot<nat>)
    requires slot.leaf < |objects|
    ensures ClonedTo(objects, slot, objects + objects + objects, Slot(Section(|objects|, slot.leaf, slot.at), slot.at))
  {
  }

  lemma {:induction false} SectionsAreClones(objects: seq<Leaf>, slots: seq<Slot<nat>>)
    requires InGraph(slots, |objects|)
    ensures Cloned(objects, slots, objects + objects + objects, MapSlots(slots, Sections(|objects|)))
  {
    forall k | 0 <= k < |slots|
      ensures ClonedTo(objects, slots[k], objects + objects + objects, MapSlots(slots, Sections(|objects|))[k])
    {
      SectionHolds(objects, slots[k]);
    }
  }

  lemma {:induction false} ExportClones(d: StoredDocument)
    ensures Cloned(d.objects, Slots(FromDocument(d.document)), Exporting(d).objects, Slots(Exporting(d).project))
  {
    SlotsMap(FromDocument(d.document), Sections(|d.objects|));
    SectionsAreClones(d.objects, Slots(FromDocument(d.document)));
  }

  /** Cloning changes nothing that a reader sees. */
  lemma {:induction false} ContentIsExported(d: StoredDocument)
    ensures Content(Exporting(d)) == FromDocument(ContentOf(d))
  {
    var p, sections, reader := FromDocument(d.document), Sections(|d.objects|), Reader(Exporting(d).objects);
    MapTwice(p, sections, reader);
    ExportClones(d);
    forall k | 0 <= k < |Slots(p)|
      ensures Compose(sections, reader)(Slots(p)[k].leaf, Slots(p)[k].at)
              == Reader(d.objects)(Slots(p)[k].leaf, Slots(p)[k].at)
    {
      assert ClonedTo(d.objects, Slots(p)[k], Exporting(d).objects, Slots(Exporting(d).project)[k]);
    }
    AgreeMakesEqual(p, Compose(sections, reader), Reader(d.objects));
  }

  /** The assets a document refers to, as a reader sees them. */
  function RefsOf(d: StoredDocument): seq<Call> {
    Refs(Slots(FromDocument(ContentOf(d))))
  }

  /** They are what the exporter's callback is called with. */
  lemma {:induction false} CallsAreItsRefs(d: StoredDocument)
    ensures Calls(Exporting(d)) == RefsOf(d)
  {
    var g := Exporting(d);
    ContentIsExported(d);
    CallsAreRefs(g.objects, Slots(g.project));
    SlotsMap(g.project, Reader(g.objects));
  }

  // Sharing in a document.

  /** Two places hold one object, which is an asset at the first and not looked at as one at the second. */
  predicate Collide(objects: seq<Leaf>, first: Slot<nat>, second: Slot<nat>) {
    && first.leaf == second.leaf
    && IsAsset(Read(objects, first.leaf), first.at) && !IsAsset(Read(objects, second.leaf), second.at)
  }

  /** No two of the places collide. */
  ghost predicate Apart(objects: seq<Leaf>, slots: seq<Slot<nat>>) {
    forall j, k :: 0 <= j < |slots| && 0 <= k < |slots| ==> !Collide(objects, slots[j], slots[k])
  }

  /** No two places of the elements collide. What fonts, background and elements share with each other is
      no matter. */
  ghost predicate ElementsApart(d: StoredDocument) {
    Apart(d.objects, ElementsSlots(d.document.elements))
  }

  lemma {:induction false} ApartIsSeparate(objects: seq<Leaf>, slots: seq<Slot<nat>>)
    requires InGraph(slots, |objects|)
    ensures Apart(objects, slots)
            <==> forall k :: 0 <= k < |slots| && !IsAsset(objects[slots[k].leaf], slots[k].at)
                   ==> !IsAssetObject(objects, slots, slots[k].leaf)
  {
    forall j, k | 0 <= j < |slots| && 0 <= k < |slots| && Collide(objects, slots[j], slots[k])
      ensures IsAssetObject(objects, slots, slots[k].leaf)
    {
    }
    forall k | 0 <= k < |slots| && !IsAsset(objects[slots[k].leaf], slots[k].at)
      && IsAssetObject(objects, slots, slots[k].leaf)
      ensures !Apart(objects, slots)
    {
      var j :| 0 <= j < |slots| && slots[j].leaf == slots[k].leaf && IsAsset(objects[slots[k].leaf], slots[j].at);
      assert Collide(objects, slots[j], slots[k]);
    }
  }

  /** Clones collide exactly when the places do and both are among the elements. */
  lemma {:induction false} ClonesCollide(objects: seq<Leaf>, first: Slot<nat>, second: Slot<nat>,
                                         more: seq<Leaf>, a: Slot<nat>, b: Slot<nat>)
    requires ClonedTo(objects, first, more, a) && ClonedTo(objects, second, more, b)
    ensures Collide(more, a, b) <==> Collide(objects, first, second) && InElements(first.at) && InElements(second.at)
  {
  }

  /** What is cloned section by section is apart exactly when the elements, which stand last, are. */
  lemma {:induction false} ClonesApart(objects: seq<Leaf>, slots: seq<Slot<nat>>, elements: seq<Slot<nat>>,
                                       more: seq<Leaf>, clones: seq<Slot<nat>>)
    requires Cloned(objects, slots, more, clones) && EndsIn(slots, elements)
    ensures Apart(more, clones) <==> Apart(objects, elements)
  {
    var others := |slots| - |elements|;
    forall j, k | 0 <= j < |clones| && 0 <= k < |clones| && Collide(more, clones[j], clones[k])
      ensures !Apart(objects, elements)
    {
      ClonesCollide(objects, slots[j], slots[k], more, clones[j], clones[k]);
      assert slots[others + (j - others)] == elements[j - others];
      assert slots[others + (k - others)] == elements[k - others];
      assert Collide(objects, elements[j - others], elements[k - others]);
    }
    forall j, k | 0 <= j < |elements| && 0 <= k < |elements| && Collide(objects, elements[j], elements[k])
      ensures !Apart(more, clones)
    {
      assert slots[others + j] == elements[j] && slots[others + k] == elements[k];
      ClonesCollide(objects, elements[j], elements[k], more, clones[others + j], clones[others + k]);
    }
  }

  /** The clone is separate exactly when the elements of the document are apart. */
  lemma {:induction false} SeparateExactly(d: StoredDocument)
    ensures Separate(Exporting(d)) <==> ElementsApart(d)
  {
    var g, p := Exporting(d), FromDocument(d.document);
    ExportClones(d);
    SlotsBySection(p);
    ClonesApart(d.objects, Slots(p), ElementsSlots(p.elements), g.objects, Slots(g.project));
    ApartIsSeparate(g.objects, Slots(g.project));
  }

  // Validation and import.

  /** A reference the validator accepts. */
  predicate RefOk(kernel: Kernel, snapshot: map<string, Bytes>, call: Call) {
    && !IsRemote(call.src) && IsMediaPath(call.src) && call.src in snapshot
    && kernel.admits(snapshot[call.src], KindOf(call.at))
  }

  /** The validator's callback returns a source it rejects unchanged. */
  function Bound(kernel: Kernel, snapshot: map<string, Bytes>, src: string): string {
    if IsRemote(src) || !IsMediaPath(src) || src !in snapshot then src else AssetName(kernel.hash(snapshot[src]))
  }

  function Binder(kernel: Kernel, snapshot: map<string, Bytes>): string -> string {
    src => Bound(kernel, snapshot, src)
  }

  function Never(): Call -> bool {
    call => false
  }

  /** The callback of `validateYaml`, which never throws. */
  function Validating(kernel: Kernel, snapshot: map<string, Bytes>): Callback {
    Callback(Binder(kernel, snapshot), Never())
  }

  predicate AllOk(kernel: Kernel, snapshot: map<string, Bytes>, calls: seq<Call>) {
    forall k :: 0 <= k < |calls| ==> RefOk(kernel, snapshot, calls[k])
  }

  predicate Accepts(kernel: Kernel, snapshot: map<string, Bytes>, g: Artwork) {
    && kernel.shapeOk(Content(g))
    && AllOk(kernel, snapshot, Rewrite(Validating(kernel, snapshot), g).calls)
    && kernel.documentOk(ToDocument(After(Validating(kernel, snapshot), g)))
  }

  /** `validateSnapshot`: the parsed artwork if it is accepted. */
  function Validated(kernel: Kernel, entry: string, snapshot: map<string, Bytes>): Option<Artwork> {
    if kernel.routed(snapshot) || entry !in snapshot then None
    else
      var parsed := kernel.parse(snapshot[entry]);
      if parsed.None? || !Accepts(kernel, snapshot, parsed.value) then None else parsed
  }

  /** `validateSnapshot` and `validateYaml`, with the rewrite carried out on a clone. */
  method ValidateSnapshot(kernel: Kernel, entry: string, snapshot: map<string, Bytes>) returns (r: Option<Artwork>)
    ensures r == Validated(kernel, entry, snapshot)
  {
    if kernel.routed(snapshot) || entry !in snapshot {
      return None;
    }
    var parsed := kernel.parse(snapshot[entry]);
    if parsed.None? || !kernel.shapeOk(Content(parsed.value)) {
      return None;
    }
    var bound := MapClone(Validating(kernel, snapshot), parsed.value);
    var document := ToDocument(View(parsed.value.project, bound.objects));
    if !AllOk(kernel, snapshot, bound.calls) || !kernel.documentOk(document) {
      return None;
    }
    return parsed;
  }

  function Lookup(index: map<string, string>): string -> string {
    src => if src in index then index[src] else src
  }

  predicate IsIndexed(index: map<string, string>, call: Call) {
    call.src in index && Canonical(index[call.src])
  }

  function Unindexed(index: map<string, string>): Call -> bool {
    call => !IsIndexed(index, call)
  }

  /** The callback of `importYaml`. */
  function Importing(index: map<string, string>): Callback {
    Callback(Lookup(index), Unindexed(index))
  }

  /** `importYaml`; `None` when it answers `unsupported`. */
  function Imported(kernel: Kernel, g: Artwork, index: map<string, string>): Option<Document<Leaf>> {
    var document := ToDocument(After(Importing(index), g));
    if Rewrite(Importing(index), g).thrown || !kernel.documentOk(document) then None else Some(document)
  }

  method ImportYaml(kernel: Kernel, g: Artwork, index: map<string, string>) returns (r: Option<Document<Leaf>>)
    ensures r == Imported(kernel, g, index)
  {
    var bound := MapClone(Importing(index), g);
    if bound.thrown {
      return None;
    }
    var document := ToDocument(View(g.project, bound.objects));
    if !kernel.documentOk(document) {
      return None;
    }
    return Some(document);
  }

  datatype Intake = Ok(document: Document<Leaf>, assets: map<Digest, Bytes>) | Invalid | Unsupported

  function Sources(calls: seq<Call>): seq<string> {
    if calls == [] then []
    else
      var before := Sources(calls[..|calls| - 1]);
      var src := calls[|calls| - 1].src;
      if src in before then before else before + [src]
  }

  lemma {:induction false} SourcesAreExact(calls: seq<Call>)
    ensures forall src :: src in Sources(calls) <==> exists k :: 0 <= k < |calls| && calls[k].src == src
  {
    if calls != [] {
      var init := calls[..|calls| - 1];
      SourcesAreExact(init);
      forall src | exists k :: 0 <= k < |calls| && calls[k].src == src
        ensures src in Sources(calls)
      {
        var k :| 0 <= k < |calls| && calls[k].src == src;
        assert k < |init| ==> init[k].src == src;
      }
      forall src | src in Sources(calls)
        ensures exists k :: 0 <= k < |calls| && calls[k].src == src
      {
        if src in Sources(init) {
          var k :| 0 <= k < |init| && init[k].src == src;
          assert calls[k].src == src;
        } else {
          assert calls[|calls| - 1].src == src;
        }
      }
    }
  }

  /** Exactly the referenced bytes, under their digests. */
  ghost predicate HoldsReferenced(kernel: Kernel, snapshot: map<string, Bytes>, srcs: seq<string>,
                                  assets: map<Digest, Bytes>)
  {
    && (forall k :: 0 <= k < |srcs| && srcs[k] in snapshot ==> kernel.hash(snapshot[srcs[k]]) in assets)
    && forall d :: d in assets ==>
         exists k :: 0 <= k < |srcs| && srcs[k] in snapshot
                     && assets[d] == snapshot[srcs[k]] && kernel.hash(assets[d]) == d
  }

  /** The index the intake builds: every referenced source, bound to the digest of its bytes. */
  ghost predicate Indexes(kernel: Kernel, snapshot: map<string, Bytes>, srcs: seq<string>, index: map<string, string>) {
    forall k :: 0 <= k < |srcs| ==>
      srcs[k] in snapshot && srcs[k] in index && index[srcs[k]] == AssetName(kernel.hash(snapshot[srcs[k]]))
  }

  lemma {:induction false} CallsAreExact(callback: Callback, g: Artwork)
    ensures Rewrite(callback, g).thrown <==> AnyThrows(callback, Calls(g))
    ensures !AnyThrows(callback, Calls(g)) ==> Rewrite(callback, g).calls == Calls(g)
  {
    AllTracked(callback, g.objects, Slots(g.project));
  }

  /** What the validator accepts, the importer accepts, and it builds the document the validator saw;
      whatever objects the artwork shares. */
  lemma {:induction false} ValidatorAcceptsOnlyImportable(kernel: Kernel, snapshot: map<string, Bytes>, g: Artwork,
                                                          index: map<string, string>)
    requires Accepts(kernel, snapshot, g) && Indexes(kernel, snapshot, Sources(Calls(g)), index)
    ensures Imported(kernel, g, index) == Some(ToDocument(After(Validating(kernel, snapshot), g)))
  {
    var calls := Calls(g);
    SourcesAreExact(calls);
    CallsAreExact(Validating(kernel, snapshot), g);
    CallsAreExact(Importing(index), g);
    forall call | call in calls
      ensures IsIndexed(index, call) && Lookup(index)(call.src) == Binder(kernel, snapshot)(call.src)
    {
      var k :| 0 <= k < |calls| && calls[k] == call;
      assert call.src in Sources(calls);
      assert RefOk(kernel, snapshot, calls[k]);
    }
    AgreeingRewrites(Importing(index), Validating(kernel, snapshot), g);
  }

  /** What the validator accepts it sees as the tree map exactly when no object stands both at an asset
      place and at another. */
  lemma {:induction false} AcceptedIsTreeMapExactly(kernel: Kernel, snapshot: map<string, Bytes>, g: Artwork)
    requires Accepts(kernel, snapshot, g)
    ensures After(Validating(kernel, snapshot), g) == MapTree(Binder(kernel, snapshot), Content(g)) <==> Separate(g)
  {
    CallsAreExact(Validating(kernel, snapshot), g);
    forall call | call in Calls(g)
      ensures Binder(kernel, snapshot)(call.src) != call.src
    {
      var k :| 0 <= k < |Calls(g)| && Calls(g)[k] == call;
      assert RefOk(kernel, snapshot, Calls(g)[k]);
      assert call.src[0] == call.src[..6][0] == 'm';
    }
    TreeMapExactlyWhenSeparate(Validating(kernel, snapshot), g);
  }

  /** The loop over the references: the index, and each digest's bytes once; it stops at a missing one. */
  method BindAssets(kernel: Kernel, snapshot: map<string, Bytes>, refs: seq<string>)
    returns (missing: Option<string>, index: map<string, string>, assets: map<Digest, Bytes>)
    ensures missing.Some? ==> missing.value in refs && missing.value !in snapshot
    ensures missing.None? ==> Indexes(kernel, snapshot, refs, index) && HoldsReferenced(kernel, snapshot, refs, assets)
  {
    missing, index, assets := None, map[], map[];
    for i := 0 to |refs|
      invariant Indexes(kernel, snapshot, refs[..i], index)
      invariant HoldsReferenced(kernel, snapshot, refs[..i], assets)
    {
      var ref := refs[i];
      if ref !in snapshot {
        return Some(ref), index, assets;
      }
      var bytes := snapshot[ref];
      var digest := kernel.hash(bytes);
      AddsReferenced(kernel, snapshot, refs[..i], ref, assets);
      assert refs[..i + 1] == refs[..i] + [ref];
      index := index[ref := AssetName(digest)];
      if digest !in assets {
        assets := assets[digest := bytes];
      }
    }
    assert refs[..|refs|] == refs;
  }

  /** The callback of `listSemanticAssetRefs`, which leaves every source as it is. */
  function Listing(): Callback {
    Callback(src => src, Never())
  }

  /** `intakeAuthoring`: it accepts exactly what the validator accepts; a missing asset and an
      `unsupported` import cannot come up behind it. */
  method IntakeAuthoring(kernel: Kernel, entry: string, snapshot: map<string, Bytes>) returns (r: Intake)
    ensures r.Ok? <==> Validated(kernel, entry, snapshot).Some?
    ensures r.Invalid? <==> Validated(kernel, entry, snapshot).None?
    ensures r.Ok? ==>
              var g := Validated(kernel, entry, snapshot).value;
              && r.document == ToDocument(After(Validating(kernel, snapshot), g))
              && HoldsReferenced(kernel, snapshot, Sources(Calls(g)), r.assets)
  {
    var validated := ValidateSnapshot(kernel, entry, snapshot);
    if validated.None? {
      return Invalid;
    }
    var g := validated.value;
    var listed := MapClone(Listing(), g);
    CallsAreExact(Listing(), g);
    var missing, assetIndex, assets := BindAssets(kernel, snapshot, Sources(listed.calls));
    if missing.Some? {
      MissingIsRefused(kernel, snapshot, g, missing.value);
      return Invalid;
    }
    ValidatorAcceptsOnlyImportable(kernel, snapshot, g, assetIndex);
    var imported := ImportYaml(kernel, g, assetIndex);
    if imported.None? {
      return Unsupported;
    }
    return Ok(imported.value, assets);
  }

  lemma {:induction false} MissingIsRefused(kernel: Kernel, snapshot: map<string, Bytes>, g: Artwork, src: string)
    requires src in Sources(Calls(g)) && src !in snapshot
    ensures !Accepts(kernel, snapshot, g)
  {
    SourcesAreExact(Calls(g));
    CallsAreExact(Validating(kernel, snapshot), g);
    var k :| 0 <= k < |Calls(g)| && Calls(g)[k].src == src;
    assert !RefOk(kernel, snapshot, Calls(g)[k]);
  }

  lemma {:induction false} AddsReferenced(kernel: Kernel, snapshot: map<string, Bytes>, srcs: seq<string>, src: string,
                                          assets: map<Digest, Bytes>)
    requires HoldsReferenced(kernel, snapshot, srcs, assets) && src in snapshot
    ensures var digest := kernel.hash(snapshot[src]);
            HoldsReferenced(kernel, snapshot, srcs + [src],
                            if digest in assets then assets else assets[digest := snapshot[src]])
  {
    var digest := kernel.hash(snapshot[src]);
    var more := if digest in assets then assets else assets[digest := snapshot[src]];
    var all := srcs + [src];
    assert all[|srcs|] == src;
    forall d | d in more
      ensures exists k :: 0 <= k < |all| && all[k] in snapshot
                          && more[d] == snapshot[all[k]] && kernel.hash(more[d]) == d
    {
      if d in assets {
        var k :| 0 <= k < |srcs| && srcs[k] in snapshot
                 && assets[d] == snapshot[srcs[k]] && kernel.hash(assets[d]) == d;
        assert all[k] == srcs[k];
      }
    }
  }

  // Export.

  /** A reference the exporter accepts: canonical, with bytes that hash to its digest and are admitted. */
  predicate Exportable(kernel: Kernel, assets: map<string, Bytes>, call: Call) {
    && Canonical(call.src) && call.src[6..] in assets && kernel.hash(assets[call.src[6..]]) == call.src[6..]
    && kernel.admits(assets[call.src[6..]], KindOf(call.at))
  }

  function Exported(src: string): string {
    if Canonical(src) then MediaName(DigestOf(src)) else src
  }

  function Exporter(): string -> string {
    src => Exported(src)
  }

  predicate AllExportable(kernel: Kernel, calls: seq<Call>, assets: map<string, Bytes>) {
    forall k :: 0 <= k < |calls| ==> Exportable(kernel, assets, calls[k])
  }

  function NotExportable(kernel: Kernel, assets: map<string, Bytes>): Call -> bool {
    call => !Exportable(kernel, assets, call)
  }

  /** The callback of the export. */
  function Projecting(kernel: Kernel, assets: map<string, Bytes>): Callback {
    Callback(Exporter(), NotExportable(kernel, assets))
  }

  /** What the exporter prints. */
  function Projected(kernel: Kernel, d: StoredDocument, assets: map<string, Bytes>): Project<Leaf> {
    After(Projecting(kernel, assets), Exporting(d))
  }

  predicate CanExport(kernel: Kernel, d: StoredDocument, assets: map<string, Bytes>) {
    kernel.documentOk(ContentOf(d)) && AllExportable(kernel, RefsOf(d), assets)
  }

  /** The media files of the given references. */
  function MediaOf(calls: seq<Call>, assets: map<string, Bytes>): map<string, Bytes> {
    if calls == [] then map[]
    else
      var before := MediaOf(calls[..|calls| - 1], assets);
      var src := calls[|calls| - 1].src;
      if Canonical(src) && src[6..] in assets then before[Exported(src) := assets[src[6..]]] else before
  }

  function Export(kernel: Kernel, d: StoredDocument, assets: map<string, Bytes>): map<string, Bytes> {
    MediaOf(RefsOf(d), assets)[ENTRY := kernel.stringify(Projected(kernel, d, assets))]
  }

  /** The files the callback of the export leaves behind, one for each call. */
  method MediaFiles(calls: seq<Call>, assets: map<string, Bytes>) returns (files: map<string, Bytes>)
    ensures files == MediaOf(calls, assets)
  {
    files := map[];
    for i := 0 to |calls|
      invariant files == MediaOf(calls[..i], assets)
    {
      var src := calls[i].src;
      assert calls[..i + 1][..i] == calls[..i];
      if Canonical(src) && src[6..] in assets {
        files := files[Exported(src) := assets[src[6..]]];
      }
    }
    assert calls[..|calls|] == calls;
  }

  lemma {:induction false} ThrowsUnlessExportable(kernel: Kernel, d: StoredDocument, assets: map<string, Bytes>)
    ensures AnyThrows(Projecting(kernel, assets), Calls(Exporting(d))) <==> !AllExportable(kernel, RefsOf(d), assets)
  {
    CallsAreItsRefs(d);
    var calls := Calls(Exporting(d));
    if !AllExportable(kernel, calls, assets) {
      var k :| 0 <= k < |calls| && !Exportable(kernel, assets, calls[k]);
      assert calls[k] in calls;
    }
  }

  /** `exportAuthoring`. */
  method ExportAuthoring(kernel: Kernel, d: StoredDocument, assets: map<string, Bytes>)
    returns (r: Option<map<string, Bytes>>)
    ensures r == if CanExport(kernel, d, assets) then Some(Export(kernel, d, assets)) else None
  {
    if !kernel.documentOk(ContentOf(d)) {
      return None;
    }
    var projected := MapClone(Projecting(kernel, assets), Exporting(d));
    CallsAreExact(Projecting(kernel, assets), Exporting(d));
    ThrowsUnlessExportable(kernel, d, assets);
    CallsAreItsRefs(d);
    if projected.thrown {
      return None;
    }
    var media := MediaFiles(projected.calls, assets);
    return Some(media[ENTRY := kernel.stringify(View(Exporting(d).project, projected.objects))]);
  }

  // The round trip.

  /** The exported files hold the bytes of every reference. */
  lemma {:induction false} MediaHolds(calls: seq<Call>, assets: map<string, Bytes>, k: nat)
    requires k < |calls| && Canonical(calls[k].src) && calls[k].src[6..] in assets
    ensures Exported(calls[k].src) in MediaOf(calls, assets)
    ensures MediaOf(calls, assets)[Exported(calls[k].src)] == assets[calls[k].src[6..]]
  {
    var n := |calls| - 1;
    if k < n {
      MediaHolds(calls[..n], assets, k);
      SameFileSameDigest(calls[k].src, calls[n].src);
    }
  }

  lemma {:induction false} SameFileSameDigest(a: string, b: string)
    requires Canonical(a)
    ensures Canonical(b) && Exported(a) == Exported(b) ==> a[6..] == b[6..]
  {
    if Canonical(b) {
      MediaNames(DigestOf(a));
      MediaNames(DigestOf(b));
    }
  }

  lemma {:induction false} SnapshotHolds(kernel: Kernel, d: StoredDocument, assets: map<string, Bytes>, k: nat)
    requires CanExport(kernel, d, assets) && k < |RefsOf(d)|
    ensures var src, snapshot := RefsOf(d)[k].src, Export(kernel, d, assets);
            && Canonical(src) && Exported(src) in snapshot && snapshot[Exported(src)] == assets[src[6..]]
            && IsMediaPath(Exported(src)) && !IsRemote(Exported(src)) && Exported(src) != src
            && Bound(kernel, snapshot, Exported(src)) == src
  {
    var calls := RefsOf(d);
    assert Exportable(kernel, assets, calls[k]);
    MediaHolds(calls, assets, k);
    MediaNames(DigestOf(calls[k].src));
    assert Exported(calls[k].src)[0] == 'm' && calls[k].src[..6][0] == 'a';
  }

  /** Binding the exported artwork gives back the artwork of the document exactly when no object of its
      elements stands both at an asset place and at another place among them. */
  lemma {:induction false} ExportIsBoundBack(kernel: Kernel, d: StoredDocument, assets: map<string, Bytes>)
    requires CanExport(kernel, d, assets)
    ensures MapTree(Binder(kernel, Export(kernel, d, assets)), Projected(kernel, d, assets))
            == FromDocument(ContentOf(d))
            <==> ElementsApart(d)
  {
    CloneIsBoundBack(kernel, d, assets);
    SeparateExactly(d);
  }

  lemma {:induction false} CloneIsBoundBack(kernel: Kernel, d: StoredDocument, assets: map<string, Bytes>)
    requires CanExport(kernel, d, assets)
    ensures MapTree(Binder(kernel, Export(kernel, d, assets)), Projected(kernel, d, assets))
            == FromDocument(ContentOf(d))
            <==> Separate(Exporting(d))
  {
    var g, callback, back := Exporting(d), Projecting(kernel, assets), Binder(kernel, Export(kernel, d, assets));
    ThrowsUnlessExportable(kernel, d, assets);
    CallsAreItsRefs(d);
    forall call | call in Calls(g)
      ensures callback.rename(call.src) != call.src && back(callback.rename(call.src)) == call.src
    {
      var k :| 0 <= k < |RefsOf(d)| && RefsOf(d)[k] == call;
      SnapshotHolds(kernel, d, assets, k);
    }
    RestoredExactlyWhenSeparate(callback, back, g);
    ContentIsExported(d);
  }

  /** The document that comes back. */
  function Returned(kernel: Kernel, d: StoredDocument, assets: map<string, Bytes>): Document<Leaf> {
    ToDocument(MapTree(Binder(kernel, Export(kernel, d, assets)), Projected(kernel, d, assets)))
  }

  /** Filling stacking positions loses nothing but which of them were omitted. */
  lemma {:induction false} NumberedIsExact(a: seq<Element<Leaf>>, b: seq<Element<Leaf>>)
    requires |a| == |b| && forall i :: 0 <= i < |a| ==> a[i].zIndex == b[i].zIndex
    ensures Numbered(a) == Numbered(b) <==> a == b
  {
    if Numbered(a) == Numbered(b) {
      forall i | 0 <= i < |a|
        ensures a[i] == b[i]
      {
        assert Numbered(a)[i] == Numbered(b)[i];
        assert a[i] == Numbered(a)[i].(zIndex := a[i].zIndex);
        assert b[i] == Numbered(b)[i].(zIndex := b[i].zIndex);
      }
    }
  }

  /** A project with everything a document has makes the document, filled in, exactly if it is its project. */
  lemma {:induction false} DocumentIsExact(p: Project<Leaf>, d: Document<Leaf>)
    requires p.format == FORMAT && p.title.None? && p.background.Some? && p.diagnostics.Some?
    requires |p.elements| == |d.elements|
    requires forall i :: 0 <= i < |d.elements| ==> p.elements[i].zIndex == d.elements[i].zIndex
    ensures ToDocument(p) == Filled(d) <==> p == FromDocument(d)
  {
    NumberedIsExact(p.elements, d.elements);
  }

  lemma {:induction false} ReturnedExactly(kernel: Kernel, d: StoredDocument, assets: map<string, Bytes>)
    requires CanExport(kernel, d, assets)
    ensures Returned(kernel, d, assets) == Filled(ContentOf(d)) <==> ElementsApart(d)
  {
    ExportIsBoundBack(kernel, d, assets);
    DocumentIsExact(MapTree(Binder(kernel, Export(kernel, d, assets)), Projected(kernel, d, assets)), ContentOf(d));
  }

  /** No object stands at two of the places. */
  ghost predicate Distinct(slots: seq<Slot<nat>>) {
    forall j, k :: 0 <= j < |slots| && 0 <= k < |slots| && slots[j].leaf == slots[k].leaf ==> j == k
  }

  lemma {:induction false} DistinctIsApart(objects: seq<Leaf>, slots: seq<Slot<nat>>)
    requires Distinct(slots)
    ensures Apart(objects, slots)
  {
  }

  /** A document that shares objects between fonts, background and elements only comes back. */
  lemma {:induction false} SharingAcrossComesBack(kernel: Kernel, d: StoredDocument, assets: map<string, Bytes>)
    requires CanExport(kernel, d, assets) && Distinct(ElementsSlots(d.document.elements))
    ensures Returned(kernel, d, assets) == Filled(ContentOf(d))
  {
    DistinctIsApart(d.objects, ElementsSlots(d.document.elements));
    ReturnedExactly(kernel, d, assets);
  }

  /** A document two places of whose elements collide does not. */
  lemma {:induction false} SharingInsideIsChanged(kernel: Kernel, d: StoredDocument, assets: map<string, Bytes>,
                                                  j: nat, k: nat)
    requires CanExport(kernel, d, assets)
    requires j < |ElementsSlots(d.document.elements)| && k < |ElementsSlots(d.document.elements)|
    requires Collide(d.objects, ElementsSlots(d.document.elements)[j], ElementsSlots(d.document.elements)[k])
    ensures Returned(kernel, d, assets) != Filled(ContentOf(d))
  {
    ReturnedExactly(kernel, d, assets);
  }

  /** A document of one element, which refers to the object 0 from a place where no asset is looked for. */
  function OneElement(background: nat, fill: Option<nat>): Document<nat> {
    Document(1, 1, background, None, [Element("a", None, "", 1, fill, None, [], [], [], [0])], "")
  }

  function ImageAndShape(digest: Digest): seq<Leaf> {
    [Leaf(AssetName(digest), true, false, ""), Leaf("", false, false, "")]
  }

  lemma {:induction false} OneElementSlots(background: nat, fill: Option<nat>)
    ensures var elements := [Slot(1, ElementAt(0))] + OptionSlots(fill, FillAt(0)) + [Slot(0, OtherAt)];
            && ElementsSlots(OneElement(background, fill).elements) == elements
            && Slots(FromDocument(OneElement(background, fill))) == [Slot(background, BackgroundAt)] + elements
  {
    var e := OneElement(background, fill).elements[0];
    assert [e][..0] == [];
    assert Full(e.others) == [Some(0)];
    assert Full(e.others)[..0] == [];
    assert ListSlots(Full(e.others), Others) == [Slot(0, OtherAt)];
  }

  /** The image is the background, and the element refers to it. */
  function SharedOutside(digest: Digest): StoredDocument {
    OneElementSlots(0, None);
    Stored(OneElement(0, None), ImageAndShape(digest))
  }

  /** The image is the fill of the element, and the element refers to it elsewhere too. */
  function SharedInside(digest: Digest): StoredDocument {
    OneElementSlots(1, Some(0));
    Stored(OneElement(1, Some(0)), ImageAndShape(digest))
  }

  lemma {:induction false} SharedOutsideComesBack(kernel: Kernel, digest: Digest, assets: map<string, Bytes>)
    requires CanExport(kernel, SharedOutside(digest), assets)
    ensures Returned(kernel, SharedOutside(digest), assets) == Filled(ContentOf(SharedOutside(digest)))
  {
    OneElementSlots(0, None);
    SharingAcrossComesBack(kernel, SharedOutside(digest), assets);
  }

  lemma {:induction false} SharedInsideIsChanged(kernel: Kernel, digest: Digest, assets: map<string, Bytes>)
    requires CanExport(kernel, SharedInside(digest), assets)
    ensures Returned(kernel, SharedInside(digest), assets) != Filled(ContentOf(SharedInside(digest)))
  {
    SharedInsideCollides(digest);
    SharingInsideIsChanged(kernel, SharedInside(digest), assets, 1, 2);
  }

  lemma {:induction false} SharedInsideCollides(digest: Digest)
    ensures var d, slots := SharedInside(digest), ElementsSlots(SharedInside(digest).document.elements);
            |slots| == 3 && Collide(d.objects, slots[1], slots[2])
  {
    OneElementSlots(1, Some(0));
  }

  lemma {:induction false} ProjectedRefs(kernel: Kernel, d: StoredDocument, assets: map<string, Bytes>)
    requires CanExport(kernel, d, assets)
    ensures var refs, calls := Refs(Slots(Projected(kernel, d, assets))), RefsOf(d);
            |refs| == |calls|
            && forall k :: 0 <= k < |calls| ==> refs[k] == Call(Exported(calls[k].src), calls[k].at)
  {
    ThrowsUnlessExportable(kernel, d, assets);
    CallsAreItsRefs(d);
    AfterRefs(Projecting(kernel, assets), Exporting(d));
  }

  /** YAML gives back what it was given, each occurrence an object of its own; nothing routes the files
      elsewhere, and the checks take what was exported: what this model assumes of the parts it leaves out. */
  ghost predicate Readable(kernel: Kernel, d: StoredDocument, assets: map<string, Bytes>) {
    var printed := Projected(kernel, d, assets);
    var parsed := kernel.parse(kernel.stringify(printed));
    && parsed.Some? && Content(parsed.value) == printed && Unshared(parsed.value)
    && !kernel.routed(Export(kernel, d, assets)) && kernel.shapeOk(printed)
    && kernel.documentOk(Returned(kernel, d, assets))
  }

  /** The artwork that was printed and parsed again. */
  function Reparsed(kernel: Kernel, d: StoredDocument, assets: map<string, Bytes>): Option<Artwork> {
    kernel.parse(kernel.stringify(Projected(kernel, d, assets)))
  }

  lemma {:induction false} ReparsedCalls(kernel: Kernel, d: StoredDocument, assets: map<string, Bytes>)
    requires CanExport(kernel, d, assets) && Readable(kernel, d, assets)
    ensures var again, calls := Calls(Reparsed(kernel, d, assets).value), RefsOf(d);
            |again| == |calls|
            && forall k :: 0 <= k < |calls| ==> again[k] == Call(Exported(calls[k].src), calls[k].at)
  {
    var g := Reparsed(kernel, d, assets).value;
    ProjectedRefs(kernel, d, assets);
    CallsAreRefs(g.objects, Slots(g.project));
    SlotsMap(g.project, Reader(g.objects));
  }

  lemma {:induction false} SeparateMapsTheTree(callback: Callback, g: Artwork)
    requires Separate(g) && !AnyThrows(callback, Calls(g))
    ensures After(callback, g) == MapTree(callback.rename, Content(g))
  {
    RewriteIsTreeMapExactly(callback, g.project, g.objects);
  }

  lemma {:induction false} ExportIsAccepted(kernel: Kernel, d: StoredDocument, assets: map<string, Bytes>)
    requires CanExport(kernel, d, assets) && Readable(kernel, d, assets)
    ensures Validated(kernel, ENTRY, Export(kernel, d, assets)) == Reparsed(kernel, d, assets)
    ensures ToDocument(After(Validating(kernel, Export(kernel, d, assets)), Reparsed(kernel, d, assets).value))
            == Returned(kernel, d, assets)
  {
    var snapshot, g := Export(kernel, d, assets), Reparsed(kernel, d, assets).value;
    var calls := RefsOf(d);
    CallsAreExact(Validating(kernel, snapshot), g);
    ReparsedCalls(kernel, d, assets);
    forall k | 0 <= k < |calls|
      ensures RefOk(kernel, snapshot, Calls(g)[k])
    {
      SnapshotHolds(kernel, d, assets, k);
      assert Exportable(kernel, assets, calls[k]);
    }
    UnsharedIsSeparate(g);
    SeparateMapsTheTree(Validating(kernel, snapshot), g);
  }

  /** The digests a document refers to. */
  ghost predicate RefersTo(d: StoredDocument, digest: string) {
    exists k :: 0 <= k < |RefsOf(d)| && RefsOf(d)[k].src == "asset:" + digest
  }

  lemma {:induction false} ExplicitIsFilled(d: Document<Leaf>)
    ensures (forall i :: 0 <= i < |d.elements| ==> d.elements[i].zIndex.Some?) ==> Filled(d) == d
  {
    if forall i :: 0 <= i < |d.elements| ==> d.elements[i].zIndex.Some? {
      assert Numbered(d.elements) == d.elements;
    }
  }

  /** Exporting a valid document and taking the files in again gives exactly the bytes it refers to, and
      the document itself, with omitted stacking positions filled in, exactly when no object of its elements
      stands both at an asset place and at another place among them. */
  method ExportThenIntake(kernel: Kernel, d: StoredDocument, assets: map<string, Bytes>) returns (r: Intake)
    requires CanExport(kernel, d, assets) && Readable(kernel, d, assets)
    ensures r.Ok? && (r.document == Filled(ContentOf(d)) <==> ElementsApart(d))
    ensures (forall i :: 0 <= i < |ContentOf(d).elements| ==> ContentOf(d).elements[i].zIndex.Some?)
            ==> Filled(ContentOf(d)) == ContentOf(d)
    ensures forall digest :: digest in r.assets <==> RefersTo(d, digest)
    ensures forall digest :: digest in r.assets ==> digest in assets && r.assets[digest] == assets[digest]
  {
    var snapshot := ExportAuthoring(kernel, d, assets);
    ExportIsAccepted(kernel, d, assets);
    r := IntakeAuthoring(kernel, ENTRY, snapshot.value);
    ReturnedExactly(kernel, d, assets);
    ReturnsReferenced(kernel, d, assets, r.assets);
    ExplicitIsFilled(ContentOf(d));
  }

  lemma {:induction false} ReturnsReferenced(kernel: Kernel, d: StoredDocument, assets: map<string, Bytes>,
                                             taken: map<Digest, Bytes>)
    requires CanExport(kernel, d, assets) && Readable(kernel, d, assets)
    requires HoldsReferenced(kernel, Export(kernel, d, assets),
                             Sources(Calls(Reparsed(kernel, d, assets).value)), taken)
    ensures forall digest :: digest in taken <==> RefersTo(d, digest)
    ensures forall digest :: digest in taken ==> digest in assets && taken[digest] == assets[digest]
  {
    var snapshot, calls := Export(kernel, d, assets), RefsOf(d);
    var again := Calls(Reparsed(kernel, d, assets).value);
    var srcs := Sources(again);
    SourcesAreExact(again);
    ReparsedCalls(kernel, d, assets);
    forall digest | digest in taken
      ensures RefersTo(d, digest) && digest in assets && taken[digest] == assets[digest]
    {
      var k :| 0 <= k < |srcs| && srcs[k] in snapshot && taken[digest] == snapshot[srcs[k]]
               && kernel.hash(taken[digest]) == digest;
      assert srcs[k] in srcs;
      var j :| 0 <= j < |again| && again[j].src == srcs[k];
      SnapshotHolds(kernel, d, assets, j);
      assert Exportable(kernel, assets, calls[j]);
      assert calls[j].src == "asset:" + DigestOf(calls[j].src);
    }
    forall digest: Digest | RefersTo(d, digest)
      ensures digest in taken
    {
      var j :| 0 <= j < |calls| && calls[j].src == "asset:" + digest;
      IsTaken(kernel, d, assets, taken, j);
    }
  }

  lemma {:induction false} IsTaken(kernel: Kernel, d: StoredDocument, assets: map<string, Bytes>,
                                   taken: map<Digest, Bytes>, j: nat)
    requires CanExport(kernel, d, assets) && Readable(kernel, d, assets) && j < |RefsOf(d)|
    requires HoldsReferenced(kernel, Export(kernel, d, assets),
                             Sources(Calls(Reparsed(kernel, d, assets).value)), taken)
    ensures Canonical(RefsOf(d)[j].src) && RefsOf(d)[j].src[6..] in taken
  {
    var calls, again := RefsOf(d), Calls(Reparsed(kernel, d, assets).value);
    var srcs := Sources(again);
    ReparsedCalls(kernel, d, assets);
    SourcesAreExact(again);
    assert again[j].src in srcs;
    var k :| 0 <= k < |srcs| && srcs[k] == again[j].src;
    SnapshotHolds(kernel, d, assets, j);
    assert Exportable(kernel, assets, calls[j]);
  }
}
