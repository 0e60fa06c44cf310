/** What the in-place rewrite of a shared graph comes to, seen as a tree. */
module ArtworkAliasing {
  import opened ArtworkTree
  import opened ArtworkMapper
  import opened Options

  /** The calls a traversal makes: one for every asset place, with the source the object had. */
  function CallsOf(objects: seq<Leaf>, slots: seq<Slot<nat>>): seq<Call>
    requires InGraph(slots, |objects|)
  {
    if slots == [] then []
    else
      var last := slots[|slots| - 1];
      CallsOf(objects, slots[..|slots| - 1])
      + if IsAsset(objects[last.leaf], last.at) then [Call(objects[last.leaf].src, last.at)] else []
  }

  /** The object stands at an asset place. */
  ghost predicate IsAssetObject(objects: seq<Leaf>, slots: seq<Slot<nat>>, ref: nat)
    requires ref < |objects|
  {
    exists k :: 0 <= k < |slots| && slots[k].leaf == ref && IsAsset(objects[ref], slots[k].at)
  }

  ghost predicate AnyThrows(callback: Callback, calls: seq<Call>) {
    exists c :: c in calls && callback.throws(c)
  }

  /** Of one object: nothing but its source changes, it has been renamed once if it was visited, and its
      original source is remembered. */
  ghost predicate TracksObject(callback: Callback, objects: seq<Leaf>, slots: seq<Slot<nat>>, t: Rewriting, r: nat)
    requires r < |objects| == |t.objects|
  {
    && t.objects[r].(src := objects[r].src) == objects[r]
    && (!t.thrown ==>
          && (r in t.originals <==> IsAssetObject(objects, slots, r))
          && (r in t.originals ==> t.originals[r] == objects[r].src)
          && t.objects[r].src == if r in t.originals then callback.rename(objects[r].src) else objects[r].src)
  }

  /** Of the callback: it has seen the asset places so far, and throws at most at the last. */
  ghost predicate TracksCalls(callback: Callback, objects: seq<Leaf>, slots: seq<Slot<nat>>, t: Rewriting)
    requires InGraph(slots, |objects|)
  {
    && (t.thrown <==> AnyThrows(callback, CallsOf(objects, slots)))
    && (!t.thrown ==> t.calls == CallsOf(objects, slots))
  }

  ghost predicate Tracks(callback: Callback, objects: seq<Leaf>, slots: seq<Slot<nat>>, t: Rewriting)
    requires InGraph(slots, |objects|)
  {
    && |t.objects| == |objects| && TracksCalls(callback, objects, slots, t)
    && forall r: nat :: r < |objects| ==> TracksObject(callback, objects, slots, t, r)
  }

  lemma {:induction false} AssetObjectGrows(objects: seq<Leaf>, slots: seq<Slot<nat>>, slot: Slot<nat>, r: nat)
    requires r < |objects| && slot.leaf < |objects|
    ensures IsAssetObject(objects, slots + [slot], r)
            <==> IsAssetObject(objects, slots, r) || (slot.leaf == r && IsAsset(objects[r], slot.at))
  {
    var all := slots + [slot];
    if k :| 0 <= k < |slots| && slots[k].leaf == r && IsAsset(objects[r], slots[k].at) {
      assert all[k] == slots[k];
    }
    if slot.leaf == r && IsAsset(objects[r], slot.at) {
      assert all[|slots|] == slot;
    }
    if k :| 0 <= k < |all| && all[k].leaf == r && IsAsset(objects[r], all[k].at) {
      assert k < |slots| ==> slots[k] == all[k];
    }
  }

  lemma {:induction false} CallsGrow(callback: Callback, objects: seq<Leaf>, slots: seq<Slot<nat>>, slot: Slot<nat>)
    requires InGraph(slots, |objects|) && slot.leaf < |objects|
    ensures InGraph(slots + [slot], |objects|)
    ensures var calls, call := CallsOf(objects, slots), Call(objects[slot.leaf].src, slot.at);
            if IsAsset(objects[slot.leaf], slot.at)
            then && CallsOf(objects, slots + [slot]) == calls + [call]
                 && (AnyThrows(callback, calls + [call]) <==> AnyThrows(callback, calls) || callback.throws(call))
            else CallsOf(objects, slots + [slot]) == calls
  {
    assert (slots + [slot])[..|slots|] == slots;
    var calls, call := CallsOf(objects, slots), Call(objects[slot.leaf].src, slot.at);
    assert call in calls + [call];
    assert forall c :: c in calls ==> c in calls + [call];
  }

  lemma {:induction false} VisitTracksObject(callback: Callback, objects: seq<Leaf>, slots: seq<Slot<nat>>,
                                             slot: Slot<nat>, t: Rewriting, r: nat)
    requires r < |objects| == |t.objects| && slot.leaf < |objects|
    requires TracksObject(callback, objects, slots, t, r) && TracksObject(callback, objects, slots, t, slot.leaf)
    ensures TracksObject(callback, objects, slots + [slot], Visit(callback, t, slot), r)
  {
    AssetObjectGrows(objects, slots, slot, r);
  }

  lemma {:induction false} VisitTracksCalls(callback: Callback, objects: seq<Leaf>, slots: seq<Slot<nat>>,
                                            slot: Slot<nat>, t: Rewriting)
    requires InGraph(slots, |objects|) && slot.leaf < |objects| == |t.objects|
    requires TracksCalls(callback, objects, slots, t) && TracksObject(callback, objects, slots, t, slot.leaf)
    ensures InGraph(slots + [slot], |objects|)
            && TracksCalls(callback, objects, slots + [slot], Visit(callback, t, slot))
  {
    CallsGrow(callback, objects, slots, slot);
  }

  lemma {:induction false} VisitTracks(callback: Callback, objects: seq<Leaf>, slots: seq<Slot<nat>>, slot: Slot<nat>,
                                       t: Rewriting)
    requires InGraph(slots, |objects|) && slot.leaf < |objects| && Tracks(callback, objects, slots, t)
    ensures InGraph(slots + [slot], |objects|) && Tracks(callback, objects, slots + [slot], Visit(callback, t, slot))
  {
    VisitTracksCalls(callback, objects, slots, slot, t);
    forall r: nat | r < |objects|
      ensures TracksObject(callback, objects, slots + [slot], Visit(callback, t, slot), r)
    {
      VisitTracksObject(callback, objects, slots, slot, t, r);
    }
  }

  lemma {:induction false} AllTracked(callback: Callback, objects: seq<Leaf>, slots: seq<Slot<nat>>)
    requires InGraph(slots, |objects|)
    ensures Tracks(callback, objects, slots, VisitAll(callback, Rewriting(objects, map[], [], false), slots))
  {
    if slots != [] {
      var init, last := slots[..|slots| - 1], slots[|slots| - 1];
      AllTracked(callback, objects, init);
      VisitTracks(callback, objects, init, last, VisitAll(callback, Rewriting(objects, map[], [], false), init));
      assert init + [last] == slots;
    }
  }

  // The graph as a tree.

  function Read(objects: seq<Leaf>, ref: nat): Leaf {
    if ref < |objects| then objects[ref] else Leaf("", false, false, "")
  }

  function Reader(objects: seq<Leaf>): (nat, At) -> Leaf {
    (ref: nat, at: At) => Read(objects, ref)
  }

  /** What a reader of the artwork sees. */
  function View(p: Project<nat>, objects: seq<Leaf>): Project<Leaf> {
    MapProject(p, Reader(objects))
  }

  function Renamed(rename: string -> string, leaf: Leaf, at: At): Leaf {
    if IsAsset(leaf, at) then leaf.(src := rename(leaf.src)) else leaf
  }

  function Renamer(rename: string -> string): (Leaf, At) -> Leaf {
    (leaf, at) => Renamed(rename, leaf, at)
  }

  /** The mapper on a tree: every asset place renamed, nothing else touched. */
  function MapTree(rename: string -> string, tree: Project<Leaf>): Project<Leaf> {
    MapProject(tree, Renamer(rename))
  }

  function ReadRenamed(rename: string -> string, objects: seq<Leaf>): (nat, At) -> Leaf {
    (ref: nat, at: At) => Renamed(rename, Read(objects, ref), at)
  }

  /** The asset references of a tree, in order. */
  function Refs(slots: seq<Slot<Leaf>>): seq<Call> {
    if slots == [] then []
    else
      var last := slots[|slots| - 1];
      Refs(slots[..|slots| - 1]) + if IsAsset(last.leaf, last.at) then [Call(last.leaf.src, last.at)] else []
  }

  /** Shared objects are harmless: one that stands at an asset place and also at a place where none is
      looked for keeps its source. */
  ghost predicate Harmless(rename: string -> string, p: Project<nat>, objects: seq<Leaf>)
    requires InGraph(Slots(p), |objects|)
  {
    forall k :: 0 <= k < |Slots(p)| ==>
      var slot := Slots(p)[k];
      (!IsAsset(objects[slot.leaf], slot.at) && IsAssetObject(objects, Slots(p), slot.leaf))
      ==> rename(objects[slot.leaf].src) == objects[slot.leaf].src
  }

  lemma {:induction false} ViewOfMap(rename: string -> string, p: Project<nat>, objects: seq<Leaf>)
    ensures MapTree(rename, View(p, objects)) == MapProject(p, ReadRenamed(rename, objects))
  {
    MapTwice(p, Reader(objects), Renamer(rename));
    AgreeMakesEqual(p, Compose(Reader(objects), Renamer(rename)), ReadRenamed(rename, objects));
  }

  /** Rewriting in place is mapping the tree exactly when sharing is harmless: an object that occurs
      several times is renamed once, from its original source. */
  lemma {:induction false} RewriteIsTreeMapExactly(callback: Callback, p: Project<nat>, objects: seq<Leaf>)
    requires InGraph(Slots(p), |objects|) && !AnyThrows(callback, CallsOf(objects, Slots(p)))
    ensures var t := VisitAll(callback, Rewriting(objects, map[], [], false), Slots(p));
            View(p, t.objects) == MapTree(callback.rename, View(p, objects)) <==> Harmless(callback.rename, p, objects)
  {
    var slots := Slots(p);
    var t := VisitAll(callback, Rewriting(objects, map[], [], false), slots);
    AllTracked(callback, objects, slots);
    ViewOfMap(callback.rename, p, objects);
    var after, mapped := Reader(t.objects), ReadRenamed(callback.rename, objects);
    EqualExactlyWhenAgreeing(p, after, mapped);
    forall k | 0 <= k < |slots|
      ensures after(slots[k].leaf, slots[k].at) == mapped(slots[k].leaf, slots[k].at)
              <==> (!IsAsset(objects[slots[k].leaf], slots[k].at) && IsAssetObject(objects, slots, slots[k].leaf)
                    ==> callback.rename(objects[slots[k].leaf].src) == objects[slots[k].leaf].src)
    {
      PlaceReads(callback, objects, slots, t, k);
    }
  }

  lemma {:induction false} PlaceReads(callback: Callback, objects: seq<Leaf>, slots: seq<Slot<nat>>, t: Rewriting,
                                      k: nat)
    requires InGraph(slots, |objects|) && Tracks(callback, objects, slots, t) && !t.thrown && k < |slots|
    ensures var r := slots[k].leaf;
            Read(t.objects, r) == Renamed(callback.rename, Read(objects, r), slots[k].at)
            <==> (!IsAsset(objects[r], slots[k].at) && IsAssetObject(objects, slots, r)
                  ==> callback.rename(objects[r].src) == objects[r].src)
  {
    var r := slots[k].leaf;
    assert TracksObject(callback, objects, slots, t, r);
    assert t.objects[r] == objects[r].(src := t.objects[r].src);
    assert IsAsset(objects[r], slots[k].at) ==> IsAssetObject(objects, slots, r);
  }

  /** The callback sees every asset place of the tree once, in order, with its original source; the
      rewrite stops early exactly when the callback throws on one of them. */
  lemma {:induction false} CallbackSeesTheTree(callback: Callback, p: Project<nat>, objects: seq<Leaf>)
    requires InGraph(Slots(p), |objects|)
    ensures var t := VisitAll(callback, Rewriting(objects, map[], [], false), Slots(p));
            && (t.thrown <==> AnyThrows(callback, Refs(Slots(View(p, objects)))))
            && (!t.thrown ==> t.calls == Refs(Slots(View(p, objects))))
  {
    AllTracked(callback, objects, Slots(p));
    SlotsMap(p, Reader(objects));
    CallsAreRefs(objects, Slots(p));
  }

  lemma {:induction false} CallsAreRefs(objects: seq<Leaf>, slots: seq<Slot<nat>>)
    requires InGraph(slots, |objects|)
    ensures CallsOf(objects, slots) == Refs(MapSlots(slots, Reader(objects)))
  {
    if slots != [] {
      CallsAreRefs(objects, slots[..|slots| - 1]);
      assert MapSlots(slots, Reader(objects))[..|slots| - 1] == MapSlots(slots[..|slots| - 1], Reader(objects));
    }
  }

  // Artworks as the program holds them: a graph whose objects may be shared.

  datatype Graph = Graph(project: Project<nat>, objects: seq<Leaf>)

  /** A graph all of whose references are to its own objects. */
  type Artwork = g: Graph | InGraph(Slots(g.project), |g.objects|)
    witness Graph(Project("", None, (0, 0), None, None, None, []), [])

  /** What a reader of the graph sees. */
  function Content(g: Graph): Project<Leaf> {
    View(g.project, g.objects)
  }

  function Calls(g: Artwork): seq<Call> {
    CallsOf(g.objects, Slots(g.project))
  }

  /** `mapArtworkAssets` on a clone of the graph. */
  function Rewrite(callback: Callback, g: Artwork): Rewriting {
    VisitAll(callback, Rewriting(g.objects, map[], [], false), Slots(g.project))
  }

  /** What a reader of the rewritten clone sees. */
  function After(callback: Callback, g: Artwork): Project<Leaf> {
    View(g.project, Rewrite(callback, g).objects)
  }

  /** Cloning keeps sharing: the same references into a fresh array of the same objects. */
  method MapClone(callback: Callback, g: Artwork) returns (t: Rewriting)
    ensures t == Rewrite(callback, g)
  {
    var cells := new Leaf[|g.objects|](k requires 0 <= k < |g.objects| => g.objects[k]);
    assert cells[..] == g.objects;
    var mapper := new Mapper(callback, cells);
    mapper.MapArtworkAssets(g.project);
    return Rewriting(cells[..], mapper.originals, mapper.calls, mapper.thrown);
  }

  lemma {:induction false} CallIsListed(objects: seq<Leaf>, slots: seq<Slot<nat>>, k: nat)
    requires InGraph(slots, |objects|) && k < |slots| && IsAsset(objects[slots[k].leaf], slots[k].at)
    ensures Call(objects[slots[k].leaf].src, slots[k].at) in CallsOf(objects, slots)
  {
    if k < |slots| - 1 {
      CallIsListed(objects, slots[..|slots| - 1], k);
    }
  }

  /** What a rewrite that does not throw makes of one object. */
  lemma {:induction false} RewrittenObject(callback: Callback, g: Artwork, r: nat)
    requires r < |g.objects| && !AnyThrows(callback, Calls(g))
    ensures var asset := IsAssetObject(g.objects, Slots(g.project), r);
            Rewrite(callback, g).objects[r]
            == g.objects[r].(src := if asset then callback.rename(g.objects[r].src) else g.objects[r].src)
  {
    AllTracked(callback, g.objects, Slots(g.project));
    assert TracksObject(callback, g.objects, Slots(g.project), Rewrite(callback, g), r);
  }

  lemma {:induction false} AssetObjectIsCalled(g: Artwork, r: nat)
    requires r < |g.objects| && IsAssetObject(g.objects, Slots(g.project), r)
    ensures exists call :: call in Calls(g) && call.src == g.objects[r].src
  {
    var slots := Slots(g.project);
    var k :| 0 <= k < |slots| && slots[k].leaf == r && IsAsset(g.objects[r], slots[k].at);
    CallIsListed(g.objects, slots, k);
  }

  /** Two callbacks that do not throw and agree on the source of every call rewrite any graph alike,
      whatever is shared in it. */
  lemma {:induction false} AgreeingRewrites(first: Callback, second: Callback, g: Artwork)
    requires !AnyThrows(first, Calls(g)) && !AnyThrows(second, Calls(g))
    requires forall call :: call in Calls(g) ==> first.rename(call.src) == second.rename(call.src)
    ensures Rewrite(first, g).objects == Rewrite(second, g).objects
  {
    var a, b := Rewrite(first, g).objects, Rewrite(second, g).objects;
    forall r | 0 <= r < |g.objects|
      ensures a[r] == b[r]
    {
      RewrittenObject(first, g, r);
      RewrittenObject(second, g, r);
      if IsAssetObject(g.objects, Slots(g.project), r) {
        AssetObjectIsCalled(g, r);
      }
    }
  }

  /** No object stands both at an asset place and at one where none is looked for. */
  ghost predicate Separate(g: Artwork) {
    forall k :: 0 <= k < |Slots(g.project)| && !IsAsset(g.objects[Slots(g.project)[k].leaf], Slots(g.project)[k].at)
      ==> !IsAssetObject(g.objects, Slots(g.project), Slots(g.project)[k].leaf)
  }

  /** Every place has an object of its own. */
  ghost predicate Unshared(g: Artwork) {
    forall i, j :: 0 <= i < j < |Slots(g.project)| ==> Slots(g.project)[i].leaf != Slots(g.project)[j].leaf
  }

  lemma {:induction false} UnsharedIsSeparate(g: Artwork)
    requires Unshared(g)
    ensures Separate(g)
  {
    var slots := Slots(g.project);
    forall k | 0 <= k < |slots| && IsAssetObject(g.objects, slots, slots[k].leaf)
      ensures IsAsset(g.objects[slots[k].leaf], slots[k].at)
    {
      var j :| 0 <= j < |slots| && slots[j].leaf == slots[k].leaf && IsAsset(g.objects[slots[k].leaf], slots[j].at);
      assert j == k;
    }
  }

  /** A rewrite that changes the source of every call is the tree map exactly on separate graphs. */
  lemma {:induction false} TreeMapExactlyWhenSeparate(callback: Callback, g: Artwork)
    requires !AnyThrows(callback, Calls(g))
    requires forall call :: call in Calls(g) ==> callback.rename(call.src) != call.src
    ensures After(callback, g) == MapTree(callback.rename, Content(g)) <==> Separate(g)
  {
    RewriteIsTreeMapExactly(callback, g.project, g.objects);
    var slots := Slots(g.project);
    forall k | 0 <= k < |slots| && IsAssetObject(g.objects, slots, slots[k].leaf)
      ensures callback.rename(g.objects[slots[k].leaf].src) != g.objects[slots[k].leaf].src
    {
      AssetObjectIsCalled(g, slots[k].leaf);
    }
  }

  /** What mapping back does to one object, read at one of its places. */
  lemma {:induction false} ObjectIsRestored(callback: Callback, back: string -> string, g: Artwork, r: nat, at: At)
    requires r < |g.objects| && !AnyThrows(callback, Calls(g))
    requires forall call :: call in Calls(g) ==>
               callback.rename(call.src) != call.src && back(callback.rename(call.src)) == call.src
    requires IsAsset(g.objects[r], at) ==> IsAssetObject(g.objects, Slots(g.project), r)
    ensures Renamed(back, Rewrite(callback, g).objects[r], at) == g.objects[r]
            <==> (!IsAsset(g.objects[r], at) ==> !IsAssetObject(g.objects, Slots(g.project), r))
  {
    RewrittenObject(callback, g, r);
    if IsAssetObject(g.objects, Slots(g.project), r) {
      AssetObjectIsCalled(g, r);
    }
  }

  /** Mapping the tree of a rewritten graph back gives what a reader saw before, exactly on separate graphs:
      for a rewrite that changes every source it is called with, and a map that undoes it on those. */
  lemma {:induction false} RestoredExactlyWhenSeparate(callback: Callback, back: string -> string, g: Artwork)
    requires !AnyThrows(callback, Calls(g))
    requires forall call :: call in Calls(g) ==>
               callback.rename(call.src) != call.src && back(callback.rename(call.src)) == call.src
    ensures MapTree(back, After(callback, g)) == Content(g) <==> Separate(g)
  {
    var slots, after := Slots(g.project), Rewrite(callback, g).objects;
    ViewOfMap(back, g.project, after);
    EqualExactlyWhenAgreeing(g.project, ReadRenamed(back, after), Reader(g.objects));
    forall k | 0 <= k < |slots|
      ensures ReadRenamed(back, after)(slots[k].leaf, slots[k].at) == Reader(g.objects)(slots[k].leaf, slots[k].at)
              <==> (!IsAsset(g.objects[slots[k].leaf], slots[k].at) ==> !IsAssetObject(g.objects, slots, slots[k].leaf))
    {
      assert IsAsset(g.objects[slots[k].leaf], slots[k].at) ==> IsAssetObject(g.objects, slots, slots[k].leaf);
      ObjectIsRestored(callback, back, g, slots[k].leaf, slots[k].at);
    }
  }

  /** The rewritten graph makes the same calls, with the new sources. */
  lemma {:induction false} CallsRenamed(callback: Callback, objects: seq<Leaf>, after: seq<Leaf>, slots: seq<Slot<nat>>)
    requires InGraph(slots, |objects|) && |after| == |objects|
    requires forall k :: 0 <= k < |slots| && IsAsset(objects[slots[k].leaf], slots[k].at) ==>
               after[slots[k].leaf] == Renamed(callback.rename, objects[slots[k].leaf], slots[k].at)
    requires forall r :: 0 <= r < |objects| ==> after[r] == objects[r].(src := after[r].src)
    ensures |CallsOf(after, slots)| == |CallsOf(objects, slots)|
    ensures forall k :: 0 <= k < |CallsOf(objects, slots)| ==>
              var call := CallsOf(objects, slots)[k];
              CallsOf(after, slots)[k] == Call(callback.rename(call.src), call.at)
  {
    if slots != [] {
      var init, last := slots[..|slots| - 1], slots[|slots| - 1];
      forall k | 0 <= k < |init| && IsAsset(objects[init[k].leaf], init[k].at)
        ensures after[init[k].leaf] == Renamed(callback.rename, objects[init[k].leaf], init[k].at)
      {
        assert slots[k] == init[k];
      }
      CallsRenamed(callback, objects, after, init);
      assert after[last.leaf] == objects[last.leaf].(src := after[last.leaf].src);
    }
  }

  lemma {:induction false} AfterRefs(callback: Callback, g: Artwork)
    requires !AnyThrows(callback, Calls(g))
    ensures |Refs(Slots(After(callback, g)))| == |Calls(g)|
    ensures forall k :: 0 <= k < |Calls(g)| ==>
              Refs(Slots(After(callback, g)))[k] == Call(callback.rename(Calls(g)[k].src), Calls(g)[k].at)
  {
    var slots, after := Slots(g.project), Rewrite(callback, g).objects;
    forall r | 0 <= r < |g.objects|
      ensures after[r] == g.objects[r].(src := after[r].src)
      ensures IsAssetObject(g.objects, slots, r) ==> after[r].src == callback.rename(g.objects[r].src)
    {
      RewrittenObject(callback, g, r);
    }
    CallsRenamed(callback, g.objects, after, slots);
    CallsAreRefs(after, slots);
    SlotsMap(g.project, Reader(after));
  }

  // A graph without harmless sharing: one image object is the background and is also referred to from a
  // place where no asset is looked for.

  function SharedBackground(): Project<nat> {
    Project("molly-canvas/1", None, (1, 1), None, None, Some(0),
            [Element("a", None, "", 1, None, None, [], [], [], [0])])
  }

  function SharedObjects(): seq<Leaf> {
    [Leaf("media/a", true, false, ""), Leaf("", false, false, "")]
  }

  /** There the rewrite shows through, and the result is not the tree map. */
  lemma SharingCanShowThrough(callback: Callback)
    requires callback.rename("media/a") != "media/a" && forall c :: !callback.throws(c)
    ensures InGraph(Slots(SharedBackground()), |SharedObjects()|)
    ensures var t := VisitAll(callback, Rewriting(SharedObjects(), map[], [], false), Slots(SharedBackground()));
            View(SharedBackground(), t.objects) != MapTree(callback.rename, View(SharedBackground(), SharedObjects()))
  {
    SlotsOfShared();
    NotHarmless(callback.rename);
    RewriteIsTreeMapExactly(callback, SharedBackground(), SharedObjects());
  }

  lemma {:induction false} NotHarmless(rename: string -> string)
    requires rename("media/a") != "media/a"
    ensures InGraph(Slots(SharedBackground()), |SharedObjects()|)
    ensures !Harmless(rename, SharedBackground(), SharedObjects())
  {
    SlotsOfShared();
    var slots, objects := Slots(SharedBackground()), SharedObjects();
    assert slots[2] == Slot(0, OtherAt);
    assert slots[0].leaf == 0 && IsAsset(objects[0], slots[0].at);
  }

  lemma {:induction false} SlotsOfShared()
    ensures Slots(SharedBackground()) == [Slot(0, BackgroundAt), Slot(1, ElementAt(0)), Slot(0, OtherAt)]
  {
    var p := SharedBackground();
    var e := p.elements[0];
    assert p.elements[..0] == [];
    assert Full(e.others) == [Some(0)];
    assert Full(e.others)[..0] == [];
    assert ListSlots(Full(e.others), Others) == [Slot(0, OtherAt)];
    assert ElementSlots(0, e) == [Slot(1, ElementAt(0)), Slot(0, OtherAt)];
  }
}
