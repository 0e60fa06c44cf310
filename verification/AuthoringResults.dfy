/** What intake and export ask of an artwork and of a document, and what they leave behind, reference by reference. */
module AuthoringResults {
  import opened ArtworkAliasing
  import opened ArtworkMapper
  import opened ArtworkTree
  import opened Authoring
  import opened Options

  /** `media/` and a name: one segment, no dot name, no backslash, no control character. */
  predicate NamesMedia(src: string, name: string) {
    && src == "media/" + name && name != "" && name != "." && name != ".."
    && forall c :: c in name ==> c !in {'/', '\\'} && c >= ' '
  }

  /** The reference names a file that is there and may be used for what it is used for. */
  ghost predicate Admissible(kernel: Kernel, snapshot: map<string, Bytes>, call: Call) {
    && (exists name :: NamesMedia(call.src, name))
    && call.src in snapshot
    && kernel.admits(snapshot[call.src], match call.at case FontAt(_) => FontKind case _ => ImageKind)
  }

  lemma {:induction false} MediaPathExactly(src: string)
    ensures IsMediaPath(src) <==> exists name :: NamesMedia(src, name)
  {
    if IsMediaPath(src) {
      assert src == src[..6] + src[6..];
      forall c | c in src[6..]
        ensures c !in {'/', '\\'} && c >= ' '
      {
        var k :| 0 <= k < |src[6..]| && src[6..][k] == c;
        assert src[6 + k] == c;
      }
      assert NamesMedia(src, src[6..]);
    }
    if name :| NamesMedia(src, name) {
      assert src[..6] == "media/" && src[6..] == name;
      forall k | 6 <= k < |src|
        ensures src[k] != '/' && src[k] != '\\' && src[k] as int >= 32
      {
        assert src[6..][k - 6] in name;
      }
      assert forall k :: 0 <= k < 6 ==> src[k] == src[..6][k];
    }
  }

  /** A media path is never taken for a remote URL: its first letters are followed by a slash. */
  lemma {:induction false} MediaIsLocal(src: string)
    requires IsMediaPath(src)
    ensures !IsRemote(src)
  {
    assert src[0] == src[..6][0] == 'm' && src[5] == src[..6][5] == '/';
    assert forall k :: 0 <= k < 5 ==> src[k] == src[..6][k] && src[k] != ':';
  }

  lemma {:induction false} RefExactly(kernel: Kernel, snapshot: map<string, Bytes>, call: Call)
    ensures RefOk(kernel, snapshot, call) <==> Admissible(kernel, snapshot, call)
  {
    MediaPathExactly(call.src);
    if IsMediaPath(call.src) {
      MediaIsLocal(call.src);
    }
  }

  /** Fonts are assets, and so are elements of kind image and everything of type image that is looked at. */
  predicate Carries(leaf: Leaf, at: At) {
    at.FontAt? || (if at.ElementAt? then leaf.kindImage else !at.OtherAt? && leaf.typeImage)
  }

  ghost predicate StandsAt(objects: seq<Leaf>, slots: seq<Slot<nat>>, call: Call, k: nat) {
    && k < |slots| && slots[k].leaf < |objects| && slots[k].at == call.at
    && objects[slots[k].leaf].src == call.src && Carries(objects[slots[k].leaf], call.at)
  }

  lemma {:induction false} CallsOfExactly(objects: seq<Leaf>, slots: seq<Slot<nat>>, call: Call)
    requires InGraph(slots, |objects|)
    ensures call in CallsOf(objects, slots) <==> exists k: nat :: StandsAt(objects, slots, call, k)
    decreases |slots|
  {
    if slots != [] {
      var n := |slots| - 1;
      CallsOfExactly(objects, slots[..n], call);
      if k: nat :| StandsAt(objects, slots, call, k) {
        assert k < n ==> StandsAt(objects, slots[..n], call, k);
      }
      if k: nat :| StandsAt(objects, slots[..n], call, k) {
        assert StandsAt(objects, slots, call, k);
      }
      if call == Call(objects[slots[n].leaf].src, slots[n].at) && Carries(objects[slots[n].leaf], slots[n].at) {
        assert StandsAt(objects, slots, call, n);
      }
    }
  }

  /** The references that are looked at are those of the places where an asset stands. */
  lemma {:induction false} CallsExactly(g: Artwork, call: Call)
    ensures call in Calls(g) <==> exists k: nat :: StandsAt(g.objects, Slots(g.project), call, k)
  {
    CallsOfExactly(g.objects, Slots(g.project), call);
  }

  /** The validator accepts an artwork exactly when its fields are right, every reference it looks at is admissible,
      and so is the document it makes with every reference bound to the digest of its bytes. */
  lemma {:induction false} AcceptsExactly(kernel: Kernel, snapshot: map<string, Bytes>, g: Artwork)
    ensures Accepts(kernel, snapshot, g) <==>
              && kernel.shapeOk(Content(g))
              && (forall k :: 0 <= k < |Calls(g)| ==> Admissible(kernel, snapshot, Calls(g)[k]))
              && kernel.documentOk(ToDocument(After(Validating(kernel, snapshot), g)))
  {
    CallsAreExact(Validating(kernel, snapshot), g);
    forall k | 0 <= k < |Calls(g)|
      ensures RefOk(kernel, snapshot, Calls(g)[k]) <==> Admissible(kernel, snapshot, Calls(g)[k])
    {
      RefExactly(kernel, snapshot, Calls(g)[k]);
    }
  }

  /** In what it accepts, every reference has become the digest of the bytes it named. */
  lemma {:induction false} AcceptedRefs(kernel: Kernel, snapshot: map<string, Bytes>, g: Artwork)
    requires Accepts(kernel, snapshot, g)
    ensures var refs, calls := Refs(Slots(After(Validating(kernel, snapshot), g))), Calls(g);
            && |refs| == |calls|
            && forall k :: 0 <= k < |calls| ==>
                 calls[k].src in snapshot
                 && refs[k] == Call("asset:" + kernel.hash(snapshot[calls[k].src]), calls[k].at)
  {
    CallsAreExact(Validating(kernel, snapshot), g);
    AfterRefs(Validating(kernel, snapshot), g);
    forall k | 0 <= k < |Calls(g)|
      ensures RefOk(kernel, snapshot, Calls(g)[k])
    {
    }
  }

  /** The importer answers `unsupported` exactly when a reference is not indexed under a canonical name, or the document
      it makes is not valid. */
  lemma {:induction false} ImportedExactly(kernel: Kernel, g: Artwork, index: map<string, string>)
    ensures Imported(kernel, g, index).Some? <==>
              && (forall k :: 0 <= k < |Calls(g)| ==> Calls(g)[k].src in index && Canonical(index[Calls(g)[k].src]))
              && kernel.documentOk(ToDocument(After(Importing(index), g)))
  {
    CallsAreExact(Importing(index), g);
    if AnyThrows(Importing(index), Calls(g)) {
      var k :| 0 <= k < |Calls(g)| && Unindexed(index)(Calls(g)[k]);
    }
    forall k | 0 <= k < |Calls(g)| && !IsIndexed(index, Calls(g)[k])
      ensures AnyThrows(Importing(index), Calls(g))
    {
      assert Calls(g)[k] in Calls(g);
    }
  }

  /** An artwork is taken in exactly when nothing routes it elsewhere, the entry is there and parses, and it is
      accepted. */
  lemma {:induction false} ValidatedExactly(kernel: Kernel, entry: string, snapshot: map<string, Bytes>, g: Artwork)
    ensures Validated(kernel, entry, snapshot) == Some(g) <==>
              && !kernel.routed(snapshot) && entry in snapshot && kernel.parse(snapshot[entry]) == Some(g)
              && Accepts(kernel, snapshot, g)
  {
  }

  // Documents.

  /** The stacking positions of a document are those of its artwork; an element that has none gets its place. */
  lemma {:induction false} FilledExactly(d: Document<Leaf>)
    ensures var f := Filled(d);
            && f.(elements := d.elements) == d && |f.elements| == |d.elements|
            && forall i :: 0 <= i < |d.elements| ==>
                 if d.elements[i].zIndex.Some? then f.elements[i] == d.elements[i]
                 else f.elements[i].zIndex == Some(i) && f.elements[i].(zIndex := None) == d.elements[i]
  {
  }

  /** The document of an artwork is that of the project with what it leaves out put in: a white background and an
      empty list of diagnostics. */
  lemma {:induction false} OmittedIsDefault(p: Project<Leaf>)
    ensures ToDocument(p) == ToDocument(p.(
              background := Some(if p.background.Some? then p.background.value
                                 else Leaf("", false, false, "solid #FFFFFF")),
              diagnostics := Some(if p.diagnostics.Some? then p.diagnostics.value else "[]")))
    ensures ToDocument(p).fonts == p.fonts && (ToDocument(p).width, ToDocument(p).height) == p.size
  {
  }

  // Export.

  /** The reference is an asset whose bytes are there, have its digest, and may be used for what they are used for. */
  ghost predicate Stores(kernel: Kernel, assets: map<string, Bytes>, call: Call, digest: string) {
    && call.src == "asset:" + digest && |digest| == 64 && (forall c :: c in digest ==> c in "0123456789abcdef")
    && digest in assets && kernel.hash(assets[digest]) == digest
    && kernel.admits(assets[digest], match call.at case FontAt(_) => FontKind case _ => ImageKind)
  }

  ghost predicate IsStored(kernel: Kernel, assets: map<string, Bytes>, call: Call) {
    exists digest :: Stores(kernel, assets, call, digest)
  }

  lemma {:induction false} HexExactly(c: char)
    ensures IsHex(c) <==> c in "0123456789abcdef"
  {
    var digits := "0123456789abcdef";
    assert forall k :: 0 <= k < 10 ==> digits[k] as int == 48 + k;
    assert forall k :: 10 <= k < 16 ==> digits[k] as int == 87 + k;
    if IsHex(c) {
      var k := if c <= '9' then c as int - 48 else c as int - 87;
      assert digits[k] == c;
    }
  }

  lemma {:induction false} ExportableExactly(kernel: Kernel, assets: map<string, Bytes>, call: Call)
    ensures Exportable(kernel, assets, call) <==> IsStored(kernel, assets, call)
  {
    if Exportable(kernel, assets, call) {
      var digest := call.src[6..];
      assert call.src == call.src[..6] + digest;
      forall c | c in digest
        ensures c in "0123456789abcdef"
      {
        HexExactly(c);
        var k :| 0 <= k < |digest| && digest[k] == c;
        assert IsHex(call.src[6 + k]);
      }
      assert Stores(kernel, assets, call, digest);
    }
    if digest :| Stores(kernel, assets, call, digest) {
      assert call.src[6..] == digest && call.src[..6] == "asset:";
      forall k | 6 <= k < 70
        ensures IsHex(call.src[k])
      {
        assert call.src[k] == digest[k - 6];
        HexExactly(call.src[k]);
      }
    }
  }

  /** A document is exported exactly when it is valid and all it refers to is stored. */
  lemma {:induction false} CanExportExactly(kernel: Kernel, d: StoredDocument, assets: map<string, Bytes>)
    ensures CanExport(kernel, d, assets) <==>
              && kernel.documentOk(ContentOf(d))
              && forall k :: 0 <= k < |RefsOf(d)| ==> IsStored(kernel, assets, RefsOf(d)[k])
  {
    forall k | 0 <= k < |RefsOf(d)|
      ensures Exportable(kernel, assets, RefsOf(d)[k]) <==> IsStored(kernel, assets, RefsOf(d)[k])
    {
      ExportableExactly(kernel, assets, RefsOf(d)[k]);
    }
  }

  /** Some reference asks for the file. */
  ghost predicate AsksFor(calls: seq<Call>, path: string, digest: string) {
    path == "media/" + digest && exists k :: 0 <= k < |calls| && calls[k].src == "asset:" + digest
  }

  lemma {:induction false} CanonicalIsSplit(src: string)
    requires Canonical(src)
    ensures src == "asset:" + src[6..] && Exported(src) == "media/" + src[6..]
  {
  }

  lemma {:induction false} MediaAreAskedFor(calls: seq<Call>, assets: map<string, Bytes>, path: string)
    requires path in MediaOf(calls, assets)
    ensures exists digest :: AsksFor(calls, path, digest)
  {
    var n := |calls| - 1;
    var src := calls[n].src;
    if Canonical(src) && src[6..] in assets && path == Exported(src) {
      CanonicalIsSplit(src);
      assert AsksFor(calls, path, src[6..]);
    } else {
      MediaAreAskedFor(calls[..n], assets, path);
      var digest :| AsksFor(calls[..n], path, digest);
      var k :| 0 <= k < n && calls[..n][k].src == "asset:" + digest;
      assert calls[k].src == "asset:" + digest;
      assert AsksFor(calls, path, digest);
    }
  }

  /** The files of an export: the artwork as it was printed, and for every asset that is referred to one file of its
      bytes; no others. */
  lemma {:induction false} ExportedFilesExactly(kernel: Kernel, d: StoredDocument, assets: map<string, Bytes>,
                                                path: string)
    requires CanExport(kernel, d, assets)
    ensures var files := Export(kernel, d, assets);
            && (path in files <==> path == "design.yaml" || exists digest :: AsksFor(RefsOf(d), path, digest))
            && files["design.yaml"] == kernel.stringify(Projected(kernel, d, assets))
    ensures forall digest :: AsksFor(RefsOf(d), path, digest) ==>
              digest in assets && path in Export(kernel, d, assets)
              && Export(kernel, d, assets)[path] == assets[digest]
  {
    var calls := RefsOf(d);
    if path in MediaOf(calls, assets) {
      MediaAreAskedFor(calls, assets, path);
    }
    forall digest | AsksFor(calls, path, digest)
      ensures digest in assets && path in Export(kernel, d, assets)
              && Export(kernel, d, assets)[path] == assets[digest]
    {
      var k :| 0 <= k < |calls| && calls[k].src == "asset:" + digest;
      SnapshotHolds(kernel, d, assets, k);
      assert Exportable(kernel, assets, calls[k]);
      assert calls[k].src[6..] == digest;
      CanonicalIsSplit(calls[k].src);
    }
  }

  /** What is printed refers to those files in place of the assets. */
  lemma {:induction false} PrintedRefs(kernel: Kernel, d: StoredDocument, assets: map<string, Bytes>, k: nat)
    requires CanExport(kernel, d, assets) && k < |RefsOf(d)|
    ensures var refs, ref := Refs(Slots(Projected(kernel, d, assets))), RefsOf(d)[k];
            |refs| == |RefsOf(d)| && |ref.src| > 6 && refs[k] == Call("media/" + ref.src[6..], ref.at)
  {
    ProjectedRefs(kernel, d, assets);
    assert Exportable(kernel, assets, RefsOf(d)[k]);
    CanonicalIsSplit(RefsOf(d)[k].src);
  }
}
