/** What a directory must hold for its digest, and what is hashed of it. */
module AuthoringScan {
  import opened AuthoringDigest
  import opened Options
  import opened Utf8

  predicate Spells(name: Name, text: string) {
    |name| == |text| && forall k :: 0 <= k < |name| ==> name[k] == text[k] as int
  }

  /** A regular file with one name, as long as `lstat` said. */
  predicate Regular(node: Node) {
    node.Plain? && node == Plain(node.bytes, |node.bytes|, 1)
  }

  function EntriesOf(sub: Sub): Listing {
    if sub.Listed? then sub.entries else []
  }

  predicate MediaAdmitted(entry: (Name, Node)) {
    Regular(entry.1)
  }

  /** Among the pages only the canvas may be a file; a directory may stand there under any other name but `..yaml`. */
  predicate PageAdmitted(entry: (Name, Node)) {
    if Spells(entry.0, "canvas.yaml") then Regular(entry.1) else entry.1.Folder? && !Spells(entry.0, "..yaml")
  }

  predicate EntryAdmitted(media: bool, entry: (Name, Node)) {
    if media then MediaAdmitted(entry) else PageAdmitted(entry)
  }

  predicate SubAdmitted(media: bool, sub: Sub) {
    && !sub.NotADirectory?
    && forall i :: 0 <= i < |EntriesOf(sub)| ==> EntryAdmitted(media, EntriesOf(sub)[i])
  }

  predicate Admitted(d: Directory) {
    && d.design.Some? && Regular(d.design.value) && !d.leftoverPptd
    && SubAdmitted(true, d.media) && SubAdmitted(false, d.pages)
  }

  ghost predicate IsDistinct(d: Directory) {
    DistinctNames(EntriesOf(d.media)) && DistinctNames(EntriesOf(d.pages))
  }

  /** The entry is hashed: its file under the directory's name. */
  ghost predicate IsTaken(media: bool, entry: (Name, Node), file: File) {
    && (media || Spells(entry.0, "canvas.yaml"))
    && entry.1.Plain? && file.bytes == entry.1.bytes
    && exists folder: Name :: Spells(folder, if media then "media/" else "pages/") && file.path == folder + entry.0
  }

  lemma {:induction false} VisitExactly(media: bool, entries: Listing, i: nat)
    requires DistinctNames(entries) && i < |entries|
    ensures var r := Visit(media, entries, entries[i].0);
            && (r.Some? <==> EntryAdmitted(media, entries[i]))
            && (r.Some? ==> if media || Spells(entries[i].0, "canvas.yaml")
                            then |r.value| == 1 && IsTaken(media, entries[i], r.value[0]) else r.value == [])
  {
    NodeIsFound(entries, i);
    var name := entries[i].0;
    CanvasIsSpelt(name);
    DottedIsSpelt(name);
    if media {
      assert Spells(MEDIA, "media/");
    } else {
      assert Spells(PAGES, "pages/");
    }
  }

  lemma {:induction false} CanvasIsSpelt(name: Name)
    ensures Spells(name, "canvas.yaml") <==> name == CANVAS_YAML
  {
    assert Spells(CANVAS_YAML, "canvas.yaml");
  }

  lemma {:induction false} DottedIsSpelt(name: Name)
    ensures Spells(name, "..yaml") <==> name == [46] + [46, 121, 97, 109, 108]
  {
    assert Spells([46] + [46, 121, 97, 109, 108], "..yaml");
  }

  lemma {:induction false} VisitsExactly(media: bool, entries: Listing, names: seq<Name>)
    ensures VisitAll(media, entries, names).Some? <==>
              forall name :: name in names ==> Visit(media, entries, name).Some?
    decreases |names|
  {
    if names != [] {
      var init, last := names[..|names| - 1], names[|names| - 1];
      VisitsExactly(media, entries, init);
      assert names == init + [last];
      assert forall name :: name in names <==> name in init || name == last;
    }
  }

  /** Of `media/` every entry is hashed, in the order of the names. */
  lemma {:induction false} MediaVisits(entries: Listing, names: seq<Name>)
    requires VisitAll(true, entries, names).Some?
    ensures var files := VisitAll(true, entries, names).value;
            && |files| == |names|
            && forall k :: 0 <= k < |names| ==> Visit(true, entries, names[k]) == Some([files[k]])
    decreases |names|
  {
    if names != [] {
      MediaVisits(entries, names[..|names| - 1]);
    }
  }

  /** Of `pages/` the canvas is hashed, if it is there. */
  lemma {:induction false} PageVisits(entries: Listing, names: seq<Name>)
    requires VisitAll(false, entries, names).Some?
    requires forall j, k :: 0 <= j < k < |names| ==> names[j] != names[k]
    ensures VisitAll(false, entries, names)
            == if CANVAS_YAML in names then Visit(false, entries, CANVAS_YAML) else Some([])
    decreases |names|
  {
    if names != [] {
      var init, last := names[..|names| - 1], names[|names| - 1];
      PageVisits(entries, init);
      var before, here := VisitAll(false, entries, init).value, Visit(false, entries, last).value;
      if last == CANVAS_YAML {
        assert CANVAS_YAML !in init;
        assert [] + here == here;
      } else {
        assert CANVAS_YAML in names <==> CANVAS_YAML in init;
        assert before + [] == before;
      }
    }
  }

  // The order.

  /** `a` comes before `b` by their UTF-16 units: it is shorter and `b` goes on where it ends, or the first unit in
      which they differ is smaller. */
  ghost predicate Before(a: Name, b: Name) {
    exists n :: 0 <= n <= |a| && n < |b| && a[..n] == b[..n] && (n < |a| ==> a[n] < b[n])
  }

  lemma {:induction false} BeforeFromTail(a: Name, b: Name)
    requires a != [] && b != [] && a[0] == b[0] && Before(a[1..], b[1..])
    ensures Before(a, b)
  {
    var n :| 0 <= n <= |a| - 1 && n < |b| - 1 && a[1..][..n] == b[1..][..n] && (n < |a| - 1 ==> a[1..][n] < b[1..][n]);
    assert a[..n + 1] == [a[0]] + a[1..][..n] == [b[0]] + b[1..][..n] == b[..n + 1];
  }

  lemma {:induction false} BeforeHasTail(a: Name, b: Name)
    requires a != [] && b != [] && Before(a, b)
    ensures a[0] < b[0] || (a[0] == b[0] && Before(a[1..], b[1..]))
  {
    var n :| 0 <= n <= |a| && n < |b| && a[..n] == b[..n] && (n < |a| ==> a[n] < b[n]);
    if n > 0 {
      assert a[0] == a[..n][0] == b[..n][0] == b[0];
      assert a[1..][..n - 1] == a[..n][1..] == b[..n][1..] == b[1..][..n - 1];
    }
  }

  lemma {:induction false} AtMostExactly(a: Name, b: Name)
    ensures AtMost(a, b) <==> a == b || Before(a, b)
    decreases |a|
  {
    if a == [] || b == [] {
      assert a[..0] == b[..0];
    } else {
      AtMostExactly(a[1..], b[1..]);
      assert a == [a[0]] + a[1..] && b == [b[0]] + b[1..];
      if Before(a, b) {
        BeforeHasTail(a, b);
      } else if AtMost(a, b) && a != b {
        HeadsAgree(a, b);
        BeforeFromTail(a, b);
      }
    }
  }

  lemma {:induction false} HeadsAgree(a: Name, b: Name)
    requires a != [] && b != [] && !Before(a, b) && AtMost(a, b)
    ensures a[0] == b[0]
  {
    assert a[..0] == b[..0];
  }

  ghost predicate Ascending(names: seq<Name>) {
    forall j, k :: 0 <= j < k < |names| ==> Before(names[j], names[k])
  }

  lemma {:induction false} SortedAscends(names: seq<Name>)
    requires Sorted(names) && forall j, k :: 0 <= j < k < |names| ==> names[j] != names[k]
    ensures Ascending(names)
  {
    if names != [] {
      var rest := names[1..];
      if rest != [] {
        SortedAscends(rest);
      }
      forall j, k | 0 <= j < k < |names|
        ensures Before(names[j], names[k])
      {
        if j > 0 {
          assert Before(rest[j - 1], rest[k - 1]);
        } else {
          HeadIsLeast(names, names[k]);
          AtMostExactly(names[0], names[k]);
        }
      }
    }
  }

  // What is hashed.

  /** The names a sub-directory is visited by: each stands for one entry, and each entry is visited. */
  lemma {:induction false} NamesStand(entries: Listing)
    requires DistinctNames(entries)
    ensures var names := Sort(NamesOf(entries));
            && |names| == |entries| && Ascending(names)
            && (forall name :: name in names <==> name in NamesOf(entries))
            && (forall j, k :: 0 <= j < k < |names| ==> names[j] != names[k])
  {
    var listed, names := NamesOf(entries), Sort(NamesOf(entries));
    SortSorts(listed);
    assert |multiset(names)| == |names| && |multiset(listed)| == |listed|;
    forall name
      ensures name in names <==> name in listed
    {
      assert name in multiset(names) <==> name in multiset(listed);
    }
    DistinctOnce(listed);
    forall j, k | 0 <= j < k < |names|
      ensures names[j] != names[k]
    {
      OnceApart(names, j, k);
    }
    SortedAscends(names);
  }

  lemma {:induction false} DistinctOnce(names: seq<Name>)
    requires forall j, k :: 0 <= j < k < |names| ==> names[j] != names[k]
    ensures forall name :: multiset(names)[name] <= 1
  {
    if names != [] {
      DistinctOnce(names[1..]);
      assert names == [names[0]] + names[1..];
      assert names[0] !in names[1..];
    }
  }

  lemma {:induction false} OnceApart(names: seq<Name>, j: nat, k: nat)
    requires j < k < |names| && forall name :: multiset(names)[name] <= 1
    ensures names[j] != names[k]
  {
    assert names == names[..k] + names[k..];
    assert names[j] == names[..k][j] && names[k] == names[k..][0];
    assert names[j] in multiset(names[..k]) && names[k] in multiset(names[k..]);
    assert multiset(names) == multiset(names[..k]) + multiset(names[k..]);
    assert multiset(names)[names[j]] <= 1;
  }

  lemma {:induction false} ListedExactly(media: bool, entries: Listing)
    requires DistinctNames(entries)
    ensures (forall name :: name in NamesOf(entries) ==> Visit(media, entries, name).Some?)
            <==> forall i :: 0 <= i < |entries| ==> EntryAdmitted(media, entries[i])
  {
    var names := NamesOf(entries);
    forall i | 0 <= i < |entries|
      ensures names[i] in names && (Visit(media, entries, names[i]).Some? <==> EntryAdmitted(media, entries[i]))
    {
      VisitExactly(media, entries, i);
    }
  }

  lemma {:induction false} SubExactly(media: bool, sub: Sub)
    requires DistinctNames(EntriesOf(sub))
    ensures TakeSub(media, sub).Some? <==> SubAdmitted(media, sub)
  {
    if sub.Listed? {
      NamesStand(sub.entries);
      VisitsExactly(media, sub.entries, Sort(NamesOf(sub.entries)));
      ListedExactly(media, sub.entries);
    }
  }

  /** Some entry is hashed as this file. */
  ghost predicate Holds(media: bool, sub: Sub, file: File) {
    exists i :: 0 <= i < |EntriesOf(sub)| && IsTaken(media, EntriesOf(sub)[i], file)
  }

  lemma {:induction false} MediumIsHeld(sub: Sub, i: nat, file: File)
    requires DistinctNames(EntriesOf(sub)) && i < |EntriesOf(sub)|
    requires Visit(true, EntriesOf(sub), EntriesOf(sub)[i].0) == Some([file])
    ensures Holds(true, sub, file) && file.path == MEDIA + EntriesOf(sub)[i].0
  {
    VisitExactly(true, EntriesOf(sub), i);
    assert [file][0] == file;
  }

  lemma {:induction false} MediaExactly(sub: Sub)
    requires DistinctNames(EntriesOf(sub)) && TakeSub(true, sub).Some?
    ensures var files, names := TakeSub(true, sub).value, Sort(NamesOf(EntriesOf(sub)));
            && |files| == |names| == |EntriesOf(sub)| && Ascending(names)
            && forall k :: 0 <= k < |names| ==> Holds(true, sub, files[k]) && files[k].path == MEDIA + names[k]
  {
    var files, entries, names := TakeSub(true, sub).value, EntriesOf(sub), Sort(NamesOf(EntriesOf(sub)));
    NamesStand(entries);
    if sub.Listed? {
      MediaVisits(entries, names);
      forall k | 0 <= k < |names|
        ensures Holds(true, sub, files[k]) && files[k].path == MEDIA + names[k]
      {
        assert names[k] in names;
        var i :| 0 <= i < |entries| && NamesOf(entries)[i] == names[k];
        MediumIsHeld(sub, i, files[k]);
      }
    }
  }

  lemma {:induction false} PagesExactly(sub: Sub)
    requires DistinctNames(EntriesOf(sub)) && TakeSub(false, sub).Some?
    ensures var files, entries := TakeSub(false, sub).value, EntriesOf(sub);
            if exists i :: 0 <= i < |entries| && Spells(entries[i].0, "canvas.yaml")
            then |files| == 1 && Holds(false, sub, files[0]) else files == []
  {
    var entries, names := EntriesOf(sub), Sort(NamesOf(EntriesOf(sub)));
    if sub.Listed? {
      CanvasIsListed(entries, names);
      PageVisits(entries, names);
      if i :| 0 <= i < |entries| && Spells(entries[i].0, "canvas.yaml") {
        CanvasIsSpelt(entries[i].0);
        VisitExactly(false, entries, i);
      }
    }
  }

  lemma {:induction false} CanvasIsListed(entries: Listing, names: seq<Name>)
    requires DistinctNames(entries) && names == Sort(NamesOf(entries))
    ensures CANVAS_YAML in names <==> exists i :: 0 <= i < |entries| && Spells(entries[i].0, "canvas.yaml")
    ensures forall j, k :: 0 <= j < k < |names| ==> names[j] != names[k]
  {
    NamesStand(entries);
    CanvasIsSpelt(CANVAS_YAML);
    if i :| 0 <= i < |entries| && Spells(entries[i].0, "canvas.yaml") {
      CanvasIsSpelt(entries[i].0);
      assert NamesOf(entries)[i] == CANVAS_YAML;
    }
  }

  /** The files that are hashed, in their order: the design, every file of `media/` by name, and the canvas of
      `pages/` if it is there; each with its path and its bytes. */
  ghost predicate Hashes(d: Directory, files: seq<File>)
    requires d.design.Some?
  {
    var media, pages := EntriesOf(d.media), EntriesOf(d.pages);
    && |files| == 1 + |media| + (if exists i :: 0 <= i < |pages| && Spells(pages[i].0, "canvas.yaml") then 1 else 0)
    && Spells(files[0].path, "design.yaml") && d.design.value == Plain(files[0].bytes, |files[0].bytes|, 1)
    && (forall k :: 1 <= k <= |media| ==> Holds(true, d.media, files[k]))
    && (forall j, k :: 1 <= j < k <= |media| ==> Before(files[j].path, files[k].path))
    && (|files| > 1 + |media| ==> Holds(false, d.pages, files[1 + |media|]))
  }

  lemma {:induction false} BeforeBehind(folder: Name, a: Name, b: Name)
    requires Before(a, b)
    ensures Before(folder + a, folder + b)
  {
    var n :| 0 <= n <= |a| && n < |b| && a[..n] == b[..n] && (n < |a| ==> a[n] < b[n]);
    assert (folder + a)[..|folder| + n] == folder + a[..n] == folder + b[..n] == (folder + b)[..|folder| + n];
  }

  /** The scan succeeds exactly on an admitted directory, and what is hashed is told by what it lists. */
  lemma {:induction false} CollectedExactly(d: Directory)
    requires IsDistinct(d)
    ensures Collected(d).Some? <==> Admitted(d)
    ensures Collected(d).Some? ==> Hashes(d, Collected(d).value)
  {
    SubExactly(true, d.media);
    SubExactly(false, d.pages);
    if Collected(d).Some? {
      FilesAreHashed(d);
    }
  }

  lemma {:induction false} FilesAreHashed(d: Directory)
    requires IsDistinct(d) && Collected(d).Some?
    ensures Hashes(d, Collected(d).value)
  {
    MediaExactly(d.media);
    PagesExactly(d.pages);
    var files, media, names := Collected(d).value, TakeSub(true, d.media).value, Sort(NamesOf(EntriesOf(d.media)));
    assert Spells(DESIGN_YAML, "design.yaml");
    assert forall k :: 1 <= k <= |media| ==> files[k] == media[k - 1];
    PathsAscend(media, names);
  }

  lemma {:induction false} PathsAscend(media: seq<File>, names: seq<Name>)
    requires |media| == |names| && Ascending(names)
    requires forall k :: 0 <= k < |names| ==> media[k].path == MEDIA + names[k]
    ensures forall j, k :: 0 <= j < k < |media| ==> Before(media[j].path, media[k].path)
  {
    forall j, k | 0 <= j < k < |media|
      ensures Before(media[j].path, media[k].path)
    {
      BeforeBehind(MEDIA, names[j], names[k]);
    }
  }
}
