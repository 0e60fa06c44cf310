/** packages/components/vite-mermaid-lazy-boundary-guard.ts: which entries of a bundle reach the mermaid
    chunk by static imports. */
module MermaidGuard {
  import opened FiniteSets

  type File = string

  datatype Chunk = Chunk(fileName: File, name: string, isEntry: bool, imports: seq<File>)

  /** The chunks by file name; a later one replaces an earlier one. */
  function ByFileName(chunks: seq<Chunk>): map<File, Chunk> {
    if chunks == [] then map[]
    else
      var last := chunks[|chunks| - 1];
      ByFileName(chunks[..|chunks| - 1])[last.fileName := last]
  }

  function MermaidFiles(chunks: seq<Chunk>): set<File> {
    set i | 0 <= i < |chunks| && chunks[i].name == "mermaid-deps" :: chunks[i].fileName
  }

  /** What loading a file imports next; names of files that are not chunks import nothing. */
  function ImportsOf(graph: map<File, Chunk>, file: File): seq<File> {
    if file in graph then graph[file].imports else []
  }

  /** A chain of static imports from `from` to `file`. Empty names lead nowhere. */
  predicate IsChain(graph: map<File, Chunk>, from: seq<File>, chain: seq<File>, file: File) {
    && chain != [] && chain[0] in from && chain[|chain| - 1] == file
    && (forall k :: 0 <= k < |chain| ==> chain[k] != "")
    && forall k :: 0 < k < |chain| ==> chain[k] in ImportsOf(graph, chain[k - 1])
  }

  ghost predicate Imports(graph: map<File, Chunk>, from: seq<File>, file: File) {
    exists chain: seq<File> :: IsChain(graph, from, chain, file)
  }

  lemma {:induction false} Extend(graph: map<File, Chunk>, from: seq<File>, file: File, next: File)
    requires Imports(graph, from, file) && next in ImportsOf(graph, file) && next != ""
    ensures Imports(graph, from, next)
  {
    var chain: seq<File> :| IsChain(graph, from, chain, file);
    assert IsChain(graph, from, chain + [next], next);
  }

  /** Everything `file` imports has been seen or is still to be looked at. */
  predicate Covered(graph: map<File, Chunk>, file: File, visited: set<File>, pending: seq<File>) {
    CoversAll(ImportsOf(graph, file), visited, pending)
  }

  predicate CoversAll(files: seq<File>, visited: set<File>, pending: seq<File>) {
    forall f :: f in files && f != "" ==> f in visited || f in pending
  }

  lemma {:induction false} ClosedHoldsChains(graph: map<File, Chunk>, from: seq<File>, visited: set<File>,
                                             chain: seq<File>, file: File)
    requires CoversAll(from, visited, []) && forall v :: v in visited ==> Covered(graph, v, visited, [])
    requires IsChain(graph, from, chain, file)
    ensures file in visited
    decreases |chain|
  {
    if |chain| > 1 {
      var before := chain[|chain| - 2];
      assert IsChain(graph, from, chain[..|chain| - 1], before);
      ClosedHoldsChains(graph, from, visited, chain[..|chain| - 1], before);
      assert Covered(graph, before, visited, []);
      assert chain[|chain| - 1] in ImportsOf(graph, chain[|chain| - 1 - 1]);
    }
  }

  function AllFiles(graph: map<File, Chunk>, from: seq<File>): set<File> {
    (set f | f in from) + (set k, f | k in graph && f in graph[k].imports :: f)
  }

  /** What was seen or is still to be looked at is imported, and covers all that is imported. */
  ghost predicate Searching(graph: map<File, Chunk>, imports: seq<File>, visited: set<File>, pending: seq<File>) {
    && visited <= AllFiles(graph, imports) && (forall f :: f in pending ==> f in AllFiles(graph, imports))
    && (forall f :: f in visited || (f in pending && f != "") ==> Imports(graph, imports, f))
    && CoversAll(imports, visited, pending)
    && forall v :: v in visited ==> Covered(graph, v, visited, pending)
  }

  lemma {:induction false} StartSearching(graph: map<File, Chunk>, imports: seq<File>)
    ensures Searching(graph, imports, {}, imports)
  {
    forall f | f in imports && f != ""
      ensures Imports(graph, imports, f)
    {
      assert IsChain(graph, imports, [f], f);
    }
  }

  lemma {:induction false} SkipKeepsSearching(graph: map<File, Chunk>, imports: seq<File>, visited: set<File>,
                                              rest: seq<File>, file: File)
    requires Searching(graph, imports, visited, rest + [file]) && (file == "" || file in visited)
    ensures Searching(graph, imports, visited, rest)
  {
    forall f | f in rest
      ensures f in rest + [file]
    {
    }
    forall v | v in visited
      ensures Covered(graph, v, visited, rest)
    {
      assert Covered(graph, v, visited, rest + [file]);
    }
  }

  lemma {:induction false} VisitCovers(files: seq<File>, visited: set<File>, rest: seq<File>, file: File,
                                       more: seq<File>)
    requires CoversAll(files, visited, rest + [file])
    ensures CoversAll(files, visited + {file}, rest + more)
  {
  }

  lemma {:induction false} VisitKeepsSearching(graph: map<File, Chunk>, imports: seq<File>, visited: set<File>,
                                               rest: seq<File>, file: File)
    requires Searching(graph, imports, visited, rest + [file]) && file != ""
    ensures Searching(graph, imports, visited + {file}, rest + ImportsOf(graph, file))
  {
    var more := ImportsOf(graph, file);
    assert file in rest + [file];
    VisitCovers(imports, visited, rest, file, more);
    forall v | v in visited + {file}
      ensures Covered(graph, v, visited + {file}, rest + more)
    {
      if v in visited {
        VisitCovers(ImportsOf(graph, v), visited, rest, file, more);
      }
    }
    forall f | f in rest + more
      ensures f in AllFiles(graph, imports) && (f != "" ==> Imports(graph, imports, f))
    {
      if f in rest {
        assert f in rest + [file];
      } else if f != "" {
        Extend(graph, imports, file, f);
      }
    }
  }

  lemma {:induction false} SearchIsComplete(graph: map<File, Chunk>, imports: seq<File>, visited: set<File>, file: File)
    requires Searching(graph, imports, visited, []) && Imports(graph, imports, file)
    ensures file in visited
  {
    var chain: seq<File> :| IsChain(graph, imports, chain, file);
    ClosedHoldsChains(graph, imports, visited, chain, file);
  }

  lemma {:induction false} NothingFound(graph: map<File, Chunk>, mermaid: set<File>, imports: seq<File>,
                                        visited: set<File>)
    requires Searching(graph, imports, visited, []) && visited !! mermaid
    ensures forall file :: file in mermaid ==> !Imports(graph, imports, file)
  {
    forall file | file in mermaid && Imports(graph, imports, file)
      ensures file in visited
    {
      SearchIsComplete(graph, imports, visited, file);
    }
  }

  /** How many files the search can still visit. */
  ghost function Unseen(graph: map<File, Chunk>, imports: seq<File>, visited: set<File>): nat {
    |AllFiles(graph, imports) - visited|
  }

  lemma {:induction false} VisitShrinks(graph: map<File, Chunk>, imports: seq<File>, visited: set<File>,
                                        rest: seq<File>, file: File)
    requires Searching(graph, imports, visited, rest + [file]) && file !in visited && file != ""
    ensures Unseen(graph, imports, visited + {file}) < Unseen(graph, imports, visited)
    ensures Imports(graph, imports, file)
  {
    assert file in rest + [file];
    Shrinks(AllFiles(graph, imports), visited, file);
  }

  ghost predicate Reaches(graph: map<File, Chunk>, mermaid: set<File>, imports: seq<File>) {
    exists file :: file in mermaid && Imports(graph, imports, file)
  }

  /** One file off the worklist. */
  method Look(graph: map<File, Chunk>, mermaid: set<File>, ghost imports: seq<File>, visited: set<File>,
              pending: seq<File>)
    returns (found: bool, seen: set<File>, left: seq<File>)
    requires Searching(graph, imports, visited, pending) && visited !! mermaid && pending != []
    ensures found ==> Reaches(graph, mermaid, imports)
    ensures !found ==> Searching(graph, imports, seen, left) && seen !! mermaid
    ensures !found ==>
              || Unseen(graph, imports, seen) < Unseen(graph, imports, visited)
              || (seen == visited && |left| < |pending|)
  {
    var rest, importedFile := pending[..|pending| - 1], pending[|pending| - 1];
    assert pending == rest + [importedFile];
    if importedFile == "" || importedFile in visited {
      SkipKeepsSearching(graph, imports, visited, rest, importedFile);
      return false, visited, rest;
    }
    VisitKeepsSearching(graph, imports, visited, rest, importedFile);
    VisitShrinks(graph, imports, visited, rest, importedFile);
    return importedFile in mermaid, visited + {importedFile}, rest + ImportsOf(graph, importedFile);
  }

  /** The worklist search from one entry. */
  method ReachesMermaid(graph: map<File, Chunk>, mermaid: set<File>, imports: seq<File>) returns (reaches: bool)
    ensures reaches <==> exists file :: file in mermaid && Imports(graph, imports, file)
  {
    var pending := imports;
    var visited: set<File> := {};
    StartSearching(graph, imports);
    while |pending| > 0
      invariant Searching(graph, imports, visited, pending) && visited !! mermaid
      decreases Unseen(graph, imports, visited), |pending|
    {
      var found;
      found, visited, pending := Look(graph, mermaid, imports, visited, pending);
      if found {
        return true;
      }
    }
    assert pending == [];
    NothingFound(graph, mermaid, imports, visited);
    return false;
  }

  ghost predicate Offends(chunks: seq<Chunk>, chunk: Chunk) {
    chunk.isEntry && exists file :: file in MermaidFiles(chunks) && Imports(ByFileName(chunks), chunk.imports, file)
  }

  /** The offending entries among the first `n` chunks, in order. */
  ghost function Offenders(chunks: seq<Chunk>, n: nat): seq<File>
    requires n <= |chunks|
  {
    if n == 0 then []
    else Offenders(chunks, n - 1) + if Offends(chunks, chunks[n - 1]) then [chunks[n - 1].fileName] else []
  }

  /** The chunk that counts for its file: no later one has the same name. */
  predicate IsLast(chunks: seq<Chunk>, i: nat) {
    i < |chunks| && forall j :: i < j < |chunks| ==> chunks[j].fileName != chunks[i].fileName
  }

  lemma {:induction false} LastIsHeld(chunks: seq<Chunk>, i: nat)
    requires IsLast(chunks, i)
    ensures chunks[i].fileName in ByFileName(chunks) && ByFileName(chunks)[chunks[i].fileName] == chunks[i]
  {
    if i < |chunks| - 1 {
      LastIsHeld(chunks[..|chunks| - 1], i);
    }
  }

  lemma {:induction false} HeldIsLast(chunks: seq<Chunk>, file: File) returns (i: nat)
    requires file in ByFileName(chunks)
    ensures IsLast(chunks, i) && chunks[i].fileName == file
  {
    i := |chunks| - 1;
    if chunks[i].fileName != file {
      i := HeldIsLast(chunks[..i], file);
    }
  }

  /** The file is one of a chunk that imports the next. */
  ghost predicate LoadsNext(chunks: seq<Chunk>, file: File, next: File) {
    exists i: nat :: IsLast(chunks, i) && chunks[i].fileName == file && next in chunks[i].imports
  }

  ghost predicate IsRoute(chunks: seq<Chunk>, entry: Chunk, route: seq<File>) {
    && route != [] && route[0] in entry.imports
    && (forall k :: 0 <= k < |route| ==> route[k] != "")
    && (forall k :: 0 < k < |route| ==> LoadsNext(chunks, route[k - 1], route[k]))
    && exists i :: 0 <= i < |chunks| && chunks[i].name == "mermaid-deps" && chunks[i].fileName == route[|route| - 1]
  }

  lemma {:induction false} LoadsExactly(chunks: seq<Chunk>, file: File, next: File)
    ensures LoadsNext(chunks, file, next) <==> next in ImportsOf(ByFileName(chunks), file)
  {
    if i: nat :| IsLast(chunks, i) && chunks[i].fileName == file && next in chunks[i].imports {
      LastIsHeld(chunks, i);
    } else if file in ByFileName(chunks) {
      var j := HeldIsLast(chunks, file);
      LastIsHeld(chunks, j);
    }
  }

  /** An entry offends exactly when a route of static imports leads from it to a chunk of mermaid. */
  lemma {:induction false} OffendsExactly(chunks: seq<Chunk>, chunk: Chunk)
    ensures Offends(chunks, chunk) <==> chunk.isEntry && exists route: seq<File> :: IsRoute(chunks, chunk, route)
  {
    var graph := ByFileName(chunks);
    if Offends(chunks, chunk) {
      var file :| file in MermaidFiles(chunks) && Imports(graph, chunk.imports, file);
      var route: seq<File> :| IsChain(graph, chunk.imports, route, file);
      forall k | 0 < k < |route|
        ensures LoadsNext(chunks, route[k - 1], route[k])
      {
        LoadsExactly(chunks, route[k - 1], route[k]);
      }
      assert IsRoute(chunks, chunk, route);
    }
    if route: seq<File> :| IsRoute(chunks, chunk, route) {
      forall k | 0 < k < |route|
        ensures route[k] in ImportsOf(graph, route[k - 1])
      {
        LoadsExactly(chunks, route[k - 1], route[k]);
      }
      assert IsChain(graph, chunk.imports, route, route[|route| - 1]);
      assert route[|route| - 1] in MermaidFiles(chunks);
    }
  }

  datatype Verdict = MissingMermaid | Reachable(offenders: seq<File>) | Fine

  /** The guard fails a build without a mermaid chunk, and one whose entries reach it; it names exactly
      those entries. */
  method Check(chunks: seq<Chunk>) returns (verdict: Verdict)
    ensures verdict.MissingMermaid? <==> forall i :: 0 <= i < |chunks| ==> chunks[i].name != "mermaid-deps"
    ensures verdict.Reachable? ==> verdict.offenders == Offenders(chunks, |chunks|) != []
    ensures verdict.Fine? ==> forall i :: 0 <= i < |chunks| ==> !Offends(chunks, chunks[i])
  {
    var graph := ByFileName(chunks);
    var mermaid := MermaidFiles(chunks);
    assert forall i :: 0 <= i < |chunks| && chunks[i].name == "mermaid-deps" ==> chunks[i].fileName in mermaid;
    if mermaid == {} {
      return MissingMermaid;
    }
    var offenders := [];
    for i := 0 to |chunks|
      invariant offenders == Offenders(chunks, i)
    {
      if chunks[i].isEntry {
        var reaches := ReachesMermaid(graph, mermaid, chunks[i].imports);
        if reaches {
          offenders := offenders + [chunks[i].fileName];
        }
      }
    }
    if |offenders| > 0 {
      return Reachable(offenders);
    }
    NoOffenders(chunks, |chunks|);
    return Fine;
  }

  lemma {:induction false} NoOffenders(chunks: seq<Chunk>, n: nat)
    requires n <= |chunks| && Offenders(chunks, n) == []
    ensures forall i :: 0 <= i < n ==> !Offends(chunks, chunks[i])
  {
    if n > 0 {
      NoOffenders(chunks, n - 1);
    }
  }
}
