/** The digest of packages/design-authoring/src/collect-authoring.ts: the bytes it feeds to the hash,
    from the directory it scans. Names are strings, ordered by their UTF-16 units and hashed as UTF-8. */
module AuthoringDigest {
  import opened Options
  import opened Utf8

  type Name = Text

  const NUL: Byte := 0
  const CHUNK := 64 * 1024

  /** "design.yaml", "media/", "pages/" and "canvas.yaml". */
  const DESIGN_YAML: Name := [100, 101, 115, 105, 103, 110, 46, 121, 97, 109, 108]
  const MEDIA: Name := [109, 101, 100, 105, 97, 47]
  const PAGES: Name := [112, 97, 103, 101, 115, 47]
  const CANVAS_YAML: Name := [99, 97, 110, 118, 97, 115, 46, 121, 97, 109, 108]

  // The encoding of one file: path, NUL, decimal size, NUL, bytes.

  /** A collected file. */
  datatype File = File(path: Name, bytes: Bytes)

  function Decimal(n: nat): Bytes {
    (if n < 10 then [] else Decimal(n / 10)) + [48 + n % 10]
  }

  function Header(path: Name, size: nat): Bytes {
    Write(path) + [NUL] + Decimal(size) + [NUL]
  }

  function EncodeFile(f: File): Bytes {
    Header(f.path, |f.bytes|) + f.bytes
  }

  function Encode(files: seq<File>): Bytes {
    if files == [] then [] else EncodeFile(files[0]) + Encode(files[1..])
  }

  // Its inverse.

  predicate NulFree(bytes: Bytes) {
    forall i :: 0 <= i < |bytes| ==> bytes[i] != NUL
  }

  function NulFrom(bytes: Bytes, from: nat): (n: nat)
    requires from <= |bytes|
    ensures from <= n <= |bytes| && (n < |bytes| ==> bytes[n] == NUL)
    ensures forall i :: from <= i < n ==> bytes[i] != NUL
    decreases |bytes| - from
  {
    if from == |bytes| || bytes[from] == NUL then from else NulFrom(bytes, from + 1)
  }

  /** The bytes before the first NUL and those after it. */
  function Cut(bytes: Bytes): Option<(Bytes, Bytes)> {
    var n := NulFrom(bytes, 0);
    if n == |bytes| then None else Some((bytes[..n], bytes[n + 1..]))
  }

  predicate IsDigit(b: Byte) {
    48 <= b < 58
  }

  function Number(digits: Bytes): Option<nat> {
    if digits == [] then Some(0)
    else
      var last := digits[|digits| - 1];
      var before := Number(digits[..|digits| - 1]);
      if before.None? || !IsDigit(last) then None else Some(10 * before.value + last - 48)
  }

  function DecodeFile(bytes: Bytes): (r: Option<(File, Bytes)>)
    ensures r.Some? ==> |r.value.1| < |bytes|
  {
    var path := Cut(bytes);
    if path.None? then None
    else
      var size := Cut(path.value.1);
      if size.None? then None
      else
        var n := Number(size.value.0);
        var rest := size.value.1;
        var name := Read(path.value.0);
        if name.None? || n.None? || n.value > |rest| then None
        else Some((File(name.value, rest[..n.value]), rest[n.value..]))
  }

  function Decode(bytes: Bytes): Option<seq<File>>
    decreases |bytes|
  {
    if bytes == [] then Some([])
    else
      var first := DecodeFile(bytes);
      if first.None? then None
      else
        var others := Decode(first.value.1);
        if others.None? then None else Some([first.value.0] + others.value)
  }

  lemma {:induction false} CutAt(head: Bytes, rest: Bytes)
    requires NulFree(head)
    ensures Cut(head + [NUL] + rest) == Some((head, rest))
  {
    var bytes := head + [NUL] + rest;
    assert bytes[|head|] == NUL;
    assert forall i :: 0 <= i < |head| ==> bytes[i] == head[i];
    assert NulFrom(bytes, 0) == |head|;
    assert bytes[..|head|] == head && bytes[|head| + 1..] == rest;
  }

  lemma {:induction false} DecimalIsRead(n: nat)
    ensures NulFree(Decimal(n)) && Number(Decimal(n)) == Some(n) && Decimal(n) != []
  {
    if n >= 10 {
      DecimalIsRead(n / 10);
      assert Decimal(n)[..|Decimal(n)| - 1] == Decimal(n / 10);
    } else {
      assert Decimal(n) == [48 + n];
    }
  }

  /** A name as the file system gives it: no NUL, and no half of a surrogate pair. */
  predicate IsName(name: Name) {
    WellFormed(name) && forall i :: 0 <= i < |name| ==> name[i] != 0
  }

  /** The parts of an encoded file, as the decoder takes them apart. */
  lemma {:induction false} FileRegrouped(f: File, rest: Bytes)
    ensures EncodeFile(f) + rest == Write(f.path) + [NUL] + (Decimal(|f.bytes|) + [NUL] + (f.bytes + rest))
  {
  }

  lemma {:induction false} FileIsRead(f: File, rest: Bytes)
    requires IsName(f.path)
    ensures DecodeFile(EncodeFile(f) + rest) == Some((f, rest))
  {
    var size, tail := Decimal(|f.bytes|), f.bytes + rest;
    DecimalIsRead(|f.bytes|);
    NulFreeIsKept(f.path);
    ReadInvertsWrite(f.path);
    FileRegrouped(f, rest);
    CutAt(Write(f.path), size + [NUL] + tail);
    CutAt(size, tail);
    assert tail[..|f.bytes|] == f.bytes && tail[|f.bytes|..] == rest;
  }

  predicate PathsAreNames(files: seq<File>) {
    forall i :: 0 <= i < |files| ==> IsName(files[i].path)
  }

  lemma {:induction false} DecodeInvertsEncode(files: seq<File>)
    requires PathsAreNames(files)
    ensures Decode(Encode(files)) == Some(files)
  {
    if files != [] {
      FileIsRead(files[0], Encode(files[1..]));
      DecodeInvertsEncode(files[1..]);
      assert [files[0]] + files[1..] == files;
    }
  }

  /** Different files, or the same files in another order, give different streams. */
  lemma EncodeIsInjective(files: seq<File>, others: seq<File>)
    requires PathsAreNames(files) && PathsAreNames(others) && Encode(files) == Encode(others)
    ensures files == others
  {
    DecodeInvertsEncode(files);
    DecodeInvertsEncode(others);
  }

  // The order of names.

  predicate AtMost(a: Name, b: Name) {
    a == [] || (b != [] && (a[0] < b[0] || (a[0] == b[0] && AtMost(a[1..], b[1..]))))
  }

  lemma {:induction false} AtMostIsTotalOrder(a: Name, b: Name, c: Name)
    ensures AtMost(a, b) || AtMost(b, a)
    ensures AtMost(a, b) && AtMost(b, a) ==> a == b
    ensures AtMost(a, b) && AtMost(b, c) ==> AtMost(a, c)
    decreases |a|
  {
    if a != [] && b != [] {
      AtMostIsTotalOrder(a[1..], b[1..], if c == [] then [] else c[1..]);
      assert a == [a[0]] + a[1..] && b == [b[0]] + b[1..];
    }
  }

  function Insert(name: Name, names: seq<Name>): seq<Name> {
    if names == [] || AtMost(name, names[0]) then [name] + names else [names[0]] + Insert(name, names[1..])
  }

  function Sort(names: seq<Name>): seq<Name> {
    if names == [] then [] else Insert(names[0], Sort(names[1..]))
  }

  predicate Sorted(names: seq<Name>) {
    |names| > 1 ==> AtMost(names[0], names[1]) && Sorted(names[1..])
  }

  lemma {:induction false} InsertHolds(name: Name, names: seq<Name>)
    ensures multiset(Insert(name, names)) == multiset{name} + multiset(names)
  {
    if names != [] && !AtMost(name, names[0]) {
      InsertHolds(name, names[1..]);
      assert names == [names[0]] + names[1..];
    }
  }

  lemma {:induction false} InsertSorts(name: Name, names: seq<Name>)
    requires Sorted(names)
    ensures Sorted(Insert(name, names))
  {
    if names != [] && !AtMost(name, names[0]) {
      AtMostIsTotalOrder(name, names[0], []);
      InsertSorts(name, names[1..]);
      assert ([names[0]] + Insert(name, names[1..]))[1..] == Insert(name, names[1..]);
    } else {
      assert ([name] + names)[1..] == names;
    }
  }

  lemma {:induction false} SortSorts(names: seq<Name>)
    ensures Sorted(Sort(names)) && multiset(Sort(names)) == multiset(names)
  {
    if names != [] {
      SortSorts(names[1..]);
      InsertSorts(names[0], Sort(names[1..]));
      InsertHolds(names[0], Sort(names[1..]));
      assert names == [names[0]] + names[1..];
    }
  }

  lemma {:induction false} HeadIsLeast(names: seq<Name>, name: Name)
    requires Sorted(names) && name in names
    ensures AtMost(names[0], name)
  {
    if name == names[0] {
      AtMostIsTotalOrder(name, name, []);
    } else {
      HeadIsLeast(names[1..], name);
      AtMostIsTotalOrder(names[0], names[1], name);
    }
  }

  lemma {:induction false} SameHead(a: seq<Name>, b: seq<Name>)
    requires Sorted(a) && Sorted(b) && multiset(a) == multiset(b) && a != [] && b != []
    ensures a[0] == b[0]
  {
    assert b[0] in multiset(a) && a[0] in multiset(b);
    HeadIsLeast(a, b[0]);
    HeadIsLeast(b, a[0]);
    AtMostIsTotalOrder(a[0], b[0], []);
  }

  lemma {:induction false} WithoutHead(a: seq<Name>)
    requires a != []
    ensures multiset(a[1..]) == multiset(a) - multiset{a[0]}
  {
    assert a == [a[0]] + a[1..];
  }

  lemma {:induction false} SortedIsUnique(a: seq<Name>, b: seq<Name>)
    requires Sorted(a) && Sorted(b) && multiset(a) == multiset(b)
    ensures a == b
  {
    if a == [] || b == [] {
      assert |multiset(a)| == |a| && |multiset(b)| == |b|;
    } else {
      SameHead(a, b);
      WithoutHead(a);
      WithoutHead(b);
      SortedIsUnique(a[1..], b[1..]);
      assert a == [a[0]] + a[1..] && b == [b[0]] + b[1..];
    }
  }

  /** However a directory lists its names, they are visited in one order. */
  lemma ListingOrderDoesNotMatter(names: seq<Name>, others: seq<Name>)
    requires multiset(names) == multiset(others)
    ensures Sort(names) == Sort(others)
  {
    SortSorts(names);
    SortSorts(others);
    SortedIsUnique(Sort(names), Sort(others));
  }

  // The directory.

  /** `Plain` is a regular file; `size` is what `lstat` said, which need not be what is read. `Folder` is a
      directory, `Odd` anything else: a link, a pipe, a device. */
  datatype Node = Plain(bytes: Bytes, size: nat, links: nat) | Folder | Odd

  /** A sub-directory as listed: names in any order, with what each is. */
  type Listing = seq<(Name, Node)>

  datatype Sub = Absent | NotADirectory | Listed(entries: Listing)

  datatype Directory = Directory(design: Option<Node>, leftoverPptd: bool, media: Sub, pages: Sub)

  /** A file that `takeFile` accepts as it stands. */
  predicate Takes(node: Node) {
    node.Plain? && node.links == 1 && node.size == |node.bytes|
  }

  function TakeFile(path: Name, node: Node): Option<seq<File>> {
    if Takes(node) then Some([File(path, node.bytes)]) else None
  }

  function Both(a: Option<seq<File>>, b: Option<seq<File>>): Option<seq<File>> {
    if a.None? || b.None? then None else Some(a.value + b.value)
  }

  function NodeOf(entries: Listing, name: Name): Node {
    if entries == [] then Odd else if entries[0].0 == name then entries[0].1 else NodeOf(entries[1..], name)
  }

  function NamesOf(entries: Listing): seq<Name> {
    seq(|entries|, i requires 0 <= i < |entries| => entries[i].0)
  }

  /** Every name of `media/` is a file to take; of `pages/` only the canvas is, other files are refused and
      other directories passed over. */
  function Visit(media: bool, entries: Listing, name: Name): Option<seq<File>> {
    var node := NodeOf(entries, name);
    if media then TakeFile(MEDIA + name, node)
    else if name == CANVAS_YAML then TakeFile(PAGES + name, node)
    else if node.Folder? && name != [46] + [46, 121, 97, 109, 108] then Some([])
    else None
  }

  function VisitAll(media: bool, entries: Listing, names: seq<Name>): Option<seq<File>> {
    if names == [] then Some([])
    else Both(VisitAll(media, entries, names[..|names| - 1]), Visit(media, entries, names[|names| - 1]))
  }

  function TakeSub(media: bool, sub: Sub): Option<seq<File>> {
    match sub
    case Absent => Some([])
    case NotADirectory => None
    case Listed(entries) => VisitAll(media, entries, Sort(NamesOf(entries)))
  }

  /** The files of a digest in the order they are hashed; `None` when the scan throws. */
  function Collected(d: Directory): Option<seq<File>> {
    if d.design.None? || d.leftoverPptd then None
    else Both(Both(TakeFile(DESIGN_YAML, d.design.value), TakeSub(true, d.media)), TakeSub(false, d.pages))
  }

  // The scan itself.

  /** `readSync` at most `want` bytes at `offset` into `chunk`; a read may be short, and is empty only at
      the end of the file. */
  method ReadSync(bytes: Bytes, chunk: array<Byte>, want: nat, offset: nat, short: nat -> nat) returns (count: nat)
    requires want <= chunk.Length
    modifies chunk
    ensures count <= want && (count > 0 ==> offset + count <= |bytes|)
    ensures count == 0 <==> want == 0 || offset >= |bytes|
    ensures count > 0 ==> chunk[..count] == bytes[offset..offset + count]
  {
    if offset >= |bytes| || want == 0 {
      return 0;
    }
    var most := if want < |bytes| - offset then want else |bytes| - offset;
    count := if 1 <= short(offset) <= most then short(offset) else most;
    for i := 0 to count
      invariant forall k :: 0 <= k < i ==> chunk[k] == bytes[offset + k]
    {
      chunk[i] := bytes[offset + i];
    }
    assert forall k :: 0 <= k < count ==> chunk[..count][k] == bytes[offset..offset + count][k];
  }

  /** One file: header, then its bytes chunk by chunk. It succeeds exactly when the file holds as many
      bytes as `lstat` said, and then it has hashed all of them, once. */
  method HashFile(path: Name, node: Node, chunk: array<Byte>, short: nat -> nat) returns (fed: Option<Bytes>)
    requires chunk.Length == CHUNK
    modifies chunk
    ensures fed == if Takes(node) then Some(EncodeFile(File(path, node.bytes))) else None
  {
    if !node.Plain? || node.links != 1 {
      return None;
    }
    var header := Header(path, node.size);
    var hashed: Bytes := [];
    var offset := 0;
    while offset < node.size
      invariant offset <= node.size && offset <= |node.bytes| && hashed == node.bytes[..offset]
    {
      var want := if chunk.Length < node.size - offset then chunk.Length else node.size - offset;
      var count := ReadSync(node.bytes, chunk, want, offset, short);
      if count == 0 {
        return None;
      }
      hashed := hashed + chunk[..count];
      offset := offset + count;
    }
    var more := ReadSync(node.bytes, chunk, 1, offset, short);
    if more != 0 {
      return None;
    }
    assert node.bytes[..offset] == node.bytes;
    return Some(header + hashed);
  }

  lemma {:induction false} Regroup(a: Bytes, b: Bytes, c: Bytes)
    ensures a + (b + c) == a + b + c
  {
  }

  lemma {:induction false} EncodeAppends(files: seq<File>, others: seq<File>)
    ensures Encode(files + others) == Encode(files) + Encode(others)
  {
    if files == [] {
      assert files + others == others;
    } else {
      EncodeAppends(files[1..], others);
      assert (files + others)[1..] == files[1..] + others;
      Regroup(EncodeFile(files[0]), Encode(files[1..]), Encode(others));
    }
  }

  lemma {:induction false} EncodeOne(f: File)
    ensures Encode([f]) == EncodeFile(f)
  {
    assert [f][1..] == [];
  }

  function Fed(files: Option<seq<File>>): Option<Bytes> {
    if files.None? then None else Some(Encode(files.value))
  }

  /** One sub-directory, its names sorted. */
  method HashSub(media: bool, sub: Sub, chunk: array<Byte>, short: nat -> nat) returns (fed: Option<Bytes>)
    requires chunk.Length == CHUNK
    modifies chunk
    ensures fed == Fed(TakeSub(media, sub))
  {
    if sub.Absent? {
      return Some([]);
    }
    if sub.NotADirectory? {
      return None;
    }
    var names := Sort(NamesOf(sub.entries));
    var hashed: Bytes := [];
    ghost var files: seq<File> := [];
    for i := 0 to |names|
      invariant VisitAll(media, sub.entries, names[..i]) == Some(files) && hashed == Encode(files)
    {
      assert names[..i + 1][..i] == names[..i];
      ghost var visited := Visit(media, sub.entries, names[i]);
      var one := HashEntry(media, sub.entries, names[i], chunk, short);
      if one.None? {
        StopsAt(media, sub.entries, names, i + 1);
        return None;
      }
      EncodeAppends(files, visited.value);
      hashed := hashed + one.value;
      files := files + visited.value;
    }
    assert names[..|names|] == names;
    return Some(hashed);
  }

  /** One entry of a sub-directory: hashed, passed over, or refused. */
  method HashEntry(media: bool, entries: Listing, name: Name, chunk: array<Byte>, short: nat -> nat)
    returns (fed: Option<Bytes>)
    requires chunk.Length == CHUNK
    modifies chunk
    ensures fed == Fed(Visit(media, entries, name))
  {
    var node := NodeOf(entries, name);
    if media || name == CANVAS_YAML {
      var path := (if media then MEDIA else PAGES) + name;
      EncodeOne(File(path, if node.Plain? then node.bytes else []));
      fed := HashFile(path, node, chunk, short);
    } else if node.Folder? && name != [46] + [46, 121, 97, 109, 108] {
      fed := Some([]);
    } else {
      fed := None;
    }
  }

  lemma {:induction false} StopsAt(media: bool, entries: Listing, names: seq<Name>, n: nat)
    requires n <= |names| && VisitAll(media, entries, names[..n]).None?
    ensures VisitAll(media, entries, names).None?
    decreases |names|
  {
    if n == |names| {
      assert names[..n] == names;
    } else {
      assert names[..|names| - 1][..n] == names[..n];
      StopsAt(media, entries, names[..|names| - 1], n);
    }
  }

  /** `digestAuthoring` up to the hash function: all that is fed to it, or an error. */
  method DigestAuthoring(d: Directory, short: nat -> nat) returns (fed: Option<Bytes>)
    ensures fed == Fed(Collected(d))
  {
    var chunk := new Byte[CHUNK];
    if d.design.None? {
      return None;
    }
    var design := HashFile(DESIGN_YAML, d.design.value, chunk, short);
    if design.None? || d.leftoverPptd {
      return None;
    }
    EncodeOne(File(DESIGN_YAML, d.design.value.bytes));
    var media := HashSub(true, d.media, chunk, short);
    if media.None? {
      return None;
    }
    var pages := HashSub(false, d.pages, chunk, short);
    if pages.None? {
      return None;
    }
    ghost var first := [File(DESIGN_YAML, d.design.value.bytes)];
    ghost var second := TakeSub(true, d.media).value;
    EncodeAppends(first, second);
    EncodeAppends(first + second, TakeSub(false, d.pages).value);
    return Some(design.value + media.value + pages.value);
  }

  // Main results.

  predicate DistinctNames(entries: Listing) {
    forall i, j :: 0 <= i < j < |entries| ==> entries[i].0 != entries[j].0
  }

  lemma {:induction false} NodeIsFound(entries: Listing, i: nat)
    requires DistinctNames(entries) && i < |entries|
    ensures NodeOf(entries, entries[i].0) == entries[i].1
  {
    if i > 0 {
      NodeIsFound(entries[1..], i - 1);
    }
  }

  lemma {:induction false} NodeIsMissing(entries: Listing, name: Name)
    requires forall i :: 0 <= i < |entries| ==> entries[i].0 != name
    ensures NodeOf(entries, name) == Odd
  {
    if entries != [] {
      NodeIsMissing(entries[1..], name);
    }
  }

  /** The same sub-directory, listed in another order. */
  predicate Relisted(a: Sub, b: Sub) {
    a == b || (a.Listed? && b.Listed? && multiset(a.entries) == multiset(b.entries)
               && DistinctNames(a.entries) && DistinctNames(b.entries))
  }

  lemma {:induction false} SameNode(a: Listing, b: Listing, name: Name)
    requires multiset(a) == multiset(b) && DistinctNames(a) && DistinctNames(b)
    ensures NodeOf(a, name) == NodeOf(b, name)
  {
    if i :| 0 <= i < |a| && a[i].0 == name {
      NodeIsFound(a, i);
      assert a[i] in multiset(b);
      var j :| 0 <= j < |b| && b[j] == a[i];
      NodeIsFound(b, j);
    } else {
      NodeIsMissing(a, name);
      forall j | 0 <= j < |b|
        ensures b[j].0 != name
      {
        assert b[j] in multiset(a);
        assert b[j] in a;
      }
      NodeIsMissing(b, name);
    }
  }

  lemma {:induction false} NamesJoin(a: Listing, b: Listing)
    ensures NamesOf(a + b) == NamesOf(a) + NamesOf(b)
  {
  }

  lemma {:induction false} NamesWithout(entries: Listing, j: nat)
    requires j < |entries|
    ensures multiset(NamesOf(entries)) == multiset{entries[j].0} + multiset(NamesOf(entries[..j] + entries[j + 1..]))
    ensures multiset(entries) == multiset{entries[j]} + multiset(entries[..j] + entries[j + 1..])
  {
    var before, after := entries[..j], entries[j + 1..];
    assert entries == before + ([entries[j]] + after);
    NamesJoin(before, [entries[j]] + after);
    NamesJoin([entries[j]], after);
    NamesJoin(before, after);
    assert NamesOf([entries[j]]) == [entries[j].0];
  }

  lemma {:induction false} SameNames(a: Listing, b: Listing)
    requires multiset(a) == multiset(b)
    ensures multiset(NamesOf(a)) == multiset(NamesOf(b))
    decreases |a|
  {
    if a == [] {
      assert |multiset(b)| == |b| == 0;
    } else {
      assert a[0] in multiset(b);
      var j :| 0 <= j < |b| && b[j] == a[0];
      NamesWithout(a, 0);
      NamesWithout(b, j);
      var rest, others := a[..0] + a[1..], b[..j] + b[j + 1..];
      assert multiset(rest) == multiset(a) - multiset{a[0]};
      assert multiset(others) == multiset(b) - multiset{b[j]};
      SameNames(rest, others);
    }
  }

  lemma {:induction false} SameVisits(media: bool, a: Listing, b: Listing, names: seq<Name>)
    requires multiset(a) == multiset(b) && DistinctNames(a) && DistinctNames(b)
    ensures VisitAll(media, a, names) == VisitAll(media, b, names)
    decreases |names|
  {
    if names != [] {
      SameVisits(media, a, b, names[..|names| - 1]);
      SameNode(a, b, names[|names| - 1]);
    }
  }

  lemma {:induction false} SameSub(media: bool, a: Sub, b: Sub)
    requires Relisted(a, b)
    ensures TakeSub(media, a) == TakeSub(media, b)
  {
    if a != b {
      SameNames(a.entries, b.entries);
      ListingOrderDoesNotMatter(NamesOf(a.entries), NamesOf(b.entries));
      SameVisits(media, a.entries, b.entries, Sort(NamesOf(a.entries)));
    }
  }

  /** The digest does not depend on the order in which the file system enumerates a directory. */
  lemma DigestIgnoresListingOrder(d: Directory, e: Directory)
    requires d.design == e.design && d.leftoverPptd == e.leftoverPptd
    requires Relisted(d.media, e.media) && Relisted(d.pages, e.pages)
    ensures Fed(Collected(d)) == Fed(Collected(e))
  {
    SameSub(true, d.media, e.media);
    SameSub(false, d.pages, e.pages);
  }

  /** What a listing gives are names. */
  predicate HasNames(sub: Sub) {
    sub.Listed? ==> forall i :: 0 <= i < |sub.entries| ==> IsName(sub.entries[i].0)
  }

  lemma {:induction false} VisitsHaveNames(media: bool, entries: Listing, names: seq<Name>)
    requires forall i :: 0 <= i < |names| ==> IsName(names[i])
    ensures VisitAll(media, entries, names).Some? ==> PathsAreNames(VisitAll(media, entries, names).value)
    decreases |names|
  {
    if names != [] {
      VisitsHaveNames(media, entries, names[..|names| - 1]);
      var name := names[|names| - 1];
      AsciiInFront(MEDIA, name);
      AsciiInFront(PAGES, name);
      assert IsName(MEDIA + name) && IsName(PAGES + name);
    }
  }

  lemma {:induction false} SubHasNames(media: bool, sub: Sub)
    requires HasNames(sub)
    ensures TakeSub(media, sub).Some? ==> PathsAreNames(TakeSub(media, sub).value)
  {
    if sub.Listed? {
      var names := NamesOf(sub.entries);
      SortSorts(names);
      forall i | 0 <= i < |Sort(names)|
        ensures IsName(Sort(names)[i])
      {
        assert Sort(names)[i] in multiset(names);
        assert Sort(names)[i] in names;
      }
      VisitsHaveNames(media, sub.entries, Sort(names));
    }
  }

  lemma {:induction false} AsciiIsName(name: Name)
    requires forall i :: 0 <= i < |name| ==> 0 < name[i] < 128
    ensures IsName(name)
  {
    AsciiInFront(name, []);
    assert name + [] == name;
  }

  lemma {:induction false} BothHaveNames(a: Option<seq<File>>, b: Option<seq<File>>)
    requires a.Some? ==> PathsAreNames(a.value)
    requires b.Some? ==> PathsAreNames(b.value)
    ensures Both(a, b).Some? ==> PathsAreNames(Both(a, b).value)
  {
  }

  lemma {:induction false} TakenHasName(path: Name, node: Node)
    requires IsName(path)
    ensures TakeFile(path, node).Some? ==> PathsAreNames(TakeFile(path, node).value)
  {
  }

  lemma {:induction false} CollectedHasNames(d: Directory)
    requires HasNames(d.media) && HasNames(d.pages) && Collected(d).Some?
    ensures PathsAreNames(Collected(d).value)
  {
    var design := TakeFile(DESIGN_YAML, d.design.value);
    SubHasNames(true, d.media);
    SubHasNames(false, d.pages);
    AsciiIsName(DESIGN_YAML);
    TakenHasName(DESIGN_YAML, d.design.value);
    BothHaveNames(design, TakeSub(true, d.media));
    BothHaveNames(Both(design, TakeSub(true, d.media)), TakeSub(false, d.pages));
  }

  /** Two directories feed the hash the same bytes exactly when they hold the same collected files. */
  lemma DigestDeterminesTheFiles(d: Directory, e: Directory)
    requires HasNames(d.media) && HasNames(d.pages) && HasNames(e.media) && HasNames(e.pages)
    ensures Fed(Collected(d)) == Fed(Collected(e)) <==> Collected(d) == Collected(e)
  {
    if Collected(d).Some? && Collected(e).Some? && Fed(Collected(d)) == Fed(Collected(e)) {
      CollectedHasNames(d);
      CollectedHasNames(e);
      EncodeIsInjective(Collected(d).value, Collected(e).value);
    }
  }
}
