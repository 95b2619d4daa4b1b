// Indexing the sources of one dependency package: a bounded breadth-first walk over
// directory listings that come in pages.
module PackageIndex {
  import opened Options
  import opened Sorting
  import opened Utf8

  const SCAN_LIMIT: nat := 10_000
  const PAGE: nat := 200
  const MAX_FILES: nat := 2000
  const MAX_BYTES: nat := 64 * 1024 * 1024
  const MAX_SYMBOLS: nat := 50_000
  const MAX_PACKAGE_SYMBOLS: nat := 2500
  const MAX_PACKAGE_FILES: nat := 500
  const MAX_PACKAGE_BYTES: nat := 16 * 1024 * 1024
  const MAX_VISITED: nat := 50_000
  const MAX_QUEUE: nat := 2000

  // size: the bytes of its texts. terminal: a type or module declaration.
  datatype Symbol = Symbol(size: nat, terminal: bool)

  // A file that cannot be read has no source, a source that cannot be parsed no symbols,
  // and a directory may not be readable. cut: the listing is not complete.
  datatype Source = Source(bytes: nat, symbols: Option<seq<Symbol>>, incomplete: bool)
  datatype Tree = File(source: Option<Source>) | Directory(readable: bool, listing: seq<Entry>, cut: bool) | Other
  datatype Entry = Entry(name: string, node: Tree)

  // ---- listings ----

  function EntryOrder(): Le<Entry> {
    (a: Entry, b: Entry) =>
      if a.node.Directory? != b.node.Directory? then a.node.Directory? else StringLe(a.name, b.name)
  }

  // The sorted page at an offset, and the offset of the next one.
  function Page(entries: seq<Entry>, offset: nat, limit: nat): (seq<Entry>, Option<nat>) {
    var sorted := Sort(EntryOrder(), entries);
    var from, to := if offset <= |sorted| then offset else |sorted|, if offset + limit <= |sorted| then offset + limit else |sorted|;
    (sorted[from..to], if offset + limit < |sorted| then Some(offset + limit) else None)
  }

  predicate ValidPath(path: string) {
    && Bytes(path) <= 8192 && (forall i | 0 <= i < |path| :: path[i] !in {'\0', '\\', ':'})
    && (path == "" || forall p | p in Split(path, "") :: p !in {"", ".", ".."})
  }

  function Split(path: string, part: string): seq<string> {
    if path == [] then [part]
    else if path[0] == '/' then [part] + Split(path[1..], "")
    else Split(path[1..], part + [path[0]])
  }

  method List(path: string, dir: Tree, offset: nat, limit: nat) returns (r: Option<(seq<Entry>, Option<nat>, bool)>)
    ensures r.Some? <==>
              ValidPath(path) && 1 <= limit <= 200 && offset <= SCAN_LIMIT && dir.Directory? && dir.readable
    ensures r.Some? ==> (r.value.0, r.value.1) == Page(dir.listing, offset, limit) && r.value.2 == dir.cut
  {
    if !ValidPath(path) || !(1 <= limit <= 200) || offset > SCAN_LIMIT || !dir.Directory? || !dir.readable {
      return None;
    }
    var (entries, next) := Page(dir.listing, offset, limit);
    return Some((entries, next, dir.cut));
  }

  function Pages(entries: seq<Entry>, offset: nat, limit: nat): seq<Entry>
    requires limit > 0
    decreases if offset < |Sort(EntryOrder(), entries)| then |Sort(EntryOrder(), entries)| - offset else 0
  {
    var (page, next) := Page(entries, offset, limit);
    page + if next.Some? then Pages(entries, next.value, limit) else []
  }

  // Following the offsets lists every entry exactly once, in order.
  lemma {:induction false} PagesComplete(entries: seq<Entry>, offset: nat, limit: nat)
    requires limit > 0 && offset <= |Sort(EntryOrder(), entries)|
    ensures Pages(entries, offset, limit) == Sort(EntryOrder(), entries)[offset..]
    decreases |Sort(EntryOrder(), entries)| - offset
  {
    var sorted, to := Sort(EntryOrder(), entries), offset + limit;
    if to < |sorted| {
      assert Page(entries, offset, limit) == (sorted[offset..to], Some(to));
      PagesComplete(entries, to, limit);
      assert sorted[offset..] == sorted[offset..to] + sorted[to..];
    } else {
      assert Page(entries, offset, limit) == (sorted[offset..|sorted|], None);
      assert sorted[offset..|sorted|] + [] == sorted[offset..];
    }
  }

  // ---- what there is to index ----

  predicate Excluded(name: string) {
    (name != "" && name[0] == '.') || name in {"target", "tests", "examples", "benches"}
  }

  predicate RustName(name: string) {
    |name| >= 3 && name[|name| - 3..] == ".rs"
  }

  // Every eligible file below a directory, with its path.
  ghost function Reachable(t: Tree, path: string): multiset<(string, Tree)>
    decreases t, 0
  {
    if t.Directory? && t.readable then ReachableIn(t.listing, path) else multiset{}
  }

  ghost function ReachableIn(entries: seq<Entry>, path: string): multiset<(string, Tree)>
    decreases entries, 0
  {
    if entries == [] then multiset{} else ReachableEntry(entries[0], path) + ReachableIn(entries[1..], path)
  }

  ghost function ReachableEntry(e: Entry, path: string): multiset<(string, Tree)>
    decreases e, 0
  {
    if Excluded(e.name) then multiset{}
    else if e.node.Directory? then Reachable(e.node, path + "/" + e.name)
    else if e.node.File? && RustName(e.name) then multiset{(path + "/" + e.name, e.node)}
    else multiset{}
  }

  lemma {:induction false} ReachableInsert(x: Entry, ys: seq<Entry>, path: string)
    ensures ReachableIn(Insert(EntryOrder(), x, ys), path) == ReachableEntry(x, path) + ReachableIn(ys, path)
  {
    if ys == [] || EntryOrder()(x, ys[0]) {
      assert ([x] + ys)[1..] == ys;
    } else {
      ReachableInsert(x, ys[1..], path);
      assert ([ys[0]] + Insert(EntryOrder(), x, ys[1..]))[1..] == Insert(EntryOrder(), x, ys[1..]);
    }
  }

  lemma {:induction false} ReachableSorted(entries: seq<Entry>, path: string)
    ensures ReachableIn(Sort(EntryOrder(), entries), path) == ReachableIn(entries, path)
  {
    if entries != [] {
      ReachableSorted(entries[1..], path);
      ReachableInsert(entries[0], Sort(EntryOrder(), entries[1..]), path);
    }
  }

  // All that is listed below a directory, or only the directories.
  function Size(t: Tree, folders: bool): nat
    decreases t, 0
  {
    1 + if t.Directory? && t.readable then SizeIn(t.listing, folders) else 0
  }

  function SizeIn(entries: seq<Entry>, folders: bool): nat
    decreases entries, 0
  {
    if entries == [] then 0 else SizeEntry(entries[0], folders) + SizeIn(entries[1..], folders)
  }

  function SizeEntry(e: Entry, folders: bool): nat
    decreases e, 0
  {
    if folders && !e.node.Directory? then 0 else Size(e.node, folders)
  }

  lemma {:induction false} SizeInsert(x: Entry, ys: seq<Entry>, folders: bool)
    ensures SizeIn(Insert(EntryOrder(), x, ys), folders) == SizeEntry(x, folders) + SizeIn(ys, folders)
  {
    if ys == [] || EntryOrder()(x, ys[0]) {
      assert ([x] + ys)[1..] == ys;
    } else {
      SizeInsert(x, ys[1..], folders);
      assert ([ys[0]] + Insert(EntryOrder(), x, ys[1..]))[1..] == Insert(EntryOrder(), x, ys[1..]);
    }
  }

  lemma {:induction false} SizeSorted(entries: seq<Entry>, folders: bool)
    ensures SizeIn(Sort(EntryOrder(), entries), folders) == SizeIn(entries, folders)
  {
    if entries != [] {
      SizeSorted(entries[1..], folders);
      SizeInsert(entries[0], Sort(EntryOrder(), entries[1..]), folders);
    }
  }

  // Nothing below can go wrong: every directory can be listed in full, every eligible
  // file can be read and its declarations extracted, and nothing else is there.
  predicate Clean(t: Tree, path: string)
    decreases t, 0
  {
    && t.Directory? && t.readable && !t.cut && ValidPath(path) && |t.listing| <= SCAN_LIMIT
    && forall i | 0 <= i < |t.listing| :: CleanEntry(t.listing[i], path)
  }

  predicate CleanEntry(e: Entry, path: string)
    decreases e, 0
  {
    || Excluded(e.name)
    || (e.node.Directory? && Clean(e.node, path + "/" + e.name))
    || (e.node.File? && (RustName(e.name) ==> CleanFile(e.node)))
  }

  predicate CleanFile(t: Tree) {
    t.File? && t.source.Some? && t.source.value.symbols.Some? && !t.source.value.incomplete
  }

  predicate CleanAll(dirs: Queue) {
    forall i | 0 <= i < |dirs| :: Clean(dirs[i].1, dirs[i].0)
  }

  // A directory that can be listed in full.
  predicate CleanListing(dir: Tree, path: string) {
    && dir.Directory? && dir.readable && !dir.cut && ValidPath(path) && |Entries(dir)| <= SCAN_LIMIT
    && forall i | 0 <= i < |Entries(dir)| :: CleanEntry(Entries(dir)[i], path)
  }

  lemma {:induction false} CleanSorted(dir: Tree, path: string)
    requires Clean(dir, path)
    ensures CleanListing(dir, path)
  {
    var sorted := Sort(EntryOrder(), dir.listing);
    SortLength(EntryOrder(), dir.listing);
    SortHolds(EntryOrder(), dir.listing);
    forall i | 0 <= i < |sorted| ensures CleanEntry(sorted[i], path) {
      assert sorted[i] in multiset(sorted);
    }
  }

  // The entries of a directory in the order of its pages.
  function Entries(dir: Tree): seq<Entry> {
    if dir.Directory? && dir.readable then Sort(EntryOrder(), dir.listing) else []
  }

  lemma {:induction false} EntriesAll(dir: Tree, path: string)
    ensures ReachableIn(Entries(dir), path) == Reachable(dir, path)
    ensures forall folders: bool :: SizeIn(Entries(dir), folders) < Size(dir, folders)
  {
    if dir.Directory? && dir.readable {
      ReachableSorted(dir.listing, path);
      SizeSorted(dir.listing, false);
      SizeSorted(dir.listing, true);
    }
  }

  lemma {:induction false} SizeConcat(xs: seq<Entry>, ys: seq<Entry>)
    ensures forall folders: bool :: SizeIn(xs + ys, folders) == SizeIn(xs, folders) + SizeIn(ys, folders)
  {
    if xs == [] {
      assert xs + ys == ys;
    } else {
      assert (xs + ys)[1..] == xs[1..] + ys;
      SizeConcat(xs[1..], ys);
    }
  }

  // The entries of a directory from an offset on.
  predicate Tail(dir: Tree, offset: nat, left: seq<Entry>) {
    offset + |left| == |Entries(dir)| && forall i | 0 <= i < |left| :: left[i] == Entries(dir)[offset + i]
  }

  // The first of them, and the others.
  predicate Parts(left: seq<Entry>, page: seq<Entry>, after: seq<Entry>) {
    && |left| == |page| + |after|
    && (forall i | 0 <= i < |page| :: page[i] == left[i])
    && forall i | 0 <= i < |after| :: after[i] == left[|page| + i]
  }

  // A page lies at an offset of a directory.
  predicate PageOf(dir: Tree, offset: nat, page: seq<Entry>) {
    offset + |page| <= |Entries(dir)| && forall i | 0 <= i < |page| :: page[i] == Entries(dir)[offset + i]
  }

  // What is left after a page, or without one.
  lemma {:induction false} AfterPage(dir: Tree, offset: nat, left: seq<Entry>, listed: bool, page: seq<Entry>, next: Option<nat>, end: nat)
    returns (after: seq<Entry>)
    requires Tail(dir, offset, left) && end == if listed then offset + |page| else offset
    requires listed ==> PageOf(dir, offset, page) && if next.Some? then next.value == end > offset else end == |Entries(dir)|
    ensures Tail(dir, end, after) && if listed then Parts(left, page, after) else after == left
    ensures listed ==> if next.Some? then |after| < |left| else |after| == 0
  {
    after := if listed then left[|page|..] else left;
  }

  lemma {:induction false} PartsSize(left: seq<Entry>, page: seq<Entry>, after: seq<Entry>)
    requires Parts(left, page, after)
    ensures left == page + after
    ensures forall folders: bool :: SizeIn(left, folders) == SizeIn(page, folders) + SizeIn(after, folders)
  {
    SizeConcat(page, after);
    assert left == page + after;
  }

  lemma {:induction false} PageNext(page: seq<Entry>, i: nat, after: seq<Entry>)
    requires i < |page|
    ensures page[i..] + after == [page[i]] + (page[i + 1..] + after)
    ensures forall folders: bool :: SizeIn(page[i..], folders) == SizeEntry(page[i], folders) + SizeIn(page[i + 1..], folders)
  {
    assert page[i..][1..] == page[i + 1..];
  }

  lemma Moved<T>(done: seq<T>, x: T, pending: multiset<T>)
    ensures multiset(done + [x]) + pending == multiset(done) + (multiset{x} + pending)
  {}

  lemma Dropped<T>(done: multiset<T>, dropped: multiset<T>, pending: multiset<T>, goal: multiset<T>)
    requires done + (dropped + pending) <= goal
    ensures done + pending <= goal
  {}

  // The directories still to be listed.
  type Queue = seq<(string, Tree)>

  ghost function Outstanding(dirs: Queue): multiset<(string, Tree)> {
    if dirs == [] then multiset{} else Reachable(dirs[0].1, dirs[0].0) + Outstanding(dirs[1..])
  }

  // ---- the order in which the walk comes to the files ----

  function FilesIn(entries: seq<Entry>, path: string): seq<(string, Tree)> {
    if entries == [] then [] else FileOf(entries[0], path) + FilesIn(entries[1..], path)
  }

  function FileOf(e: Entry, path: string): seq<(string, Tree)> {
    if !Excluded(e.name) && e.node.File? && RustName(e.name) then [(path + "/" + e.name, e.node)] else []
  }

  function FoldersIn(entries: seq<Entry>, path: string): Queue {
    if entries == [] then [] else FolderOf(entries[0], path) + FoldersIn(entries[1..], path)
  }

  function FolderOf(e: Entry, path: string): Queue {
    if !Excluded(e.name) && e.node.Directory? then [(path + "/" + e.name, e.node)] else []
  }

  // Breadth first: the files of a directory, then the directories queued before those
  // found in it.
  ghost function Tour(dirs: Queue): seq<(string, Tree)>
    decreases Sizes(dirs, false)
  {
    if dirs == [] then []
    else
      var (path, dir) := dirs[0];
      TourShrinks(dirs);
      FilesIn(Entries(dir), path) + Tour(dirs[1..] + FoldersIn(Entries(dir), path))
  }

  lemma {:induction false} TourShrinks(dirs: Queue)
    requires dirs != []
    ensures Sizes(dirs[1..] + FoldersIn(Entries(dirs[0].1), dirs[0].0), false) < Sizes(dirs, false)
  {
    var (path, dir) := dirs[0];
    SizesConcat(dirs[1..], FoldersIn(Entries(dir), path));
    FoldersSize(Entries(dir), path);
    EntriesAll(dir, path);
  }

  lemma {:induction false} SizesConcat(xs: Queue, ys: Queue)
    ensures Sizes(xs + ys, false) == Sizes(xs, false) + Sizes(ys, false)
    ensures Outstanding(xs + ys) == Outstanding(xs) + Outstanding(ys)
  {
    if xs == [] {
      assert xs + ys == ys;
    } else {
      assert (xs + ys)[1..] == xs[1..] + ys;
      SizesConcat(xs[1..], ys);
    }
  }

  lemma {:induction false} FoldersSize(entries: seq<Entry>, path: string)
    ensures Sizes(FoldersIn(entries, path), false) <= SizeIn(entries, false)
  {
    if entries != [] {
      FoldersSize(entries[1..], path);
      SizesConcat(FolderOf(entries[0], path), FoldersIn(entries[1..], path));
      if FolderOf(entries[0], path) != [] {
        QueueOne(FolderOf(entries[0], path)[0]);
      }
    }
  }

  // What is still to come, from the entries left of a directory and from the queue.
  ghost function Rest(left: seq<Entry>, path: string, dirs: Queue): multiset<(string, Tree)> {
    ReachableIn(left, path) + Outstanding(dirs)
  }

  // The same in order.
  ghost function Later(left: seq<Entry>, path: string, dirs: Queue): seq<(string, Tree)> {
    FilesIn(left, path) + Tour(dirs + FoldersIn(left, path))
  }

  // The order leaves nothing out.
  lemma {:induction false} TourReachable(dirs: Queue)
    ensures multiset(Tour(dirs)) == Outstanding(dirs)
    decreases Sizes(dirs, false)
  {
    if dirs != [] {
      var (path, dir) := dirs[0];
      var entries := Entries(dir);
      TourShrinks(dirs);
      TourReachable(dirs[1..] + FoldersIn(entries, path));
      SizesConcat(dirs[1..], FoldersIn(entries, path));
      FilesReachable(entries, path);
      EntriesAll(dir, path);
      assert Tour(dirs) == FilesIn(entries, path) + Tour(dirs[1..] + FoldersIn(entries, path));
    }
  }

  lemma {:induction false} FilesReachable(entries: seq<Entry>, path: string)
    ensures ReachableIn(entries, path) == multiset(FilesIn(entries, path)) + Outstanding(FoldersIn(entries, path))
  {
    if entries != [] {
      var e, rest := entries[0], entries[1..];
      FilesReachable(rest, path);
      FileReachable(e, path);
      SizesConcat(FolderOf(e, path), FoldersIn(rest, path));
      Regroup(FileOf(e, path), FilesIn(rest, path), Outstanding(FolderOf(e, path)), Outstanding(FoldersIn(rest, path)));
    }
  }

  lemma {:induction false} FileReachable(e: Entry, path: string)
    ensures ReachableEntry(e, path) == multiset(FileOf(e, path)) + Outstanding(FolderOf(e, path))
  {
    if FolderOf(e, path) != [] {
      QueueOne(FolderOf(e, path)[0]);
    }
  }

  lemma {:induction false} Regroup<T>(xs: seq<T>, ys: seq<T>, a: multiset<T>, b: multiset<T>)
    ensures (multiset(xs) + a) + (multiset(ys) + b) == multiset(xs + ys) + (a + b)
  {}

  lemma {:induction false} EntryStep(e: Entry, left: seq<Entry>, path: string)
    ensures FilesIn([e] + left, path) == FileOf(e, path) + FilesIn(left, path)
    ensures FoldersIn([e] + left, path) == FolderOf(e, path) + FoldersIn(left, path)
    ensures ReachableIn([e] + left, path) == ReachableEntry(e, path) + ReachableIn(left, path)
  {
    assert ([e] + left)[1..] == left;
  }

  // An entry that is neither followed nor indexed.
  lemma {:induction false} SkipStep(e: Entry, left: seq<Entry>, path: string, dirs: Queue)
    requires FileOf(e, path) == [] && FolderOf(e, path) == []
    ensures Rest([e] + left, path, dirs) == Rest(left, path, dirs) && Later([e] + left, path, dirs) == Later(left, path, dirs)
  {
    EntryStep(e, left, path);
    FileReachable(e, path);
    assert [] + FilesIn(left, path) == FilesIn(left, path) && [] + FoldersIn(left, path) == FoldersIn(left, path);
  }

  lemma {:induction false} FolderRest(e: Entry, left: seq<Entry>, path: string, dirs: Queue, d: (string, Tree))
    requires FolderOf(e, path) == [d]
    ensures Rest([e] + left, path, dirs) == Rest(left, path, dirs + [d]) && Rest(left, path, dirs) <= Rest([e] + left, path, dirs)
  {
    EntryStep(e, left, path);
    QueuePush(dirs, d);
    assert ReachableEntry(e, path) == Reachable(d.1, d.0);
  }

  lemma {:induction false} FolderLater(e: Entry, left: seq<Entry>, path: string, dirs: Queue, d: (string, Tree))
    requires FolderOf(e, path) == [d]
    ensures Later([e] + left, path, dirs) == Later(left, path, dirs + [d])
  {
    var files, folders := FilesIn(left, path), FoldersIn(left, path);
    EntryStep(e, left, path);
    assert FileOf(e, path) == [] && [] + files == files;
    assert dirs + ([d] + folders) == dirs + [d] + folders;
  }

  lemma {:induction false} FileRest(e: Entry, left: seq<Entry>, path: string, dirs: Queue, x: (string, Tree))
    requires FileOf(e, path) == [x]
    ensures Rest([e] + left, path, dirs) == multiset{x} + Rest(left, path, dirs)
  {
    EntryStep(e, left, path);
  }

  lemma {:induction false} FileLater(e: Entry, left: seq<Entry>, path: string, dirs: Queue, x: (string, Tree))
    requires FileOf(e, path) == [x]
    ensures Later([e] + left, path, dirs) == [x] + Later(left, path, dirs)
  {
    var files, folders := FilesIn(left, path), FoldersIn(left, path);
    EntryStep(e, left, path);
    assert FolderOf(e, path) == [] && [] + folders == folders;
    AppendAssoc([x], files, Tour(dirs + folders));
  }

  // The next directory of the queue.
  lemma {:induction false} PopStep(path: string, dirs: Queue)
    requires dirs != []
    ensures var (at, dir) := dirs[0];
            Rest([], path, dirs) == Rest(Entries(dir), at, dirs[1..]) && Later([], path, dirs) == Later(Entries(dir), at, dirs[1..])
  {
    var (at, dir) := dirs[0];
    EntriesAll(dir, at);
    assert dirs + [] == dirs && [] + Tour(dirs) == Tour(dirs);
  }

  lemma {:induction false} EmptyLeft(at: string, path: string, dirs: Queue)
    ensures Rest([], at, dirs) == Rest([], path, dirs) && Later([], at, dirs) == Later([], path, dirs)
  {}

  lemma {:induction false} EmptyQueue(path: string)
    ensures Later([], path, []) == []
  {
    assert [] + FoldersIn([], path) == [];
  }

  // The entries that are listed once the queue is worked off.
  ghost function Ahead(dirs: Queue): nat {
    Sizes(dirs, false) - |dirs|
  }

  ghost function Sizes(dirs: Queue, folders: bool): (r: nat)
    ensures r >= |dirs|
  {
    if dirs == [] then 0 else Size(dirs[0].1, folders) + Sizes(dirs[1..], folders)
  }

  lemma {:induction false} QueuePush(dirs: Queue, d: (string, Tree))
    ensures Outstanding(dirs + [d]) == Outstanding(dirs) + Reachable(d.1, d.0)
    ensures forall folders: bool :: Sizes(dirs + [d], folders) == Sizes(dirs, folders) + Size(d.1, folders)
  {
    if dirs == [] {
      assert dirs + [d] == [d] && [d][1..] == [];
    } else {
      assert (dirs + [d])[1..] == dirs[1..] + [d];
      QueuePush(dirs[1..], d);
    }
  }

  lemma QueueOne(d: (string, Tree))
    ensures Outstanding([d]) == Reachable(d.1, d.0)
    ensures forall folders: bool :: Sizes([d], folders) == Size(d.1, folders)
  {
    assert [d][1..] == [];
  }

  function SymbolsOf(sources: seq<(string, Tree)>): seq<Symbol> {
    if sources == [] then []
    else SymbolsOf(sources[..|sources| - 1]) + DeclaredIn(sources[|sources| - 1].1)
  }

  function DeclaredIn(t: Tree): seq<Symbol> {
    if t.File? && t.source.Some? && t.source.value.symbols.Some? then t.source.value.symbols.value else []
  }

  function TextOf(declared: seq<Symbol>): nat {
    if declared == [] then 0 else TextOf(declared[..|declared| - 1]) + declared[|declared| - 1].size
  }

  lemma {:induction false} TextConcat(xs: seq<Symbol>, ys: seq<Symbol>)
    ensures TextOf(xs + ys) == TextOf(xs) + TextOf(ys)
  {
    if ys == [] {
      assert xs + ys == xs;
    } else {
      assert (xs + ys)[..|xs + ys| - 1] == xs + ys[..|ys| - 1];
      TextConcat(xs, ys[..|ys| - 1]);
    }
  }

  lemma {:induction false} TextNext(declared: seq<Symbol>, i: nat)
    requires i < |declared|
    ensures declared[..i + 1] == declared[..i] + [declared[i]]
    ensures TextOf(declared[..i]) + declared[i].size == TextOf(declared[..i + 1]) <= TextOf(declared)
  {
    assert declared[..i + 1][..i] == declared[..i];
    assert declared[..i + 1] + declared[i + 1..] == declared;
    TextConcat(declared[..i + 1], declared[i + 1..]);
  }

  lemma {:induction false} AppendAssoc<T>(xs: seq<T>, ys: seq<T>, zs: seq<T>)
    ensures xs + (ys + zs) == xs + ys + zs
  {}

  function BytesIn(t: Tree): nat {
    if t.File? && t.source.Some? then t.source.value.bytes else 0
  }

  function BytesOf(sources: seq<(string, Tree)>): nat {
    if sources == [] then 0 else BytesOf(sources[..|sources| - 1]) + BytesIn(sources[|sources| - 1].1)
  }

  lemma SourcesSnoc(xs: seq<(string, Tree)>, x: (string, Tree))
    ensures SymbolsOf(xs + [x]) == SymbolsOf(xs) + DeclaredIn(x.1)
    ensures BytesOf(xs + [x]) == BytesOf(xs) + BytesIn(x.1)
    ensures TextOf(SymbolsOf(xs + [x])) == TextOf(SymbolsOf(xs)) + TextOf(DeclaredIn(x.1))
  {
    assert (xs + [x])[..|xs|] == xs;
    TextConcat(SymbolsOf(xs), DeclaredIn(x.1));
  }

  // What the catalog held when the package was begun, and what there is to index in the
  // order of the walk.
  datatype Base = Base(sources: seq<(string, Tree)>, symbols: seq<Symbol>, files: nat, bytes: nat, text: nat,
                       order: seq<(string, Tree)>)

  // fine: nothing can go wrong with the package.
  datatype Plan = Plan(base: Base, fine: bool)

  lemma {:induction false} OneMore(plan: Plan, done: seq<(string, Tree)>, x: (string, Tree), pending: multiset<(string, Tree)>,
                                   later: seq<(string, Tree)>)
    returns (next: seq<(string, Tree)>)
    requires multiset(done) + (multiset{x} + pending) <= multiset(plan.base.order)
    ensures next != [] && next[..|next| - 1] == done && |next| == |done| + 1
    ensures next <= done + ([x] + later) == next + later
    ensures plan.base.sources + next == plan.base.sources + done + [x]
    ensures multiset(next) + pending <= multiset(plan.base.order) && multiset(done) + pending <= multiset(plan.base.order)
    ensures plan.base.symbols + SymbolsOf(next) == plan.base.symbols + SymbolsOf(done) + DeclaredIn(x.1)
    ensures |SymbolsOf(next)| == |SymbolsOf(done)| + |DeclaredIn(x.1)|
    ensures TextOf(SymbolsOf(next)) == TextOf(SymbolsOf(done)) + TextOf(DeclaredIn(x.1))
    ensures BytesOf(next) == BytesOf(done) + BytesIn(x.1)
  {
    next := done + [x];
    SourcesSnoc(done, x);
    Moved(done, x, pending);
    Dropped(multiset(done), multiset{x}, pending, multiset(plan.base.order));
    assert plan.base.symbols + (SymbolsOf(done) + DeclaredIn(x.1)) == plan.base.symbols + SymbolsOf(done) + DeclaredIn(x.1);
  }

  // The declaration text of the catalog with so many files of the package.
  function TextWith(base: Base, xs: seq<(string, Tree)>): nat {
    base.text + TextOf(SymbolsOf(xs))
  }

  // So many files are below every budget, of the package and of the catalog. They may use
  // up the declaration text.
  predicate Affordable(base: Base, xs: seq<(string, Tree)>) {
    && |xs| < MAX_PACKAGE_FILES && base.files + |xs| < MAX_FILES
    && BytesOf(xs) < MAX_PACKAGE_BYTES && base.bytes + BytesOf(xs) < MAX_BYTES
    && |SymbolsOf(xs)| < MAX_PACKAGE_SYMBOLS && |base.symbols| + |SymbolsOf(xs)| < MAX_SYMBOLS
    && TextWith(base, xs) <= MAX_BYTES
  }

  // The walk comes to the first k files, since the text is not used up before the last.
  predicate Met(base: Base, k: nat)
    requires k <= |base.order|
  {
    k > 0 ==> TextWith(base, base.order[..k - 1]) < MAX_BYTES
  }

  predicate Ample(base: Base) {
    forall k {:trigger base.order[..k]} | 0 <= k <= |base.order| && Met(base, k) :: Affordable(base, base.order[..k])
  }

  // Some files, but not all of them, bring the text to its limit.
  predicate StopsShort(base: Base) {
    exists k | 0 <= k < |base.order| :: TextWith(base, base.order[..k]) == MAX_BYTES
  }

  lemma {:induction false} TextGrows(xs: seq<(string, Tree)>, k: nat)
    requires k <= |xs|
    ensures TextOf(SymbolsOf(xs[..k])) <= TextOf(SymbolsOf(xs))
    decreases |xs|
  {
    if k < |xs| {
      var most := xs[..|xs| - 1];
      assert most[..k] == xs[..k] && most + [xs[|xs| - 1]] == xs;
      TextGrows(most, k);
      SourcesSnoc(most, xs[|xs| - 1]);
    } else {
      assert xs[..k] == xs;
    }
  }

  // Where the text of so many files is below the limit, that of fewer is.
  lemma {:induction false} StaysBelow(base: Base, most: nat)
    requires most <= |base.order| && TextWith(base, base.order[..most]) < MAX_BYTES
    ensures forall k | 0 <= k <= most :: TextWith(base, base.order[..k]) < MAX_BYTES
  {
    forall k | 0 <= k <= most ensures TextWith(base, base.order[..k]) < MAX_BYTES {
      TextGrows(base.order[..most], k);
      assert base.order[..most][..k] == base.order[..k];
    }
  }

  lemma {:induction false} BeginAt(path: string, src: Tree)
    ensures var dirs := [(path, src)];
            Rest([], path, dirs) == multiset(Tour(dirs)) == Reachable(src, path) && Later([], path, dirs) == Tour(dirs)
  {
    var dirs := [(path, src)];
    TourReachable(dirs);
    QueueOne(dirs[0]);
    assert dirs + [] == dirs;
  }

  // The queue grows by no more than the entries that were worked off, and so do the visits.
  ghost predicate Worked(plan: Plan, dirs: Queue, queue: Queue, left: seq<Entry>, after: seq<Entry>, visits: nat, later: nat) {
    && (plan.fine ==> CleanAll(queue))
    && (forall folders: bool :: Sizes(queue, folders) + SizeIn(after, folders) <= Sizes(dirs, folders) + SizeIn(left, folders))
    && later + Ahead(queue) + SizeIn(after, false) <= visits + Ahead(dirs) + SizeIn(left, false)
  }

  lemma {:induction false} WorkedOn(plan: Plan, first: Queue, dirs: Queue, queue: Queue, whole: seq<Entry>, left: seq<Entry>,
                                    after: seq<Entry>, v0: nat, v1: nat, v2: nat)
    requires Worked(plan, first, dirs, whole, left, v0, v1) && Worked(plan, dirs, queue, left, after, v1, v2)
    ensures Worked(plan, first, queue, whole, after, v0, v2)
  {}

  // ---- the walk ----

  //   Go    to the next entry
  //   Halt  the package is done: a budget, or the text of the declarations, is exhausted
  datatype Verdict = Go | Halt

  class Indexer {
    // Of the whole catalog.
    var totalFiles: nat
    var totalBytes: nat
    var symbolBytes: nat
    var symbols: seq<Symbol>
    var sources: seq<(string, Tree)>
    // Of the package.
    var partial: bool
    var files: nat
    var bytes: nat
    var visited: nat
    var packageSymbols: nat
    // The files of this package that were indexed.
    ghost var indexed: seq<(string, Tree)>

    predicate Valid()
      reads this
    {
      symbolBytes <= MAX_BYTES && |symbols| <= MAX_SYMBOLS && packageSymbols <= MAX_PACKAGE_SYMBOLS
    }

    method Mark()
      modifies this`partial
      ensures partial
    {
      partial := true;
    }

    // Whether a budget is left for another page.
    predicate Exhausted()
      reads this
    {
      || packageSymbols >= MAX_PACKAGE_SYMBOLS || totalFiles >= MAX_FILES || totalBytes >= MAX_BYTES
      || files >= MAX_PACKAGE_FILES || bytes >= MAX_PACKAGE_BYTES || |symbols| >= MAX_SYMBOLS
      || symbolBytes >= MAX_BYTES || visited >= MAX_VISITED
    }

    predicate Fits(declared: seq<Symbol>)
      reads this
    {
      && |symbols| + |declared| <= MAX_SYMBOLS && packageSymbols + |declared| <= MAX_PACKAGE_SYMBOLS
      && symbolBytes + TextOf(declared) <= MAX_BYTES
    }

    ghost predicate Added(before: seq<Symbol>, count: nat, text: nat, declared: seq<Symbol>)
      reads this
    {
      symbols == before + declared && packageSymbols == count + |declared| && symbolBytes == text + TextOf(declared)
    }

    // As many declarations as are left; when they do not all fit, the terminal ones first.
    method Choose(declared: seq<Symbol>) returns (chosen: seq<Symbol>)
      requires Valid()
      modifies this`partial
      ensures |symbols| + |chosen| <= MAX_SYMBOLS && packageSymbols + |chosen| <= MAX_PACKAGE_SYMBOLS
      ensures if |symbols| + |declared| <= MAX_SYMBOLS && packageSymbols + |declared| <= MAX_PACKAGE_SYMBOLS
              then chosen == declared && partial == old(partial) else partial
    {
      var globalLeft, packageLeft := MAX_SYMBOLS - |symbols|, MAX_PACKAGE_SYMBOLS - packageSymbols;
      var left := if globalLeft <= packageLeft then globalLeft else packageLeft;
      chosen := declared;
      if |declared| > left {
        var order := (a: Symbol, b: Symbol) => a.terminal || !b.terminal;
        SortLength(order, declared);
        chosen := Sort(order, declared)[..left];
        Mark();
      }
    }

    // The declarations of one file, as far as the symbol budgets go.
    method AddSymbols(declared: seq<Symbol>)
      requires Valid()
      modifies this`symbolBytes, this`packageSymbols, this`symbols, this`partial
      ensures Valid() && symbolBytes >= old(symbolBytes)
      ensures !partial ==> !old(partial) && Added(old(symbols), old(packageSymbols), old(symbolBytes), declared)
      ensures old(Fits(declared)) ==>
                partial == old(partial) && Added(old(symbols), old(packageSymbols), old(symbolBytes), declared)
    {
      var chosen := Choose(declared);
      for i := 0 to |chosen|
        invariant old(partial) || chosen != declared ==> partial
        invariant symbolBytes == old(symbolBytes) + TextOf(chosen[..i]) <= MAX_BYTES
        invariant old(Fits(declared)) ==> chosen == declared && partial == old(partial)
        invariant symbols == old(symbols) + chosen[..i] && packageSymbols == old(packageSymbols) + i
      {
        TextNext(chosen, i);
        if symbolBytes + chosen[i].size > MAX_BYTES {
          symbolBytes := MAX_BYTES;
          Mark();
          return;
        }
        symbolBytes := symbolBytes + chosen[i].size;
        packageSymbols := packageSymbols + 1;
        AppendAssoc(old(symbols), chosen[..i], [chosen[i]]);
        symbols := symbols + [chosen[i]];
      }
      assert chosen[..|chosen|] == chosen;
    }

    // A file that no budget stops, except that it may use up the text of the declarations.
    predicate Suits(file: Tree)
      reads this
    {
      && CleanFile(file) && totalFiles < MAX_FILES && files < MAX_PACKAGE_FILES && |symbols| < MAX_SYMBOLS
      && bytes + BytesIn(file) <= MAX_PACKAGE_BYTES && totalBytes + BytesIn(file) <= MAX_BYTES
      && Fits(DeclaredIn(file)) && packageSymbols + |DeclaredIn(file)| < MAX_PACKAGE_SYMBOLS
    }

    ghost predicate Counted(files0: nat, total0: nat, bytes0: nat, totalBytes0: nat, file: Tree)
      reads this
    {
      && files == files0 + 1 && totalFiles == total0 + 1
      && bytes == bytes0 + BytesIn(file) && totalBytes == totalBytes0 + BytesIn(file)
    }

    method IndexFile(path: string, file: Tree) returns (v: Verdict)
      requires Valid() && file.File?
      modifies this`totalFiles, this`totalBytes, this`symbolBytes, this`symbols, this`sources, this`partial,
               this`files, this`bytes, this`packageSymbols
      ensures Valid() && (sources == old(sources) || sources == old(sources) + [(path, file)]) && symbolBytes >= old(symbolBytes)
      ensures !partial ==> !old(partial) && (v == Halt <==> symbolBytes == MAX_BYTES)
      ensures !partial || old(Suits(file)) ==>
                && sources == old(sources) + [(path, file)]
                && Added(old(symbols), old(packageSymbols), old(symbolBytes), DeclaredIn(file))
                && Counted(old(files), old(totalFiles), old(bytes), old(totalBytes), file)
      ensures old(Suits(file)) ==> partial == old(partial) && (v == Halt <==> symbolBytes == MAX_BYTES)
    {
      if totalFiles >= MAX_FILES || files >= MAX_PACKAGE_FILES || |symbols| >= MAX_SYMBOLS {
        Mark();
        return Halt;
      }
      files, totalFiles := files + 1, totalFiles + 1;
      if file.source.None? {
        Mark();
        return Go;
      }
      var source := file.source.value;
      if bytes + source.bytes > MAX_PACKAGE_BYTES || totalBytes + source.bytes > MAX_BYTES {
        Mark();
        return Halt;
      }
      bytes, totalBytes := bytes + source.bytes, totalBytes + source.bytes;
      if source.symbols.None? {
        Mark();
        return Go;
      }
      if source.incomplete {
        Mark();
      }
      AddSymbols(source.symbols.value);
      sources := sources + [(path, file)];
      if packageSymbols >= MAX_PACKAGE_SYMBOLS {
        Mark();
        return Halt;
      }
      // At equality the walk stops without a mark.
      return if symbolBytes >= MAX_BYTES then Halt else Go;
    }

    // The counters account for what was indexed.
    ghost predicate Accounted(plan: Plan)
      reads this
    {
      && symbols == plan.base.symbols + SymbolsOf(indexed) && packageSymbols == |SymbolsOf(indexed)|
      && symbolBytes == plan.base.text + TextOf(SymbolsOf(indexed))
      && files == |indexed| && totalFiles == plan.base.files + |indexed|
      && bytes == BytesOf(indexed) && totalBytes == plan.base.bytes + BytesOf(indexed)
    }

    // Nothing has been dropped, and there was text left to begin with.
    predicate Live(plan: Plan)
      reads this
    {
      !partial && plan.base.text < MAX_BYTES
    }

    // Whatever was indexed is one of the files, and none is indexed twice. While nothing is
    // dropped, what was indexed and what is still to come make up the order, and every
    // declaration found is in the catalog. Where nothing can go wrong, nothing is dropped.
    ghost predicate Since(plan: Plan, pending: multiset<(string, Tree)>, later: seq<(string, Tree)>)
      reads this
    {
      && sources == plan.base.sources + indexed && multiset(indexed) + pending <= multiset(plan.base.order)
      && (Live(plan) ==> Accounted(plan) && symbolBytes < MAX_BYTES && indexed + later == plan.base.order)
      && (plan.base.text >= MAX_BYTES ==> symbolBytes >= MAX_BYTES)
      && (plan.fine ==> Ample(plan.base) && Live(plan))
    }

    ghost predicate SinceAt(plan: Plan, left: seq<Entry>, path: string, dirs: Queue)
      reads this
    {
      Since(plan, Rest(left, path, dirs), Later(left, path, dirs))
    }

    // The package ends before the end of the order: something was dropped, or the text was
    // used up by the last file, and not before.
    ghost predicate Ended(plan: Plan)
      reads this
    {
      && sources == plan.base.sources + indexed && multiset(indexed) <= multiset(plan.base.order)
      && (Live(plan) ==>
            && Accounted(plan) && symbolBytes == MAX_BYTES && indexed <= plan.base.order
            && indexed != [] && TextWith(plan.base, indexed[..|indexed| - 1]) < MAX_BYTES)
      && (plan.base.text >= MAX_BYTES ==> symbolBytes >= MAX_BYTES)
      && (plan.fine ==> Ample(plan.base) && Live(plan))
    }

    // Something is dropped.
    method Drop(ghost plan: Plan, ghost pending: multiset<(string, Tree)>, ghost later: seq<(string, Tree)>)
      requires Valid() && Since(plan, pending, later) && !plan.fine
      modifies this`partial
      ensures Valid() && partial && Since(plan, pending, later)
    {
      Mark();
    }

    lemma {:induction false} SkipSince(plan: Plan, e: Entry, left: seq<Entry>, path: string, dirs: Queue)
      requires SinceAt(plan, [e] + left, path, dirs) && FileOf(e, path) == [] && FolderOf(e, path) == []
      ensures SinceAt(plan, left, path, dirs)
    {
      SkipStep(e, left, path, dirs);
    }

    lemma {:induction false} FolderSince(plan: Plan, e: Entry, left: seq<Entry>, path: string, dirs: Queue, d: (string, Tree))
      requires SinceAt(plan, [e] + left, path, dirs) && FolderOf(e, path) == [d]
      ensures SinceAt(plan, left, path, dirs + [d])
      ensures partial && !plan.fine ==> SinceAt(plan, left, path, dirs)
    {
      FolderRest(e, left, path, dirs, d);
      FolderLater(e, left, path, dirs, d);
    }

    lemma {:induction false} FileSince(plan: Plan, e: Entry, left: seq<Entry>, path: string, dirs: Queue, x: (string, Tree))
      requires SinceAt(plan, [e] + left, path, dirs) && FileOf(e, path) == [x]
      ensures Since(plan, multiset{x} + Rest(left, path, dirs), [x] + Later(left, path, dirs))
    {
      FileRest(e, left, path, dirs, x);
      FileLater(e, left, path, dirs, x);
    }

    method IndexEntry(path: string, e: Entry, dirs: Queue, ghost plan: Plan, ghost left: seq<Entry>)
      returns (v: Verdict, queue: Queue)
      requires Valid() && SinceAt(plan, [e] + left, path, dirs)
      requires plan.fine ==> CleanEntry(e, path) && CleanAll(dirs) && Sizes(dirs, true) + SizeEntry(e, true) <= MAX_QUEUE
      modifies this
      ensures Valid() && if v == Go then SinceAt(plan, left, path, queue) else Ended(plan)
      ensures plan.fine ==> CleanAll(queue)
      ensures forall folders: bool :: Sizes(queue, folders) <= Sizes(dirs, folders) + SizeEntry(e, folders)
      ensures visited + Ahead(queue) <= old(visited) + Ahead(dirs) + SizeEntry(e, false)
    {
      queue := dirs;
      visited := visited + 1;
      if !Excluded(e.name) && e.node.Directory? {
        queue := IndexFolder((path + "/" + e.name, e.node), dirs, plan, path, e, left);
        return Go, queue;
      }
      v := IndexOther(path, e, dirs, plan, left);
    }

    method IndexOther(path: string, e: Entry, ghost dirs: Queue, ghost plan: Plan, ghost left: seq<Entry>) returns (v: Verdict)
      requires Valid() && SinceAt(plan, [e] + left, path, dirs) && (Excluded(e.name) || !e.node.Directory?)
      requires plan.fine ==> CleanEntry(e, path)
      modifies this`totalFiles, this`totalBytes, this`symbolBytes, this`symbols, this`sources, this`partial,
               this`files, this`bytes, this`packageSymbols, this`indexed
      ensures Valid() && if v == Go then SinceAt(plan, left, path, dirs) else Ended(plan)
    {
      v := Go;
      if Excluded(e.name) {
        SkipSince(plan, e, left, path, dirs);
      } else if !e.node.File? {
        SkipSince(plan, e, left, path, dirs);
        Drop(plan, Rest(left, path, dirs), Later(left, path, dirs));
      } else if !RustName(e.name) {
        SkipSince(plan, e, left, path, dirs);
      } else {
        FileSince(plan, e, left, path, dirs, (path + "/" + e.name, e.node));
        v := IndexSource(path + "/" + e.name, e.node, plan, Rest(left, path, dirs), Later(left, path, dirs));
      }
    }

    method IndexFolder(d: (string, Tree), dirs: Queue, ghost plan: Plan, ghost path: string, ghost e: Entry, ghost left: seq<Entry>)
      returns (queue: Queue)
      requires Valid() && SinceAt(plan, [e] + left, path, dirs) && FolderOf(e, path) == [d]
      requires plan.fine ==> Clean(d.1, d.0) && CleanAll(dirs) && Sizes(dirs, true) + Size(d.1, true) <= MAX_QUEUE
      modifies this`partial
      ensures Valid() && SinceAt(plan, left, path, queue) && (plan.fine ==> CleanAll(queue))
      ensures forall folders: bool :: Sizes(queue, folders) <= Sizes(dirs, folders) + Size(d.1, folders)
      ensures Ahead(queue) <= Ahead(dirs) + Size(d.1, false) - 1
    {
      queue := dirs;
      if |dirs| >= MAX_QUEUE {
        Drop(plan, Rest([e] + left, path, dirs), Later([e] + left, path, dirs));
        FolderSince(plan, e, left, path, dirs, d);
      } else {
        FolderSince(plan, e, left, path, dirs, d);
        queue := dirs + [d];
        QueuePush(dirs, d);
      }
    }

    method IndexSource(path: string, file: Tree, ghost plan: Plan, ghost pending: multiset<(string, Tree)>, ghost later: seq<(string, Tree)>)
      returns (v: Verdict)
      requires Valid() && file.File? && Since(plan, multiset{(path, file)} + pending, [(path, file)] + later)
      requires plan.fine ==> CleanFile(file)
      modifies this`totalFiles, this`totalBytes, this`symbolBytes, this`symbols, this`sources, this`partial,
               this`files, this`bytes, this`packageSymbols, this`indexed
      ensures Valid() && if v == Go then Since(plan, pending, later) else Ended(plan)
    {
      ghost var before, text := sources, symbolBytes;
      ghost var next := OneMore(plan, indexed, (path, file), pending, later);
      if plan.fine {
        Suitable(plan, path, file, pending, later);
      }
      v := IndexFile(path, file);
      if |sources| > |before| {
        indexed := next;
      }
      Recorded(plan, pending, later, v, text);
    }

    // What one file leaves behind.
    lemma {:induction false} Recorded(plan: Plan, pending: multiset<(string, Tree)>, later: seq<(string, Tree)>, v: Verdict, text: nat)
      requires Valid() && sources == plan.base.sources + indexed && multiset(indexed) + pending <= multiset(plan.base.order)
      requires Live(plan) ==>
                 && Accounted(plan) && indexed + later == plan.base.order && (v == Halt <==> symbolBytes == MAX_BYTES)
                 && indexed != [] && TextWith(plan.base, indexed[..|indexed| - 1]) == text < MAX_BYTES
      requires (plan.base.text >= MAX_BYTES ==> symbolBytes >= MAX_BYTES) && (plan.fine ==> Ample(plan.base) && Live(plan))
      ensures if v == Go then Since(plan, pending, later) else Ended(plan)
    {
      assert Live(plan) ==> indexed <= indexed + later;
    }

    // One page of a directory.
    method IndexPage(path: string, page: seq<Entry>, dirs: Queue, ghost plan: Plan, ghost after: seq<Entry>)
      returns (v: Verdict, queue: Queue)
      requires Valid() && SinceAt(plan, page + after, path, dirs)
      requires plan.fine ==>
                 && (forall i | 0 <= i < |page| :: CleanEntry(page[i], path))
                 && CleanAll(dirs) && Sizes(dirs, true) + SizeIn(page, true) <= MAX_QUEUE
      modifies this
      ensures Valid() && if v == Go then SinceAt(plan, after, path, queue) else Ended(plan)
      ensures plan.fine ==> CleanAll(queue)
      ensures forall folders: bool :: Sizes(queue, folders) <= Sizes(dirs, folders) + SizeIn(page, folders)
      ensures visited + Ahead(queue) <= old(visited) + Ahead(dirs) + SizeIn(page, false)
    {
      queue := dirs;
      assert page[0..] == page;
      for i := 0 to |page|
        invariant Valid() && SinceAt(plan, page[i..] + after, path, queue)
        invariant plan.fine ==> CleanAll(queue)
        invariant forall folders: bool ::
                    Sizes(queue, folders) + SizeIn(page[i..], folders) <= Sizes(dirs, folders) + SizeIn(page, folders)
        invariant visited + Ahead(queue) + SizeIn(page[i..], false) <= old(visited) + Ahead(dirs) + SizeIn(page, false)
      {
        PageNext(page, i, after);
        v, queue := IndexEntry(path, page[i], queue, plan, page[i + 1..] + after);
        if v == Halt {
          return;
        }
      }
      assert page[|page|..] + after == after;
      v := Go;
    }

    lemma {:induction false} NotExhausted(plan: Plan, pending: multiset<(string, Tree)>, later: seq<(string, Tree)>)
      requires plan.fine && Since(plan, pending, later) && visited < MAX_VISITED
      ensures !Exhausted()
    {
      var k := |indexed|;
      assert plan.base.order[..k] == indexed;
      if k > 0 {
        assert plan.base.order[..k - 1] == indexed[..k - 1];
        TextGrows(indexed, k - 1);
      }
      assert Met(plan.base, k) && Affordable(plan.base, plan.base.order[..k]);
    }

    lemma {:induction false} Suitable(plan: Plan, path: string, file: Tree, pending: multiset<(string, Tree)>, later: seq<(string, Tree)>)
      requires plan.fine && Since(plan, pending, [(path, file)] + later) && CleanFile(file)
      ensures Suits(file)
    {
      var k := |indexed| + 1;
      SourcesSnoc(indexed, (path, file));
      assert plan.base.order[..k] == indexed + [(path, file)] && plan.base.order[..k - 1] == indexed;
      assert Met(plan.base, k) && Affordable(plan.base, plan.base.order[..k]);
    }

    // Whether the budgets let the walk take another page.
    method Continue(ghost plan: Plan, ghost pending: multiset<(string, Tree)>, ghost later: seq<(string, Tree)>) returns (v: Verdict)
      requires Valid() && Since(plan, pending, later) && (plan.fine ==> visited < MAX_VISITED)
      modifies this`partial
      ensures Valid() && if v == Go then Since(plan, pending, later) else Ended(plan)
      ensures plan.base.text >= MAX_BYTES ==> v == Halt && partial
    {
      if plan.fine {
        NotExhausted(plan, pending, later);
      }
      if Exhausted() {
        Mark();
        return Halt;
      }
      v := Go;
    }

    // All pages of one directory, unless a budget ends the package first.
    method IndexDirectory(path: string, dir: Tree, dirs: Queue, ghost plan: Plan)
      returns (v: Verdict, queue: Queue)
      requires Valid() && SinceAt(plan, Entries(dir), path, dirs)
      requires plan.fine ==>
                 && Clean(dir, path) && CleanAll(dirs) && Sizes(dirs, true) + Size(dir, true) <= MAX_QUEUE
                 && visited + Ahead(dirs) + Size(dir, false) <= MAX_VISITED
      modifies this
      ensures Valid() && if v == Go then SinceAt(plan, [], path, queue) else Ended(plan)
      ensures plan.base.text >= MAX_BYTES ==> v == Halt && partial
      ensures plan.fine ==> CleanAll(queue)
      ensures forall folders: bool :: Sizes(queue, folders) < Sizes(dirs, folders) + Size(dir, folders)
      ensures visited + Ahead(queue) < old(visited) + Ahead(dirs) + Size(dir, false)
    {
      queue := dirs;
      var offset: nat, next := 0, Some(0);
      ghost var left := Entries(dir);
      EntriesAll(dir, path);
      if plan.fine {
        CleanSorted(dir, path);
      }
      while next.Some?
        invariant Valid() && Tail(dir, offset, left) && SinceAt(plan, left, path, queue)
        invariant plan.fine ==> CleanListing(dir, path)
        invariant Worked(plan, dirs, queue, Entries(dir), left, old(visited), visited)
        invariant if next.Some? then next.value == offset else (|left| == 0 || (partial && !plan.fine)) && plan.base.text < MAX_BYTES
        decreases if next.Some? then |left| + 1 else 0
      {
        v, queue, next, offset, left := NextPage(path, dir, offset, queue, plan, left, old(visited), dirs);
        if v == Halt {
          return;
        }
      }
      GiveUp(path, left, queue, plan);
      v := Go;
    }

    // One more page, unless a budget is used up. first is the queue that the directory began
    // with, visits the visits before it.
    method NextPage(path: string, dir: Tree, offset: nat, dirs: Queue, ghost plan: Plan, ghost left: seq<Entry>, ghost visits: nat,
                    ghost first: Queue)
      returns (v: Verdict, queue: Queue, next: Option<nat>, end: nat, ghost after: seq<Entry>)
      requires Valid() && Tail(dir, offset, left) && SinceAt(plan, left, path, dirs) && (plan.fine ==> CleanListing(dir, path))
      requires Worked(plan, first, dirs, Entries(dir), left, visits, visited)
      requires plan.fine ==>
                 && Sizes(first, true) + Size(dir, true) <= MAX_QUEUE && visits + Ahead(first) + Size(dir, false) <= MAX_VISITED
      requires forall folders: bool :: SizeIn(Entries(dir), folders) < Size(dir, folders)
      modifies this
      ensures Valid() && Tail(dir, end, after) && if v == Go then SinceAt(plan, after, path, queue) else Ended(plan)
      ensures plan.base.text >= MAX_BYTES ==> v == Halt && partial
      ensures Worked(plan, first, queue, Entries(dir), after, visits, visited)
      ensures v == Go ==> Onward(plan, next, end, left, after)
    {
      v := Continue(plan, Rest(left, path, dirs), Later(left, path, dirs));
      queue, next, end, after := dirs, None, offset, left;
      if v == Go {
        ghost var now := visited;
        v, queue, next, end, after := TakePage(path, dir, offset, dirs, plan, left);
        WorkedOn(plan, first, dirs, queue, Entries(dir), left, after, visits, now, visited);
      }
    }

    // A directory that cannot be listed is left where it is.
    // Where the pages go on; at their end nothing is left, or it is given up.
    predicate Onward(plan: Plan, next: Option<nat>, end: nat, left: seq<Entry>, after: seq<Entry>)
      reads this
    {
      if next.Some? then next.value == end && |after| < |left| else |after| == 0 || (partial && !plan.fine)
    }

    method TakePage(path: string, dir: Tree, offset: nat, dirs: Queue, ghost plan: Plan, ghost left: seq<Entry>)
      returns (v: Verdict, queue: Queue, next: Option<nat>, end: nat, ghost after: seq<Entry>)
      requires Valid() && Tail(dir, offset, left) && SinceAt(plan, left, path, dirs)
      requires plan.fine ==> CleanListing(dir, path) && CleanAll(dirs) && Sizes(dirs, true) + SizeIn(left, true) <= MAX_QUEUE
      modifies this
      ensures Valid() && Tail(dir, end, after) && if v == Go then SinceAt(plan, after, path, queue) else Ended(plan)
      ensures Worked(plan, dirs, queue, left, after, old(visited), visited)
      ensures v == Go ==> Onward(plan, next, end, left, after)
    {
      var listed, page;
      listed, page, next := ListPage(path, dir, offset, plan, Rest(left, path, dirs), Later(left, path, dirs));
      end := if listed then offset + |page| else offset;
      after := AfterPage(dir, offset, left, listed, page, next, end);
      v, queue := Go, dirs;
      if listed {
        v, queue := IndexListed(path, page, dirs, plan, left, after);
      }
    }

    method IndexListed(path: string, page: seq<Entry>, dirs: Queue, ghost plan: Plan, ghost left: seq<Entry>, ghost after: seq<Entry>)
      returns (v: Verdict, queue: Queue)
      requires Valid() && Parts(left, page, after) && SinceAt(plan, left, path, dirs)
      requires plan.fine ==>
                 && (forall i | 0 <= i < |page| :: CleanEntry(page[i], path))
                 && CleanAll(dirs) && Sizes(dirs, true) + SizeIn(left, true) <= MAX_QUEUE
      modifies this
      ensures Valid() && if v == Go then SinceAt(plan, after, path, queue) else Ended(plan)
      ensures Worked(plan, dirs, queue, left, after, old(visited), visited)
    {
      PartsSize(left, page, after);
      v, queue := IndexPage(path, page, dirs, plan, after);
    }

    // A directory that could not be listed to its end is left.
    lemma {:induction false} GiveUp(path: string, left: seq<Entry>, dirs: Queue, plan: Plan)
      requires SinceAt(plan, left, path, dirs) && (left == [] || (partial && !plan.fine))
      ensures SinceAt(plan, [], path, dirs)
    {
      if left != [] {
        Dropped(multiset(indexed), ReachableIn(left, path), Outstanding(dirs), multiset(plan.base.order));
        assert multiset{} + Outstanding(dirs) == Outstanding(dirs);
      }
    }

    method ListPage(path: string, dir: Tree, offset: nat, ghost plan: Plan, ghost pending: multiset<(string, Tree)>,
                    ghost later: seq<(string, Tree)>)
      returns (listed: bool, page: seq<Entry>, next: Option<nat>)
      requires Valid() && offset <= |Entries(dir)| && Since(plan, pending, later) && (plan.fine ==> CleanListing(dir, path))
      modifies this`partial
      ensures Valid() && Since(plan, pending, later) && (listed || (partial && !plan.fine && next.None?))
      ensures listed ==>
                && PageOf(dir, offset, page)
                && if next.Some? then next.value == offset + |page| > offset else offset + |page| == |Entries(dir)|
      ensures listed && plan.fine ==> forall i | 0 <= i < |page| :: CleanEntry(page[i], path)
    {
      listed, page, next := ListNext(path, dir, offset);
    }

    method ListNext(path: string, dir: Tree, offset: nat) returns (listed: bool, page: seq<Entry>, next: Option<nat>)
      requires offset <= |Entries(dir)|
      modifies this`partial
      ensures old(partial) ==> partial
      ensures !listed ==> partial && next.None?
      ensures listed ==>
                && PageOf(dir, offset, page)
                && if next.Some? then next.value == offset + |page| > offset else offset + |page| == |Entries(dir)|
      ensures CleanListing(dir, path) ==> listed && partial == old(partial)
    {
      var r := List(path, dir, offset, PAGE);
      if r.None? {
        Mark();
        return false, [], None;
      }
      if r.value.2 {
        Mark();
      }
      listed, page, next := true, r.value.0, r.value.1;
    }

    // Nothing can go wrong with a package, and the files that the walk comes to are below
    // every budget.
    ghost predicate Manageable(path: string, src: Tree)
      reads this
    {
      && symbolBytes < MAX_BYTES && Clean(src, path) && Size(src, true) <= MAX_QUEUE && Size(src, false) <= MAX_VISITED
      && Ample(Planned(path, src))
    }

    ghost function Planned(path: string, src: Tree): Base
      reads this
    {
      Base(sources, symbols, totalFiles, totalBytes, symbolBytes, Tour([(path, src)]))
    }

    method Begin()
      requires Valid()
      modifies this`partial, this`files, this`bytes, this`visited, this`packageSymbols, this`indexed
      ensures Valid() && !partial && files == 0 && bytes == 0 && visited == 0 && packageSymbols == 0 && indexed == []
    {
      partial, files, bytes, visited, packageSymbols := false, 0, 0, 0, 0;
      indexed := [];
    }

    lemma {:induction false} Begun(plan: Plan, pending: multiset<(string, Tree)>)
      requires !partial && files == 0 && bytes == 0 && packageSymbols == 0 && indexed == []
      requires plan.base == Base(sources, symbols, totalFiles, totalBytes, symbolBytes, plan.base.order)
      requires pending == multiset(plan.base.order) && (plan.fine ==> Ample(plan.base) && symbolBytes < MAX_BYTES)
      ensures Since(plan, pending, plan.base.order)
    {
      assert multiset(indexed) + pending == pending && indexed + plan.base.order == plan.base.order;
    }

    // A package that is not called partial has indexed its files in order up to some place,
    // each of them once, and all of their declarations are in the catalog. It is complete
    // unless some of its files, but not all, bring the declaration text to its limit: then
    // the walk stops there without a mark. A package is called partial only when something
    // can go wrong with it, or the files that the walk comes to use up another budget.
    method IndexPackage(path: string, src: Tree)
      requires Valid()
      modifies this
      ensures Valid() && sources == old(sources) + indexed && multiset(indexed) <= Reachable(src, path)
      ensures !partial ==>
                && old(symbolBytes) < MAX_BYTES && indexed <= Tour([(path, src)])
                && symbols == old(symbols) + SymbolsOf(indexed) && symbolBytes == old(symbolBytes) + TextOf(SymbolsOf(indexed))
                && (multiset(indexed) != Reachable(src, path) <==> StopsShort(old(Planned(path, src))))
      ensures old(Manageable(path, src)) ==> !partial
    {
      ghost var plan := Plan(Planned(path, src), Manageable(path, src));
      BeginAt(path, src);
      Begin();
      Begun(plan, Rest([], path, [(path, src)]));
      WalkPackage(path, src, plan);
    }

    ghost predicate Finished(plan: Plan)
      reads this
    {
      && sources == plan.base.sources + indexed && multiset(indexed) <= multiset(plan.base.order)
      && (!partial ==>
            && plan.base.text < MAX_BYTES && indexed <= plan.base.order && Accounted(plan)
            && (multiset(indexed) != multiset(plan.base.order) <==> StopsShort(plan.base)))
      && (plan.fine ==> !partial)
    }

    method WalkPackage(path: string, src: Tree, ghost plan: Plan)
      requires Valid() && visited == 0 && SinceAt(plan, [], path, [(path, src)])
      requires plan.fine ==> Clean(src, path) && Size(src, true) <= MAX_QUEUE && Size(src, false) <= MAX_VISITED
      modifies this
      ensures Valid() && Finished(plan)
    {
      var dirs: Queue := [(path, src)];
      QueueOne(dirs[0]);
      while dirs != []
        invariant Valid() && SinceAt(plan, [], path, dirs) && (dirs == [] ==> plan.base.text < MAX_BYTES) && Tidy(plan, dirs)
        decreases Sizes(dirs, false)
      {
        var v;
        v, dirs := NextDirectory(path, dirs, plan);
        if v == Halt {
          return;
        }
      }
      EmptyQueue(path);
      WholeOrder(plan, Rest([], path, []));
    }

    ghost predicate Tidy(plan: Plan, dirs: Queue)
      reads this
    {
      plan.fine ==> CleanAll(dirs) && Sizes(dirs, true) <= MAX_QUEUE && visited + Ahead(dirs) < MAX_VISITED
    }

    method NextDirectory(ghost path: string, dirs: Queue, ghost plan: Plan) returns (v: Verdict, queue: Queue)
      requires Valid() && dirs != [] && SinceAt(plan, [], path, dirs) && Tidy(plan, dirs)
      modifies this
      ensures Valid() && if v == Halt then Finished(plan) else SinceAt(plan, [], path, queue)
      ensures v == Go ==> plan.base.text < MAX_BYTES && Tidy(plan, queue) && Sizes(queue, false) < Sizes(dirs, false)
    {
      PopStep(path, dirs);
      var (at, dir) := dirs[0];
      v, queue := IndexDirectory(at, dir, dirs[1..], plan);
      if v == Halt {
        EndedShort(plan);
      } else {
        EmptyLeft(at, path, queue);
      }
    }

    lemma {:induction false} EndedShort(plan: Plan)
      requires Ended(plan) && (plan.base.text >= MAX_BYTES ==> partial)
      ensures Finished(plan)
    {
      if !partial {
        var k := |indexed|;
        assert plan.base.order[..k] == indexed;
        if k < |plan.base.order| {
          assert |multiset(indexed)| < |multiset(plan.base.order)|;
        } else {
          assert indexed == plan.base.order;
          StaysBelow(plan.base, k - 1);
        }
      }
    }

    lemma {:induction false} WholeOrder(plan: Plan, pending: multiset<(string, Tree)>)
      requires Since(plan, pending, []) && plan.base.text < MAX_BYTES
      ensures Finished(plan)
    {
      if !partial {
        assert indexed + [] == plan.base.order && plan.base.order[..|plan.base.order|] == plan.base.order;
        StaysBelow(plan.base, |plan.base.order|);
      }
    }
  }

  // ---- a package whose text is used up by one of its files ----

  const FIRST: Entry := Entry("a.rs", File(Some(Source(1, Some([Symbol(MAX_BYTES, true)]), false))))
  const SECOND: Entry := Entry("b.rs", File(Some(Source(1, Some([Symbol(1, true)]), false))))
  const TWO: Tree := Directory(true, [FIRST, SECOND], false)

  // Nothing is wrong with it, so that it is not called partial, and yet its second file is
  // not indexed.
  lemma {:induction false} StoppedUnmarked(index: Indexer)
    requires index.symbols == [] && index.totalFiles == 0 && index.totalBytes == 0 && index.symbolBytes == 0
    ensures index.Manageable("", TWO) && StopsShort(index.Planned("", TWO))
  {
    TwoTour();
    TwoFine();
    TwoText(index.Planned("", TWO));
  }

  lemma {:induction false} TwoEntries()
    ensures Entries(TWO) == [FIRST, SECOND]
  {
    var order, rest := EntryOrder(), [SECOND];
    assert [FIRST, SECOND][1..] == rest && rest[1..] == [];
    assert Sort(order, rest) == Insert(order, SECOND, []) == rest;
    assert StringLe("a.rs", "b.rs");
    assert order(FIRST, SECOND);
    assert Insert(order, FIRST, rest) == [FIRST] + rest;
  }

  lemma {:induction false} TwoTour()
    ensures var order := Tour([("", TWO)]); |order| == 2 && order[0].1 == FIRST.node && order[1].1 == SECOND.node
  {
    TwoEntries();
    var entries, dirs: Queue := Entries(TWO), [("", TWO)];
    assert entries[1..] == [SECOND] && entries[1..][1..] == [];
    assert "a.rs"[1..] == ".rs" && "b.rs"[1..] == ".rs" && RustName("a.rs") && RustName("b.rs");
    assert FilesIn(entries[1..], "") == FileOf(SECOND, "") + FilesIn([], "");
    assert FoldersIn(entries[1..], "") == FolderOf(SECOND, "") + FoldersIn([], "");
    assert FilesIn(entries, "") == FileOf(FIRST, "") + FilesIn(entries[1..], "");
    assert FoldersIn(entries, "") == FolderOf(FIRST, "") + FoldersIn(entries[1..], "");
    assert dirs[1..] + FoldersIn(entries, "") == [];
    assert Tour(dirs) == FilesIn(entries, "") + Tour([]);
  }

  lemma {:induction false} TwoFine()
    ensures Clean(TWO, "") && Size(TWO, true) <= MAX_QUEUE && Size(TWO, false) <= MAX_VISITED
  {
    var listing := TWO.listing;
    assert listing[1..] == [SECOND] && listing[1..][1..] == [];
    assert Size(FIRST.node, false) == 1 && Size(SECOND.node, false) == 1;
    assert SizeIn(listing[1..], false) == SizeEntry(SECOND, false) + SizeIn([], false);
    assert SizeIn(listing[1..], true) == SizeEntry(SECOND, true) + SizeIn([], true);
    assert SizeIn(listing, false) == SizeEntry(FIRST, false) + SizeIn(listing[1..], false);
    assert SizeIn(listing, true) == SizeEntry(FIRST, true) + SizeIn(listing[1..], true);
    assert Size(TWO, false) == 1 + SizeIn(listing, false) && Size(TWO, true) == 1 + SizeIn(listing, true);
    assert CleanEntry(FIRST, "") && CleanEntry(SECOND, "");
  }

  lemma {:induction false} TwoText(base: Base)
    requires base.symbols == [] && base.files == 0 && base.bytes == 0 && base.text == 0
    requires |base.order| == 2 && base.order[0].1 == FIRST.node
    ensures Ample(base) && StopsShort(base)
  {
    OneAffordable(base, base.order[0], Symbol(MAX_BYTES, true));
    TwoAmple(base, base.order[0]);
  }

  lemma {:induction false} OneAffordable(base: Base, x: (string, Tree), symbol: Symbol)
    requires base.symbols == [] && base.files == 0 && base.bytes == 0 && base.text == 0
    requires DeclaredIn(x.1) == [symbol] && BytesIn(x.1) == 1 && symbol.size == MAX_BYTES
    ensures Affordable(base, []) && Affordable(base, [x]) && TextWith(base, [x]) == MAX_BYTES
  {
    OneSource(x, symbol);
  }

  lemma {:induction false} OneSource(x: (string, Tree), symbol: Symbol)
    requires DeclaredIn(x.1) == [symbol]
    ensures SymbolsOf([x]) == [symbol] && BytesOf([x]) == BytesIn(x.1) && TextOf(SymbolsOf([x])) == symbol.size
  {
    assert [x][..0] == [] && [symbol][..0] == [] && [] + [symbol] == [symbol];
  }

  lemma {:induction false} TwoAmple(base: Base, x: (string, Tree))
    requires |base.order| == 2 && base.order[0] == x && Affordable(base, []) && Affordable(base, [x])
    requires TextWith(base, [x]) == MAX_BYTES
    ensures Ample(base) && StopsShort(base)
  {
    assert base.order[..0] == [] && base.order[..1] == [x];
    assert !Met(base, 2);
  }
}
