/** The browser pane over the listing endpoint: paging, navigation and client-side sorting,
    with one fetch outstanding at a time. */
module FsBrowser {
  import opened FsApi
  import opened Sorting
  import opened Text
  import Paths

  /** What the server would list, in its order, for a directory and a filter. */
  type Tree = (string, string) -> seq<Entry>

  // ---------- Client-side order ----------

  datatype SortKey = ByName | BySize | ByModTime
  datatype SortDir = Asc | Desc
  datatype SortState = SortState(key: SortKey, dir: SortDir)

  /** The comparison of the chosen column, before the direction is applied. */
  function CompareColumn(key: SortKey, a: Entry, b: Entry): int {
    match key
    case ByName =>
      if LexLess(Lower(a.name), Lower(b.name)) then -1
      else if LexLess(Lower(b.name), Lower(a.name)) then 1 else 0
    case BySize => if a.size < b.size then -1 else if a.size > b.size then 1 else 0
    case ByModTime => if a.modTime < b.modTime then -1 else if a.modTime > b.modTime then 1 else 0
  }

  /** The comparator handed to Array.prototype.sort. */
  function Compare(sort: SortState, a: Entry, b: Entry): int {
    if a.isDir != b.isDir then (if a.isDir then -1 else 1)
    else
      var cmp := CompareColumn(sort.key, a, b);
      if sort.dir == Asc then cmp else -cmp
  }

  function Before(sort: SortState): (Entry, Entry) -> bool {
    (a, b) => Compare(sort, a, b) < 0
  }

  lemma CompareIsConsistent(sort: SortState, a: Entry, b: Entry)
    ensures Compare(sort, a, b) < 0 <==> Compare(sort, b, a) > 0
  {
    LexTrichotomy(Lower(a.name), Lower(b.name));
  }

  lemma ColumnIsTransitive(key: SortKey, a: Entry, b: Entry, c: Entry)
    requires CompareColumn(key, a, c) < 0
    ensures CompareColumn(key, a, b) < 0 || CompareColumn(key, b, c) < 0
  {
    if key == ByName {
      EntryOrderIsStrictWeak();
      var a', b', c' := a.(isDir := true), b.(isDir := true), c.(isDir := true);
      assert EntryLess(a', c');
      assert EntryLess(a', b') || EntryLess(b', c');
    }
  }

  lemma BeforeIsStrictWeak(sort: SortState)
    ensures StrictWeakOrder(Before(sort))
  {
    forall a, b ensures Before(sort)(a, b) ==> !Before(sort)(b, a) {
      CompareIsConsistent(sort, a, b);
    }
    forall a, b, c | Before(sort)(a, c) ensures Before(sort)(a, b) || Before(sort)(b, c) {
      if a.isDir == b.isDir == c.isDir {
        CompareIsConsistent(SortState(sort.key, Asc), a, b);
        CompareIsConsistent(SortState(sort.key, Asc), b, c);
        CompareIsConsistent(SortState(sort.key, Asc), a, c);
        if sort.dir == Asc {
          ColumnIsTransitive(sort.key, a, b, c);
        } else {
          ColumnIsTransitive(sort.key, c, b, a);
        }
      }
    }
  }

  // ---------- What the rows look like, column by column ----------

  /** Whether `a` may come before `b` in the same block. */
  ghost predicate MayPrecede(sort: SortState, a: Entry, b: Entry) {
    match (sort.key, sort.dir)
    case (BySize, Asc) => a.size <= b.size
    case (BySize, Desc) => a.size >= b.size
    case (ByModTime, Asc) => a.modTime <= b.modTime
    case (ByModTime, Desc) => a.modTime >= b.modTime
    case (ByName, Asc) => !Precedes(b.name, a.name)
    case (ByName, Desc) => !Precedes(a.name, b.name)
  }

  predicate SameField(key: SortKey, a: Entry, b: Entry) {
    match key
    case BySize => a.size == b.size
    case ByModTime => a.modTime == b.modTime
    case ByName => SameText(a.name, b.name)
  }

  /** Directories, then files, each block in the order of its column. */
  ghost predicate InColumnOrder(sort: SortState, rows: seq<Entry>) {
    && (forall i, j :: 0 <= i < j < |rows| && rows[j].isDir ==> rows[i].isDir)
    && (forall i, j :: 0 <= i < j < |rows| && rows[i].isDir == rows[j].isDir ==> MayPrecede(sort, rows[i], rows[j]))
  }

  function Alike(key: SortKey, x: Entry): Entry -> bool {
    (e: Entry) => x.isDir == e.isDir && SameField(key, x, e)
  }

  /** The same entries, and those with equal fields in the order they had. */
  ghost predicate KeepsAlike(key: SortKey, entries: seq<Entry>, rows: seq<Entry>) {
    && multiset(rows) == multiset(entries)
    && forall x: Entry :: Filter(Alike(key, x), rows) == Filter(Alike(key, x), entries)
  }

  lemma BeforeByField(sort: SortState, a: Entry, b: Entry)
    ensures !Before(sort)(b, a) <==> (if a.isDir == b.isDir then MayPrecede(sort, a, b) else a.isDir)
  {
    LexLessIsPrecedes(a.name, b.name);
    LexLessIsPrecedes(b.name, a.name);
    LexTrichotomy(Lower(a.name), Lower(b.name));
  }

  lemma TiesByField(sort: SortState, a: Entry, b: Entry)
    ensures Ties(Before(sort), a, b) <==> Alike(sort.key, a)(b)
  {
    LexTrichotomy(Lower(a.name), Lower(b.name));
    CasesMerge(a.name, b.name);
  }

  lemma OrderByField(sort: SortState, rows: seq<Entry>)
    ensures SortedBy(Before(sort), rows) <==> InColumnOrder(sort, rows)
  {
    forall i, j | 0 <= i < j < |rows|
      ensures !Before(sort)(rows[j], rows[i]) <==>
        (if rows[i].isDir == rows[j].isDir then MayPrecede(sort, rows[i], rows[j]) else rows[i].isDir)
    {
      BeforeByField(sort, rows[i], rows[j]);
    }
  }

  lemma ClassByField(sort: SortState, x: Entry, s: seq<Entry>)
    ensures Filter(TiesWith(Before(sort), x), s) == Filter(Alike(sort.key, x), s)
  {
    forall e | e in s ensures TiesWith(Before(sort), x)(e) == Alike(sort.key, x)(e) {
      TiesByField(sort, x, e);
    }
    FiltersAgree(TiesWith(Before(sort), x), Alike(sort.key, x), s);
  }

  /** A stable sort by the comparator is: directories first, the column's field in order, and equal
      fields in the order they came. */
  lemma {:induction false} SortedMeans(sort: SortState, entries: seq<Entry>, rows: seq<Entry>)
    ensures IsStableSort(Before(sort), entries, rows) <==> InColumnOrder(sort, rows) && KeepsAlike(sort.key, entries, rows)
  {
    OrderByField(sort, rows);
    forall x: Entry
      ensures Filter(TiesWith(Before(sort), x), rows) == Filter(Alike(sort.key, x), rows)
      ensures Filter(TiesWith(Before(sort), x), entries) == Filter(Alike(sort.key, x), entries)
    {
      ClassByField(sort, x, rows);
      ClassByField(sort, x, entries);
    }
    if IsStableSort(Before(sort), entries, rows) {
      SortsAndKeeps(sort, entries, rows);
      forall x: Entry ensures Filter(Alike(sort.key, x), rows) == Filter(Alike(sort.key, x), entries) {
        assert Filter(TiesWith(Before(sort), x), rows) == Filter(TiesWith(Before(sort), x), entries);
      }
    }
  }

  /** By name, ascending, is the server's own order. */
  lemma ByNameIsServerOrder(a: Entry, b: Entry)
    ensures Before(SortState(ByName, Asc))(a, b) == EntryLess(a, b)
  {
  }

  /** So re-sorting what the server sent, in its initial state, by any stable sort, changes
      nothing. */
  lemma ByNameSortIsIdentity(full: seq<Entry>, shown: seq<Entry>, rows: seq<Entry>)
    requires SortedBy(EntryLess, full) && shown <= full
    requires IsStableSort(Before(SortState(ByName, Asc)), shown, rows)
    ensures rows == shown
  {
    ShownIsSorted(full, shown);
    SortOfSorted(Before(SortState(ByName, Asc)), shown);
    BeforeIsStrictWeak(SortState(ByName, Asc));
    StableSortIsUnique(Before(SortState(ByName, Asc)), shown, rows);
  }

  lemma ShownIsSorted(full: seq<Entry>, shown: seq<Entry>)
    requires SortedBy(EntryLess, full) && shown <= full
    ensures SortedBy(Before(SortState(ByName, Asc)), shown)
  {
    forall i, j | 0 <= i < j < |shown| ensures !Before(SortState(ByName, Asc))(shown[j], shown[i]) {
      ByNameIsServerOrder(shown[j], shown[i]);
    }
  }

  function Directories(s: seq<Entry>): seq<Entry> { Filter((e: Entry) => e.isDir, s) }

  function Files(s: seq<Entry>): seq<Entry> { Filter((e: Entry) => !e.isDir, s) }

  /** Directories reversed, then files reversed. */
  function BlocksReversed(s: seq<Entry>): seq<Entry> {
    Reversed(Directories(s)) + Reversed(Files(s))
  }

  lemma {:induction false} BlocksKeepElements(s: seq<Entry>)
    ensures multiset(BlocksReversed(s)) == multiset(s)
    ensures multiset(Directories(s) + Files(s)) == multiset(s)
  {
    ReversedKeepsElements(Directories(s));
    ReversedKeepsElements(Files(s));
    forall x: Entry ensures multiset(Directories(s) + Files(s))[x] == multiset(s)[x] {
      FilterCounts((e: Entry) => e.isDir, s, x);
      FilterCounts((e: Entry) => !e.isDir, s, x);
    }
  }

  lemma DescendingMirrors(key: SortKey, x: Entry, y: Entry)
    requires x.isDir == y.isDir && !Before(SortState(key, Asc))(y, x)
    ensures !Before(SortState(key, Desc))(x, y)
  {
    CompareIsConsistent(SortState(key, Asc), y, x);
  }

  lemma BlockReversedIsSorted(key: SortKey, block: seq<Entry>, isDir: bool)
    requires SortedBy(Before(SortState(key, Asc)), block)
    requires forall i :: 0 <= i < |block| ==> block[i].isDir == isDir
    ensures SortedBy(Before(SortState(key, Desc)), Reversed(block))
  {
    var r := Reversed(block);
    forall i, j | 0 <= i < j < |r| ensures !Before(SortState(key, Desc))(r[j], r[i]) {
      var x, y := block[|block| - 1 - j], block[|block| - 1 - i];
      assert r[j] == x && r[i] == y;
      DescendingMirrors(key, x, y);
    }
  }

  /** Reversing both blocks of an ascending order gives a descending one. */
  lemma BlocksReversedIsSorted(key: SortKey, asc: seq<Entry>)
    requires SortedBy(Before(SortState(key, Asc)), asc)
    ensures SortedBy(Before(SortState(key, Desc)), BlocksReversed(asc))
  {
    FilterKeepsOrder(Before(SortState(key, Asc)), (e: Entry) => e.isDir, asc);
    FilterKeepsOrder(Before(SortState(key, Asc)), (e: Entry) => !e.isDir, asc);
    BlockReversedIsSorted(key, Directories(asc), true);
    BlockReversedIsSorted(key, Files(asc), false);
    var d, f := Reversed(Directories(asc)), Reversed(Files(asc));
    forall i, j | 0 <= i < |d| && 0 <= j < |f| ensures !Before(SortState(key, Desc))(f[j], d[i]) {
    }
  }

  ghost predicate NoTies(key: SortKey, s: seq<Entry>) {
    forall x, y :: x in s && y in s && x != y ==> !Ties(Before(SortState(key, Asc)), x, y)
  }

  lemma NoTiesWhenDescending(key: SortKey, entries: seq<Entry>, t: seq<Entry>)
    requires NoTies(key, entries) && multiset(t) == multiset(entries)
    ensures forall x, y :: x in t && y in t && x != y ==>
      Before(SortState(key, Desc))(x, y) || Before(SortState(key, Desc))(y, x)
  {
    forall x, y | x in t && y in t && x != y
      ensures Before(SortState(key, Desc))(x, y) || Before(SortState(key, Desc))(y, x)
    {
      SameElements(t, entries, x);
      SameElements(t, entries, y);
      assert !Ties(Before(SortState(key, Asc)), x, y);
      CompareIsConsistent(SortState(key, Asc), x, y);
      CompareIsConsistent(SortState(key, Asc), y, x);
    }
  }

  lemma SortsAndKeeps(sort: SortState, entries: seq<Entry>, rows: seq<Entry>)
    requires IsStableSort(Before(sort), entries, rows)
    ensures SortedBy(Before(sort), rows) && multiset(rows) == multiset(entries)
  {
    BeforeIsStrictWeak(sort);
    SameClassesSameElements(Before(sort), entries, rows);
  }

  /** Toggling a column to descending reverses the directory block and the file block and keeps
      directories first, whenever no two different entries tie on that column. */
  lemma {:induction false} DescendingReversesBlocks(key: SortKey, entries: seq<Entry>, asc: seq<Entry>, desc: seq<Entry>)
    requires NoTies(key, entries)
    requires IsStableSort(Before(SortState(key, Asc)), entries, asc) && IsStableSort(Before(SortState(key, Desc)), entries, desc)
    ensures desc == BlocksReversed(asc)
  {
    SortsAndKeeps(SortState(key, Asc), entries, asc);
    SortsAndKeeps(SortState(key, Desc), entries, desc);
    BlocksReversedIsSorted(key, asc);
    BlocksKeepElements(asc);
    NoTiesWhenDescending(key, entries, desc);
    SortedIsUnique(Before(SortState(key, Desc)), desc, BlocksReversed(asc));
  }

  // ---------- Paging and navigation ----------

  /** What the pane shows about one directory. */
  datatype View = View(cwd: string, query: string, entries: seq<Entry>, offset: nat, hasMore: bool,
                       total: nat, err: Option<string>)

  /** Everything a user can do. `failure` is the error of the fetch it causes, if that fails. */
  datatype Action =
    | More(failure: Option<string>)
    | Search(q: string, failure: Option<string>)
    | Clear(failure: Option<string>)
    | Enter(e: Entry, failure: Option<string>)
    | Up(failure: Option<string>)
    | OpenCrumb(path: string, failure: Option<string>)

  /** The pane agrees with the server: it shows the first offset + limit entries, knows the
      total, and offers more exactly when something is missing. */
  ghost predicate InStep(v: View, tree: Tree, limit: nat) {
    var full := tree(v.cwd, v.query);
    && v.total == |full|
    && v.entries == full[..Min(v.offset + limit, |full|)]
    && (v.hasMore <==> |v.entries| < |full|)
  }

  /** A fetch: a failed one only reports its error, a page replaces or extends what is shown. */
  function Received(v: View, tree: Tree, limit: nat, dir: string, newOffset: nat, reset: bool, failure: Option<string>): View {
    if failure.Some? then v.(err := failure) else
      var p := PageOf(tree(dir, v.query), dir, newOffset, limit, v.query);
      v.(err := None, cwd := p.cwd, total := p.total, hasMore := p.hasMore, offset := p.offset,
         entries := if reset then p.entries else v.entries + p.entries)
  }

  /** The effect that reloads from the start when directory or filter changed. */
  function Reloaded(was: View, v: View, tree: Tree, limit: nat, failure: Option<string>): View {
    if v.cwd != was.cwd || v.query != was.query then Received(v, tree, limit, v.cwd, 0, true, failure) else v
  }

  function After(v: View, tree: Tree, limit: nat, a: Action): View {
    match a
    case More(failure) =>
      if v.hasMore then Received(v, tree, limit, v.cwd, v.offset + limit, false, failure) else v
    case Search(q, failure) => Reloaded(v, v.(offset := 0, entries := [], query := q), tree, limit, failure)
    case Clear(failure) => Reloaded(v, v.(query := ""), tree, limit, failure)
    case Enter(e, failure) =>
      if e.isDir then Reloaded(v, v.(offset := 0, entries := [], query := "", cwd := e.path), tree, limit, failure) else v
    case Up(failure) =>
      if v.cwd == "/" then v
      else Reloaded(v, v.(offset := 0, entries := [], query := "", cwd := Paths.Parent(v.cwd)), tree, limit, failure)
    case OpenCrumb(path, failure) =>
      Reloaded(v, v.(offset := 0, entries := [], query := "", cwd := path), tree, limit, failure)
  }

  /** A fetch, field by field. */
  lemma FetchShows(v: View, w: View, tree: Tree, limit: nat, dir: string, newOffset: nat, reset: bool, failure: Option<string>)
    requires w == Received(v, tree, limit, dir, newOffset, reset, failure)
    ensures w.query == v.query && w.err == failure
    ensures failure.Some? ==>
      w.cwd == v.cwd && w.entries == v.entries && w.offset == v.offset && w.total == v.total && w.hasMore == v.hasMore
    ensures failure.None? ==>
      var full := tree(dir, v.query);
      && w.cwd == dir && w.total == |full|
      && w.offset == Min(newOffset, |full|) && (w.hasMore <==> newOffset + limit < |full|)
      && (if reset then [] else v.entries) + full[Min(newOffset, |full|)..Min(newOffset + limit, |full|)] == w.entries
  {
  }

  /** Where an action leads, whether or not its fetch succeeds. */
  lemma {:induction false} ActionsLead(v: View, w: View, tree: Tree, limit: nat, a: Action)
    requires w == After(v, tree, limit, a)
    ensures a.More? ==> w.cwd == v.cwd && w.query == v.query
    ensures a.Search? ==> w.cwd == v.cwd && w.query == a.q
    ensures a.Clear? ==> w.cwd == v.cwd && w.query == ""
    ensures a.Enter? ==> if a.e.isDir then w.cwd == a.e.path && w.query == "" else w == v
    ensures a.OpenCrumb? ==> w.cwd == a.path && w.query == ""
    ensures a.Up? && v.cwd == "/" ==> w == v
    ensures forall dir, name :: a.Up? && Paths.Clean(dir) && Paths.IsName(name) && v.cwd == Paths.Join(dir, name) ==> w.cwd == dir && w.query == ""
  {
    forall dir, name | a.Up? && Paths.Clean(dir) && Paths.IsName(name) && v.cwd == Paths.Join(dir, name)
      ensures w.cwd == dir && w.query == ""
    {
      Paths.UpUndoesEntering(dir, name);
      Paths.JoinIsClean(dir, name);
    }
  }

  /** The pane: React state as fields, event handlers as methods. */
  class FSBrowser {
    var cwd: string
    var entries: seq<Entry>
    var loading: bool
    var err: Option<string>
    var sort: SortState
    var offset: nat
    const limit: nat
    var hasMore: bool
    var total: nat
    var query: string
    var pendingQ: string

    ghost function Shown(): View reads this {
      View(cwd, query, entries, offset, hasMore, total, err)
    }

    /** First render, and the initial load. */
    constructor (limit: nat, tree: Tree, failure: Option<string>)
      ensures this.limit == limit && !loading && sort == SortState(ByName, Asc)
      ensures Shown() == Received(View("/", "", [], 0, false, 0, None), tree, limit, "/", 0, true, failure)
    {
      cwd, entries, loading, err := "/", [], false, None;
      sort := SortState(ByName, Asc);
      offset, hasMore, total, query, pendingQ := 0, false, 0, "", "";
      this.limit := limit;
      new;
      FetchPage(tree, cwd, 0, true, failure);
    }

    method FetchPage(tree: Tree, dir: string, newOffset: nat, reset: bool, failure: Option<string>)
      modifies this
      ensures Shown() == Received(old(Shown()), tree, limit, dir, newOffset, reset, failure)
      ensures !loading && sort == old(sort) && pendingQ == old(pendingQ)
    {
      loading, err := true, None;
      if failure.Some? {
        err := failure;
      } else {
        var reply := PageOf(tree(dir, query), dir, newOffset, limit, query);
        cwd := reply.cwd;
        total := reply.total;
        hasMore := reply.hasMore;
        offset := reply.offset;
        if reset {
          entries := reply.entries;
        } else {
          entries := entries + reply.entries;
        }
      }
      loading := false;
    }

    method Reload(tree: Tree, ghost was: View, changed: bool, failure: Option<string>)
      requires !loading
      requires changed <==> (cwd != was.cwd || query != was.query)
      modifies this
      ensures Shown() == Reloaded(was, old(Shown()), tree, limit, failure)
      ensures !loading && sort == old(sort) && pendingQ == old(pendingQ)
    {
      if changed {
        FetchPage(tree, cwd, 0, true, failure);
      }
    }

    method LoadMore(tree: Tree, failure: Option<string>)
      requires !loading
      modifies this
      ensures Shown() == After(old(Shown()), tree, limit, More(failure))
      ensures !loading && sort == old(sort)
    {
      if hasMore && !loading {
        FetchPage(tree, cwd, offset + limit, false, failure);
      }
    }

    method ApplySearch(tree: Tree, failure: Option<string>)
      requires !loading
      modifies this
      ensures Shown() == After(old(Shown()), tree, limit, Search(old(pendingQ), failure))
      ensures !loading && sort == old(sort) && pendingQ == old(pendingQ)
    {
      ghost var was := Shown();
      var changed := query != pendingQ;
      offset := 0;
      entries := [];
      query := pendingQ;
      Reload(tree, was, changed, failure);
    }

    method ClearSearch(tree: Tree, failure: Option<string>)
      requires !loading
      modifies this
      ensures Shown() == After(old(Shown()), tree, limit, Clear(failure))
      ensures !loading && sort == old(sort) && pendingQ == ""
    {
      ghost var was := Shown();
      var changed := query != "";
      query := "";
      pendingQ := "";
      Reload(tree, was, changed, failure);
    }

    method MoveTo(tree: Tree, dir: string, failure: Option<string>)
      requires !loading
      modifies this
      ensures Shown() == After(old(Shown()), tree, limit, OpenCrumb(dir, failure))
      ensures !loading && sort == old(sort) && pendingQ == ""
    {
      ghost var was := Shown();
      var changed := cwd != dir || query != "";
      offset := 0;
      entries := [];
      query := "";
      pendingQ := "";
      cwd := dir;
      Reload(tree, was, changed, failure);
    }

    method Go(tree: Tree, e: Entry, failure: Option<string>)
      requires !loading
      modifies this
      ensures Shown() == After(old(Shown()), tree, limit, Enter(e, failure))
      ensures !loading && sort == old(sort)
    {
      if e.isDir {
        MoveTo(tree, e.path, failure);
      }
    }

    method GoUp(tree: Tree, failure: Option<string>)
      requires !loading
      modifies this
      ensures Shown() == After(old(Shown()), tree, limit, Up(failure))
      ensures !loading && sort == old(sort)
    {
      if cwd == "/" {
        return;
      }
      var i := LastIndexOf(cwd, '/');
      var parent := if i == -1 then "" else cwd[..i];
      if parent == "" {
        parent := "/";
      }
      MoveTo(tree, parent, failure);
    }

    method ToggleSort(key: SortKey)
      modifies this`sort
      ensures sort == SortState(key, if old(sort).key == key && old(sort).dir == Asc then Desc else Asc)
    {
      if sort.key == key {
        sort := SortState(key, if sort.dir == Asc then Desc else Asc);
      } else {
        sort := SortState(key, Asc);
      }
    }

    /** The rows shown: a sorted copy, the state itself untouched. */
    method Sorted() returns (rows: seq<Entry>)
      ensures IsStableSort(Before(sort), entries, rows)
      ensures InColumnOrder(sort, rows) && KeepsAlike(sort.key, entries, rows)
    {
      var shown := entries;
      var copy := new Entry[|shown|](i requires 0 <= i < |shown| => shown[i]);
      assert copy[..] == shown;
      SortInPlace(copy, Before(sort));
      rows := copy[..];
      BeforeIsStrictWeak(sort);
      StableSortIsOne(Before(sort), entries);
      SortedMeans(sort, entries, rows);
    }
  }

  // ---------- Paging theorems ----------

  /** A successful reload puts the pane in step with the server. */
  lemma ReloadIsInStep(v: View, tree: Tree, limit: nat)
    ensures InStep(Received(v, tree, limit, v.cwd, 0, true, None), tree, limit)
  {
  }

  /** "Load more" keeps the pane in step, whether its fetch succeeds or fails. */
  lemma MoreStaysInStep(v: View, tree: Tree, limit: nat, failure: Option<string>)
    requires InStep(v, tree, limit)
    ensures InStep(After(v, tree, limit, More(failure)), tree, limit)
  {
    if v.hasMore && failure.None? {
      var full := tree(v.cwd, v.query);
      var end := Min(v.offset + limit + limit, |full|);
      assert full[..v.offset + limit] + full[v.offset + limit..end] == full[..end];
    }
  }

  /** Applying a filter keeps the pane in step exactly when the filter text changed (or there is
      nothing to show): an unchanged text empties the list without reloading it. */
  lemma SearchStaysInStepIff(v: View, tree: Tree, limit: nat, q: string)
    requires InStep(v, tree, limit) && limit > 0
    ensures InStep(After(v, tree, limit, Search(q, None)), tree, limit) <==> q != v.query || v.total == 0
  {
  }

  /** What opening a directory takes: another directory (or a filter to drop) and a load that
      succeeds; or nothing to show, before and after. */
  predicate OpensInStep(v: View, tree: Tree, path: string, failure: Option<string>) {
    if path == v.cwd && v.query == "" then v.total == 0
    else failure.None? || (v.total == 0 && |tree(path, "")| == 0)
  }

  /** When an action keeps the pane in step. */
  predicate Keeps(v: View, tree: Tree, a: Action) {
    match a
    case More(_) => true
    case Search(q, failure) =>
      if q == v.query then v.total == 0 else failure.None? || (v.total == 0 && |tree(v.cwd, q)| == 0)
    case Clear(failure) =>
      v.query == "" || failure.None? || (v.total == |tree(v.cwd, "")| && v.entries <= tree(v.cwd, ""))
    case Enter(e, failure) => e.isDir ==> OpensInStep(v, tree, e.path, failure)
    case Up(failure) => v.cwd != "/" ==> OpensInStep(v, tree, Paths.Parent(v.cwd), failure)
    case OpenCrumb(path, failure) => OpensInStep(v, tree, path, failure)
  }

  /** Opening a directory keeps the pane in step exactly then: a failed load, or none, leaves an
      empty list under the old total. */
  lemma OpensInStepIff(v: View, tree: Tree, limit: nat, path: string, failure: Option<string>)
    requires InStep(v, tree, limit) && limit > 0
    ensures InStep(After(v, tree, limit, OpenCrumb(path, failure)), tree, limit) <==> OpensInStep(v, tree, path, failure)
  {
    if failure.None? {
      ReloadIsInStep(v.(offset := 0, entries := [], query := "", cwd := path), tree, limit);
    }
  }

  lemma SearchIff(v: View, tree: Tree, limit: nat, q: string, failure: Option<string>)
    requires InStep(v, tree, limit) && limit > 0
    ensures InStep(After(v, tree, limit, Search(q, failure)), tree, limit) <==> Keeps(v, tree, Search(q, failure))
  {
    var w := v.(offset := 0, entries := [], query := q);
    if q == v.query {
      assert After(v, tree, limit, Search(q, failure)) == w;
      EmptiedIff(w, tree, limit);
    } else if failure.None? {
      ReloadIsInStep(w, tree, limit);
    } else {
      assert After(v, tree, limit, Search(q, failure)) == w.(err := failure);
      EmptiedIff(w.(err := failure), tree, limit);
    }
  }

  /** An emptied list is in step only if there is nothing to show, under a total that says so. */
  lemma EmptiedIff(w: View, tree: Tree, limit: nat)
    requires w.entries == [] && w.offset == 0 && limit > 0 && (w.total == 0 ==> !w.hasMore)
    ensures InStep(w, tree, limit) <==> w.total == 0 && |tree(w.cwd, w.query)| == 0
  {
    var full := tree(w.cwd, w.query);
    assert |full[..Min(limit, |full|)]| == Min(limit, |full|);
  }

  lemma PrefixIff(shown: seq<Entry>, full: seq<Entry>, n: nat)
    requires |shown| == Min(n, |full|)
    ensures shown == full[..Min(n, |full|)] <==> shown <= full
  {
  }

  lemma FailedClearIff(v: View, tree: Tree, limit: nat, message: string)
    requires InStep(v, tree, limit) && limit > 0
    ensures InStep(v.(query := "", err := Some(message)), tree, limit) <==>
      v.total == |tree(v.cwd, "")| && v.entries <= tree(v.cwd, "")
  {
    if v.total == |tree(v.cwd, "")| {
      PrefixIff(v.entries, tree(v.cwd, ""), v.offset + limit);
    }
  }

  lemma ClearIff(v: View, tree: Tree, limit: nat, failure: Option<string>)
    requires InStep(v, tree, limit) && limit > 0
    ensures InStep(After(v, tree, limit, Clear(failure)), tree, limit) <==> Keeps(v, tree, Clear(failure))
  {
    if v.query == "" {
      assert After(v, tree, limit, Clear(failure)) == v;
    } else if failure.None? {
      ReloadIsInStep(v.(query := ""), tree, limit);
    } else {
      FailedClearIff(v, tree, limit, failure.value);
      assert After(v, tree, limit, Clear(failure)) == v.(query := "", err := failure);
    }
  }

  /** For every action, fetches that fail included: it keeps the pane in step if and only if. */
  lemma {:induction false} StaysInStepIff(v: View, tree: Tree, limit: nat, a: Action)
    requires InStep(v, tree, limit) && limit > 0
    ensures InStep(After(v, tree, limit, a), tree, limit) <==> Keeps(v, tree, a)
  {
    match a
    case More(failure) => MoreStaysInStep(v, tree, limit, failure);
    case Search(q, failure) => SearchIff(v, tree, limit, q, failure);
    case Clear(failure) => ClearIff(v, tree, limit, failure);
    case Enter(e, failure) => OpensInStepIff(v, tree, limit, e.path, failure);
    case Up(failure) => OpensInStepIff(v, tree, limit, Paths.Parent(v.cwd), failure);
    case OpenCrumb(path, failure) => OpensInStepIff(v, tree, limit, path, failure);
  }

  /** In step before the session and after each of its actions. */
  ghost predicate AlwaysInStep(v: View, tree: Tree, limit: nat, actions: seq<Action>)
    decreases |actions|
  {
    InStep(v, tree, limit) && (actions == [] || AlwaysInStep(After(v, tree, limit, actions[0]), tree, limit, actions[1..]))
  }

  ghost predicate AllKeep(v: View, tree: Tree, limit: nat, actions: seq<Action>)
    decreases |actions|
  {
    actions == [] || (Keeps(v, tree, actions[0]) && AllKeep(After(v, tree, limit, actions[0]), tree, limit, actions[1..]))
  }

  /** Through a whole session the pane shows a prefix of the server's list exactly if every
      action of it keeps it so. */
  lemma {:induction false} SessionStaysInStepIff(v: View, tree: Tree, limit: nat, actions: seq<Action>)
    requires InStep(v, tree, limit) && limit > 0
    ensures AlwaysInStep(v, tree, limit, actions) <==> AllKeep(v, tree, limit, actions)
    decreases |actions|
  {
    if actions != [] {
      StaysInStepIff(v, tree, limit, actions[0]);
      if InStep(After(v, tree, limit, actions[0]), tree, limit) {
        SessionStaysInStepIff(After(v, tree, limit, actions[0]), tree, limit, actions[1..]);
      }
    }
  }

  /** How it goes wrong: while there is more to load, entering a directory whose load fails and
      then asking for more shows its second page as if it were the first, with no error left. */
  lemma {:induction false} FailedEnterSkipsAPage(v: View, tree: Tree, limit: nat, e: Entry, message: string)
    requires InStep(v, tree, limit) && limit > 0 && v.hasMore
    requires e.isDir && (e.path != v.cwd || v.query != "")
    ensures var full := tree(e.path, "");
      var w := After(After(v, tree, limit, Enter(e, Some(message))), tree, limit, More(None));
      && w.cwd == e.path && w.err == None
      && w.entries == full[Min(limit, |full|)..Min(limit + limit, |full|)]
      && (full != [] ==> !InStep(w, tree, limit))
  {
    var entered := After(v, tree, limit, Enter(e, Some(message)));
    assert entered == v.(offset := 0, entries := [], query := "", cwd := e.path, err := Some(message));
  }

  /** The pane after opening a directory and pressing "load more" `n` times. */
  function Browsed(tree: Tree, dir: string, q: string, limit: nat, n: nat): View {
    if n == 0 then Received(View(dir, q, [], 0, false, 0, None), tree, limit, dir, 0, true, None)
    else After(Browsed(tree, dir, q, limit, n - 1), tree, limit, More(None))
  }

  /** Requests needed for a list: one, or one for every started block of `limit` entries. */
  function RequestsFor(total: nat, limit: nat): nat
    requires limit > 0
  {
    if total == 0 then 1 else (total + limit - 1) / limit
  }

  lemma Blocks(n: nat, total: nat, limit: nat)
    requires limit > 0
    ensures n * limit < total <==> n + 1 <= (total + limit - 1) / limit
  {
    var k := (total + limit - 1) / limit;
    assert k * limit <= total + limit - 1 < (k + 1) * limit;
    if n + 1 <= k {
      assert (n + 1) * limit <= k * limit;
    } else {
      assert k * limit <= n * limit;
      assert (k + 1) * limit == k * limit + limit;
    }
  }

  /** How far n presses of "load more" have asked. */
  function Asked(limit: nat, n: nat): nat {
    if n == 0 then limit else Asked(limit, n - 1) + limit
  }

  lemma {:induction false} AskedIsProduct(limit: nat, n: nat)
    ensures Asked(limit, n) == (n + 1) * limit
  {
    if n > 0 {
      AskedIsProduct(limit, n - 1);
    }
  }

  /** The pane agrees with the first `asked` entries of the list. */
  ghost predicate Shows(v: View, tree: Tree, dir: string, q: string, limit: nat, asked: nat) {
    var full := tree(dir, q);
    && v.cwd == dir && v.query == q && v.total == |full|
    && v.entries == full[..Min(asked, |full|)]
    && (v.hasMore <==> asked < |full|)
    && (v.hasMore ==> v.offset + limit == asked)
  }

  lemma MoreShowsMore(v: View, tree: Tree, dir: string, q: string, limit: nat, asked: nat)
    requires limit > 0 && Shows(v, tree, dir, q, limit, asked)
    ensures Shows(After(v, tree, limit, More(None)), tree, dir, q, limit, asked + limit)
  {
    var full := tree(dir, q);
    if v.hasMore {
      var end := Min(asked + limit, |full|);
      assert full[..asked] + full[asked..end] == full[..end];
    }
  }

  lemma {:induction false} BrowsedShows(tree: Tree, dir: string, q: string, limit: nat, n: nat)
    requires limit > 0
    ensures Shows(Browsed(tree, dir, q, limit, n), tree, dir, q, limit, Asked(limit, n))
  {
    if n > 0 {
      BrowsedShows(tree, dir, q, limit, n - 1);
      MoreShowsMore(Browsed(tree, dir, q, limit, n - 1), tree, dir, q, limit, Asked(limit, n - 1));
    }
  }

  /** After n presses the pane shows the first (n + 1) * limit entries of the server's list, and
      asks for another page exactly while something is missing. */
  lemma BrowsingAccumulates(tree: Tree, dir: string, q: string, limit: nat, n: nat)
    requires limit > 0
    ensures var v, full := Browsed(tree, dir, q, limit, n), tree(dir, q);
      && v.cwd == dir && v.query == q && v.total == |full|
      && v.entries == full[..Min((n + 1) * limit, |full|)]
      && (v.hasMore <==> |v.entries| < |full|)
  {
    BrowsedShows(tree, dir, q, limit, n);
    AskedIsProduct(limit, n);
  }

  /** The loop of "load more" ends after max(1, ceil(total / limit)) requests, with every entry
      shown exactly once and in server order. */
  lemma BrowsingEnds(tree: Tree, dir: string, q: string, limit: nat, n: nat)
    requires limit > 0
    ensures var v, full := Browsed(tree, dir, q, limit, n), tree(dir, q);
      && (v.hasMore <==> n + 1 < RequestsFor(|full|, limit))
      && (!v.hasMore <==> v.entries == full)
  {
    BrowsedShows(tree, dir, q, limit, n);
    AskedIsProduct(limit, n);
    RequestsCount(n, |tree(dir, q)|, limit);
  }

  lemma RequestsCount(n: nat, total: nat, limit: nat)
    requires limit > 0
    ensures (n + 1) * limit < total <==> n + 1 < RequestsFor(total, limit)
  {
    assert (n + 1) * limit >= limit;
    Blocks(n + 1, total, limit);
  }

  lemma ShownIsAPrefix(tree: Tree, dir: string, q: string, limit: nat, n: nat, v: View)
    requires limit > 0 && v == Browsed(tree, dir, q, limit, n)
    ensures v.entries <= tree(dir, q)
  {
    BrowsedShows(tree, dir, q, limit, n);
    assert v.entries == tree(dir, q)[..Min(Asked(limit, n), |tree(dir, q)|)];
  }

  /** In the initial sort state the rows, sorted stably by whatever algorithm, are the accumulated
      pages exactly as received. */
  lemma RowsAreServerPages(tree: Tree, dir: string, q: string, limit: nat, n: nat, v: View, rows: seq<Entry>)
    requires limit > 0 && SortedBy(EntryLess, tree(dir, q)) && v == Browsed(tree, dir, q, limit, n)
    requires IsStableSort(Before(SortState(ByName, Asc)), v.entries, rows)
    ensures rows == v.entries
  {
    ShownIsAPrefix(tree, dir, q, limit, n, v);
    ByNameSortIsIdentity(tree(dir, q), v.entries, rows);
  }
}
