/** The directory listing endpoint: build entries, filter, sort in place, clamp and slice. */
module FsApi {
  import opened Text
  import opened Sorting
  import Paths

  // ---------- Server integers are 64-bit ----------

  const MAX_INT64: int := 0x7FFF_FFFF_FFFF_FFFF
  const TWO_TO_THE_64: int := 0x1_0000_0000_0000_0000

  type Int64 = x: int | -MAX_INT64 - 1 <= x <= MAX_INT64

  /** Addition as the hardware does it. */
  function WrappingAdd(a: Int64, b: Int64): Int64 {
    var sum := a + b;
    if sum > MAX_INT64 then sum - TWO_TO_THE_64
    else if sum < -MAX_INT64 - 1 then sum + TWO_TO_THE_64
    else sum
  }

  // ---------- Requests, directory contents, replies ----------

  const DEFAULT_LIMIT: Int64 := 200
  const MAX_LIMIT: Int64 := 5000

  /** An optional integer query parameter, as strconv.Atoi reads it. */
  datatype Param = Absent | Unparsable | Number(value: Int64)

  datatype Option<T> = None | Some(value: T)

  datatype FileInfo = FileInfo(size: int, mode: string, modTime: int, isLink: bool, target: Option<string>)
  datatype InfoResult = Info(info: FileInfo) | InfoError(message: string)
  datatype DirEntry = DirEntry(name: string, isDir: bool, info: InfoResult)
  datatype ReadDirResult = Listed(list: seq<DirEntry>) | ReadFailed(message: string)

  datatype Entry = Entry(name: string, path: string, size: int, mode: string, isDir: bool,
                         modTime: int, symlink: bool, target: string, err: string)

  datatype Page = Page(cwd: string, entries: seq<Entry>, total: nat, returned: nat, offset: nat,
                       limit: nat, hasMore: bool, q: string)

  /** The reply: an error status, a page, or the slice expression panicking. */
  datatype Response = ServerError(message: string) | Panic | Listing(page: Page)

  function EffectiveLimit(p: Param): (limit: Int64)
    ensures 0 < limit <= MAX_LIMIT
  {
    if p.Number? && 0 < p.value <= MAX_LIMIT then p.value else DEFAULT_LIMIT
  }

  function EffectiveOffset(p: Param): (offset: Int64)
    ensures 0 <= offset
  {
    if p.Number? && p.value >= 0 then p.value else 0
  }

  /** One entry; when its metadata cannot be read, only name, path and error are filled in. */
  function EntryOf(abs: string, de: DirEntry): Entry {
    var path := Paths.Join(abs, de.name);
    match de.info
    case InfoError(message) => Entry(de.name, path, 0, "", false, 0, false, "", message)
    case Info(info) =>
      var linked := info.isLink && info.target.Some?;
      Entry(de.name, path, info.size, info.mode, de.isDir, info.modTime, linked,
            if linked then info.target.value else "", "")
  }

  /** What an entry says about a directory entry, field by field. */
  predicate Describes(e: Entry, abs: string, de: DirEntry) {
    && e.name == de.name && e.path == Paths.Join(abs, de.name)
    && (de.info.InfoError? ==> e.err == de.info.message && e.mode == e.target == "" && e.size == e.modTime == 0 && !e.isDir && !e.symlink)
    && (de.info.Info? ==>
          && e.err == "" && e.isDir == de.isDir
          && e.size == de.info.info.size && e.mode == de.info.info.mode && e.modTime == de.info.info.modTime
          && (e.symlink <==> de.info.info.isLink && de.info.info.target != None)
          && (e.symlink ==> Some(e.target) == de.info.info.target) && (!e.symlink ==> e.target == ""))
  }

  lemma OneDescription(e: Entry, abs: string, de: DirEntry)
    ensures Describes(e, abs, de) <==> e == EntryOf(abs, de)
  {
  }

  function NameMatches(q: string): Entry -> bool {
    (e: Entry) => Contains(Lower(e.name), Lower(q))
  }

  /** The entries a listing is about, before ordering. */
  function Matching(abs: string, list: seq<DirEntry>, q: string): seq<Entry> {
    var all := Map(de => EntryOf(abs, de), list);
    if q == "" then all else Filter(NameMatches(q), all)
  }

  // ---------- The order ----------

  /** What the order looks at. */
  datatype Key = Key(isDir: bool, name: string)

  function KeyOf(e: Entry): Key { Key(e.isDir, Lower(e.name)) }

  predicate KeyLess(a: Key, b: Key) {
    if a.isDir != b.isDir then a.isDir else LexLess(a.name, b.name)
  }

  /** Directories first, then by lower-cased name. */
  predicate EntryLess(a: Entry, b: Entry) {
    if a.isDir != b.isDir then a.isDir else LexLess(Lower(a.name), Lower(b.name))
  }

  /** `full` is the matching entries in server order; which one, when keys tie, is the
      unstable sort's choice. */
  ghost predicate IsServerOrder(full: seq<Entry>, matching: seq<Entry>) {
    SortedBy(EntryLess, full) && multiset(full) == multiset(matching)
  }

  lemma KeyOrderIsStrict()
    ensures StrictWeakOrder(KeyLess)
    ensures forall a, b :: a == b || KeyLess(a, b) || KeyLess(b, a)
  {
    forall a: Key, b: Key
      ensures KeyLess(a, b) ==> !KeyLess(b, a)
      ensures a == b || KeyLess(a, b) || KeyLess(b, a)
    {
      LexTrichotomy(a.name, b.name);
    }
    forall a: Key, b: Key, c: Key | KeyLess(a, c) ensures KeyLess(a, b) || KeyLess(b, c) {
      LexTrichotomy(a.name, b.name);
      LexTrichotomy(b.name, c.name);
      LexTrichotomy(a.name, c.name);
      if LexLess(c.name, b.name) && LexLess(b.name, a.name) {
        LexTransitive(c.name, b.name, a.name);
      }
    }
  }

  /** The comparator is a strict weak order whose ties are exactly the equal keys. */
  lemma EntryOrderIsStrictWeak()
    ensures StrictWeakOrder(EntryLess)
    ensures forall a, b :: Ties(EntryLess, a, b) <==> KeyOf(a) == KeyOf(b)
  {
    KeyOrderIsStrict();
    forall a, b ensures EntryLess(a, b) == KeyLess(KeyOf(a), KeyOf(b)) {}
    forall a, b ensures EntryLess(a, b) ==> !EntryLess(b, a) {}
    forall a, b, c | EntryLess(a, c) ensures EntryLess(a, b) || EntryLess(b, c) {
      assert KeyLess(KeyOf(a), KeyOf(b)) || KeyLess(KeyOf(b), KeyOf(c));
    }
    forall a, b ensures Ties(EntryLess, a, b) <==> KeyOf(a) == KeyOf(b) {
      LexTrichotomy(Lower(a.name), Lower(b.name));
    }
  }

  /** What the order says of two entries, letter by letter: directories first, then the first position
      where the names differ, a proper prefix first; names the same up to case tie. */
  lemma EntryOrderByLetters(a: Entry, b: Entry)
    ensures EntryLess(a, b) <==> (a.isDir && !b.isDir) || (a.isDir == b.isDir && Precedes(a.name, b.name))
    ensures Ties(EntryLess, a, b) <==> a.isDir == b.isDir && SameText(a.name, b.name)
  {
    EntryOrderIsStrictWeak();
    LexLessIsPrecedes(a.name, b.name);
    CasesMerge(a.name, b.name);
  }

  // ---------- What a listing shows, letter by letter ----------

  function Finds(q: string): Entry -> bool {
    (e: Entry) => Occurs(q, e.name)
  }

  function Built(abs: string, list: seq<DirEntry>): seq<Entry> {
    Map(de => EntryOf(abs, de), list)
  }

  lemma {:induction false} FiltersAgree<T>(keep: T -> bool, keep': T -> bool, s: seq<T>)
    requires forall x :: x in s ==> keep(x) == keep'(x)
    ensures Filter(keep, s) == Filter(keep', s)
  {
    if s != [] {
      assert s[|s| - 1] in s;
      FiltersAgree(keep, keep', s[..|s| - 1]);
    }
  }

  lemma {:induction false} FilterAll<T>(keep: T -> bool, s: seq<T>)
    requires forall x :: x in s ==> keep(x)
    ensures Filter(keep, s) == s
  {
    if s != [] {
      assert s[|s| - 1] in s;
      FilterAll(keep, s[..|s| - 1]);
      assert s == s[..|s| - 1] + [s[|s| - 1]];
    }
  }

  /** The matching entries are those in whose name the filter can be read, up to case. */
  lemma {:induction false} MatchingIsFound(abs: string, list: seq<DirEntry>, q: string)
    ensures Matching(abs, list, q) == Filter(Finds(q), Built(abs, list))
  {
    var all := Built(abs, list);
    if q == "" {
      forall e | e in all ensures Finds(q)(e) {
        assert ReadAt(q, e.name, 0);
      }
      FilterAll(Finds(q), all);
    } else {
      forall e | e in all ensures NameMatches(q)(e) == Finds(q)(e) {
        ContainsIsOccurs(q, e.name);
      }
      FiltersAgree(NameMatches(q), Finds(q), all);
    }
  }

  /** So the case of the filter's letters does not matter. */
  lemma {:induction false} FilterIgnoresCase(abs: string, list: seq<DirEntry>, q: string, q': string)
    requires SameText(q, q')
    ensures Matching(abs, list, q) == Matching(abs, list, q')
  {
    MatchingIsFound(abs, list, q);
    MatchingIsFound(abs, list, q');
    forall e | e in Built(abs, list) ensures Finds(q)(e) == Finds(q')(e) {
      OccursIgnoresCase(q, q', e.name);
    }
    FiltersAgree(Finds(q), Finds(q'), Built(abs, list));
  }

  /** `full` lists the entries in whose name the filter occurs, as often as the directory has them:
      directories first, and no name behind one it precedes. */
  ghost predicate Lists(full: seq<Entry>, abs: string, list: seq<DirEntry>, q: string) {
    && (forall e :: e in full <==> Occurs(q, e.name) && exists i :: 0 <= i < |list| && Describes(e, abs, list[i]))
    && multiset(full) == multiset(Filter(Finds(q), Built(abs, list)))
    && (forall i, j :: 0 <= i < j < |full| && full[j].isDir ==> full[i].isDir)
    && (forall i, j :: 0 <= i < j < |full| && full[i].isDir == full[j].isDir ==> !Precedes(full[j].name, full[i].name))
  }

  lemma {:induction false} ServerOrderLists(full: seq<Entry>, abs: string, list: seq<DirEntry>, q: string)
    requires IsServerOrder(full, Matching(abs, list, q))
    ensures Lists(full, abs, list, q)
  {
    MatchingIsFound(abs, list, q);
    forall i, j | 0 <= i < j < |full|
      ensures full[j].isDir ==> full[i].isDir
      ensures full[i].isDir == full[j].isDir ==> !Precedes(full[j].name, full[i].name)
    {
      EntryOrderByLetters(full[j], full[i]);
    }
    forall e: Entry ensures e in full <==> Occurs(q, e.name) && exists i :: 0 <= i < |list| && Describes(e, abs, list[i]) {
      SameElements(full, Filter(Finds(q), Built(abs, list)), e);
      InBuilt(e, abs, list);
    }
  }

  lemma InBuilt(e: Entry, abs: string, list: seq<DirEntry>)
    ensures e in Built(abs, list) <==> exists i :: 0 <= i < |list| && Describes(e, abs, list[i])
  {
    forall i | 0 <= i < |list| ensures Built(abs, list)[i] == e <==> Describes(e, abs, list[i]) {
      OneDescription(e, abs, list[i]);
    }
  }

  /** Any two orderings of the same entries show the same sequence of keys. */
  lemma SameKeysWhateverTheSort(s: seq<Entry>, t: seq<Entry>)
    requires SortedBy(EntryLess, s) && SortedBy(EntryLess, t) && multiset(s) == multiset(t)
    ensures Map(KeyOf, s) == Map(KeyOf, t)
  {
    KeyOrderIsStrict();
    MapKeepsRearrangement(KeyOf, s, t);
    SortedIsUnique(KeyLess, Map(KeyOf, s), Map(KeyOf, t));
  }

  /** When no two different entries share a key, the order is unique. */
  lemma SameOrderWithoutTies(s: seq<Entry>, t: seq<Entry>)
    requires SortedBy(EntryLess, s) && SortedBy(EntryLess, t) && multiset(s) == multiset(t)
    requires forall x, y :: x in s && y in s && x != y ==> KeyOf(x) != KeyOf(y)
    ensures s == t
  {
    EntryOrderIsStrictWeak();
    SortedIsUnique(EntryLess, s, t);
  }

  /** Sorting first and filtering afterwards shows the same keys as the server's
      filter-then-sort. */
  lemma {:induction false} FilterThenSortIsSortThenFilter(keep: Entry -> bool, all: seq<Entry>, sortedAll: seq<Entry>, full: seq<Entry>)
    requires IsServerOrder(sortedAll, all)
    requires IsServerOrder(full, Filter(keep, all))
    ensures Map(KeyOf, full) == Map(KeyOf, Filter(keep, sortedAll))
  {
    FilterKeepsOrder(EntryLess, keep, sortedAll);
    FilterKeepsRearrangement(keep, all, sortedAll);
    SameKeysWhateverTheSort(full, Filter(keep, sortedAll));
  }

  // ---------- Pages ----------

  function Min(a: int, b: int): int { if a < b then a else b }

  /** The page of `full` a request is meant to get. */
  function PageOf(full: seq<Entry>, cwd: string, offset: nat, limit: nat, q: string): (p: Page)
    ensures p.offset <= p.offset + p.returned <= p.total == |full|
    ensures p.entries == full[p.offset..p.offset + p.returned]
  {
    var start := Min(offset, |full|);
    var end := Min(offset + limit, |full|);
    Page(cwd, full[start..end], |full|, end - start, start, limit, offset + limit < |full|, q)
  }

  /** The same said of the reply: where it starts, what it holds, and whether anything follows. */
  ghost predicate IsPage(p: Page, full: seq<Entry>, cwd: string, offset: nat, limit: nat, q: string) {
    && p.cwd == cwd && p.q == q && p.limit == limit && p.total == |full|
    && p.offset == (if offset <= |full| then offset else |full|)
    && p.returned == |p.entries| <= limit && p.offset + p.returned <= |full|
    && (forall i :: 0 <= i < p.returned ==> p.entries[i] == full[p.offset + i])
    && (p.hasMore <==> p.offset + p.returned < |full|)
    && (p.hasMore ==> p.returned == limit)
  }

  lemma PageOfIsPage(p: Page, full: seq<Entry>, cwd: string, offset: nat, limit: nat, q: string)
    ensures p == PageOf(full, cwd, offset, limit, q) <==> IsPage(p, full, cwd, offset, limit, q)
  {
    var p' := PageOf(full, cwd, offset, limit, q);
    if IsPage(p, full, cwd, offset, limit, q) {
      assert p.entries == p'.entries;
    }
  }

  /** Requests with limit `limit` at offsets 0, limit, 2*limit, ... cut `full` into consecutive
      pieces: what the first n of them returned, in order, is the first n*limit entries. */
  function Tiles(full: seq<Entry>, cwd: string, limit: nat, q: string, n: nat): seq<Entry> {
    if n == 0 then []
    else Tiles(full, cwd, limit, q, n - 1) + PageOf(full, cwd, (n - 1) * limit, limit, q).entries
  }

  lemma {:induction false} PagesTile(full: seq<Entry>, cwd: string, limit: nat, q: string, n: nat)
    ensures Tiles(full, cwd, limit, q, n) == full[..Min(n * limit, |full|)]
    ensures n > 0 ==> (PageOf(full, cwd, (n - 1) * limit, limit, q).hasMore <==> n * limit < |full|)
  {
    if n > 0 {
      PagesTile(full, cwd, limit, q, n - 1);
      assert n * limit == (n - 1) * limit + limit;
      TilesMeet(full, (n - 1) * limit, n * limit);
    }
  }

  lemma TilesMeet(full: seq<Entry>, start: nat, end: nat)
    requires start <= end
    ensures full[..Min(start, |full|)] + full[Min(start, |full|)..Min(end, |full|)] == full[..Min(end, |full|)]
  {
  }

  /** Pages of the same request under any two resolutions of ties agree key by key. */
  lemma PageKeysIgnoreTheSort(s: seq<Entry>, t: seq<Entry>, matching: seq<Entry>, cwd: string, offset: nat, limit: nat, q: string)
    requires IsServerOrder(s, matching) && IsServerOrder(t, matching)
    ensures var p, p' := PageOf(s, cwd, offset, limit, q), PageOf(t, cwd, offset, limit, q);
      Map(KeyOf, p.entries) == Map(KeyOf, p'.entries) && p.(entries := []) == p'.(entries := [])
  {
    SameKeysWhateverTheSort(s, t);
    assert |Map(KeyOf, s)| == |Map(KeyOf, t)|;
    var p, p' := PageOf(s, cwd, offset, limit, q), PageOf(t, cwd, offset, limit, q);
    assert Map(KeyOf, p.entries) == Map(KeyOf, s)[p.offset..p.offset + p.returned];
    assert Map(KeyOf, p'.entries) == Map(KeyOf, t)[p.offset..p.offset + p.returned];
  }

  // ---------- Pages that are listings of their own ----------

  /** Where the page after `k` requests begins. */
  function Boundary(limit: nat, k: nat): nat {
    if k == 0 then 0 else Boundary(limit, k - 1) + limit
  }

  lemma BoundaryNext(limit: nat, k: nat)
    ensures Boundary(limit, k + 1) == Boundary(limit, k) + limit
  {
  }

  lemma {:induction false} BoundaryIsProduct(limit: nat, k: nat)
    ensures Boundary(limit, k) == k * limit
  {
    if k > 0 {
      BoundaryIsProduct(limit, k - 1);
      assert k * limit == (k - 1) * limit + limit;
    }
  }

  lemma {:induction false} BoundaryGrows(limit: nat, i: nat, j: nat)
    requires i <= j
    ensures Boundary(limit, i) <= Boundary(limit, j)
  {
    if i < j {
      BoundaryGrows(limit, i, j - 1);
    }
  }

  /** The entries of the k-th page of `full`. */
  function Piece(full: seq<Entry>, limit: nat, k: nat): seq<Entry> {
    full[Min(Boundary(limit, k), |full|)..Min(Boundary(limit, k) + limit, |full|)]
  }

  /** What a client has after one request for each of `orders`, every request answered from an
      ordering of its own. */
  function Served(orders: seq<seq<Entry>>, limit: nat): seq<Entry> {
    if orders == [] then []
    else
      var n := |orders| - 1;
      Served(orders[..n], limit) + Piece(orders[n], limit, n)
  }

  ghost predicate ServerOrders(orders: seq<seq<Entry>>, matching: seq<Entry>) {
    forall k :: 0 <= k < |orders| ==> IsServerOrder(orders[k], matching)
  }

  /** However each request resolves ties, its pages together are the matching entries. */
  ghost predicate PagesPartition(matching: seq<Entry>, limit: nat) {
    forall orders :: ServerOrders(orders, matching) && Boundary(limit, |orders|) >= |matching| ==>
      multiset(Served(orders, limit)) == multiset(matching)
  }

  /** No two different entries with the same key lie on both sides of a page boundary. */
  ghost predicate NoSplitTies(s: seq<Entry>, limit: nat) {
    forall k: nat :: Unsplit(s, Boundary(limit, k))
  }

  ghost predicate Unsplit(s: seq<Entry>, c: nat) {
    forall p, q :: 0 <= p < c <= q < |s| && KeyOf(s[p]) == KeyOf(s[q]) ==> s[p] == s[q]
  }

  lemma {:induction false} CountByKey(s: seq<Entry>, x: Entry)
    requires forall e :: e in s && KeyOf(e) == KeyOf(x) ==> e == x
    ensures multiset(s)[x] == multiset(Map(KeyOf, s))[KeyOf(x)]
  {
    if s != [] {
      var front, last := s[..|s| - 1], s[|s| - 1];
      assert s == front + [last];
      CountByKey(front, x);
      MapAppend(KeyOf, front, [last]);
      assert Map(KeyOf, [last]) == [KeyOf(last)];
      assert last in s;
    }
  }

  /** Where nothing is split, both orders have the same entries on each side. */
  lemma PrefixSame(s: seq<Entry>, t: seq<Entry>, c: nat)
    requires SortedBy(EntryLess, s) && SortedBy(EntryLess, t) && multiset(s) == multiset(t)
    requires c <= |s| && Unsplit(s, c)
    ensures |t| == |s| && multiset(s[..c]) == multiset(t[..c])
  {
    assert |s| == |multiset(s)| == |multiset(t)| == |t|;
    SameKeysWhateverTheSort(s, t);
    forall i | 0 <= i < |s| ensures KeyOf(s[i]) == KeyOf(t[i]) {
      assert Map(KeyOf, s)[i] == Map(KeyOf, t)[i];
    }
    forall x ensures multiset(s[..c])[x] == multiset(t[..c])[x] {
      CountInPrefix(s, t, c, x);
    }
  }

  lemma CountInPrefix(s: seq<Entry>, t: seq<Entry>, c: nat, x: Entry)
    requires |s| == |t| && multiset(s) == multiset(t) && c <= |s| && Unsplit(s, c)
    requires forall i :: 0 <= i < |s| ==> KeyOf(s[i]) == KeyOf(t[i])
    ensures multiset(s[..c])[x] == multiset(t[..c])[x]
  {
    if forall i :: c <= i < |s| ==> KeyOf(s[i]) != KeyOf(x) {
      AllInFront(s, c, x);
      AllInFront(t, c, x);
    } else if forall i :: 0 <= i < c ==> KeyOf(s[i]) != KeyOf(x) {
      assert x !in s[..c] && x !in t[..c];
    } else {
      var p :| 0 <= p < c && KeyOf(s[p]) == KeyOf(x);
      var q :| c <= q < |s| && KeyOf(s[q]) == KeyOf(x);
      forall e | e in s && KeyOf(e) == KeyOf(x) ensures e == s[p] {
        var i :| 0 <= i < |s| && s[i] == e;
        assert s[p] == s[q];
      }
      OneOfItsKey(s, t, c, s[p], x);
    }
  }

  lemma AllInFront(s: seq<Entry>, c: nat, x: Entry)
    requires c <= |s| && forall i :: c <= i < |s| ==> KeyOf(s[i]) != KeyOf(x)
    ensures multiset(s[..c])[x] == multiset(s)[x]
  {
    assert s == s[..c] + s[c..];
    assert x !in s[c..];
  }

  lemma OneOfItsKey(s: seq<Entry>, t: seq<Entry>, c: nat, y: Entry, x: Entry)
    requires |s| == |t| && multiset(s) == multiset(t) && c <= |s|
    requires forall i :: 0 <= i < |s| ==> KeyOf(s[i]) == KeyOf(t[i])
    requires KeyOf(y) == KeyOf(x) && forall e :: e in s && KeyOf(e) == KeyOf(x) ==> e == y
    ensures multiset(s[..c])[x] == multiset(t[..c])[x]
  {
    forall e | e in t && KeyOf(e) == KeyOf(x) ensures e == y {
      SameElements(s, t, e);
    }
    if x == y {
      CountByKey(s[..c], x);
      CountByKey(t[..c], x);
      assert Map(KeyOf, s[..c]) == Map(KeyOf, t[..c]);
    } else {
      assert x !in s[..c] && x !in t[..c];
    }
  }

  lemma PrefixSplits(t: seq<Entry>, a: nat, b: nat)
    requires a <= b <= |t|
    ensures multiset(t[..b]) == multiset(t[..a]) + multiset(t[a..b])
  {
    assert t[..b] == t[..a] + t[a..b];
  }

  lemma UnsplitAtEnd(s: seq<Entry>, c: nat)
    requires Unsplit(s, c)
    ensures Unsplit(s, Min(c, |s|))
  {
  }

  /** If no boundary splits a tie, what the requests returned so far is, up to order, a prefix of
      any one ordering. */
  lemma {:induction false} ServedSoFar(orders: seq<seq<Entry>>, s: seq<Entry>, matching: seq<Entry>, limit: nat)
    requires ServerOrders(orders, matching) && IsServerOrder(s, matching) && NoSplitTies(s, limit)
    ensures multiset(Served(orders, limit)) == multiset(s[..Min(Boundary(limit, |orders|), |s|)])
  {
    if orders != [] {
      var n := |orders| - 1;
      ServedSoFar(orders[..n], s, matching, limit);
      NextPiece(orders[n], s, matching, limit, n);
    }
  }

  lemma NextPiece(t: seq<Entry>, s: seq<Entry>, matching: seq<Entry>, limit: nat, n: nat)
    requires IsServerOrder(t, matching) && IsServerOrder(s, matching) && NoSplitTies(s, limit)
    ensures multiset(s[..Min(Boundary(limit, n), |s|)]) + multiset(Piece(t, limit, n))
         == multiset(s[..Min(Boundary(limit, n + 1), |s|)])
  {
    var a, b := Min(Boundary(limit, n), |s|), Min(Boundary(limit, n + 1), |s|);
    BoundaryNext(limit, n);
    assert Unsplit(s, Boundary(limit, n)) && Unsplit(s, Boundary(limit, n + 1));
    UnsplitAtEnd(s, Boundary(limit, n));
    UnsplitAtEnd(s, Boundary(limit, n + 1));
    PrefixSame(s, t, a);
    PrefixSame(s, t, b);
    PrefixSplits(t, a, b);
  }

  /** Exchanging two entries with the same key gives another server order. */
  lemma SwapTies(s: seq<Entry>, p: nat, q: nat)
    requires SortedBy(EntryLess, s) && p < q < |s| && KeyOf(s[p]) == KeyOf(s[q])
    ensures IsServerOrder(s[p := s[q]][q := s[p]], s)
  {
    var t := s[p := s[q]][q := s[p]];
    forall a, b | 0 <= a < b < |t| ensures !EntryLess(t[b], t[a]) {
      assert KeyOf(t[a]) == KeyOf(s[a]) && KeyOf(t[b]) == KeyOf(s[b]);
      assert EntryLess(t[b], t[a]) == EntryLess(s[b], s[a]);
    }
    assert s == s[..p] + [s[p]] + s[p + 1..q] + [s[q]] + s[q + 1..];
    assert t == s[..p] + [s[q]] + s[p + 1..q] + [s[p]] + s[q + 1..];
  }

  /** Requests whose pages are those of `u` return what `u` has there. */
  lemma {:induction false} ServedLike(orders: seq<seq<Entry>>, u: seq<Entry>, limit: nat)
    requires forall k :: 0 <= k < |orders| ==> Piece(orders[k], limit, k) == Piece(u, limit, k)
    ensures Served(orders, limit) == u[..Min(Boundary(limit, |orders|), |u|)]
  {
    if orders != [] {
      var n := |orders| - 1;
      ServedLike(orders[..n], u, limit);
      BoundaryNext(limit, n);
      TilesMeet(u, Boundary(limit, n), Boundary(limit, n + 1));
    }
  }

  /** The page that position `q` is on. */
  lemma PageAt(limit: nat, q: nat, k: nat) returns (j: nat)
    requires limit > 0 && Boundary(limit, k) <= q
    ensures k <= j <= q && Boundary(limit, j) <= q < Boundary(limit, j) + limit
    decreases q - Boundary(limit, k)
  {
    BoundaryNext(limit, k);
    BoundaryAtLeast(limit, k);
    if q < Boundary(limit, k) + limit {
      j := k;
    } else {
      j := PageAt(limit, q, k + 1);
    }
  }

  lemma {:induction false} BoundaryAtLeast(limit: nat, k: nat)
    requires limit > 0
    ensures Boundary(limit, k) >= k
  {
    if k > 0 {
      BoundaryAtLeast(limit, k - 1);
    }
  }

  lemma PieceElsewhere(s: seq<Entry>, u: seq<Entry>, limit: nat, i: nat, q: nat)
    requires q < |s| && |u| == |s| && (forall k :: 0 <= k < |s| && k != q ==> u[k] == s[k])
    requires q < Boundary(limit, i) || Boundary(limit, i) + limit <= q
    ensures Piece(s, limit, i) == Piece(u, limit, i)
  {
  }

  /** The pages of requests of which the j-th alone has the two entries exchanged. */
  lemma PiecesOfSwap(s: seq<Entry>, limit: nat, p: nat, q: nat, j: nat, i: nat)
    requires p < Boundary(limit, j) <= q < Boundary(limit, j) + limit && q < |s|
    ensures Piece(if i == j then s[p := s[q]][q := s[p]] else s, limit, i) == Piece(s[q := s[p]], limit, i)
  {
    var t, u := s[p := s[q]][q := s[p]], s[q := s[p]];
    if i < j {
      BoundaryNext(limit, i);
      BoundaryGrows(limit, i + 1, j);
      PieceElsewhere(s, u, limit, i, q);
    } else if i > j {
      BoundaryNext(limit, j);
      BoundaryGrows(limit, j + 1, i);
      PieceElsewhere(s, u, limit, i, q);
    } else {
      PieceElsewhere(u, t, limit, j, p);
    }
  }

  /** One request that exchanges the two entries of a split tie: its page repeats the one an
      earlier page had. */
  lemma SplitTiesBreak(matching: seq<Entry>, s: seq<Entry>, limit: nat, p: nat, q: nat, k: nat)
    requires limit > 0 && IsServerOrder(s, matching)
    requires p < Boundary(limit, k) <= q < |s| && KeyOf(s[p]) == KeyOf(s[q]) && s[p] != s[q]
    ensures !PagesPartition(matching, limit)
  {
    var j := PageAt(limit, q, k);
    BoundaryGrows(limit, k, j);
    var orders := OneSwapped(s, p, q, j);
    SwapTies(s, p, q);
    assert ServerOrders(orders, matching);
    SwapIsServed(s, limit, p, q, j);
    BoundaryAtLeast(limit, |s|);
    assert |s| == |multiset(s)| == |matching|;
    OneReplaced(s, q, s[p]);
  }

  function OneSwapped(s: seq<Entry>, p: nat, q: nat, j: nat): seq<seq<Entry>>
    requires p < |s| && q < |s|
  {
    seq(|s|, i => if i == j then s[p := s[q]][q := s[p]] else s)
  }

  lemma SwapIsServed(s: seq<Entry>, limit: nat, p: nat, q: nat, j: nat)
    requires limit > 0 && p < Boundary(limit, j) <= q < Boundary(limit, j) + limit && q < |s|
    ensures Served(OneSwapped(s, p, q, j), limit) == s[q := s[p]]
  {
    var orders, u := OneSwapped(s, p, q, j), s[q := s[p]];
    forall i | 0 <= i < |orders| ensures Piece(orders[i], limit, i) == Piece(u, limit, i) {
      PiecesOfSwap(s, limit, p, q, j, i);
    }
    ServedLike(orders, u, limit);
    BoundaryAtLeast(limit, |s|);
  }

  lemma OneReplaced(s: seq<Entry>, q: nat, y: Entry)
    requires q < |s| && y != s[q]
    ensures multiset(s[q := y]) != multiset(s)
  {
    assert s == s[..q] + [s[q]] + s[q + 1..];
    assert s[q := y] == s[..q] + [y] + s[q + 1..];
    assert multiset(s[q := y])[y] == multiset(s)[y] + 1;
  }

  /** With one listing for each page, the pages of a directory together are its matching entries,
      however each listing resolves ties, exactly when no boundary between pages separates two
      different entries with the same key. Any ordering `s` of the entries tells. */
  lemma {:induction false} PagesPartitionIff(matching: seq<Entry>, s: seq<Entry>, limit: nat)
    requires limit > 0 && IsServerOrder(s, matching)
    ensures PagesPartition(matching, limit) <==> NoSplitTies(s, limit)
  {
    assert |s| == |multiset(s)| == |matching|;
    if NoSplitTies(s, limit) {
      forall orders | ServerOrders(orders, matching) && Boundary(limit, |orders|) >= |matching|
        ensures multiset(Served(orders, limit)) == multiset(matching)
      {
        ServedSoFar(orders, s, matching, limit);
        assert s[..|s|] == s;
      }
    } else {
      var k: nat :| !Unsplit(s, Boundary(limit, k));
      var p, q :| 0 <= p < Boundary(limit, k) <= q < |s| && KeyOf(s[p]) == KeyOf(s[q]) && s[p] != s[q];
      SplitTiesBreak(matching, s, limit, p, q, k);
    }
  }

  lemma SomeServerOrder(matching: seq<Entry>) returns (s: seq<Entry>)
    ensures IsServerOrder(s, matching)
  {
    s := StableSort(EntryLess, matching);
    EntryOrderIsStrictWeak();
    SortSorts(EntryLess, matching);
    SortKeepsElements(EntryLess, matching);
  }

  /** So one page is always enough for a directory that fits on it, and any number are when no two
      different entries share a key. */
  lemma {:induction false} PagesPartitionWhen(matching: seq<Entry>, limit: nat)
    requires limit > 0
    requires |matching| <= limit || forall x, y :: x in matching && y in matching && x != y ==> KeyOf(x) != KeyOf(y)
    ensures PagesPartition(matching, limit)
  {
    var s := SomeServerOrder(matching);
    assert |s| == |multiset(s)| == |matching|;
    forall k: nat ensures Unsplit(s, Boundary(limit, k)) {
      if k > 0 {
        BoundaryGrows(limit, 1, k);
      }
      forall x | x in s ensures x in matching {
        SameElements(s, matching, x);
      }
    }
    PagesPartitionIff(matching, s, limit);
  }

  /** The keys come out right in any case. */
  lemma {:induction false} ServedKeys(orders: seq<seq<Entry>>, s: seq<Entry>, matching: seq<Entry>, limit: nat)
    requires ServerOrders(orders, matching) && IsServerOrder(s, matching)
    ensures Map(KeyOf, Served(orders, limit)) == Map(KeyOf, s[..Min(Boundary(limit, |orders|), |s|)])
  {
    if orders != [] {
      var n := |orders| - 1;
      ServedKeys(orders[..n], s, matching, limit);
      BoundaryNext(limit, n);
      SameKeysWhateverTheSort(orders[n], s);
      KeysOfPiece(orders[n], s, limit, n);
      MapAppend(KeyOf, Served(orders[..n], limit), Piece(orders[n], limit, n));
      MapAppend(KeyOf, s[..Min(Boundary(limit, n), |s|)], Piece(s, limit, n));
      TilesMeet(s, Boundary(limit, n), Boundary(limit, n + 1));
    }
  }

  lemma KeysOfPiece(t: seq<Entry>, s: seq<Entry>, limit: nat, n: nat)
    requires Map(KeyOf, t) == Map(KeyOf, s)
    ensures Map(KeyOf, Piece(t, limit, n)) == Map(KeyOf, Piece(s, limit, n))
  {
    assert |Map(KeyOf, t)| == |t| && |Map(KeyOf, s)| == |s|;
    var a, b := Min(Boundary(limit, n), |s|), Min(Boundary(limit, n) + limit, |s|);
    assert Map(KeyOf, t[a..b]) == Map(KeyOf, t)[a..b] && Map(KeyOf, s[a..b]) == Map(KeyOf, s)[a..b];
  }

  // ---------- The handler ----------

  /** sort.Slice: rearranges the entries into order, promising nothing about ties. */
  method SortSlice(entries: array<Entry>)
    modifies entries
    ensures SortedBy(EntryLess, entries[..])
    ensures multiset(entries[..]) == multiset(old(entries[..]))
  {
    EntryOrderIsStrictWeak();
    SortSorts(EntryLess, entries[..]);
    SortKeepsElements(EntryLess, entries[..]);
    SortInPlace(entries, EntryLess);
  }

  method BuildEntries(abs: string, list: seq<DirEntry>) returns (entries: seq<Entry>)
    ensures entries == Map(de => EntryOf(abs, de), list)
    ensures |entries| == |list| && forall i :: 0 <= i < |list| ==> Describes(entries[i], abs, list[i])
  {
    entries := [];
    for i := 0 to |list|
      invariant entries == Map(de => EntryOf(abs, de), list[..i])
    {
      var de := list[i];
      var path := Paths.Join(abs, de.name);
      if de.info.InfoError? {
        entries := entries + [Entry(de.name, path, 0, "", false, 0, false, "", de.info.message)];
        continue;
      }
      var info := de.info.info;
      var e := Entry(de.name, path, info.size, info.mode, de.isDir, info.modTime, false, "", "");
      if info.isLink {
        if info.target.Some? {
          e := e.(symlink := true, target := info.target.value);
        }
      }
      entries := entries + [e];
    }
    assert list[..|list|] == list;
    forall i | 0 <= i < |list| ensures Describes(entries[i], abs, list[i]) {
      OneDescription(entries[i], abs, list[i]);
    }
  }

  method FilterEntries(entries: seq<Entry>, q: string) returns (filtered: seq<Entry>)
    ensures filtered == Filter(NameMatches(q), entries)
    ensures forall e :: e in filtered <==> e in entries && Occurs(q, e.name)
  {
    var mq := Lower(q);
    filtered := [];
    for i := 0 to |entries|
      invariant filtered == Filter(NameMatches(q), entries[..i])
    {
      assert entries[..i + 1][..i] == entries[..i];
      if Contains(Lower(entries[i].name), mq) {
        filtered := filtered + [entries[i]];
      }
    }
    assert entries[..|entries|] == entries;
    forall e | e in entries ensures NameMatches(q)(e) == Occurs(q, e.name) {
      ContainsIsOccurs(q, e.name);
    }
  }

  method ReadPaging(limitParam: Param, offsetParam: Param) returns (limit: Int64, offset: Int64)
    ensures limit == EffectiveLimit(limitParam) && offset == EffectiveOffset(offsetParam)
    ensures if limitParam.Number? && 1 <= limitParam.value <= 5000 then limit == limitParam.value else limit == 200
    ensures if offsetParam.Number? && 0 <= offsetParam.value then offset == offsetParam.value else offset == 0
  {
    limit := DEFAULT_LIMIT;
    if limitParam.Number? && limitParam.value > 0 && limitParam.value <= MAX_LIMIT {
      limit := limitParam.value;
    }
    offset := 0;
    if offsetParam.Number? && offsetParam.value >= 0 {
      offset := offsetParam.value;
    }
  }

  /** Clamps and slices. The sum offset + limit is taken before clamping, so a huge offset wraps
      it to a negative end and the slice expression panics. */
  method CutPage(entries: array<Entry>, abs: string, requested: Int64, limit: Int64, q: string)
    returns (resp: Response)
    requires 0 <= requested && 0 < limit
    ensures resp.Panic? <==> requested + limit > 0x7FFF_FFFF_FFFF_FFFF
    ensures requested + limit <= MAX_INT64 ==>
      resp == Listing(PageOf(entries[..], abs, requested, limit, q))
    ensures resp.Listing? ==> IsPage(resp.page, entries[..], abs, requested, limit, q)
  {
    var offset: int := requested;
    var total := entries.Length;
    var end: int := WrappingAdd(requested, limit);
    if offset > total {
      offset := total;
    }
    if end > total {
      end := total;
    }
    if end < offset {
      return Panic;
    }
    var page := entries[offset..end];
    assert page == entries[..][offset..end];
    resp := Listing(Page(abs, page, total, |page|, offset, limit, end < total, q));
    PageOfIsPage(resp.page, entries[..], abs, requested, limit, q);
  }

  /** The entries of a readable directory: built, filtered if there is a filter, and sorted. */
  method ListSorted(abs: string, q: string, list: seq<DirEntry>) returns (slice: array<Entry>)
    ensures fresh(slice)
    ensures IsServerOrder(slice[..], Matching(abs, list, q)) && Lists(slice[..], abs, list, q)
  {
    var entries := BuildEntries(abs, list);
    if q != "" {
      entries := FilterEntries(entries, q);
    }
    assert entries == Matching(abs, list, q);
    slice := new Entry[|entries|](i requires 0 <= i < |entries| => entries[i]);
    assert slice[..] == entries;
    SortSlice(slice);
    ServerOrderLists(slice[..], abs, list, q);
  }

  /** The handler after the query has been read: `abs` is the cleaned path and `q` the trimmed
      filter. It panics exactly when offset + limit overflows; otherwise a readable directory
      yields the requested page of its matching entries in server order. */
  method HandleList(abs: string, q: string, limitParam: Param, offsetParam: Param, dir: ReadDirResult)
    returns (resp: Response, ghost full: seq<Entry>)
    ensures dir.ReadFailed? ==> resp == ServerError(dir.message)
    ensures dir.Listed? ==> IsServerOrder(full, Matching(abs, dir.list, q))
    ensures dir.Listed? ==>
      if EffectiveOffset(offsetParam) + EffectiveLimit(limitParam) > 0x7FFF_FFFF_FFFF_FFFF then resp == Panic
      else resp == Listing(PageOf(full, abs, EffectiveOffset(offsetParam), EffectiveLimit(limitParam), q))
    ensures dir.Listed? ==> Lists(full, abs, dir.list, q)
    ensures resp.Listing? ==> IsPage(resp.page, full, abs, EffectiveOffset(offsetParam), EffectiveLimit(limitParam), q)
  {
    var limit, offset := ReadPaging(limitParam, offsetParam);
    full := [];
    if dir.ReadFailed? {
      return ServerError(dir.message), full;
    }
    var slice := ListSorted(abs, q, dir.list);
    full := slice[..];
    resp := CutPage(slice, abs, offset, limit, q);
  }
}
