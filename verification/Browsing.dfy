/** A client that follows "load more" against the listing handler itself, one listing per page. */
module Browsing {
  import opened FsApi
  import opened Sorting
  import FsBrowser

  lemma PageIsPiece(full: seq<Entry>, cwd: string, limit: nat, q: string, k: nat)
    ensures PageOf(full, cwd, Boundary(limit, k), limit, q).entries == Piece(full, limit, k)
  {
  }

  /** What a client has gathered from requests answered from `orders`. */
  ghost predicate Gathers(entries: seq<Entry>, orders: seq<seq<Entry>>, matching: seq<Entry>, limit: nat) {
    ServerOrders(orders, matching) && entries == Served(orders, limit)
  }

  lemma GathersMore(entries: seq<Entry>, orders: seq<seq<Entry>>, matching: seq<Entry>, limit: nat, full: seq<Entry>)
    requires Gathers(entries, orders, matching, limit) && IsServerOrder(full, matching)
    ensures Gathers(entries + Piece(full, limit, |orders|), orders + [full], matching, limit)
  {
    assert (orders + [full])[..|orders|] == orders;
  }

  /** `k` requests reach the end, and no fewer do. */
  predicate TakesExactly(k: nat, total: nat, limit: nat) {
    k > 0 && Boundary(limit, k) >= total && (k == 1 || Boundary(limit, k - 1) < total)
  }

  /** That is max(1, ceil(total / limit)) requests. */
  lemma TakesExactlyIff(k: nat, total: nat, limit: nat)
    requires limit > 0
    ensures TakesExactly(k, total, limit) <==> k == FsBrowser.RequestsFor(total, limit)
  {
    if k > 0 {
      BoundaryIsProduct(limit, k);
      FsBrowser.RequestsCount(k - 1, total, limit);
      if k > 1 {
        BoundaryIsProduct(limit, k - 1);
        FsBrowser.RequestsCount(k - 2, total, limit);
      }
    }
    if total > 0 {
      FsBrowser.Blocks(0, total, limit);
    }
  }

  /** Browses a directory to its end. Each reply comes from a sort of its own, `orders[k]`; what
      is shown is their pages in turn, after exactly as many requests as it takes, unless an offset
      would overflow. */
  method BrowseAll(abs: string, q: string, limit: Int64, list: seq<DirEntry>)
    returns (ok: bool, entries: seq<Entry>, requests: nat, ghost orders: seq<seq<Entry>>)
    requires 0 < limit <= MAX_LIMIT
    ensures !ok ==> |Matching(abs, list, q)| + limit > MAX_INT64
    ensures ok ==> Gathers(entries, orders, Matching(abs, list, q), limit)
    ensures ok ==> requests == |orders| && TakesExactly(requests, |Matching(abs, list, q)|, limit)
  {
    ghost var matching := Matching(abs, list, q);
    ok, entries, requests, orders := true, [], 0, [];
    var offset: int, more := 0, true;
    while more
      invariant Gathers(entries, orders, matching, limit) && requests == |orders|
      invariant more ==> 0 <= offset <= MAX_INT64 && offset == Boundary(limit, requests)
      invariant more ==> offset <= |matching| && (requests == 0 || offset < |matching|)
      invariant !more ==> TakesExactly(requests, |matching|, limit)
      decreases if more then |matching| + 1 - offset else 0
    {
      var page;
      ghost var full;
      ok, page, full := NextPage(abs, q, limit, offset, list, requests);
      if !ok {
        return;
      }
      GathersMore(entries, orders, matching, limit, full);
      BoundaryNext(limit, requests);
      entries := entries + page.entries;
      orders := orders + [full];
      requests := requests + 1;
      more := page.hasMore;
      offset := page.offset + limit;
    }
  }

  const NO_PAGE: Page := Page("", [], 0, 0, 0, 0, false, "")

  /** One request, at the offset the pages before it end at. */
  method NextPage(abs: string, q: string, limit: Int64, offset: Int64, list: seq<DirEntry>, ghost k: nat)
    returns (ok: bool, page: Page, ghost full: seq<Entry>)
    requires 0 < limit <= MAX_LIMIT && offset == Boundary(limit, k)
    requires k == 0 || offset < |Matching(abs, list, q)|
    ensures !ok ==> |Matching(abs, list, q)| + limit > MAX_INT64
    ensures ok ==> IsServerOrder(full, Matching(abs, list, q)) && page.entries == Piece(full, limit, k)
    ensures ok ==> page.hasMore == (offset + limit < |Matching(abs, list, q)|)
    ensures ok && page.hasMore ==> page.offset == offset && offset + limit <= MAX_INT64
  {
    var resp;
    resp, full := HandleList(abs, q, Number(limit), Number(offset), Listed(list));
    assert |full| == |multiset(full)| == |Matching(abs, list, q)|;
    ok, page := false, NO_PAGE;
    if resp.Listing? {
      ok, page := true, resp.page;
      PageIsPiece(full, abs, limit, q, k);
    }
  }

  /** So a client sees every key exactly as often as it occurs and in order, and every entry
      exactly once if no page boundary splits a tie. */
  lemma {:induction false} BrowsingShows(orders: seq<seq<Entry>>, s: seq<Entry>, matching: seq<Entry>, limit: nat)
    requires ServerOrders(orders, matching) && IsServerOrder(s, matching)
    requires TakesExactly(|orders|, |matching|, limit)
    ensures Map(KeyOf, Served(orders, limit)) == Map(KeyOf, s)
    ensures NoSplitTies(s, limit) ==> multiset(Served(orders, limit)) == multiset(matching)
  {
    assert |s| == |multiset(s)| == |matching|;
    assert s[..|s|] == s;
    ServedKeys(orders, s, matching, limit);
    if NoSplitTies(s, limit) {
      ServedSoFar(orders, s, matching, limit);
    }
  }
}
