/** What the route table guarantees, for every path and method. */
module RouteProperties {
  import opened SimpleRouter
  import opened RouteTable
  import opened Text

  /** The kind of handler the application serves a request with, or None for "not found". */
  function Served(ui: Mode, m: Method, path: string): Option<Handler> {
    KindOf(Dispatch(Table(ui), m, path))
  }

  /** What the unprefixed rows make of a path. */
  function Common(m: Method, s: string): Option<Handler> {
    KindOf(Dispatch(CommonRows(""), m, s))
  }

  predicate IsVariant(p: string) {
    p == "/a" || p == "/b" || p == "/c"
  }

  /** The suffixes the variant redirects catch: "/" and everything under "/-/". */
  predicate RedirectSuffix(s: string) {
    s == "/" || "/-/" <= s
  }

  /** What a variant's rows make of the part of the path after the variant. */
  function VariantKind(m: Method, s: string): Option<Handler> {
    if m == GET && RedirectSuffix(s) then Some(Redirect("")) else Common(m, s)
  }

  function UIKind(ui: Mode, m: Method): Option<Handler> {
    if m == GET && ui != NoUI then Some(UI) else None
  }

  function OrElse(a: Option<Handler>, b: Option<Handler>): Option<Handler> {
    if a.Some? then a else b
  }

  // ---------- Rows under a prefix mirror the unprefixed rows ----------

  /** The rows `rp` are the rows `r0` with `p` in front of every pattern. */
  ghost predicate Mirrors(p: string, rp: seq<Row>, r0: seq<Row>) {
    && |rp| == |r0|
    && forall i :: 0 <= i < |r0| ==>
         rp[i].verb == r0[i].verb && rp[i].pattern == p + r0[i].pattern && Kind(rp[i].handler) == Kind(r0[i].handler)
  }

  lemma MirrorsAppend(p: string, rp: seq<Row>, r0: seq<Row>, sp: seq<Row>, s0: seq<Row>)
    requires Mirrors(p, rp, r0) && Mirrors(p, sp, s0)
    ensures Mirrors(p, rp + sp, r0 + s0)
  {
  }

  /** Dispatch through mirrored rows finds the same kind of handler. */
  lemma {:induction false} MirroredDispatch(p: string, rp: seq<Row>, r0: seq<Row>, m: Method, s: string)
    requires Mirrors(p, rp, r0) && '*' !in p
    ensures KindOf(Dispatch(rp, m, p + s)) == KindOf(Dispatch(r0, m, s))
  {
    if rp != [] {
      PrefixedMatch(p, r0[0].pattern, s);
      MirroredDispatch(p, rp[1..], r0[1..], m, s);
    }
  }

  lemma StaticMirrors(p: string, name: string)
    requires '/' !in name
    ensures Mirrors(p, StaticRows(p + "/" + name), StaticRows("/" + name))
  {
    StaticKind(p, name, p + "/" + name);
    StaticKind("", name, "/" + name);
    AssociatePair(p, "/", name);
    StaticMirrorsBase(p, p + "/" + name, "/" + name, Static(name));
  }

  lemma StaticMirrorsBase(p: string, bp: string, b0: string, k: Handler)
    requires bp == p + b0 && Kind(Static(bp)) == k && Kind(Static(b0)) == k
    ensures Mirrors(p, StaticRows(bp), StaticRows(b0))
  {
    assert bp + "/*filepath" == p + (b0 + "/*filepath");
  }

  lemma StaticKind(p: string, name: string, mount: string)
    requires '/' !in name && mount == p + "/" + name
    ensures Kind(Static(mount)) == Static(name)
  {
    LastIndexIs(p, '/', name);
    assert mount == p + ['/'] + name;
    assert mount[|p| + 1..] == name;
  }

  lemma FsMirrors(p: string, b: string)
    ensures Mirrors(p, FsRows(p + b), FsRows(b))
  {
    assert p + b + "/" == p + (b + "/");
    assert p + b + "/*filepath" == p + (b + "/*filepath");
  }

  lemma MemMirrors(p: string, b: string)
    ensures Mirrors(p, MemRows(p + b), MemRows(b))
  {
    assert p + b + "/api" == p + (b + "/api");
    assert p + b + "/api/alloc" == p + (b + "/api/alloc");
    assert p + b + "/api/clear" == p + (b + "/api/clear");
  }

  lemma ProbeMirrors(p: string, b: string, name: string)
    ensures Mirrors(p, ProbeRows(p + b, name), ProbeRows(b, name))
  {
    assert p + b + "/api" == p + (b + "/api");
  }

  lemma EnvDnsMirror(p: string, b: string)
    ensures Mirrors(p, EnvRows(p + b), EnvRows(b))
    ensures Mirrors(p, DnsRows(p + b), DnsRows(b))
  {
    assert p + b + "/api" == p + (b + "/api");
  }

  lemma MemQMirrors(p: string, b: string)
    ensures Mirrors(p, MemQRows(p + b), MemQRows(b))
  {
    assert p + b + "/stats" == p + (b + "/stats");
    assert p + b + "/queues" == p + (b + "/queues");
    assert p + b + "/queues/drain" == p + (b + "/queues/drain");
    assert p + b + "/queues/dequeue" == p + (b + "/queues/dequeue");
    assert p + b + "/queues/enqueue" == p + (b + "/queues/enqueue");
  }

  lemma PagesAndRawMirror(p: string)
    ensures Mirrors(p, PageRows(p), PageRows("")) && Mirrors(p, RawRows(p), RawRows(""))
  {
    var none := "";
    assert p + (none + "/pageinfo") == p + "/pageinfo" && p + (none + "/metrics") == p + "/metrics";
    assert p + (none + "/fs/*filepath") == p + "/fs/*filepath";
  }

  lemma StaticsMirror(p: string)
    ensures Mirrors(p, StaticRows(p + "/built"), StaticRows("/built"))
    ensures Mirrors(p, StaticRows(p + "/static"), StaticRows("/static"))
  {
    assert p + "/" + "built" == p + "/built" && "/" + "built" == "/built";
    assert p + "/" + "static" == p + "/static" && "/" + "static" == "/static";
    StaticMirrors(p, "built");
    StaticMirrors(p, "static");
  }

  lemma FileRowsAre()
    ensures FileRows("") == PageRows("") + StaticRows("/built") + StaticRows("/static") + RawRows("") + FsRows("/fsapi")
  {
    var none := "";
    assert none + "/built" == "/built" && none + "/static" == "/static" && none + "/fsapi" == "/fsapi";
  }

  lemma FileRowsMirror(p: string)
    ensures Mirrors(p, FileRows(p), FileRows(""))
  {
    FileRowsAre();
    PagesAndRawMirror(p);
    StaticsMirror(p);
    FsMirrors(p, "/fsapi");
    var page, page0 := PageRows(p), PageRows("");
    var built, built0 := StaticRows(p + "/built"), StaticRows("/built");
    var site, site0 := StaticRows(p + "/static"), StaticRows("/static");
    var raw, raw0 := RawRows(p), RawRows("");
    MirrorsAppend(p, page, page0, built, built0);
    MirrorsAppend(p, page + built, page0 + built0, site, site0);
    MirrorsAppend(p, page + built + site, page0 + built0 + site0, raw, raw0);
    MirrorsAppend(p, page + built + site + raw, page0 + built0 + site0 + raw0, FsRows(p + "/fsapi"), FsRows("/fsapi"));
  }

  lemma StateRowsMirror(p: string)
    ensures Mirrors(p, StateRows(p), StateRows(""))
  {
    var none := "";
    assert none + "/mem" == "/mem" && none + "/healthy" == "/healthy" && none + "/ready" == "/ready" && none + "/env" == "/env";
    MemMirrors(p, "/mem");
    ProbeMirrors(p, "/healthy", "live");
    ProbeMirrors(p, "/ready", "ready");
    EnvDnsMirror(p, "/env");
    var mem, mem0 := MemRows(p + "/mem"), MemRows("/mem");
    var live, live0 := ProbeRows(p + "/healthy", "live"), ProbeRows("/healthy", "live");
    var ready, ready0 := ProbeRows(p + "/ready", "ready"), ProbeRows("/ready", "ready");
    MirrorsAppend(p, mem, mem0, live, live0);
    MirrorsAppend(p, mem + live, mem0 + live0, ready, ready0);
    MirrorsAppend(p, mem + live + ready, mem0 + live0 + ready0, EnvRows(p + "/env"), EnvRows("/env"));
  }

  lemma WorkRowsMirror(p: string)
    ensures Mirrors(p, WorkRows(p), WorkRows(""))
  {
    var none := "";
    assert none + "/dns" == "/dns" && none + "/keygen" == "/keygen" && none + "/memq/server" == "/memq/server";
    EnvDnsMirror(p, "/dns");
    MemQMirrors(p, "/memq/server");
    assert Mirrors(p, KeyGenRows(p + "/keygen"), KeyGenRows("/keygen"));
    MirrorsAppend(p, DnsRows(p + "/dns"), DnsRows("/dns"), KeyGenRows(p + "/keygen"), KeyGenRows("/keygen"));
    MirrorsAppend(p, DnsRows(p + "/dns") + KeyGenRows(p + "/keygen"), DnsRows("/dns") + KeyGenRows("/keygen"),
                  MemQRows(p + "/memq/server"), MemQRows("/memq/server"));
  }

  lemma CommonRowsMirror(p: string)
    ensures Mirrors(p, CommonRows(p), CommonRows(""))
  {
    FileRowsMirror(p);
    StateRowsMirror(p);
    WorkRowsMirror(p);
    MirrorsAppend(p, FileRows(p), FileRows(""), StateRows(p), StateRows(""));
    MirrorsAppend(p, FileRows(p) + StateRows(p), FileRows("") + StateRows(""), WorkRows(p), WorkRows(""));
  }

  // ---------- Rows of one prefix never match paths of another ----------

  /** Every pattern starts with "/xy", y not a slash: the shape of the unprefixed rows. */
  ghost predicate Solid(rows: seq<Row>) {
    forall i :: 0 <= i < |rows| ==> SolidPattern(rows[i].pattern)
  }

  predicate SolidPattern(p: string) {
    |p| >= 3 && p[0] == '/' && p[1] != '*' && p[2] != '*' && p[1] != '/' && p[2] != '/' && p[1] != '-'
  }

  lemma FileRowsAreSolid()
    ensures Solid(FileRows(""))
  {
    StaticAndFsAreSolid("" + "/built");
    StaticAndFsAreSolid("" + "/static");
    StaticAndFsAreSolid("" + "/fsapi");
    assert Solid(PageRows("")) && Solid(RawRows(""));
  }

  lemma StaticAndFsAreSolid(b: string)
    requires SolidPattern(b)
    ensures Solid(StaticRows(b)) && Solid(FsRows(b))
  {
  }

  lemma MemAndProbeAreSolid(b: string, name: string)
    requires SolidPattern(b)
    ensures Solid(MemRows(b)) && Solid(ProbeRows(b, name)) && Solid(EnvRows(b)) && Solid(DnsRows(b))
  {
  }

  lemma StateRowsAreSolid()
    ensures Solid(StateRows(""))
  {
    MemAndProbeAreSolid("" + "/mem", "");
    MemAndProbeAreSolid("" + "/healthy", "live");
    MemAndProbeAreSolid("" + "/ready", "ready");
    MemAndProbeAreSolid("" + "/env", "");
  }

  lemma WorkersAreSolid(b: string)
    requires SolidPattern(b)
    ensures Solid(KeyGenRows(b)) && Solid(MemQRows(b))
  {
  }

  lemma WorkRowsAreSolid()
    ensures Solid(WorkRows(""))
  {
    MemAndProbeAreSolid("" + "/dns", "");
    WorkersAreSolid("" + "/keygen");
    WorkersAreSolid("" + "/memq/server");
  }

  lemma CommonRowsAreSolid()
    ensures Solid(CommonRows(""))
  {
    FileRowsAreSolid();
    StateRowsAreSolid();
    WorkRowsAreSolid();
  }

  /** A path that is too short, or has a slash second or third, or a dash second, is none of
      the unprefixed rows' business. */
  lemma CommonMissesShortSegments(m: Method, path: string)
    requires |path| < 3 || path[1] == '/' || path[2] == '/' || path[1] == '-'
    ensures Dispatch(CommonRows(""), m, path) == None
  {
    CommonRowsAreSolid();
    SolidMisses(CommonRows(""), m, path);
    NothingMatchesNothingServes(CommonRows(""), m, path);
  }

  lemma SolidMisses(rows: seq<Row>, m: Method, path: string)
    requires Solid(rows)
    requires |path| < 3 || path[1] == '/' || path[2] == '/' || path[1] == '-'
    ensures NoneMatches(rows, m, path)
  {
    forall i | 0 <= i < |rows| ensures !Matches(rows[i], m, path) {
      var pat := rows[i].pattern;
      assert SolidPattern(pat);
      assert pat[..2] == [pat[0], pat[1]] && pat[..3] == [pat[0], pat[1], pat[2]];
      MismatchIsNoMatch(pat, path, if |path| >= 3 && path[2] != '/' then 1 else 2);
    }
  }

  /** Rows that all start with a variant and a slash. */
  ghost predicate AllUnder(p: string, rows: seq<Row>) {
    forall i :: 0 <= i < |rows| ==> p + "/" <= rows[i].pattern
  }

  lemma MirroredSolidIsUnder(p: string, rp: seq<Row>, r0: seq<Row>)
    requires Mirrors(p, rp, r0) && Solid(r0)
    ensures AllUnder(p, rp)
  {
    forall i | 0 <= i < |rp| ensures p + "/" <= rp[i].pattern {
      assert SolidPattern(r0[i].pattern);
      LeadingSlash(p, r0[i].pattern);
    }
  }

  lemma LeadingSlash(p: string, pattern: string)
    requires pattern != "" && pattern[0] == '/'
    ensures p + "/" <= p + pattern
  {
    assert pattern[..1] == "/";
    assert (p + pattern)[..|p| + 1] == p + pattern[..1];
  }

  lemma RedirectsAreUnder(p: string)
    ensures AllUnder(p, RedirectRows(p))
  {
    LeadingSlash(p, "/-/*path");
  }

  lemma UnderAppend(p: string, a: seq<Row>, b: seq<Row>)
    requires AllUnder(p, a) && AllUnder(p, b)
    ensures AllUnder(p, a + b)
  {
  }

  lemma VariantRowsAreUnder(p: string)
    requires IsVariant(p)
    ensures AllUnder(p, PrefixRows(p))
  {
    CommonRowsMirror(p);
    CommonRowsAreSolid();
    MirroredSolidIsUnder(p, CommonRows(p), CommonRows(""));
    RedirectsAreUnder(p);
    UnderAppend(p, RedirectRows(p), CommonRows(p));
  }

  lemma UnderMisses(p: string, rows: seq<Row>, m: Method, path: string)
    requires IsVariant(p) && AllUnder(p, rows) && !(p + "/" <= path)
    ensures NoneMatches(rows, m, path)
  {
    var lead := p + "/";
    forall i | 0 <= i < |rows| ensures !Matches(rows[i], m, path) {
      var pat := rows[i].pattern;
      assert lead <= pat;
      var k: nat := if |path| < 1 || path[0] != lead[0] then 0 else if |path| < 2 || path[1] != lead[1] then 1 else 2;
      assert pat[..k + 1] == lead[..k + 1];
      MismatchIsNoMatch(pat, path, k);
    }
  }

  // ---------- One prefix at a time ----------

  lemma PrefixedExact(p: string, pattern: string, s: string)
    requires '*' !in p && '*' !in pattern
    ensures MatchPattern(p + pattern, p + s) <==> pattern == s
  {
    PrefixedMatch(p, pattern, s);
  }

  lemma PrefixedWildcard(p: string, base: string, name: string, s: string)
    requires '*' !in p && '*' !in base
    ensures MatchPattern(p + (base + "*" + name), p + s) <==> base <= s
  {
    PrefixedMatch(p, base + "*" + name, s);
    WildcardMatches(base, name, s);
  }

  lemma RedirectPatterns(p: string, s: string)
    requires '*' !in p
    ensures MatchPattern(p + "/", p + s) <==> s == "/"
    ensures MatchPattern(p + "/-/*path", p + s) <==> "/-/" <= s
  {
    PrefixedExact(p, "/", s);
    PrefixedWildcard(p, "/-/", "path", s);
    assert "/-/" + "*" + "path" == "/-/*path";
  }

  lemma TwoRows(r: Row, r': Row, m: Method, path: string)
    ensures Dispatch([r, r'], m, path) ==
            if Matches(r, m, path) then Some(r.handler) else if Matches(r', m, path) then Some(r'.handler) else None
  {
    var rest := [r, r'][1..];
    assert rest == [r'] && rest[1..] == [];
    assert Dispatch(rest[1..], m, path) == None;
    assert Dispatch(rest, m, path) == if Matches(r', m, path) then Some(r'.handler) else None;
  }

  lemma RedirectsServe(p: string, m: Method, s: string)
    requires '*' !in p
    ensures KindOf(Dispatch(RedirectRows(p), m, p + s)) ==
            if m == GET && RedirectSuffix(s) then Some(Redirect("")) else None
  {
    RedirectPatterns(p, s);
    TwoRows(RedirectRows(p)[0], RedirectRows(p)[1], m, p + s);
  }

  /** A variant's rows serve exactly the paths under it: the redirects, then the same kinds as
      the unprefixed rows give the rest of the path. */
  lemma VariantServes(p: string, m: Method, path: string)
    requires IsVariant(p)
    ensures KindOf(Dispatch(PrefixRows(p), m, path)) ==
            if p + "/" <= path then VariantKind(m, path[2..]) else None
  {
    if p + "/" <= path {
      var s := path[2..];
      assert path == p + s;
      RedirectsServe(p, m, s);
      CommonRowsMirror(p);
      MirroredDispatch(p, CommonRows(p), CommonRows(""), m, s);
      DispatchAppend(RedirectRows(p), CommonRows(p), m, path);
    } else {
      VariantRowsAreUnder(p);
      UnderMisses(p, PrefixRows(p), m, path);
      NothingMatchesNothingServes(PrefixRows(p), m, path);
    }
  }

  lemma {:induction false} UIRowsServeUI(rows: seq<Row>, m: Method, path: string)
    requires forall i :: 0 <= i < |rows| ==> rows[i].handler == UI && rows[i].verb == GET
    ensures Dispatch(rows, m, path) == None || (m == GET && Dispatch(rows, m, path) == Some(UI))
  {
    if rows != [] {
      UIRowsServeUI(rows[1..], m, path);
    }
  }

  lemma UIRowsShape(ui: Mode)
    ensures forall i :: 0 <= i < |UIRows(ui)| ==> UIRows(ui)[i].handler == UI && UIRows(ui)[i].verb == GET
    ensures if ui == NoUI then UIRows(ui) == [] else UIRows(ui) != [] && UIRows(ui)[|UIRows(ui)| - 1].pattern == "/*filepath"
  {
  }

  lemma CatchAllServes(rows: seq<Row>, m: Method, path: string)
    requires "/" <= path && rows != []
    requires forall i :: 0 <= i < |rows| ==> rows[i].handler == UI && rows[i].verb == GET
    requires rows[|rows| - 1].pattern == "/*filepath"
    ensures Dispatch(rows, m, path) == if m == GET then Some(UI) else None
  {
    UIRowsServeUI(rows, m, path);
    NothingMatchesNothingServes(rows, m, path);
    CatchAllMatches(path);
    assert Matches(rows[|rows| - 1], GET, path);
  }

  lemma ShapedRowsServe(rows: seq<Row>, mounted: bool, m: Method, path: string)
    requires "/" <= path
    requires forall i :: 0 <= i < |rows| ==> rows[i].handler == UI && rows[i].verb == GET
    requires if mounted then rows != [] && rows[|rows| - 1].pattern == "/*filepath" else rows == []
    ensures KindOf(Dispatch(rows, m, path)) == if m == GET && mounted then Some(UI) else None
  {
    if mounted {
      CatchAllServes(rows, m, path);
    }
  }

  lemma UIServes(ui: Mode, m: Method, path: string)
    requires "/" <= path
    ensures KindOf(Dispatch(UIRows(ui), m, path)) == UIKind(ui, m)
  {
    UIRowsShape(ui);
    ShapedRowsServe(UIRows(ui), ui != NoUI, m, path);
  }

  lemma CatchAllMatches(path: string)
    requires "/" <= path
    ensures MatchPattern("/*filepath", path)
  {
    WildcardMatches("/", "filepath", path);
    assert "/" + "*" + "filepath" == "/*filepath";
  }

  /** The whole table: unprefixed rows, the three variants, the UI, in that order. */
  lemma TableServes(ui: Mode, m: Method, path: string)
    ensures Served(ui, m, path) ==
      OrElse(Common(m, path), OrElse(KindOf(Dispatch(PrefixRows("/a"), m, path)),
        OrElse(KindOf(Dispatch(PrefixRows("/b"), m, path)),
          OrElse(KindOf(Dispatch(PrefixRows("/c"), m, path)), KindOf(Dispatch(UIRows(ui), m, path))))))
  {
    FourPrefixes();
    FiveBlocks(CommonRows(""), PrefixRows("/a"), PrefixRows("/b"), PrefixRows("/c"), UIRows(ui), m, path);
  }

  lemma PrefixesSnoc(prefixes: seq<string>, prefix: string)
    ensures PrefixesRows(prefixes + [prefix]) == PrefixesRows(prefixes) + PrefixRows(prefix)
  {
    assert (prefixes + [prefix])[..|prefixes|] == prefixes;
  }

  lemma PrefixesInTurn(a: string, b: string, c: string, d: string)
    ensures PrefixesRows([a, b, c, d]) == PrefixRows(a) + PrefixRows(b) + PrefixRows(c) + PrefixRows(d)
  {
    TwoPrefixes(a, b);
    PrefixesSnoc([a, b], c);
    PrefixesSnoc([a, b, c], d);
    assert [a, b] + [c] == [a, b, c] && [a, b, c] + [d] == [a, b, c, d];
  }

  lemma TwoPrefixes(a: string, b: string)
    ensures PrefixesRows([a, b]) == PrefixRows(a) + PrefixRows(b)
  {
    PrefixesSnoc([], a);
    PrefixesSnoc([a], b);
    assert [] + [a] == [a] && [a] + [b] == [a, b];
    assert PrefixesRows([]) + PrefixRows(a) == PrefixRows(a);
  }

  lemma RootPrefix()
    ensures PrefixRows("") == CommonRows("")
  {
  }

  lemma FourPrefixes()
    ensures PrefixesRows(PREFIXES) == CommonRows("") + PrefixRows("/a") + PrefixRows("/b") + PrefixRows("/c")
  {
    PrefixesInTurn("", "/a", "/b", "/c");
    RootPrefix();
  }

  lemma TwoBlocks(a: seq<Row>, b: seq<Row>, m: Method, path: string)
    ensures KindOf(Dispatch(a + b, m, path)) == OrElse(KindOf(Dispatch(a, m, path)), KindOf(Dispatch(b, m, path)))
  {
    DispatchAppend(a, b, m, path);
  }

  lemma ThreeBlocks(a: seq<Row>, b: seq<Row>, c: seq<Row>, m: Method, path: string)
    ensures KindOf(Dispatch(a + b + c, m, path)) ==
      OrElse(KindOf(Dispatch(a, m, path)), OrElse(KindOf(Dispatch(b, m, path)), KindOf(Dispatch(c, m, path))))
  {
    TwoBlocks(a, b, m, path);
    TwoBlocks(a + b, c, m, path);
  }

  lemma FiveBlocks(a: seq<Row>, b: seq<Row>, c: seq<Row>, d: seq<Row>, e: seq<Row>, m: Method, path: string)
    ensures KindOf(Dispatch(a + b + c + d + e, m, path)) ==
      OrElse(KindOf(Dispatch(a, m, path)), OrElse(KindOf(Dispatch(b, m, path)), OrElse(KindOf(Dispatch(c, m, path)),
        OrElse(KindOf(Dispatch(d, m, path)), KindOf(Dispatch(e, m, path))))))
  {
    ThreeBlocks(a, b, c, m, path);
    ThreeBlocks(a + b + c, d, e, m, path);
  }

  // ---------- The theorems ----------

  /** "/a/...", "/b/..." or "/c/...". */
  predicate UnderVariant(s: string) {
    |s| >= 3 && IsVariant(s[..2]) && s[2] == '/'
  }

  lemma UnderVariantSplits(s: string, v: string)
    requires IsVariant(v)
    ensures v + "/" <= s <==> UnderVariant(s) && s[..2] == v
  {
    if v + "/" <= s {
      assert s[..3] == v + "/" && s[..2] == s[..3][..2];
    }
    if UnderVariant(s) && s[..2] == v {
      assert s[..3] == s[..2] + [s[2]] == v + "/";
    }
  }

  /** Every path is served by exactly one block of the table: a variant's rows for paths under
      it, the unprefixed rows otherwise, and the UI for what those leave. */
  lemma WhoServes(ui: Mode, m: Method, path: string)
    requires "/" <= path
    ensures Served(ui, m, path) ==
      OrElse(if UnderVariant(path) then VariantKind(m, path[2..]) else Common(m, path), UIKind(ui, m))
  {
    TableServes(ui, m, path);
    VariantServes("/a", m, path);
    VariantServes("/b", m, path);
    VariantServes("/c", m, path);
    UnderVariantSplits(path, "/a");
    UnderVariantSplits(path, "/b");
    UnderVariantSplits(path, "/c");
    UIServes(ui, m, path);
    if UnderVariant(path) {
      CommonMissesShortSegments(m, path);
    }
  }

  ghost predicate NoUIRow(rows: seq<Row>) {
    forall i :: 0 <= i < |rows| ==> rows[i].handler != UI && !rows[i].handler.Redirect?
  }

  lemma {:induction false} RowsWithoutUI(rows: seq<Row>, m: Method, path: string)
    requires NoUIRow(rows)
    ensures KindOf(Dispatch(rows, m, path)) != Some(UI)
    ensures KindOf(Dispatch(rows, m, path)) != Some(Redirect(""))
  {
    if rows != [] {
      RowsWithoutUI(rows[1..], m, path);
    }
  }

  lemma CommonRowsHaveNoUI()
    ensures NoUIRow(FileRows("")) && NoUIRow(StateRows("")) && NoUIRow(WorkRows(""))
  {
  }

  lemma NoUIAppend(a: seq<Row>, b: seq<Row>, c: seq<Row>)
    requires NoUIRow(a) && NoUIRow(b) && NoUIRow(c)
    ensures NoUIRow(a + b + c)
  {
  }

  lemma CommonIsNotUI(m: Method, s: string)
    ensures Common(m, s) != Some(UI) && Common(m, s) != Some(Redirect(""))
  {
    CommonRowsHaveNoUI();
    NoUIAppend(FileRows(""), StateRows(""), WorkRows(""));
    RowsWithoutUI(CommonRows(""), m, s);
  }

  lemma SameKindCases(redirected: bool, under: bool, c: Option<Handler>, v: Option<Handler>, u: Option<Handler>)
    requires c != Some(UI) && c != Some(Redirect("")) && v != Some(UI)
    requires u == None || u == Some(UI)
    requires under ==> c == None && !redirected
    requires redirected ==> c == None
    ensures OrElse(if redirected then Some(Redirect("")) else c, u) == OrElse(if under then v else c, u) <==>
            !redirected && !(under && v.Some?)
  {
  }

  lemma VariantKindIsNotUI(m: Method, s: string)
    ensures VariantKind(m, s) != Some(UI)
  {
    CommonIsNotUI(m, s);
  }

  lemma RedirectSuffixIsNotCommon(m: Method, s: string)
    requires "/" <= s
    ensures RedirectSuffix(s) ==> Common(m, s) == None && !UnderVariant(s)
    ensures UnderVariant(s) ==> Common(m, s) == None
  {
    if RedirectSuffix(s) || UnderVariant(s) {
      assert |s| < 3 || s[1] == '-' || s[2] == '/';
      CommonMissesShortSegments(m, s);
    }
  }

  lemma WhoServesUnder(ui: Mode, p: string, m: Method, s: string)
    requires IsVariant(p) && "/" <= s
    ensures Served(ui, m, p + s) == OrElse(VariantKind(m, s), UIKind(ui, m))
  {
    var path := p + s;
    assert path[..2] == p && path[2..] == s;
    WhoServes(ui, m, path);
  }

  /** Variant transparency: putting a variant in front of a path keeps the kind of its handler
      exactly when the path is not one the variant redirects, and is not itself a variant path
      that a row (or redirect) serves. */
  lemma {:induction false} VariantTransparency(ui: Mode, p: string, m: Method, s: string)
    requires IsVariant(p) && "/" <= s
    ensures Served(ui, m, p + s) == Served(ui, m, s) <==>
      && !(m == GET && RedirectSuffix(s))
      && !(UnderVariant(s) && VariantKind(m, s[2..]).Some?)
  {
    WhoServesUnder(ui, p, m, s);
    WhoServes(ui, m, s);
    CommonIsNotUI(m, s);
    RedirectSuffixIsNotCommon(m, s);
    var v := if UnderVariant(s) then VariantKind(m, s[2..]) else None;
    if UnderVariant(s) {
      VariantKindIsNotUI(m, s[2..]);
    }
    SameKindCases(m == GET && RedirectSuffix(s), UnderVariant(s), Common(m, s), v, UIKind(ui, m));
  }

  /** So nested variants differ: "/a/b/pageinfo" is not the page that "/b/pageinfo" is. */
  lemma NestedVariantsDiffer(ui: Mode)
    ensures Served(ui, GET, "/b" + "/pageinfo") == Some(PageInfo(""))
    ensures Served(ui, GET, "/a" + ("/b" + "/pageinfo")) != Some(PageInfo(""))
  {
    var s := "/b" + "/pageinfo";
    PageInfoIsCommon();
    assert s[..2] == "/b" && s[2..] == "/pageinfo";
    WhoServesUnder(ui, "/b", GET, "/pageinfo");
    VariantTransparency(ui, "/a", GET, s);
  }

  lemma PageInfoIsFirst()
    ensures |CommonRows("")| > 0 && CommonRows("")[0] == Route(GET, "/pageinfo", PageInfo(""))
  {
    var none := "";
    assert none + "/pageinfo" == "/pageinfo";
    assert PageRows("")[0] == Route(GET, "/pageinfo", PageInfo(""));
  }

  lemma PageInfoIsCommon()
    ensures VariantKind(GET, "/pageinfo") == Some(PageInfo(""))
  {
    PageInfoIsFirst();
    DispatchIsFirstMatch(CommonRows(""), GET, "/pageinfo", 0);
    assert "/pageinfo"[1] != "/-/"[1];
  }

  /** With a UI mounted every GET is served; nothing but a GET ever reaches the UI. */
  lemma {:induction false} UICatchesEveryGet(ui: Mode, m: Method, path: string)
    requires "/" <= path
    ensures m == GET && ui != NoUI ==> Served(ui, m, path).Some?
    ensures Served(ui, m, path) == Some(UI) ==> m == GET && ui != NoUI
  {
    WhoServes(ui, m, path);
    CommonIsNotUI(m, path);
    if UnderVariant(path) {
      CommonIsNotUI(m, path[2..]);
    }
  }

  /** Mounting a UI, or registering anything after the table, never changes who serves a request
      that was served before. */
  lemma LaterRoutesNeverOverride(ui: Mode, extra: seq<Row>, m: Method, path: string)
    requires Dispatch(Table(ui), m, path).Some?
    ensures Dispatch(Table(ui) + extra, m, path) == Dispatch(Table(ui), m, path)
  {
    DispatchAppend(Table(ui), extra, m, path);
  }
}
