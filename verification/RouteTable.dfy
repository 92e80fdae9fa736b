/** The route table the application builds: the same rows under the prefixes "", "/a", "/b" and
    "/c", redirects for the last three, then the UI. */
module RouteTable {
  import opened SimpleRouter
  import opened Text

  /** What serves a request. The strings are what the handler closures capture. */
  datatype Handler =
    | Redirect(location: string)
    | PageInfo(urlBase: string)
    | Metrics
    | Static(mount: string)
    | RawFiles(strip: string)
    | FsList
    | MemGet | MemAlloc | MemClear
    | Probe(name: string) | ProbeGet(name: string) | ProbePut(name: string)
    | EnvGet
    | DnsQuery
    | KeyGenGet | KeyGenPut
    | MemQStats | MemQCreate | MemQDelete | MemQDrain | MemQDequeue | MemQEnqueue
    | UI

  /** The handler without what depends on the prefix it was registered under. */
  function Kind(h: Handler): Handler {
    match h
    case Redirect(_) => Redirect("")
    case PageInfo(_) => PageInfo("")
    case Static(mount) => Static(mount[LastIndexOf(mount, '/') + 1..])
    case RawFiles(_) => RawFiles("")
    case _ => h
  }

  function KindOf(served: Option<Handler>): Option<Handler> {
    if served.Some? then Some(Kind(served.value)) else None
  }

  /** Which UI NewApp finds: a dev proxy, an exported site, built assets, or nothing. */
  datatype Mode = DevProxy | Exported | BuiltAssets | NoUI

  type Row = Route<Handler>

  // ---------- The rows, component by component ----------

  function StaticRows(base: string): seq<Row> {
    [Route(GET, base + "/*filepath", Static(base))]
  }

  function FsRows(base: string): seq<Row> {
    [Route(GET, base, FsList), Route(GET, base + "/", FsList), Route(GET, base + "/*filepath", FsList)]
  }

  function MemRows(base: string): seq<Row> {
    [Route(GET, base + "/api", MemGet), Route(POST, base + "/api/alloc", MemAlloc), Route(POST, base + "/api/clear", MemClear)]
  }

  function ProbeRows(base: string, name: string): seq<Row> {
    [Route(GET, base, Probe(name)), Route(GET, base + "/api", ProbeGet(name)), Route(PUT, base + "/api", ProbePut(name))]
  }

  function EnvRows(base: string): seq<Row> {
    [Route(GET, base + "/api", EnvGet)]
  }

  function DnsRows(base: string): seq<Row> {
    [Route(POST, base + "/api", DnsQuery)]
  }

  function KeyGenRows(base: string): seq<Row> {
    [Route(GET, base, KeyGenGet), Route(PUT, base, KeyGenPut)]
  }

  function MemQRows(base: string): seq<Row> {
    [Route(GET, base + "/stats", MemQStats), Route(PUT, base + "/queues", MemQCreate),
     Route(DELETE, base + "/queues", MemQDelete), Route(POST, base + "/queues/drain", MemQDrain),
     Route(POST, base + "/queues/dequeue", MemQDequeue), Route(POST, base + "/queues/enqueue", MemQEnqueue)]
  }

  function PageRows(prefix: string): seq<Row> {
    [Route(GET, prefix + "/pageinfo", PageInfo(prefix)), Route(GET, prefix + "/metrics", Metrics)]
  }

  function RawRows(prefix: string): seq<Row> {
    [Route(GET, prefix + "/fs/*filepath", RawFiles(prefix + "/fs"))]
  }

  /** Page data and files. */
  function FileRows(prefix: string): seq<Row> {
    PageRows(prefix) + StaticRows(prefix + "/built") + StaticRows(prefix + "/static") + RawRows(prefix)
    + FsRows(prefix + "/fsapi")
  }

  /** Memory, the two probes and the environment. */
  function StateRows(prefix: string): seq<Row> {
    MemRows(prefix + "/mem") + ProbeRows(prefix + "/healthy", "live") + ProbeRows(prefix + "/ready", "ready")
    + EnvRows(prefix + "/env")
  }

  /** DNS, key generation and queues. */
  function WorkRows(prefix: string): seq<Row> {
    DnsRows(prefix + "/dns") + KeyGenRows(prefix + "/keygen") + MemQRows(prefix + "/memq/server")
  }

  /** The rows every prefix gets. */
  function CommonRows(prefix: string): seq<Row> {
    FileRows(prefix) + StateRows(prefix) + WorkRows(prefix)
  }

  function Location(prefix: string): string {
    "/?variant=" + (if "/" <= prefix then prefix[1..] else prefix)
  }

  function RedirectRows(prefix: string): seq<Row> {
    [Route(GET, prefix + "/", Redirect(Location(prefix))), Route(GET, prefix + "/-/*path", Redirect(Location(prefix)))]
  }

  function PrefixRows(prefix: string): seq<Row> {
    (if prefix != "" then RedirectRows(prefix) else []) + CommonRows(prefix)
  }

  function UIRows(ui: Mode): seq<Row> {
    match ui
    case DevProxy =>
      [Route(GET, "/_next/*filepath", UI), Route(GET, "/favicon.ico", UI), Route(GET, "/robots.txt", UI),
       Route(GET, "/manifest.json", UI), Route(GET, "/", UI), Route(GET, "/*filepath", UI)]
    case Exported => [Route(GET, "/", UI), Route(GET, "/*filepath", UI)]
    case BuiltAssets => [Route(GET, "/_next/*filepath", UI), Route(GET, "/", UI), Route(GET, "/*filepath", UI)]
    case NoUI => []
  }

  const PREFIXES: seq<string> := ["", "/a", "/b", "/c"]

  function PrefixesRows(prefixes: seq<string>): seq<Row> {
    if prefixes == [] then []
    else PrefixesRows(prefixes[..|prefixes| - 1]) + PrefixRows(prefixes[|prefixes| - 1])
  }

  /** The whole table, in registration order. */
  function Table(ui: Mode): seq<Row> {
    PrefixesRows(PREFIXES) + UIRows(ui)
  }

  // ---------- Building it ----------

  method AddStatic(router: SimpleRouter<Handler>, base: string)
    modifies router
    ensures router.routes == old(router.routes) + StaticRows(base)
  {
    router.Handle(GET, base + "/*filepath", Static(base));
  }

  method AddFs(router: SimpleRouter<Handler>, base: string)
    modifies router
    ensures router.routes == old(router.routes) + FsRows(base)
  {
    router.Handle(GET, base, FsList);
    router.Handle(GET, base + "/", FsList);
    router.Handle(GET, base + "/*filepath", FsList);
  }

  method AddMem(router: SimpleRouter<Handler>, base: string)
    modifies router
    ensures router.routes == old(router.routes) + MemRows(base)
  {
    router.Handle(GET, base + "/api", MemGet);
    router.Handle(POST, base + "/api/alloc", MemAlloc);
    router.Handle(POST, base + "/api/clear", MemClear);
  }

  method AddProbe(router: SimpleRouter<Handler>, base: string, name: string)
    modifies router
    ensures router.routes == old(router.routes) + ProbeRows(base, name)
  {
    router.Handle(GET, base, Probe(name));
    router.Handle(GET, base + "/api", ProbeGet(name));
    router.Handle(PUT, base + "/api", ProbePut(name));
  }

  method AddKeyGen(router: SimpleRouter<Handler>, base: string)
    modifies router
    ensures router.routes == old(router.routes) + KeyGenRows(base)
  {
    router.Handle(GET, base, KeyGenGet);
    router.Handle(PUT, base, KeyGenPut);
  }

  method AddMemQ(router: SimpleRouter<Handler>, base: string)
    modifies router
    ensures router.routes == old(router.routes) + MemQRows(base)
  {
    router.Handle(GET, base + "/stats", MemQStats);
    router.Handle(PUT, base + "/queues", MemQCreate);
    router.Handle(DELETE, base + "/queues", MemQDelete);
    router.Handle(POST, base + "/queues/drain", MemQDrain);
    router.Handle(POST, base + "/queues/dequeue", MemQDequeue);
    router.Handle(POST, base + "/queues/enqueue", MemQEnqueue);
  }

  method AddPages(router: SimpleRouter<Handler>, prefix: string)
    modifies router
    ensures router.routes == old(router.routes) + PageRows(prefix)
  {
    router.Handle(GET, prefix + "/pageinfo", PageInfo(prefix));
    router.Handle(GET, prefix + "/metrics", Metrics);
  }

  method AddFiles(router: SimpleRouter<Handler>, prefix: string)
    modifies router
    ensures router.routes == old(router.routes) + FileRows(prefix)
  {
    AddPages(router, prefix);
    AddStatic(router, prefix + "/built");
    AddStatic(router, prefix + "/static");
    router.Handle(GET, prefix + "/fs/*filepath", RawFiles(prefix + "/fs"));
    AddFs(router, prefix + "/fsapi");
  }

  method AddState(router: SimpleRouter<Handler>, prefix: string)
    modifies router
    ensures router.routes == old(router.routes) + StateRows(prefix)
  {
    AddMem(router, prefix + "/mem");
    AddProbe(router, prefix + "/healthy", "live");
    AddProbe(router, prefix + "/ready", "ready");
    router.Handle(GET, prefix + "/env" + "/api", EnvGet);
  }

  method AddWork(router: SimpleRouter<Handler>, prefix: string)
    modifies router
    ensures router.routes == old(router.routes) + WorkRows(prefix)
  {
    router.Handle(POST, prefix + "/dns" + "/api", DnsQuery);
    AddKeyGen(router, prefix + "/keygen");
    AddMemQ(router, prefix + "/memq/server");
  }

  lemma Associate<T>(a: seq<T>, b: seq<T>, c: seq<T>, d: seq<T>)
    ensures a + b + c + d == a + (b + c + d)
  {
  }

  method AddCommon(router: SimpleRouter<Handler>, prefix: string)
    modifies router
    ensures router.routes == old(router.routes) + CommonRows(prefix)
  {
    Associate(router.routes, FileRows(prefix), StateRows(prefix), WorkRows(prefix));
    AddFiles(router, prefix);
    AddState(router, prefix);
    AddWork(router, prefix);
  }

  method AddRedirects(router: SimpleRouter<Handler>, prefix: string)
    modifies router
    ensures router.routes == old(router.routes) + RedirectRows(prefix)
  {
    var location := "/?variant=" + (if "/" <= prefix then prefix[1..] else prefix);
    router.Handle(GET, prefix + "/", Redirect(location));
    router.Handle(GET, prefix + "/-/*path", Redirect(location));
  }

  /** Redirects only under the variant prefixes, then the rows every prefix gets. */
  method AddPrefix(router: SimpleRouter<Handler>, prefix: string)
    modifies router
    ensures router.routes == old(router.routes) + PrefixRows(prefix)
  {
    ghost var was, redirects, common := router.routes, RedirectRows(prefix), CommonRows(prefix);
    if prefix != "" {
      AddRedirects(router, prefix);
      AssociatePair(was, redirects, common);
    }
    AddCommon(router, prefix);
    assert [] + common == common;
  }

  lemma AssociatePair<T>(a: seq<T>, b: seq<T>, c: seq<T>)
    ensures a + b + c == a + (b + c)
  {
  }

  method AddPrefixes(router: SimpleRouter<Handler>, prefixes: seq<string>)
    modifies router
    ensures router.routes == old(router.routes) + PrefixesRows(prefixes)
  {
    ghost var was := router.routes;
    for i := 0 to |prefixes|
      invariant router.routes == was + PrefixesRows(prefixes[..i])
    {
      assert prefixes[..i + 1][..i] == prefixes[..i];
      AssociatePair(was, PrefixesRows(prefixes[..i]), PrefixRows(prefixes[i]));
      AddPrefix(router, prefixes[i]);
    }
    assert prefixes[..|prefixes|] == prefixes;
  }

  method MountUI(router: SimpleRouter<Handler>, ui: Mode)
    modifies router
    ensures router.routes == old(router.routes) + UIRows(ui)
  {
    if ui == DevProxy {
      router.Handle(GET, "/_next/*filepath", UI);
      router.Handle(GET, "/favicon.ico", UI);
      router.Handle(GET, "/robots.txt", UI);
      router.Handle(GET, "/manifest.json", UI);
      router.Handle(GET, "/", UI);
      router.Handle(GET, "/*filepath", UI);
    } else {
      if ui == Exported {
        router.Handle(GET, "/", UI);
        router.Handle(GET, "/*filepath", UI);
      } else if ui == BuiltAssets {
        router.Handle(GET, "/_next/*filepath", UI);
        router.Handle(GET, "/", UI);
        router.Handle(GET, "/*filepath", UI);
      }
    }
  }

  method BuildTable(prefixes: seq<string>, ui: Mode) returns (router: SimpleRouter<Handler>)
    ensures router.routes == PrefixesRows(prefixes) + UIRows(ui)
  {
    router := new SimpleRouter();
    AddPrefixes(router, prefixes);
    assert [] + PrefixesRows(prefixes) == PrefixesRows(prefixes);
    MountUI(router, ui);
  }

  method NewApp(ui: Mode) returns (router: SimpleRouter<Handler>)
    ensures router.routes == Table(ui)
  {
    router := BuildTable(PREFIXES, ui);
  }
}
