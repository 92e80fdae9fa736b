/** The HTTP interface, written out once as a function of method and path: what serves every request,
    with what its handler captured, and a proof that the route table amounts to it. */
module RouteApi {
  import opened SimpleRouter
  import opened RouteTable
  import opened RouteProperties

  // ---------- The interface ----------

  /** What serves GET requests under a prefix. */
  function Gets(prefix: string, s: string): Option<Handler> {
    if s == "/pageinfo" then Some(PageInfo(prefix))
    else if s == "/metrics" then Some(Metrics)
    else if "/built/" <= s then Some(Static(prefix + "/built"))
    else if "/static/" <= s then Some(Static(prefix + "/static"))
    else if "/fs/" <= s then Some(RawFiles(prefix + "/fs"))
    else if s == "/fsapi" || "/fsapi/" <= s then Some(FsList)
    else if s == "/mem/api" then Some(MemGet)
    else if s == "/healthy" then Some(Probe("live"))
    else if s == "/healthy/api" then Some(ProbeGet("live"))
    else if s == "/ready" then Some(Probe("ready"))
    else if s == "/ready/api" then Some(ProbeGet("ready"))
    else if s == "/env/api" then Some(EnvGet)
    else if s == "/keygen" then Some(KeyGenGet)
    else if s == "/memq/server/stats" then Some(MemQStats)
    else None
  }

  function Posts(s: string): Option<Handler> {
    if s == "/mem/api/alloc" then Some(MemAlloc)
    else if s == "/mem/api/clear" then Some(MemClear)
    else if s == "/dns/api" then Some(DnsQuery)
    else if s == "/memq/server/queues/drain" then Some(MemQDrain)
    else if s == "/memq/server/queues/dequeue" then Some(MemQDequeue)
    else if s == "/memq/server/queues/enqueue" then Some(MemQEnqueue)
    else None
  }

  function Puts(s: string): Option<Handler> {
    if s == "/healthy/api" then Some(ProbePut("live"))
    else if s == "/ready/api" then Some(ProbePut("ready"))
    else if s == "/keygen" then Some(KeyGenPut)
    else if s == "/memq/server/queues" then Some(MemQCreate)
    else None
  }

  function Deletes(s: string): Option<Handler> {
    if s == "/memq/server/queues" then Some(MemQDelete) else None
  }

  /** What every prefix serves for the part of the path after it. */
  function Api(prefix: string, m: Method, s: string): Option<Handler> {
    match m
    case GET => Gets(prefix, s)
    case POST => Posts(s)
    case PUT => Puts(s)
    case DELETE => Deletes(s)
    case OtherMethod(_) => None
  }

  // ---------- Rows that say what the interface says ----------

  ghost predicate SoundRow(p: string, r: Row) {
    forall m, s :: Matches(r, m, p + s) ==> Api(p, m, s) == Some(r.handler)
  }

  ghost predicate Sound(p: string, rows: seq<Row>) {
    forall i :: 0 <= i < |rows| ==> SoundRow(p, rows[i])
  }

  lemma SoundAppend(p: string, a: seq<Row>, b: seq<Row>)
    requires Sound(p, a) && Sound(p, b)
    ensures Sound(p, a + b)
  {
  }

  lemma ExactIsSound(p: string, path: string, r: Row)
    requires '*' !in p && '*' !in path && r.pattern == p + path && Api(p, r.verb, path) == Some(r.handler)
    ensures SoundRow(p, r)
  {
    forall m, s | Matches(r, m, p + s) ensures Api(p, m, s) == Some(r.handler) {
      PrefixedExact(p, path, s);
    }
  }

  lemma WildcardIsSound(p: string, base: string, name: string, r: Row)
    requires '*' !in p && '*' !in base && r.pattern == p + (base + "*" + name) && r.verb == GET
    requires forall s :: base <= s ==> Gets(p, s) == Some(r.handler)
    ensures SoundRow(p, r)
  {
    forall m, s | Matches(r, m, p + s) ensures Api(p, m, s) == Some(r.handler) {
      PrefixedWildcard(p, base, name, s);
    }
  }

  /** What soundness gives: whatever is found is right. */
  lemma {:induction false} FoundIsRight(p: string, rows: seq<Row>, m: Method, s: string)
    requires Sound(p, rows) && Dispatch(rows, m, p + s).Some?
    ensures Dispatch(rows, m, p + s) == Api(p, m, s)
  {
    if Matches(rows[0], m, p + s) {
      assert SoundRow(p, rows[0]);
    } else {
      assert Sound(p, rows[1..]) by {
        forall i | 0 <= i < |rows[1..]| ensures SoundRow(p, rows[1..][i]) {
          assert rows[1..][i] == rows[i + 1];
        }
      }
      FoundIsRight(p, rows[1..], m, s);
    }
  }

  lemma Regroup(p: string, a: string, b: string, c: string)
    requires a + b == c
    ensures p + a + b == p + c
  {
  }

  // ---------- The interface, path by path ----------

  lemma PagePaths(p: string)
    ensures Gets(p, "/pageinfo") == Some(PageInfo(p)) && Gets(p, "/metrics") == Some(Metrics)
  {
    assert "/metrics"[1] == 'm' && "/pageinfo"[1] == 'p';
  }

  lemma BuiltPaths(p: string, s: string)
    requires "/built/" <= s
    ensures Gets(p, s) == Some(Static(p + "/built"))
  {
    assert s[1] == "/built/"[1] == 'b';
  }

  lemma StaticPaths(p: string, s: string)
    requires "/static/" <= s
    ensures Gets(p, s) == Some(Static(p + "/static"))
  {
    assert s[1] == "/static/"[1] == 's';
  }

  lemma RawPaths(p: string, s: string)
    requires "/fs/" <= s
    ensures Gets(p, s) == Some(RawFiles(p + "/fs"))
  {
    assert s[1] == "/fs/"[1] == 'f';
  }

  lemma FsApiPaths(p: string, s: string)
    requires s == "/fsapi" || "/fsapi/" <= s
    ensures Gets(p, s) == Some(FsList)
  {
    assert s[1] == "/fsapi"[1] == "/fsapi/"[1] == 'f' && s[3] == "/fsapi"[3] == "/fsapi/"[3] == 'a';
  }

  lemma MemPaths(p: string)
    ensures Gets(p, "/mem/api") == Some(MemGet)
    ensures Posts("/mem/api/alloc") == Some(MemAlloc) && Posts("/mem/api/clear") == Some(MemClear)
  {
    assert "/mem/api"[1] == 'm' && "/mem/api"[3] == 'm';
    assert "/mem/api/clear"[9] == 'c';
  }

  lemma LivePaths(p: string)
    ensures Gets(p, "/healthy") == Some(Probe("live")) && Gets(p, "/healthy/api") == Some(ProbeGet("live"))
    ensures Puts("/healthy/api") == Some(ProbePut("live"))
  {
    assert "/healthy"[1] == 'h' && "/healthy/api"[1] == 'h';
  }

  lemma ReadyPaths(p: string)
    ensures Gets(p, "/ready") == Some(Probe("ready")) && Gets(p, "/ready/api") == Some(ProbeGet("ready"))
    ensures Puts("/ready/api") == Some(ProbePut("ready"))
  {
    assert "/ready"[1] == 'r' && "/ready/api"[1] == 'r';
  }

  lemma EnvAndDnsPaths(p: string)
    ensures Gets(p, "/env/api") == Some(EnvGet) && Posts("/dns/api") == Some(DnsQuery)
  {
    assert "/env/api"[1] == 'e' && "/dns/api"[1] == 'd';
  }

  lemma KeyGenPaths(p: string)
    ensures Gets(p, "/keygen") == Some(KeyGenGet) && Puts("/keygen") == Some(KeyGenPut)
  {
    assert "/keygen"[1] == 'k';
  }

  lemma MemQPaths(p: string)
    ensures Gets(p, "/memq/server/stats") == Some(MemQStats)
    ensures Puts("/memq/server/queues") == Some(MemQCreate) && Deletes("/memq/server/queues") == Some(MemQDelete)
    ensures Posts("/memq/server/queues/drain") == Some(MemQDrain)
    ensures Posts("/memq/server/queues/dequeue") == Some(MemQDequeue)
    ensures Posts("/memq/server/queues/enqueue") == Some(MemQEnqueue)
  {
    assert "/memq/server/stats"[1] == 'm';
    assert "/memq/server/queues/enqueue"[20] == 'e';
  }

  // ---------- Component by component ----------

  lemma PagesAreSound(p: string)
    requires '*' !in p
    ensures Sound(p, PageRows(p))
  {
    PagePaths(p);
    ExactIsSound(p, "/pageinfo", PageRows(p)[0]);
    ExactIsSound(p, "/metrics", PageRows(p)[1]);
  }

  lemma BuiltIsSound(p: string)
    requires '*' !in p
    ensures Sound(p, StaticRows(p + "/built"))
  {
    forall s | "/built/" <= s ensures Gets(p, s) == Some(Static(p + "/built")) {
      BuiltPaths(p, s);
    }
    Regroup(p, "/built", "/*filepath", "/built/" + "*" + "filepath");
    WildcardIsSound(p, "/built/", "filepath", StaticRows(p + "/built")[0]);
  }

  lemma StaticIsSound(p: string)
    requires '*' !in p
    ensures Sound(p, StaticRows(p + "/static"))
  {
    forall s | "/static/" <= s ensures Gets(p, s) == Some(Static(p + "/static")) {
      StaticPaths(p, s);
    }
    Regroup(p, "/static", "/*filepath", "/static/" + "*" + "filepath");
    WildcardIsSound(p, "/static/", "filepath", StaticRows(p + "/static")[0]);
  }

  lemma RawIsSound(p: string)
    requires '*' !in p
    ensures Sound(p, RawRows(p))
  {
    forall s | "/fs/" <= s ensures Gets(p, s) == Some(RawFiles(p + "/fs")) {
      RawPaths(p, s);
    }
    assert "/fs/*filepath" == "/fs/" + "*" + "filepath";
    WildcardIsSound(p, "/fs/", "filepath", RawRows(p)[0]);
  }

  lemma FsApiIsSound(p: string)
    requires '*' !in p
    ensures Sound(p, FsRows(p + "/fsapi"))
  {
    forall s | s == "/fsapi" || "/fsapi/" <= s ensures Gets(p, s) == Some(FsList) {
      FsApiPaths(p, s);
    }
    var rows := FsRows(p + "/fsapi");
    Regroup(p, "/fsapi", "/", "/fsapi/");
    Regroup(p, "/fsapi", "/*filepath", "/fsapi/" + "*" + "filepath");
    ExactIsSound(p, "/fsapi", rows[0]);
    ExactIsSound(p, "/fsapi/", rows[1]);
    WildcardIsSound(p, "/fsapi/", "filepath", rows[2]);
  }

  lemma MemIsSound(p: string)
    requires '*' !in p
    ensures Sound(p, MemRows(p + "/mem"))
  {
    MemPaths(p);
    var rows := MemRows(p + "/mem");
    Regroup(p, "/mem", "/api", "/mem/api");
    Regroup(p, "/mem", "/api/alloc", "/mem/api/alloc");
    Regroup(p, "/mem", "/api/clear", "/mem/api/clear");
    ExactIsSound(p, "/mem/api", rows[0]);
    ExactIsSound(p, "/mem/api/alloc", rows[1]);
    ExactIsSound(p, "/mem/api/clear", rows[2]);
  }

  lemma LiveIsSound(p: string)
    requires '*' !in p
    ensures Sound(p, ProbeRows(p + "/healthy", "live"))
  {
    LivePaths(p);
    var rows := ProbeRows(p + "/healthy", "live");
    Regroup(p, "/healthy", "/api", "/healthy/api");
    ExactIsSound(p, "/healthy", rows[0]);
    ExactIsSound(p, "/healthy/api", rows[1]);
    ExactIsSound(p, "/healthy/api", rows[2]);
  }

  lemma ReadyIsSound(p: string)
    requires '*' !in p
    ensures Sound(p, ProbeRows(p + "/ready", "ready"))
  {
    ReadyPaths(p);
    var rows := ProbeRows(p + "/ready", "ready");
    Regroup(p, "/ready", "/api", "/ready/api");
    ExactIsSound(p, "/ready", rows[0]);
    ExactIsSound(p, "/ready/api", rows[1]);
    ExactIsSound(p, "/ready/api", rows[2]);
  }

  lemma EnvAndDnsAreSound(p: string)
    requires '*' !in p
    ensures Sound(p, EnvRows(p + "/env")) && Sound(p, DnsRows(p + "/dns"))
  {
    EnvAndDnsPaths(p);
    Regroup(p, "/env", "/api", "/env/api");
    Regroup(p, "/dns", "/api", "/dns/api");
    ExactIsSound(p, "/env/api", EnvRows(p + "/env")[0]);
    ExactIsSound(p, "/dns/api", DnsRows(p + "/dns")[0]);
  }

  lemma KeyGenIsSound(p: string)
    requires '*' !in p
    ensures Sound(p, KeyGenRows(p + "/keygen"))
  {
    KeyGenPaths(p);
    ExactIsSound(p, "/keygen", KeyGenRows(p + "/keygen")[0]);
    ExactIsSound(p, "/keygen", KeyGenRows(p + "/keygen")[1]);
  }

  /** A row whose pattern is put together from a mount point and a rest. */
  lemma MountedIsSound(p: string, mount: string, rest: string, path: string, r: Row)
    requires '*' !in p && mount + rest == path && '*' !in path
    requires r.pattern == p + mount + rest && Api(p, r.verb, path) == Some(r.handler)
    ensures SoundRow(p, r)
  {
    Regroup(p, mount, rest, path);
    ExactIsSound(p, path, r);
  }

  lemma QueuesAreSound(p: string, rows: seq<Row>)
    requires '*' !in p && rows == MemQRows(p + "/memq/server")
    ensures SoundRow(p, rows[0]) && SoundRow(p, rows[1]) && SoundRow(p, rows[2])
  {
    MemQPaths(p);
    MountedIsSound(p, "/memq/server", "/stats", "/memq/server/stats", rows[0]);
    MountedIsSound(p, "/memq/server", "/queues", "/memq/server/queues", rows[1]);
    MountedIsSound(p, "/memq/server", "/queues", "/memq/server/queues", rows[2]);
  }

  lemma DrainIsSound(p: string, r: Row)
    requires '*' !in p && r == MemQRows(p + "/memq/server")[3]
    ensures SoundRow(p, r)
  {
    MemQPaths(p);
    MountedIsSound(p, "/memq/server", "/queues/drain", "/memq/server/queues/drain", r);
  }

  lemma DequeueIsSound(p: string, r: Row)
    requires '*' !in p && r == MemQRows(p + "/memq/server")[4]
    ensures SoundRow(p, r)
  {
    MemQPaths(p);
    MountedIsSound(p, "/memq/server", "/queues/dequeue", "/memq/server/queues/dequeue", r);
  }

  lemma EnqueueIsSound(p: string, r: Row)
    requires '*' !in p && r == MemQRows(p + "/memq/server")[5]
    ensures SoundRow(p, r)
  {
    MemQPaths(p);
    MountedIsSound(p, "/memq/server", "/queues/enqueue", "/memq/server/queues/enqueue", r);
  }

  lemma MemQIsSound(p: string)
    requires '*' !in p
    ensures Sound(p, MemQRows(p + "/memq/server"))
  {
    var rows := MemQRows(p + "/memq/server");
    QueuesAreSound(p, rows);
    DrainIsSound(p, rows[3]);
    DequeueIsSound(p, rows[4]);
    EnqueueIsSound(p, rows[5]);
  }

  lemma FilesAreSound(p: string)
    requires '*' !in p
    ensures Sound(p, FileRows(p))
  {
    PagesAreSound(p);
    BuiltIsSound(p);
    StaticIsSound(p);
    RawIsSound(p);
    FsApiIsSound(p);
    var page, built, site, raw := PageRows(p), StaticRows(p + "/built"), StaticRows(p + "/static"), RawRows(p);
    SoundAppend(p, page, built);
    SoundAppend(p, page + built, site);
    SoundAppend(p, page + built + site, raw);
    SoundAppend(p, page + built + site + raw, FsRows(p + "/fsapi"));
  }

  lemma StateIsSound(p: string)
    requires '*' !in p
    ensures Sound(p, StateRows(p))
  {
    MemIsSound(p);
    LiveIsSound(p);
    ReadyIsSound(p);
    EnvAndDnsAreSound(p);
    var mem, live, ready := MemRows(p + "/mem"), ProbeRows(p + "/healthy", "live"), ProbeRows(p + "/ready", "ready");
    SoundAppend(p, mem, live);
    SoundAppend(p, mem + live, ready);
    SoundAppend(p, mem + live + ready, EnvRows(p + "/env"));
  }

  lemma WorkIsSound(p: string)
    requires '*' !in p
    ensures Sound(p, WorkRows(p))
  {
    EnvAndDnsAreSound(p);
    KeyGenIsSound(p);
    MemQIsSound(p);
    SoundAppend(p, DnsRows(p + "/dns"), KeyGenRows(p + "/keygen"));
    SoundAppend(p, DnsRows(p + "/dns") + KeyGenRows(p + "/keygen"), MemQRows(p + "/memq/server"));
  }

  lemma CommonIsSound(p: string)
    requires '*' !in p
    ensures Sound(p, CommonRows(p))
  {
    FilesAreSound(p);
    StateIsSound(p);
    WorkIsSound(p);
    SoundAppend(p, FileRows(p), StateRows(p));
    SoundAppend(p, FileRows(p) + StateRows(p), WorkRows(p));
  }

  // ---------- Nothing of the interface is missing ----------

  lemma NoneAppend(a: seq<Row>, b: seq<Row>, m: Method, path: string)
    requires NoneMatches(a + b, m, path)
    ensures NoneMatches(a, m, path) && NoneMatches(b, m, path)
  {
    forall i | 0 <= i < |a| ensures !Matches(a[i], m, path) {
      assert (a + b)[i] == a[i];
    }
    forall i | 0 <= i < |b| ensures !Matches(b[i], m, path) {
      assert (a + b)[|a| + i] == b[i];
    }
  }

  lemma ExactAnswers(rows: seq<Row>, i: nat, m: Method, path: string)
    requires i < |rows| && rows[i].verb == m && rows[i].pattern == path
    ensures !NoneMatches(rows, m, path)
  {
    assert Matches(rows[i], m, path);
  }

  lemma MountedAnswers(p: string, mount: string, rest: string, rows: seq<Row>, i: nat, m: Method, s: string)
    requires i < |rows| && rows[i].verb == m && rows[i].pattern == p + mount + rest && s == mount + rest
    ensures !NoneMatches(rows, m, p + s)
  {
    Regroup(p, mount, rest, s);
    ExactAnswers(rows, i, m, p + s);
  }

  lemma WildcardAnswers(p: string, base: string, name: string, rows: seq<Row>, i: nat, s: string)
    requires '*' !in p && '*' !in base && i < |rows| && rows[i].verb == GET
    requires rows[i].pattern == p + (base + "*" + name) && base <= s
    ensures !NoneMatches(rows, GET, p + s)
  {
    PrefixedWildcard(p, base, name, s);
    assert Matches(rows[i], GET, p + s);
  }

  lemma PagesAnswer(p: string, s: string)
    requires s == "/pageinfo" || s == "/metrics"
    ensures !NoneMatches(PageRows(p), GET, p + s)
  {
    ExactAnswers(PageRows(p), if s == "/pageinfo" then 0 else 1, GET, p + s);
  }

  lemma BuiltAnswers(p: string, s: string)
    requires '*' !in p && "/built/" <= s
    ensures !NoneMatches(StaticRows(p + "/built"), GET, p + s)
  {
    Regroup(p, "/built", "/*filepath", "/built/" + "*" + "filepath");
    WildcardAnswers(p, "/built/", "filepath", StaticRows(p + "/built"), 0, s);
  }

  lemma StaticAnswers(p: string, s: string)
    requires '*' !in p && "/static/" <= s
    ensures !NoneMatches(StaticRows(p + "/static"), GET, p + s)
  {
    Regroup(p, "/static", "/*filepath", "/static/" + "*" + "filepath");
    WildcardAnswers(p, "/static/", "filepath", StaticRows(p + "/static"), 0, s);
  }

  lemma RawAnswers(p: string, s: string)
    requires '*' !in p && "/fs/" <= s
    ensures !NoneMatches(RawRows(p), GET, p + s)
  {
    assert "/fs/*filepath" == "/fs/" + "*" + "filepath";
    WildcardAnswers(p, "/fs/", "filepath", RawRows(p), 0, s);
  }

  lemma FsApiAnswers(p: string, s: string)
    requires '*' !in p && (s == "/fsapi" || "/fsapi/" <= s)
    ensures !NoneMatches(FsRows(p + "/fsapi"), GET, p + s)
  {
    if s == "/fsapi" {
      ExactAnswers(FsRows(p + "/fsapi"), 0, GET, p + s);
    } else {
      Regroup(p, "/fsapi", "/*filepath", "/fsapi/" + "*" + "filepath");
      WildcardAnswers(p, "/fsapi/", "filepath", FsRows(p + "/fsapi"), 2, s);
    }
  }

  lemma MemAnswers(p: string, m: Method, s: string)
    requires (m == GET && s == "/mem/api") || (m == POST && (s == "/mem/api/alloc" || s == "/mem/api/clear"))
    ensures !NoneMatches(MemRows(p + "/mem"), m, p + s)
  {
    var rows := MemRows(p + "/mem");
    if m == GET {
      MountedAnswers(p, "/mem", "/api", rows, 0, m, s);
    } else if s == "/mem/api/alloc" {
      MountedAnswers(p, "/mem", "/api/alloc", rows, 1, m, s);
    } else {
      MountedAnswers(p, "/mem", "/api/clear", rows, 2, m, s);
    }
  }

  lemma ProbeAnswers(p: string, mount: string, name: string, m: Method, s: string)
    requires (m == GET && s == mount) || ((m == GET || m == PUT) && s == mount + "/api")
    ensures !NoneMatches(ProbeRows(p + mount, name), m, p + s)
  {
    var rows := ProbeRows(p + mount, name);
    if s == mount {
      ExactAnswers(rows, 0, m, p + s);
    } else {
      MountedAnswers(p, mount, "/api", rows, if m == GET then 1 else 2, m, s);
    }
  }

  lemma KeyGenAnswers(p: string, m: Method)
    requires m == GET || m == PUT
    ensures !NoneMatches(KeyGenRows(p + "/keygen"), m, p + "/keygen")
  {
    ExactAnswers(KeyGenRows(p + "/keygen"), if m == GET then 0 else 1, m, p + "/keygen");
  }

  lemma QueuesAnswer(p: string, m: Method, s: string)
    requires (m == GET && s == "/memq/server/stats") || ((m == PUT || m == DELETE) && s == "/memq/server/queues")
    ensures !NoneMatches(MemQRows(p + "/memq/server"), m, p + s)
  {
    var rows := MemQRows(p + "/memq/server");
    if m == GET {
      MountedAnswers(p, "/memq/server", "/stats", rows, 0, m, s);
    } else {
      MountedAnswers(p, "/memq/server", "/queues", rows, if m == PUT then 1 else 2, m, s);
    }
  }

  lemma MessagesAnswer(p: string, s: string)
    requires s == "/memq/server/queues/drain" || s == "/memq/server/queues/dequeue" || s == "/memq/server/queues/enqueue"
    ensures !NoneMatches(MemQRows(p + "/memq/server"), POST, p + s)
  {
    var rows := MemQRows(p + "/memq/server");
    if s == "/memq/server/queues/drain" {
      MountedAnswers(p, "/memq/server", "/queues/drain", rows, 3, POST, s);
    } else if s == "/memq/server/queues/dequeue" {
      MountedAnswers(p, "/memq/server", "/queues/dequeue", rows, 4, POST, s);
    } else {
      MountedAnswers(p, "/memq/server", "/queues/enqueue", rows, 5, POST, s);
    }
  }

  lemma NoneInFiles(p: string, m: Method, path: string)
    requires NoneMatches(FileRows(p), m, path)
    ensures NoneMatches(PageRows(p), m, path) && NoneMatches(StaticRows(p + "/built"), m, path)
    ensures NoneMatches(StaticRows(p + "/static"), m, path) && NoneMatches(RawRows(p), m, path)
    ensures NoneMatches(FsRows(p + "/fsapi"), m, path)
  {
    var page, built, site, raw := PageRows(p), StaticRows(p + "/built"), StaticRows(p + "/static"), RawRows(p);
    NoneAppend(page + built + site + raw, FsRows(p + "/fsapi"), m, path);
    NoneAppend(page + built + site, raw, m, path);
    NoneAppend(page + built, site, m, path);
    NoneAppend(page, built, m, path);
  }

  lemma NoneInState(p: string, m: Method, path: string)
    requires NoneMatches(StateRows(p), m, path)
    ensures NoneMatches(MemRows(p + "/mem"), m, path) && NoneMatches(ProbeRows(p + "/healthy", "live"), m, path)
    ensures NoneMatches(ProbeRows(p + "/ready", "ready"), m, path) && NoneMatches(EnvRows(p + "/env"), m, path)
  {
    var mem, live, ready := MemRows(p + "/mem"), ProbeRows(p + "/healthy", "live"), ProbeRows(p + "/ready", "ready");
    NoneAppend(mem + live + ready, EnvRows(p + "/env"), m, path);
    NoneAppend(mem + live, ready, m, path);
    NoneAppend(mem, live, m, path);
  }

  lemma NoneInWork(p: string, m: Method, path: string)
    requires NoneMatches(WorkRows(p), m, path)
    ensures NoneMatches(DnsRows(p + "/dns"), m, path) && NoneMatches(KeyGenRows(p + "/keygen"), m, path)
    ensures NoneMatches(MemQRows(p + "/memq/server"), m, path)
  {
    NoneAppend(DnsRows(p + "/dns") + KeyGenRows(p + "/keygen"), MemQRows(p + "/memq/server"), m, path);
    NoneAppend(DnsRows(p + "/dns"), KeyGenRows(p + "/keygen"), m, path);
  }

  lemma NoneInCommon(p: string, m: Method, path: string)
    requires NoneMatches(CommonRows(p), m, path)
    ensures NoneMatches(FileRows(p), m, path) && NoneMatches(StateRows(p), m, path) && NoneMatches(WorkRows(p), m, path)
  {
    NoneAppend(FileRows(p) + StateRows(p), WorkRows(p), m, path);
    NoneAppend(FileRows(p), StateRows(p), m, path);
  }

  lemma FilesMissNothing(p: string, s: string)
    requires '*' !in p && NoneMatches(FileRows(p), GET, p + s)
    ensures s != "/pageinfo" && s != "/metrics" && !("/built/" <= s) && !("/static/" <= s) && !("/fs/" <= s)
    ensures s != "/fsapi" && !("/fsapi/" <= s)
  {
    NoneInFiles(p, GET, p + s);
    if s == "/pageinfo" || s == "/metrics" {
      PagesAnswer(p, s);
    } else if "/built/" <= s {
      BuiltAnswers(p, s);
    } else if "/static/" <= s {
      StaticAnswers(p, s);
    } else if "/fs/" <= s {
      RawAnswers(p, s);
    } else if s == "/fsapi" || "/fsapi/" <= s {
      FsApiAnswers(p, s);
    }
  }

  lemma StateMissesNothing(p: string, m: Method, s: string)
    requires NoneMatches(StateRows(p), m, p + s)
    ensures m == GET ==> s != "/mem/api" && s != "/healthy" && s != "/healthy/api" && s != "/ready" && s != "/ready/api" && s != "/env/api"
    ensures m == POST ==> s != "/mem/api/alloc" && s != "/mem/api/clear"
    ensures m == PUT ==> s != "/healthy/api" && s != "/ready/api"
  {
    NoneInState(p, m, p + s);
    if (m == GET && s == "/mem/api") || (m == POST && (s == "/mem/api/alloc" || s == "/mem/api/clear")) {
      MemAnswers(p, m, s);
    } else if (m == GET && s == "/healthy") || ((m == GET || m == PUT) && s == "/healthy" + "/api") {
      ProbeAnswers(p, "/healthy", "live", m, s);
    } else if (m == GET && s == "/ready") || ((m == GET || m == PUT) && s == "/ready" + "/api") {
      ProbeAnswers(p, "/ready", "ready", m, s);
    } else if m == GET && s == "/env/api" {
      MountedAnswers(p, "/env", "/api", EnvRows(p + "/env"), 0, m, s);
    }
  }

  lemma WorkMissesNothing(p: string, m: Method, s: string)
    requires NoneMatches(WorkRows(p), m, p + s)
    ensures m == GET || m == PUT ==> s != "/keygen"
    ensures m == GET ==> s != "/memq/server/stats"
    ensures m == PUT || m == DELETE ==> s != "/memq/server/queues"
    ensures m == POST ==>
      s != "/dns/api" && s != "/memq/server/queues/drain" && s != "/memq/server/queues/dequeue" && s != "/memq/server/queues/enqueue"
  {
    NoneInWork(p, m, p + s);
    if (m == GET || m == PUT) && s == "/keygen" {
      KeyGenAnswers(p, m);
    } else if (m == GET && s == "/memq/server/stats") || ((m == PUT || m == DELETE) && s == "/memq/server/queues") {
      QueuesAnswer(p, m, s);
    } else if m == POST && s == "/dns/api" {
      MountedAnswers(p, "/dns", "/api", DnsRows(p + "/dns"), 0, m, s);
    } else if m == POST && (s == "/memq/server/queues/drain" || s == "/memq/server/queues/dequeue" || s == "/memq/server/queues/enqueue") {
      MessagesAnswer(p, s);
    }
  }

  /** The rows of a prefix serve exactly the interface. */
  lemma {:induction false} CommonIsApi(p: string, m: Method, s: string)
    requires '*' !in p
    ensures Dispatch(CommonRows(p), m, p + s) == Api(p, m, s)
  {
    CommonIsSound(p);
    NothingMatchesNothingServes(CommonRows(p), m, p + s);
    if NoneMatches(CommonRows(p), m, p + s) {
      NoneInCommon(p, m, p + s);
      StateMissesNothing(p, m, s);
      WorkMissesNothing(p, m, s);
      if m == GET {
        FilesMissNothing(p, s);
      }
    } else {
      FoundIsRight(p, CommonRows(p), m, s);
    }
  }

  // ---------- The whole application ----------

  /** A variant sends its root, and what is under "/-/", to the front page. */
  function RedirectOf(prefix: string, m: Method, s: string): Option<Handler> {
    if m == GET && (s == "/" || "/-/" <= s) then
      (match prefix
       case "/a" => Some(Redirect("/?variant=a"))
       case "/b" => Some(Redirect("/?variant=b"))
       case "/c" => Some(Redirect("/?variant=c"))
       case _ => None)
    else None
  }

  lemma LocationsAre()
    ensures Location("/a") == "/?variant=a" && Location("/b") == "/?variant=b" && Location("/c") == "/?variant=c"
  {
    assert "/a"[1..] == "a" && "/b"[1..] == "b" && "/c"[1..] == "c";
  }

  lemma RedirectsAre(p: string, m: Method, s: string)
    requires IsVariant(p)
    ensures Dispatch(RedirectRows(p), m, p + s) == RedirectOf(p, m, s)
  {
    RedirectPatterns(p, s);
    TwoRows(RedirectRows(p)[0], RedirectRows(p)[1], m, p + s);
    LocationsAre();
  }

  lemma VariantIs(p: string, m: Method, path: string)
    requires IsVariant(p)
    ensures Dispatch(PrefixRows(p), m, path) ==
      if p + "/" <= path then OrElse(RedirectOf(p, m, path[2..]), Api(p, m, path[2..])) else None
  {
    if p + "/" <= path {
      var s := path[2..];
      assert path == p + s;
      RedirectsAre(p, m, s);
      CommonIsApi(p, m, s);
      DispatchAppend(RedirectRows(p), CommonRows(p), m, path);
    } else {
      VariantRowsAreUnder(p);
      UnderMisses(p, PrefixRows(p), m, path);
      NothingMatchesNothingServes(PrefixRows(p), m, path);
    }
  }

  lemma UIRowsStartWithSlash(ui: Mode)
    ensures forall i :: 0 <= i < |UIRows(ui)| ==> UIRows(ui)[i].pattern != "" && UIRows(ui)[i].pattern[0] == '/'
  {
  }

  lemma SlashRowsMiss(rows: seq<Row>, m: Method, path: string)
    requires !("/" <= path) && forall i :: 0 <= i < |rows| ==> rows[i].pattern != "" && rows[i].pattern[0] == '/'
    ensures Dispatch(rows, m, path) == None
  {
    NothingMatchesNothingServes(rows, m, path);
    forall i | 0 <= i < |rows| ensures !Matches(rows[i], m, path) {
      MismatchIsNoMatch(rows[i].pattern, path, 0);
    }
  }

  lemma MountedUIIs(ui: Mode, m: Method, path: string)
    requires "/" <= path
    ensures Dispatch(UIRows(ui), m, path) == if m == GET && ui != NoUI then Some(UI) else None
  {
    UIServes(ui, m, path);
    UIRowsShape(ui);
    UIRowsServeUI(UIRows(ui), m, path);
  }

  lemma UIIs(ui: Mode, m: Method, path: string)
    ensures Dispatch(UIRows(ui), m, path) == if m == GET && ui != NoUI && "/" <= path then Some(UI) else None
  {
    if "/" <= path {
      MountedUIIs(ui, m, path);
    } else {
      UIRowsStartWithSlash(ui);
      SlashRowsMiss(UIRows(ui), m, path);
    }
  }

  /** What the application serves a request with. */
  function Serving(ui: Mode, m: Method, path: string): Option<Handler> {
    var listed :=
      if UnderVariant(path) then OrElse(RedirectOf(path[..2], m, path[2..]), Api(path[..2], m, path[2..]))
      else Api("", m, path);
    OrElse(listed, if m == GET && ui != NoUI && "/" <= path then Some(UI) else None)
  }

  lemma BlocksInTurn(a: seq<Row>, b: seq<Row>, c: seq<Row>, d: seq<Row>, e: seq<Row>, m: Method, path: string)
    ensures Dispatch(a + b + c + d + e, m, path) ==
      OrElse(Dispatch(a, m, path), OrElse(Dispatch(b, m, path), OrElse(Dispatch(c, m, path),
        OrElse(Dispatch(d, m, path), Dispatch(e, m, path)))))
  {
    DispatchAppend(a + b + c + d, e, m, path);
    DispatchAppend(a + b + c, d, m, path);
    DispatchAppend(a + b, c, m, path);
    DispatchAppend(a, b, m, path);
  }

  lemma VariantsServe(m: Method, path: string)
    ensures OrElse(Dispatch(PrefixRows("/a"), m, path), OrElse(Dispatch(PrefixRows("/b"), m, path), Dispatch(PrefixRows("/c"), m, path)))
         == if UnderVariant(path) then OrElse(RedirectOf(path[..2], m, path[2..]), Api(path[..2], m, path[2..])) else None
  {
    VariantIs("/a", m, path);
    VariantIs("/b", m, path);
    VariantIs("/c", m, path);
    UnderVariantSplits(path, "/a");
    UnderVariantSplits(path, "/b");
    UnderVariantSplits(path, "/c");
  }

  lemma RootIs(m: Method, path: string)
    ensures Dispatch(CommonRows(""), m, path) == Api("", m, path)
    ensures UnderVariant(path) ==> Api("", m, path) == None
  {
    var none := "";
    assert none + path == path;
    CommonIsApi(none, m, path);
    if UnderVariant(path) {
      CommonMissesShortSegments(m, path);
    }
  }

  lemma InTurn(root: Option<Handler>, a: Option<Handler>, b: Option<Handler>, c: Option<Handler>, u: Option<Handler>)
    ensures OrElse(root, OrElse(a, OrElse(b, OrElse(c, u)))) == OrElse(OrElse(root, OrElse(a, OrElse(b, c))), u)
  {
  }

  /** For every path: which handler serves it, with everything the handler captured. */
  lemma {:induction false} EveryRequestIsServed(ui: Mode, m: Method, path: string)
    ensures Dispatch(Table(ui), m, path) == Serving(ui, m, path)
  {
    FourPrefixes();
    var a, b, c := PrefixRows("/a"), PrefixRows("/b"), PrefixRows("/c");
    BlocksInTurn(CommonRows(""), a, b, c, UIRows(ui), m, path);
    InTurn(Dispatch(CommonRows(""), m, path), Dispatch(a, m, path), Dispatch(b, m, path), Dispatch(c, m, path), Dispatch(UIRows(ui), m, path));
    VariantsServe(m, path);
    RootIs(m, path);
    UIIs(ui, m, path);
  }

  /** Under every prefix, everything the interface lists is served by the handler it names, whatever
      UI is mounted. */
  lemma {:induction false} InterfaceIsServed(ui: Mode, prefix: string, m: Method, s: string)
    requires prefix in ["", "/a", "/b", "/c"] && "/" <= s && Api(prefix, m, s).Some?
    ensures Dispatch(Table(ui), m, prefix + s) == Api(prefix, m, s)
  {
    EveryRequestIsServed(ui, m, prefix + s);
    if prefix == "" {
      assert prefix + s == s;
      RootIs(m, s);
    } else {
      VariantServing(ui, prefix, m, s, prefix + s);
      NotRedirected(prefix, m, s);
    }
  }

  lemma VariantServing(ui: Mode, prefix: string, m: Method, s: string, path: string)
    requires IsVariant(prefix) && "/" <= s && path == prefix + s
    ensures Serving(ui, m, path) ==
      OrElse(OrElse(RedirectOf(prefix, m, s), Api(prefix, m, s)), if m == GET && ui != NoUI then Some(UI) else None)
  {
    assert path[..2] == prefix && path[2..] == s;
    assert path[2] == s[0] && path[0] == prefix[0];
  }

  /** No path of the interface is one that a variant redirects. */
  lemma NotRedirected(prefix: string, m: Method, s: string)
    requires '*' !in prefix && Api(prefix, m, s).Some?
    ensures RedirectOf(prefix, m, s) == None
  {
    if s == "/" || "/-/" <= s {
      CommonIsApi(prefix, m, s);
      CommonIsApi("", m, s);
      CommonMissesShortSegments(m, s);
      assert "" + s == s;
      SameWhateverThePrefix(prefix, m, s);
    }
  }

  lemma SameWhateverThePrefix(prefix: string, m: Method, s: string)
    ensures Api(prefix, m, s).Some? <==> Api("", m, s).Some?
  {
  }

  /** The application itself, from its construction to the choice of the handler. */
  method HandleRequest(ui: Mode, m: Method, path: string) returns (served: Option<Handler>)
    ensures served == Serving(ui, m, path)
  {
    EveryRequestIsServed(ui, m, path);
    var router := NewApp(ui);
    served := router.ServeHTTP(m, path);
  }
}
