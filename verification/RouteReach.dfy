/** No route of the table is dead: each one is the first match for some path. */
module RouteReach {
  import opened SimpleRouter
  import opened RouteTable
  import opened RouteProperties
  import opened Text

  /** A path that a pattern matches: the pattern itself, or its wildcard filled in with "x". */
  function Witness(pattern: string): (path: string)
    ensures MatchPattern(pattern, path)
  {
    if '*' in pattern then pattern[..IndexOf(pattern, '*')] + "x" else pattern
  }

  /** Route `i` is the first to match its own witness. */
  ghost predicate Reached(rows: seq<Row>, i: nat)
    requires i < |rows|
  {
    NoneMatches(rows[..i], rows[i].verb, Witness(rows[i].pattern))
  }

  ghost predicate AllReached(rows: seq<Row>) {
    forall i :: 0 <= i < |rows| ==> Reached(rows, i)
  }

  /** No row of `a` matches the witness of a row of `b`. */
  ghost predicate Apart(a: seq<Row>, b: seq<Row>) {
    forall j :: 0 <= j < |b| ==> NoneMatches(a, b[j].verb, Witness(b[j].pattern))
  }

  lemma ReachedAppend(a: seq<Row>, b: seq<Row>)
    requires AllReached(a) && AllReached(b) && Apart(a, b)
    ensures AllReached(a + b)
  {
    forall i | 0 <= i < |a + b| ensures Reached(a + b, i) {
      if i < |a| {
        assert Reached(a, i);
        assert (a + b)[..i] == a[..i];
      } else {
        assert Reached(b, i - |a|);
        assert (a + b)[..i] == a + b[..i - |a|];
      }
    }
  }

  lemma ApartAppend(a: seq<Row>, b: seq<Row>, c: seq<Row>)
    requires Apart(a, c) && Apart(b, c)
    ensures Apart(a + b, c)
  {
    forall j | 0 <= j < |c| ensures NoneMatches(a + b, c[j].verb, Witness(c[j].pattern)) {
      assert NoneMatches(a, c[j].verb, Witness(c[j].pattern)) && NoneMatches(b, c[j].verb, Witness(c[j].pattern));
    }
  }

  lemma WitnessKeepsLead(lead: string, pattern: string)
    requires '*' !in lead && lead <= pattern
    ensures lead <= Witness(pattern)
  {
    var rest := pattern[|lead|..];
    assert pattern == lead + rest;
    IndexAfterPrefix(lead, rest, '*');
  }

  lemma TakeAfterPrefix(p: string, s: string, i: nat)
    requires i <= |s|
    ensures (p + s)[..|p| + i] == p + s[..i]
  {
  }

  lemma PrefixedWitness(p: string, pattern: string)
    requires '*' !in p
    ensures Witness(p + pattern) == p + Witness(pattern)
  {
    IndexAfterPrefix(p, pattern, '*');
    if '*' in pattern {
      TakeAfterPrefix(p, pattern, IndexOf(pattern, '*'));
      AssociatePair(p, pattern[..IndexOf(pattern, '*')], "x");
    } else {
      assert '*' !in p + pattern;
    }
  }

  /** Rows that mirror reached rows are reached. */
  lemma MirrorsReached(p: string, rp: seq<Row>, r0: seq<Row>)
    requires Mirrors(p, rp, r0) && '*' !in p && AllReached(r0)
    ensures AllReached(rp)
  {
    forall i | 0 <= i < |rp| ensures Reached(rp, i) {
      assert Reached(r0, i);
      PrefixedWitness(p, r0[i].pattern);
      forall j | 0 <= j < i ensures !Matches(rp[..i][j], rp[i].verb, Witness(rp[i].pattern)) {
        assert !Matches(r0[..i][j], r0[i].verb, Witness(r0[i].pattern));
        PrefixedMatch(p, r0[j].pattern, Witness(r0[i].pattern));
      }
    }
  }

  // ---------- The unprefixed rows: told apart by three letters ----------

  type Key = (char, char, char)

  /** Long enough to have a key, with no wildcard in it. */
  predicate Keyed(s: string) {
    |s| >= 4 && s[0] != '*' && s[1] != '*' && s[2] != '*' && s[3] != '*' && (s[3] == '/' || (|s| > 4 && s[4] != '*'))
  }

  function KeyOf(s: string): Key
    requires |s| >= 4 && (s[3] == '/' || |s| > 4)
  {
    (s[1], s[3], if s[3] == '/' then '.' else s[4])
  }

  ghost predicate KeyedIn(rows: seq<Row>, keys: set<Key>) {
    forall i :: 0 <= i < |rows| ==> Keyed(rows[i].pattern) && KeyOf(rows[i].pattern) in keys
  }

  lemma StarComesLater(pattern: string, n: nat)
    requires n <= |pattern| && (forall k :: 0 <= k < n ==> pattern[k] != '*') && '*' in pattern
    ensures IndexOf(pattern, '*') >= n
  {
  }

  lemma SameStart(pattern: string, path: string, n: nat)
    requires n <= |pattern| && (forall k :: 0 <= k < n ==> pattern[k] != '*') && MatchPattern(pattern, path)
    ensures |path| >= n && forall k :: 0 <= k < n ==> path[k] == pattern[k]
  {
    if pattern != path {
      StarComesLater(pattern, n);
      var base := pattern[..IndexOf(pattern, '*')];
      forall k | 0 <= k < n ensures path[k] == pattern[k] {
        assert base[k] == pattern[k] && path[..|base|][k] == base[k];
      }
    }
  }

  /** Whatever a keyed pattern matches has its key. */
  lemma MatchSharesKey(pattern: string, path: string)
    requires Keyed(pattern) && MatchPattern(pattern, path)
    ensures |path| >= 4 && (path[3] == '/' || |path| > 4) && KeyOf(path) == KeyOf(pattern)
  {
    SameStart(pattern, path, 4);
    if pattern[3] != '/' {
      SameStart(pattern, path, 5);
    }
  }

  lemma WitnessSharesKey(pattern: string)
    requires Keyed(pattern)
    ensures var w := Witness(pattern); |w| >= 4 && (w[3] == '/' || |w| > 4) && KeyOf(w) == KeyOf(pattern)
  {
    MatchSharesKey(pattern, Witness(pattern));
  }

  lemma KeysMiss(rows: seq<Row>, keys: set<Key>, m: Method, path: string)
    requires KeyedIn(rows, keys)
    requires |path| >= 4 && (path[3] == '/' || |path| > 4) && KeyOf(path) !in keys
    ensures NoneMatches(rows, m, path)
  {
    forall i | 0 <= i < |rows| ensures !Matches(rows[i], m, path) {
      if MatchPattern(rows[i].pattern, path) {
        MatchSharesKey(rows[i].pattern, path);
      }
    }
  }

  lemma KeysGrow(a: seq<Row>, keysA: set<Key>, b: seq<Row>, keysB: set<Key>)
    requires AllReached(a) && KeyedIn(a, keysA) && AllReached(b) && KeyedIn(b, keysB) && keysA !! keysB
    ensures AllReached(a + b) && KeyedIn(a + b, keysA + keysB)
  {
    forall j | 0 <= j < |b| ensures NoneMatches(a, b[j].verb, Witness(b[j].pattern)) {
      WitnessSharesKey(b[j].pattern);
      KeysMiss(a, keysA, b[j].verb, Witness(b[j].pattern));
    }
    ReachedAppend(a, b);
  }

  /** Rows whose patterns all start with `lead` have its key. */
  ghost predicate Under(lead: string, rows: seq<Row>) {
    forall i :: 0 <= i < |rows| ==> lead <= rows[i].pattern
  }

  lemma LeadKeys(lead: string, rows: seq<Row>)
    requires Keyed(lead) && Under(lead, rows)
    ensures KeyedIn(rows, {KeyOf(lead)})
  {
  }

  // ---------- Each component reaches its own rows ----------

  lemma SingleReached(r: Row)
    ensures AllReached([r])
  {
  }

  lemma PairReached(r: Row, r': Row)
    requires r.pattern != Witness(r'.pattern) && '*' !in r.pattern
    ensures AllReached([r, r'])
  {
    assert [r, r'][..0] == [] && [r, r'][..1] == [r];
  }

  lemma WildcardWitness(base: string, name: string)
    requires '*' !in base
    ensures Witness(base + "*" + name) == base + "x"
  {
    assert base + "*" + name == base + ("*" + name);
    IndexAfterPrefix(base, "*" + name, '*');
    assert (base + "*" + name)[|base|] == '*';
    assert (base + "*" + name)[..|base|] == base;
  }

  /** Exact rows are reached when no two share verb and pattern. */
  lemma ExactReached(rows: seq<Row>)
    requires forall i :: 0 <= i < |rows| ==> '*' !in rows[i].pattern
    requires forall i, j :: 0 <= j < i < |rows| && rows[j].verb == rows[i].verb ==> rows[j].pattern != rows[i].pattern
    ensures AllReached(rows)
  {
  }

  lemma FsReached(b: string)
    requires '*' !in b
    ensures AllReached(FsRows(b)) && Under(b, FsRows(b))
  {
    var rows := FsRows(b);
    WildcardWitness(b + "/", "filepath");
    assert b + "/" + "*" + "filepath" == b + "/*filepath";
    ThreeReached(rows[0], rows[1], rows[2]);
  }

  lemma ThreeReached(r: Row, r': Row, r'': Row)
    requires '*' !in r.pattern && '*' !in r'.pattern
    requires r.pattern != r'.pattern && r.pattern != Witness(r''.pattern) && r'.pattern != Witness(r''.pattern)
    ensures AllReached([r, r', r''])
  {
    var rows := [r, r', r''];
    assert rows[..0] == [] && rows[..1] == [r] && rows[..2] == [r, r'];
  }

  lemma SuffixesDiffer(b: string, s: string, t: string)
    requires s != t
    ensures b + s != b + t
  {
    assert (b + s)[|b|..] == s && (b + t)[|b|..] == t;
  }

  lemma MemReached(b: string)
    requires '*' !in b
    ensures AllReached(MemRows(b)) && Under(b + "/", MemRows(b))
  {
    MemPatterns(b);
    ExactReached(MemRows(b));
  }

  lemma MemPatterns(b: string)
    requires '*' !in b
    ensures forall i :: 0 <= i < |MemRows(b)| ==> '*' !in MemRows(b)[i].pattern && b + "/" <= MemRows(b)[i].pattern
    ensures b + "/api/alloc" != b + "/api/clear"
  {
    assert "/api/alloc"[5] != "/api/clear"[5];
    SuffixesDiffer(b, "/api/alloc", "/api/clear");
  }

  lemma ProbeReached(b: string, name: string)
    requires '*' !in b
    ensures AllReached(ProbeRows(b, name)) && Under(b, ProbeRows(b, name))
  {
    var rows := ProbeRows(b, name);
    assert rows[..0] == [] && rows[..1] == [rows[0]] && rows[..2] == [rows[0], rows[1]];
  }

  lemma KeyGenReached(b: string)
    requires '*' !in b
    ensures AllReached(KeyGenRows(b)) && Under(b, KeyGenRows(b))
  {
    ExactReached(KeyGenRows(b));
  }

  lemma MemQReached(b: string)
    requires '*' !in b
    ensures AllReached(MemQRows(b)) && Under(b, MemQRows(b))
  {
    MemQSuffixes(b);
    MemQPatterns(b);
    ExactReached(MemQRows(b));
  }

  lemma MemQPatterns(b: string)
    requires '*' !in b
    ensures forall i :: 0 <= i < |MemQRows(b)| ==> '*' !in MemQRows(b)[i].pattern && b <= MemQRows(b)[i].pattern
  {
  }

  lemma MemQSuffixes(b: string)
    ensures b + "/queues/drain" != b + "/queues/dequeue" && b + "/queues/drain" != b + "/queues/enqueue"
    ensures b + "/queues/dequeue" != b + "/queues/enqueue"
  {
    assert |"/queues/drain"| != |"/queues/dequeue"| && "/queues/dequeue"[8] != "/queues/enqueue"[8];
    SuffixesDiffer(b, "/queues/drain", "/queues/dequeue");
    SuffixesDiffer(b, "/queues/drain", "/queues/enqueue");
    SuffixesDiffer(b, "/queues/dequeue", "/queues/enqueue");
  }

  // ---------- The rows every prefix gets ----------

  lemma ExactRow(r: Row, lead: string)
    requires Keyed(lead) && lead <= r.pattern
    ensures AllReached([r]) && KeyedIn([r], {KeyOf(lead)})
  {
    SingleReached(r);
    LeadKeys(lead, [r]);
  }

  lemma PageRowsAre()
    ensures PageRows("") == [Route(GET, "/pageinfo", PageInfo(""))] + [Route(GET, "/metrics", Metrics)]
  {
    var none := "";
    assert none + "/pageinfo" == "/pageinfo" && none + "/metrics" == "/metrics";
  }

  lemma PageReached()
    ensures AllReached(PageRows("")) && KeyedIn(PageRows(""), {('p', 'g', 'e')} + {('m', 't', 'r')})
  {
    var info: Row, metrics: Row := Route(GET, "/pageinfo", PageInfo("")), Route(GET, "/metrics", Metrics);
    PageRowsAre();
    ExactRow(info, "/page");
    ExactRow(metrics, "/metr");
    KeysGrow([info], {('p', 'g', 'e')}, [metrics], {('m', 't', 'r')});
  }

  lemma StaticReached(name: string)
    requires Keyed("/" + name)
    ensures AllReached(StaticRows("/" + name)) && KeyedIn(StaticRows("/" + name), {KeyOf("/" + name)})
  {
    SingleReached(StaticRows("/" + name)[0]);
    LeadKeys("/" + name, StaticRows("/" + name));
  }

  const PAGE_KEYS: set<Key> := {('p', 'g', 'e')} + {('m', 't', 'r')}
  const FILE_KEYS: set<Key> := PAGE_KEYS + {('b', 'i', 'l')} + {('s', 'a', 't')} + {('f', '/', '.')} + {('f', 'a', 'p')}
  const STATE_KEYS: set<Key> := {('m', 'm', '/')} + {('h', 'a', 'l')} + {('r', 'a', 'd')} + {('e', 'v', '/')}
  const WORK_KEYS: set<Key> := {('d', 's', '/')} + {('k', 'y', 'g')} + {('m', 'm', 'q')}

  lemma StaticsReached()
    ensures AllReached(StaticRows("/built")) && KeyedIn(StaticRows("/built"), {('b', 'i', 'l')})
    ensures AllReached(StaticRows("/static")) && KeyedIn(StaticRows("/static"), {('s', 'a', 't')})
  {
    assert "/" + "built" == "/built" && "/" + "static" == "/static";
    StaticReached("built");
    StaticReached("static");
  }

  lemma RawReached()
    ensures AllReached(RawRows("")) && KeyedIn(RawRows(""), {('f', '/', '.')})
  {
    var none := "";
    assert none + "/fs/*filepath" == "/fs/*filepath";
    SingleReached(RawRows("")[0]);
    LeadKeys("/fs/", RawRows(""));
  }

  lemma FsApiReached()
    ensures AllReached(FsRows("/fsapi")) && KeyedIn(FsRows("/fsapi"), {('f', 'a', 'p')})
  {
    FsReached("/fsapi");
    LeadKeys("/fsapi", FsRows("/fsapi"));
  }

  lemma FileRowsReached()
    ensures AllReached(FileRows("")) && KeyedIn(FileRows(""), FILE_KEYS)
  {
    FileRowsAre();
    PageReached();
    StaticsReached();
    RawReached();
    FsApiReached();
    FiveGroups(PageRows(""), PAGE_KEYS, StaticRows("/built"), {('b', 'i', 'l')}, StaticRows("/static"), {('s', 'a', 't')},
               RawRows(""), {('f', '/', '.')}, FsRows("/fsapi"), {('f', 'a', 'p')});
  }

  lemma FiveGroups(a: seq<Row>, ka: set<Key>, b: seq<Row>, kb: set<Key>, c: seq<Row>, kc: set<Key>,
                   d: seq<Row>, kd: set<Key>, e: seq<Row>, ke: set<Key>)
    requires AllReached(a) && AllReached(b) && AllReached(c) && AllReached(d) && AllReached(e)
    requires KeyedIn(a, ka) && KeyedIn(b, kb) && KeyedIn(c, kc) && KeyedIn(d, kd) && KeyedIn(e, ke)
    requires ka !! kb !! kc !! kd !! ke
    ensures AllReached(a + b + c + d + e) && KeyedIn(a + b + c + d + e, ka + kb + kc + kd + ke)
  {
    KeysGrow(a, ka, b, kb);
    KeysGrow(a + b, ka + kb, c, kc);
    KeysGrow(a + b + c, ka + kb + kc, d, kd);
    KeysGrow(a + b + c + d, ka + kb + kc + kd, e, ke);
  }

  lemma FourGroups(a: seq<Row>, ka: set<Key>, b: seq<Row>, kb: set<Key>, c: seq<Row>, kc: set<Key>, d: seq<Row>, kd: set<Key>)
    requires AllReached(a) && AllReached(b) && AllReached(c) && AllReached(d)
    requires KeyedIn(a, ka) && KeyedIn(b, kb) && KeyedIn(c, kc) && KeyedIn(d, kd)
    requires ka !! kb !! kc !! kd
    ensures AllReached(a + b + c + d) && KeyedIn(a + b + c + d, ka + kb + kc + kd)
  {
    KeysGrow(a, ka, b, kb);
    KeysGrow(a + b, ka + kb, c, kc);
    KeysGrow(a + b + c, ka + kb + kc, d, kd);
  }

  lemma StateRowsAre()
    ensures StateRows("") == MemRows("/mem") + ProbeRows("/healthy", "live") + ProbeRows("/ready", "ready") + EnvRows("/env")
  {
    var none := "";
    assert none + "/mem" == "/mem" && none + "/healthy" == "/healthy" && none + "/ready" == "/ready" && none + "/env" == "/env";
  }

  lemma MemAndEnvReached()
    ensures AllReached(MemRows("/mem")) && KeyedIn(MemRows("/mem"), {('m', 'm', '/')})
    ensures AllReached(EnvRows("/env")) && KeyedIn(EnvRows("/env"), {('e', 'v', '/')})
  {
    MemReached("/mem");
    LeadKeys("/mem" + "/", MemRows("/mem"));
    SingleReached(EnvRows("/env")[0]);
    LeadKeys("/env" + "/", EnvRows("/env"));
  }

  lemma ProbesReached()
    ensures AllReached(ProbeRows("/healthy", "live")) && KeyedIn(ProbeRows("/healthy", "live"), {('h', 'a', 'l')})
    ensures AllReached(ProbeRows("/ready", "ready")) && KeyedIn(ProbeRows("/ready", "ready"), {('r', 'a', 'd')})
  {
    ProbeReached("/healthy", "live");
    ProbeReached("/ready", "ready");
    LeadKeys("/healthy", ProbeRows("/healthy", "live"));
    LeadKeys("/ready", ProbeRows("/ready", "ready"));
  }

  lemma StateRowsReached()
    ensures AllReached(StateRows("")) && KeyedIn(StateRows(""), STATE_KEYS)
  {
    StateRowsAre();
    MemAndEnvReached();
    ProbesReached();
    FourGroups(MemRows("/mem"), {('m', 'm', '/')}, ProbeRows("/healthy", "live"), {('h', 'a', 'l')},
               ProbeRows("/ready", "ready"), {('r', 'a', 'd')}, EnvRows("/env"), {('e', 'v', '/')});
  }

  lemma DnsAndKeyGenReached()
    ensures var rows := DnsRows("/dns") + KeyGenRows("/keygen");
      AllReached(rows) && KeyedIn(rows, {('d', 's', '/')} + {('k', 'y', 'g')})
  {
    SingleReached(DnsRows("/dns")[0]);
    KeyGenReached("/keygen");
    LeadKeys("/dns" + "/", DnsRows("/dns"));
    LeadKeys("/keygen", KeyGenRows("/keygen"));
    KeysGrow(DnsRows("/dns"), {('d', 's', '/')}, KeyGenRows("/keygen"), {('k', 'y', 'g')});
  }

  lemma WorkRowsReached()
    ensures AllReached(WorkRows("")) && KeyedIn(WorkRows(""), WORK_KEYS)
  {
    var none := "";
    assert none + "/dns" == "/dns" && none + "/keygen" == "/keygen" && none + "/memq/server" == "/memq/server";
    DnsAndKeyGenReached();
    MemQReached("/memq/server");
    LeadKeys("/memq/server", MemQRows("/memq/server"));
    KeysGrow(DnsRows("/dns") + KeyGenRows("/keygen"), {('d', 's', '/')} + {('k', 'y', 'g')},
             MemQRows("/memq/server"), {('m', 'm', 'q')});
  }

  const COMMON_KEYS: set<Key> := FILE_KEYS + STATE_KEYS + WORK_KEYS

  lemma CommonRowsReached()
    ensures AllReached(CommonRows("")) && KeyedIn(CommonRows(""), COMMON_KEYS)
  {
    FileRowsReached();
    StateRowsReached();
    WorkRowsReached();
    KeysGrow(FileRows(""), FILE_KEYS, StateRows(""), STATE_KEYS);
    KeysGrow(FileRows("") + StateRows(""), FILE_KEYS + STATE_KEYS, WorkRows(""), WORK_KEYS);
  }

  // ---------- The variants ----------

  lemma RedirectsReached(p: string)
    requires '*' !in p
    ensures AllReached(RedirectRows(p))
  {
    WildcardWitness(p + "/-/", "path");
    assert p + "/-/" + "*" + "path" == p + "/-/*path";
    PairReached(RedirectRows(p)[0], RedirectRows(p)[1]);
  }

  lemma SolidLead(pattern: string)
    requires SolidPattern(pattern)
    ensures var w := Witness(pattern); !RedirectSuffix(w) && |w| >= 3
  {
    assert '*' !in pattern[..3];
    WitnessKeepsLead(pattern[..3], pattern);
    assert Witness(pattern)[..3] == pattern[..3];
    assert Witness(pattern)[1] == pattern[..3][1];
  }

  lemma RedirectsMiss(p: string, m: Method, s: string)
    requires '*' !in p && !RedirectSuffix(s)
    ensures NoneMatches(RedirectRows(p), m, p + s)
  {
    RedirectPatterns(p, s);
    var rows := RedirectRows(p);
    assert |rows| == 2 && rows[0].pattern == p + "/" && rows[1].pattern == p + "/-/*path";
  }

  /** A row that mirrors a solid one is out of the redirects' reach. */
  lemma SolidRowApart(p: string, r: Row, r0: Row)
    requires '*' !in p && r.pattern == p + r0.pattern && SolidPattern(r0.pattern)
    ensures NoneMatches(RedirectRows(p), r.verb, Witness(r.pattern))
  {
    SolidLead(r0.pattern);
    PrefixedWitness(p, r0.pattern);
    RedirectsMiss(p, r.verb, Witness(r0.pattern));
  }

  lemma SolidRowsApart(p: string, rp: seq<Row>, r0: seq<Row>)
    requires '*' !in p && Mirrors(p, rp, r0) && Solid(r0)
    ensures Apart(RedirectRows(p), rp)
  {
    forall j | 0 <= j < |rp| ensures NoneMatches(RedirectRows(p), rp[j].verb, Witness(rp[j].pattern)) {
      SolidRowApart(p, rp[j], r0[j]);
    }
  }

  /** The redirects of a variant leave its other rows alone. */
  lemma RedirectsApart(p: string)
    requires IsVariant(p)
    ensures Apart(RedirectRows(p), CommonRows(p))
  {
    CommonRowsMirror(p);
    CommonRowsAreSolid();
    SolidRowsApart(p, CommonRows(p), CommonRows(""));
  }

  lemma VariantReached(p: string)
    requires IsVariant(p)
    ensures AllReached(PrefixRows(p))
  {
    CommonRowsReached();
    CommonRowsMirror(p);
    MirrorsReached(p, CommonRows(p), CommonRows(""));
    RedirectsReached(p);
    RedirectsApart(p);
    ReachedAppend(RedirectRows(p), CommonRows(p));
  }

  lemma CommonApartFromVariant(p: string)
    requires IsVariant(p)
    ensures Apart(CommonRows(""), PrefixRows(p))
  {
    VariantRowsAreUnder(p);
    CommonRowsAreSolid();
    forall j | 0 <= j < |PrefixRows(p)|
      ensures NoneMatches(CommonRows(""), PrefixRows(p)[j].verb, Witness(PrefixRows(p)[j].pattern))
    {
      var pattern := PrefixRows(p)[j].pattern;
      WitnessKeepsLead(p + "/", pattern);
      assert (p + "/")[2] == '/';
      SolidMisses(CommonRows(""), PrefixRows(p)[j].verb, Witness(pattern));
    }
  }

  lemma VariantsApart(p: string, q: string)
    requires IsVariant(p) && IsVariant(q) && p != q
    ensures Apart(PrefixRows(p), PrefixRows(q))
  {
    VariantRowsAreUnder(p);
    VariantRowsAreUnder(q);
    forall j | 0 <= j < |PrefixRows(q)|
      ensures NoneMatches(PrefixRows(p), PrefixRows(q)[j].verb, Witness(PrefixRows(q)[j].pattern))
    {
      var pattern := PrefixRows(q)[j].pattern;
      WitnessKeepsLead(q + "/", pattern);
      UnderVariantSplits(Witness(pattern), p);
      UnderVariantSplits(Witness(pattern), q);
      UnderMisses(p, PrefixRows(p), PrefixRows(q)[j].verb, Witness(pattern));
    }
  }

  /** The rows of the loop over the prefixes. */
  lemma PrefixesReached()
    ensures AllReached(PrefixesRows(PREFIXES))
  {
    var a, b, c := PrefixRows("/a"), PrefixRows("/b"), PrefixRows("/c");
    CommonRowsReached();
    VariantReached("/a");
    VariantReached("/b");
    VariantReached("/c");
    CommonApartFromVariant("/a");
    CommonApartFromVariant("/b");
    CommonApartFromVariant("/c");
    VariantsApart("/a", "/b");
    VariantsApart("/a", "/c");
    VariantsApart("/b", "/c");
    FourPrefixes();
    FourBlocks(CommonRows(""), a, b, c);
  }

  lemma FourBlocks(r: seq<Row>, a: seq<Row>, b: seq<Row>, c: seq<Row>)
    requires AllReached(r) && AllReached(a) && AllReached(b) && AllReached(c)
    requires Apart(r, a) && Apart(r, b) && Apart(r, c) && Apart(a, b) && Apart(a, c) && Apart(b, c)
    ensures AllReached(r + a + b + c)
  {
    ReachedAppend(r, a);
    ApartAppend(r, a, b);
    ReachedAppend(r + a, b);
    ApartAppend(r, a, c);
    ApartAppend(r + a, b, c);
    ReachedAppend(r + a + b, c);
  }

  // ---------- The UI ----------

  /** What no unprefixed or variant row matches: too short, or with a key of its own. */
  predicate Unclaimed(path: string) {
    |path| < 3 || (path[2] != '/' && |path| > 4 && path[3] != '/' && KeyOf(path) !in COMMON_KEYS)
  }

  lemma UnclaimedIsMissed(m: Method, path: string)
    requires Unclaimed(path)
    ensures NoneMatches(PrefixesRows(PREFIXES), m, path)
  {
    var a, b, c := PrefixRows("/a"), PrefixRows("/b"), PrefixRows("/c");
    FourPrefixes();
    CommonMissesUnclaimed(m, path);
    VariantRowsAreUnder("/a");
    VariantRowsAreUnder("/b");
    VariantRowsAreUnder("/c");
    UnderVariantSplits(path, "/a");
    UnderVariantSplits(path, "/b");
    UnderVariantSplits(path, "/c");
    UnderMisses("/a", a, m, path);
    UnderMisses("/b", b, m, path);
    UnderMisses("/c", c, m, path);
    NoneOfFour(CommonRows(""), a, b, c, m, path);
  }

  lemma CommonMissesUnclaimed(m: Method, path: string)
    requires Unclaimed(path)
    ensures NoneMatches(CommonRows(""), m, path)
  {
    if |path| < 3 {
      CommonRowsAreSolid();
      SolidMisses(CommonRows(""), m, path);
    } else {
      CommonRowsReached();
      KeysMiss(CommonRows(""), COMMON_KEYS, m, path);
    }
  }

  lemma NoneOfFour(r: seq<Row>, a: seq<Row>, b: seq<Row>, c: seq<Row>, m: Method, path: string)
    requires NoneMatches(r, m, path) && NoneMatches(a, m, path) && NoneMatches(b, m, path) && NoneMatches(c, m, path)
    ensures NoneMatches(r + a + b + c, m, path)
  {
  }

  ghost predicate AllUnclaimed(rows: seq<Row>) {
    forall j :: 0 <= j < |rows| ==> Unclaimed(Witness(rows[j].pattern))
  }

  /** A row whose pattern starts with five letters no other row starts with. */
  lemma LeadUnclaimed(lead: string, r: Row)
    requires |lead| == 5 && '*' !in lead && lead[2] != '/' && lead[3] != '/' && KeyOf(lead) !in COMMON_KEYS
    requires lead <= r.pattern
    ensures AllReached([r]) && AllUnclaimed([r]) && KeyedIn([r], {KeyOf(lead)})
  {
    WitnessKeepsLead(lead, r.pattern);
    var w := Witness(r.pattern);
    assert forall k :: 0 <= k < 5 ==> w[k] == lead[k] && r.pattern[k] == lead[k];
  }

  const NEXT_ROW: Row := Route(GET, "/_next/*filepath", UI)
  const FAVICON_ROW: Row := Route(GET, "/favicon.ico", UI)
  const ROBOTS_ROW: Row := Route(GET, "/robots.txt", UI)
  const MANIFEST_ROW: Row := Route(GET, "/manifest.json", UI)

  /** The assets a dev proxy lists ahead of its catch-all. */
  const ASSET_ROWS: seq<Row> := [NEXT_ROW] + [FAVICON_ROW] + [ROBOTS_ROW] + [MANIFEST_ROW]

  const ROOT_ROWS: seq<Row> := [Route(GET, "/", UI), Route(GET, "/*filepath", UI)]

  lemma UIRowsAre(ui: Mode)
    ensures UIRows(ui) ==
      match ui
      case DevProxy => ASSET_ROWS + ROOT_ROWS
      case Exported => ROOT_ROWS
      case BuiltAssets => [NEXT_ROW] + ROOT_ROWS
      case NoUI => []
  {
  }

  lemma NextReached()
    ensures AllReached([NEXT_ROW]) && AllUnclaimed([NEXT_ROW]) && KeyedIn([NEXT_ROW], {('_', 'e', 'x')})
  {
    LeadUnclaimed("/_nex", NEXT_ROW);
  }

  lemma FaviconReached()
    ensures AllReached([FAVICON_ROW]) && AllUnclaimed([FAVICON_ROW]) && KeyedIn([FAVICON_ROW], {('f', 'v', 'i')})
  {
    LeadUnclaimed("/favi", FAVICON_ROW);
  }

  lemma RobotsReached()
    ensures AllReached([ROBOTS_ROW]) && AllUnclaimed([ROBOTS_ROW]) && KeyedIn([ROBOTS_ROW], {('r', 'b', 'o')})
  {
    LeadUnclaimed("/robo", ROBOTS_ROW);
  }

  lemma ManifestReached()
    ensures AllReached([MANIFEST_ROW]) && AllUnclaimed([MANIFEST_ROW]) && KeyedIn([MANIFEST_ROW], {('m', 'n', 'i')})
  {
    LeadUnclaimed("/mani", MANIFEST_ROW);
  }

  lemma AssetsReached()
    ensures AllReached(ASSET_ROWS) && AllUnclaimed(ASSET_ROWS)
    ensures KeyedIn(ASSET_ROWS, {('_', 'e', 'x')} + {('f', 'v', 'i')} + {('r', 'b', 'o')} + {('m', 'n', 'i')})
  {
    NextReached();
    FaviconReached();
    RobotsReached();
    ManifestReached();
    FourGroups([NEXT_ROW], {('_', 'e', 'x')}, [FAVICON_ROW], {('f', 'v', 'i')},
               [ROBOTS_ROW], {('r', 'b', 'o')}, [MANIFEST_ROW], {('m', 'n', 'i')});
  }

  lemma CatchAllWitness()
    ensures Witness("/*filepath") == "/" + "x"
  {
    WildcardWitness("/", "filepath");
    assert "/" + "*" + "filepath" == "/*filepath";
  }

  lemma ShortPair(r: Row, r': Row)
    requires '*' !in r.pattern && r.pattern != Witness(r'.pattern) && |r.pattern| < 3 && |Witness(r'.pattern)| < 3
    ensures AllReached([r, r']) && AllUnclaimed([r, r'])
    ensures forall j :: 0 <= j < |[r, r']| ==> |Witness([r, r'][j].pattern)| < 3
  {
    PairReached(r, r');
  }

  lemma RootReached()
    ensures AllReached(ROOT_ROWS) && AllUnclaimed(ROOT_ROWS)
    ensures forall j :: 0 <= j < |ROOT_ROWS| ==> |Witness(ROOT_ROWS[j].pattern)| < 3
  {
    CatchAllWitness();
    ShortPair(Route(GET, "/", UI), Route(GET, "/*filepath", UI));
  }

  /** Keyed rows in front of the root and the catch-all. */
  lemma AssetsThenRoot(assets: seq<Row>, keys: set<Key>)
    requires AllReached(assets) && AllUnclaimed(assets) && KeyedIn(assets, keys)
    ensures AllReached(assets + ROOT_ROWS) && AllUnclaimed(assets + ROOT_ROWS)
  {
    RootReached();
    forall j | 0 <= j < |ROOT_ROWS| ensures NoneMatches(assets, ROOT_ROWS[j].verb, Witness(ROOT_ROWS[j].pattern)) {
      var w := Witness(ROOT_ROWS[j].pattern);
      forall i | 0 <= i < |assets| ensures !Matches(assets[i], ROOT_ROWS[j].verb, w) {
        if MatchPattern(assets[i].pattern, w) {
          MatchSharesKey(assets[i].pattern, w);
        }
      }
    }
    ReachedAppend(assets, ROOT_ROWS);
  }

  lemma UIReached(ui: Mode)
    ensures AllReached(UIRows(ui)) && AllUnclaimed(UIRows(ui))
  {
    UIRowsAre(ui);
    match ui {
      case DevProxy =>
        AssetsReached();
        AssetsThenRoot(ASSET_ROWS, {('_', 'e', 'x')} + {('f', 'v', 'i')} + {('r', 'b', 'o')} + {('m', 'n', 'i')});
      case Exported => RootReached();
      case BuiltAssets =>
        NextReached();
        AssetsThenRoot([NEXT_ROW], {('_', 'e', 'x')});
      case NoUI =>
    }
  }

  lemma UIApart(ui: Mode)
    ensures Apart(PrefixesRows(PREFIXES), UIRows(ui))
  {
    UIReached(ui);
    forall j | 0 <= j < |UIRows(ui)|
      ensures NoneMatches(PrefixesRows(PREFIXES), UIRows(ui)[j].verb, Witness(UIRows(ui)[j].pattern))
    {
      UnclaimedIsMissed(UIRows(ui)[j].verb, Witness(UIRows(ui)[j].pattern));
    }
  }

  // ---------- The theorem ----------

  ghost predicate Rooted(rows: seq<Row>) {
    forall i :: 0 <= i < |rows| ==> "/" <= rows[i].pattern
  }

  lemma RootedAppend(a: seq<Row>, b: seq<Row>)
    requires Rooted(a) && Rooted(b)
    ensures Rooted(a + b)
  {
  }

  lemma CommonRooted()
    ensures Rooted(CommonRows(""))
  {
    CommonRowsAreSolid();
    forall i | 0 <= i < |CommonRows("")| ensures "/" <= CommonRows("")[i].pattern {
      assert SolidPattern(CommonRows("")[i].pattern);
    }
  }

  lemma PrefixesRooted()
    ensures Rooted(PrefixesRows(PREFIXES))
  {
    FourPrefixes();
    CommonRooted();
    VariantRooted("/a");
    VariantRooted("/b");
    VariantRooted("/c");
    RootedAppend(CommonRows(""), PrefixRows("/a"));
    RootedAppend(CommonRows("") + PrefixRows("/a"), PrefixRows("/b"));
    RootedAppend(CommonRows("") + PrefixRows("/a") + PrefixRows("/b"), PrefixRows("/c"));
  }

  lemma VariantRooted(p: string)
    requires IsVariant(p)
    ensures Rooted(PrefixRows(p))
  {
    VariantRowsAreUnder(p);
    assert (p + "/")[0] == '/';
  }

  lemma TableRooted(ui: Mode)
    ensures Rooted(Table(ui))
  {
    PrefixesRooted();
    assert Rooted(UIRows(ui));
    RootedAppend(PrefixesRows(PREFIXES), UIRows(ui));
  }

  /** Every route the application registers, whatever UI it finds, is the first match for a path
      that starts with a slash, and serves it. */
  lemma EveryRouteIsReached(ui: Mode, i: nat)
    requires i < |Table(ui)|
    ensures var r, path := Table(ui)[i], Witness(Table(ui)[i].pattern);
      && "/" <= path
      && NoneMatches(Table(ui)[..i], r.verb, path)
      && Dispatch(Table(ui), r.verb, path) == Some(r.handler)
  {
    PrefixesReached();
    UIReached(ui);
    UIApart(ui);
    ReachedAppend(PrefixesRows(PREFIXES), UIRows(ui));
    assert Reached(Table(ui), i);
    TableRooted(ui);
    WitnessKeepsLead("/", Table(ui)[i].pattern);
    DispatchIsFirstMatch(Table(ui), Table(ui)[i].verb, Witness(Table(ui)[i].pattern), i);
  }
}
