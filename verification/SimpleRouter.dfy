/** The first-match router. */
module SimpleRouter {
  import opened Text

  datatype Method = GET | POST | PUT | DELETE | OtherMethod(name: string)

  datatype Route<H> = Route(verb: Method, pattern: string, handler: H)

  datatype Option<T> = None | Some(value: T)

  /** Equality, or a prefix match up to the first '*' of the pattern. */
  predicate MatchPattern(pattern: string, path: string) {
    pattern == path ||
    ('*' in pattern && pattern[..IndexOf(pattern, '*')] <= path)
  }

  predicate Matches<H>(r: Route<H>, m: Method, path: string) {
    r.verb == m && MatchPattern(r.pattern, path)
  }

  /** The handler of the first route that matches. */
  function Dispatch<H>(routes: seq<Route<H>>, m: Method, path: string): Option<H> {
    if routes == [] then None
    else if Matches(routes[0], m, path) then Some(routes[0].handler)
    else Dispatch(routes[1..], m, path)
  }

  ghost predicate NoneMatches<H>(routes: seq<Route<H>>, m: Method, path: string) {
    forall i :: 0 <= i < |routes| ==> !Matches(routes[i], m, path)
  }

  class SimpleRouter<H> {
    var routes: seq<Route<H>>

    constructor ()
      ensures routes == []
    {
      routes := [];
    }

    method Handle(m: Method, pattern: string, h: H)
      modifies this
      ensures routes == old(routes) + [Route(m, pattern, h)]
    {
      routes := routes + [Route(m, pattern, h)];
    }

    /** Serves with the handler it finds; None is the router's own "not found". */
    method ServeHTTP(m: Method, path: string) returns (served: Option<H>)
      ensures served == Dispatch(routes, m, path)
    {
      for i := 0 to |routes|
        invariant Dispatch(routes, m, path) == Dispatch(routes[i..], m, path)
      {
        var rt := routes[i];
        if rt.verb != m {
          continue;
        }
        if MatchPattern(rt.pattern, path) {
          return Some(rt.handler);
        }
      }
      served := None;
    }
  }

  // ---------- First match ----------

  /** Exactly the first matching route serves: something does iff some route matches, and it is
      the one no earlier route shadows. */
  lemma {:induction false} DispatchIsFirstMatch<H>(routes: seq<Route<H>>, m: Method, path: string, i: nat)
    requires i < |routes| && Matches(routes[i], m, path) && NoneMatches(routes[..i], m, path)
    ensures Dispatch(routes, m, path) == Some(routes[i].handler)
  {
    if i > 0 {
      assert !Matches(routes[..i][0], m, path);
      assert routes[1..][..i - 1] == routes[..i][1..];
      DispatchIsFirstMatch(routes[1..], m, path, i - 1);
    }
  }

  lemma {:induction false} NothingMatchesNothingServes<H>(routes: seq<Route<H>>, m: Method, path: string)
    ensures Dispatch(routes, m, path) == None <==> NoneMatches(routes, m, path)
  {
    if routes != [] {
      NothingMatchesNothingServes(routes[1..], m, path);
      if !Matches(routes[0], m, path) && NoneMatches(routes[1..], m, path) {
        forall i | 0 <= i < |routes| ensures !Matches(routes[i], m, path) {
          assert i > 0 ==> routes[i] == routes[1..][i - 1];
        }
      }
    }
  }

  /** Routes registered later serve only what earlier ones leave unmatched; in particular they
      never change the handler of a request that was already served. */
  lemma {:induction false} DispatchAppend<H>(a: seq<Route<H>>, b: seq<Route<H>>, m: Method, path: string)
    ensures Dispatch(a + b, m, path) ==
            if Dispatch(a, m, path).Some? then Dispatch(a, m, path) else Dispatch(b, m, path)
  {
    if a == [] {
      assert a + b == b;
    } else {
      assert (a + b)[1..] == a[1..] + b;
      DispatchAppend(a[1..], b, m, path);
    }
  }

  // ---------- Patterns ----------

  lemma {:induction false} IndexAfterPrefix(p: string, s: string, c: char)
    requires c !in p
    ensures IndexOf(p + s, c) == if c in s then |p| + IndexOf(s, c) else -1
  {
    if p == "" {
      assert p + s == s;
    } else {
      assert (p + s)[1..] == p[1..] + s;
      IndexAfterPrefix(p[1..], s, c);
    }
  }

  /** A wildcard pattern matches exactly the paths that extend what comes before its '*'. */
  lemma WildcardMatches(base: string, name: string, path: string)
    requires '*' !in base
    ensures MatchPattern(base + "*" + name, path) <==> base <= path
  {
    var pattern := base + "*" + name;
    assert pattern == base + ("*" + name);
    IndexAfterPrefix(base, "*" + name, '*');
    assert pattern[..|base|] == base;
    assert pattern[|base|] == '*';
  }

  /** Putting the same star-free prefix before pattern and path changes nothing. */
  lemma PrefixedMatch(p: string, pattern: string, path: string)
    requires '*' !in p
    ensures MatchPattern(p + pattern, p + path) <==> MatchPattern(pattern, path)
  {
    assert (p + pattern)[|p|..] == pattern && (p + path)[|p|..] == path;
    IndexAfterPrefix(p, pattern, '*');
    if '*' in pattern {
      var i := IndexOf(pattern, '*');
      assert (p + pattern)[..|p| + i] == p + pattern[..i];
      assert p + pattern[..i] <= p + path <==> pattern[..i] <= path by {
        if p + pattern[..i] <= p + path {
          assert (p + path)[..|p| + i] == p + path[..i];
          assert (p + pattern[..i])[|p|..] == (p + path[..i])[|p|..];
        }
      }
    }
  }

  /** A path that differs from the pattern before any '*' is not matched by it. */
  lemma MismatchIsNoMatch(pattern: string, path: string, k: nat)
    requires k < |pattern| && '*' !in pattern[..k + 1]
    requires k >= |path| || pattern[k] != path[k]
    ensures !MatchPattern(pattern, path)
  {
    if '*' in pattern {
      var i := IndexOf(pattern, '*');
      forall j | 0 <= j <= k ensures pattern[j] != '*' {
        assert pattern[j] == pattern[..k + 1][j];
      }
      assert pattern[..i][k] == pattern[k];
    }
  }
}
