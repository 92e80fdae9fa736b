/** The string operations the program relies on, over ASCII letters. */
module Text {

  function LowerChar(c: char): char {
    if 'A' <= c <= 'Z' then (c as int + 32) as char else c
  }

  function UpperChar(c: char): char {
    if 'a' <= c <= 'z' then (c as int - 32) as char else c
  }

  function Lower(s: string): string {
    seq(|s|, i requires 0 <= i < |s| => LowerChar(s[i]))
  }

  function Upper(s: string): string {
    seq(|s|, i requires 0 <= i < |s| => UpperChar(s[i]))
  }

  predicate Contains(s: string, sub: string) {
    exists i :: 0 <= i <= |s| && sub <= s[i..]
  }

  // ---------- Case, without folding it ----------

  predicate TwoCases(capital: char, small: char) {
    'A' <= capital <= 'Z' && small as int - 'a' as int == capital as int - 'A' as int
  }

  /** The same character, or the two cases of one letter. */
  predicate SameLetter(c: char, d: char) {
    c == d || TwoCases(c, d) || TwoCases(d, c)
  }

  /** Character by character the same, up to case. */
  predicate SameText(s: string, t: string) {
    |s| == |t| && forall i :: 0 <= i < |s| ==> SameLetter(s[i], t[i])
  }

  /** `q` can be read somewhere in `name`, up to case. */
  predicate Occurs(q: string, name: string) {
    exists at :: 0 <= at <= |name| - |q| && ReadAt(q, name, at)
  }

  predicate ReadAt(q: string, name: string, at: nat)
    requires at + |q| <= |name|
  {
    forall i :: 0 <= i < |q| ==> SameLetter(q[i], name[at + i])
  }

  /** The order of single characters, a capital counting as its small letter. */
  ghost predicate CharBefore(c: char, d: char) {
    exists c', d' :: IsSmall(c', c) && IsSmall(d', d) && c' < d'
  }

  predicate IsSmall(small: char, c: char) {
    SameLetter(small, c) && !('A' <= small <= 'Z')
  }

  /** `s` and `t` agree up to case before position `k`, where `s` ends or has the earlier character. */
  ghost predicate DifferAt(s: string, t: string, k: nat) {
    && k <= |s| && k < |t|
    && (forall i :: 0 <= i < k ==> SameLetter(s[i], t[i]))
    && (k == |s| || CharBefore(s[k], t[k]))
  }

  ghost predicate Precedes(s: string, t: string) {
    exists k: nat :: DifferAt(s, t, k)
  }

  lemma LowerCharMerges(c: char, d: char)
    ensures LowerChar(c) == LowerChar(d) <==> SameLetter(c, d)
    ensures UpperChar(c) == UpperChar(d) <==> SameLetter(c, d)
    ensures IsSmall(LowerChar(c), c)
  {
  }

  lemma LowerCharOrders(c: char, d: char)
    ensures LowerChar(c) < LowerChar(d) <==> CharBefore(c, d)
  {
    LowerCharMerges(c, c);
    LowerCharMerges(d, d);
    if CharBefore(c, d) {
      var c', d' :| IsSmall(c', c) && IsSmall(d', d) && c' < d';
      assert c' == LowerChar(c) && d' == LowerChar(d);
    }
  }

  /** Lower-casing, and upper-casing, identify exactly the texts that agree up to case. */
  lemma CasesMerge(s: string, t: string)
    ensures Lower(s) == Lower(t) <==> SameText(s, t)
    ensures Upper(s) == Upper(t) <==> SameText(s, t)
  {
    forall i | 0 <= i < |s| && i < |t|
      ensures Lower(s)[i] == Lower(t)[i] <==> SameLetter(s[i], t[i])
      ensures Upper(s)[i] == Upper(t)[i] <==> SameLetter(s[i], t[i])
    {
      LowerCharMerges(s[i], t[i]);
    }
  }

  lemma ReadAtIsPrefix(q: string, name: string, at: nat)
    requires at + |q| <= |name|
    ensures ReadAt(q, name, at) <==> Lower(q) <= Lower(name)[at..]
  {
    forall i | 0 <= i < |q| ensures Lower(q)[i] == Lower(name)[at..][i] <==> SameLetter(q[i], name[at + i]) {
      LowerCharMerges(q[i], name[at + i]);
    }
  }

  /** Containment of the lower-cased texts. */
  lemma ContainsIsOccurs(q: string, name: string)
    ensures Contains(Lower(name), Lower(q)) <==> Occurs(q, name)
  {
    if Contains(Lower(name), Lower(q)) {
      var at :| 0 <= at <= |Lower(name)| && Lower(q) <= Lower(name)[at..];
      ReadAtIsPrefix(q, name, at);
    }
    if Occurs(q, name) {
      var at :| 0 <= at <= |name| - |q| && ReadAt(q, name, at);
      ReadAtIsPrefix(q, name, at);
    }
  }

  /** A filter typed in other cases occurs in the same names. */
  lemma OccursIgnoresCase(q: string, q': string, name: string)
    requires SameText(q, q')
    ensures Occurs(q, name) <==> Occurs(q', name)
  {
    CasesMerge(q, q');
    ContainsIsOccurs(q, name);
    ContainsIsOccurs(q', name);
  }

  /** The index of the first `c` in `s`, or -1. */
  function IndexOf(s: string, c: char): (i: int)
    ensures -1 <= i < |s|
    ensures i >= 0 ==> s[i] == c && c !in s[..i]
    ensures i == -1 <==> c !in s
  {
    if s == [] then -1
    else if s[0] == c then 0
    else
      var rest := IndexOf(s[1..], c);
      if rest == -1 then -1 else
        assert s[..rest + 1] == [s[0]] + s[1..][..rest];
        rest + 1
  }

  /** The index of the last `c` in `s`, or -1. */
  function LastIndexOf(s: string, c: char): (i: int)
    ensures -1 <= i < |s|
    ensures i >= 0 ==> s[i] == c
    ensures forall k :: i < k < |s| ==> s[k] != c
  {
    if s == [] then -1
    else if s[|s| - 1] == c then |s| - 1
    else LastIndexOf(s[..|s| - 1], c)
  }

  lemma LastIndexSnoc(s: string, c: char, x: char)
    ensures LastIndexOf(s + [x], c) == if x == c then |s| else LastIndexOf(s, c)
  {
    assert (s + [x])[..|s|] == s;
  }

  lemma {:induction false} LastIndexIs(head: string, c: char, tail: string)
    requires c !in tail
    ensures LastIndexOf(head + [c] + tail, c) == |head|
  {
    if tail == "" {
      LastIndexSnoc(head, c, c);
      assert head + [c] + tail == head + [c];
    } else {
      var front, last := tail[..|tail| - 1], tail[|tail| - 1];
      LastIndexIs(head, c, front);
      LastIndexSnoc(head + [c] + front, c, last);
      assert head + [c] + tail == head + [c] + front + [last];
    }
  }

  /** String order: code point by code point, a proper prefix first. */
  predicate LexLess(a: string, b: string) {
    b != [] && (a == [] || a[0] < b[0] || (a[0] == b[0] && LexLess(a[1..], b[1..])))
  }

  /** It is decided at the first position where the two differ. */
  lemma {:induction false} LexLessAt(a: string, b: string)
    ensures LexLess(a, b) <==> exists k :: 0 <= k <= |a| && LexDiffer(a, b, k)
  {
    if b != [] {
      if a == [] {
        assert LexDiffer(a, b, 0);
      } else if a[0] != b[0] {
        if a[0] < b[0] {
          assert LexDiffer(a, b, 0);
        }
      } else {
        LexLessAt(a[1..], b[1..]);
        if LexLess(a, b) {
          var k :| 0 <= k <= |a[1..]| && LexDiffer(a[1..], b[1..], k);
          LexDifferNext(a, b, k);
        }
        if k :| 0 <= k <= |a| && LexDiffer(a, b, k) {
          LexDifferNext(a, b, k - 1);
        }
      }
    }
  }

  predicate LexDiffer(a: string, b: string, k: nat) {
    k <= |a| && k < |b| && a[..k] == b[..k] && (k == |a| || a[k] < b[k])
  }

  lemma LexDifferNext(a: string, b: string, k: nat)
    requires a != [] && b != [] && a[0] == b[0]
    ensures LexDiffer(a, b, k + 1) <==> LexDiffer(a[1..], b[1..], k)
  {
    if k < |a| && k < |b| {
      assert a[..k + 1] == [a[0]] + a[1..][..k];
      assert b[..k + 1] == [b[0]] + b[1..][..k];
    }
  }

  lemma DifferAtIsLexDiffer(s: string, t: string, k: nat)
    ensures DifferAt(s, t, k) <==> LexDiffer(Lower(s), Lower(t), k)
  {
    if k <= |s| && k < |t| {
      CasesMerge(s[..k], t[..k]);
      assert Lower(s)[..k] == Lower(s[..k]) && Lower(t)[..k] == Lower(t[..k]);
      if k < |s| {
        LowerCharOrders(s[k], t[k]);
      }
    }
  }

  /** The order of the lower-cased texts. */
  lemma {:induction false} LexLessIsPrecedes(s: string, t: string)
    ensures LexLess(Lower(s), Lower(t)) <==> Precedes(s, t)
  {
    LexLessAt(Lower(s), Lower(t));
    if LexLess(Lower(s), Lower(t)) {
      var k :| 0 <= k <= |Lower(s)| && LexDiffer(Lower(s), Lower(t), k);
      DifferAtIsLexDiffer(s, t, k);
    }
    if Precedes(s, t) {
      var k: nat :| DifferAt(s, t, k);
      DifferAtIsLexDiffer(s, t, k);
    }
  }

  lemma {:induction false} LexTrichotomy(a: string, b: string)
    ensures a == b || LexLess(a, b) || LexLess(b, a)
    ensures !(LexLess(a, b) && LexLess(b, a))
    ensures a == b ==> !LexLess(a, b)
  {
    if a != [] && b != [] {
      LexTrichotomy(a[1..], b[1..]);
      if a[0] == b[0] && a[1..] == b[1..] {
        assert a == [a[0]] + a[1..] == [b[0]] + b[1..] == b;
      }
    }
  }

  lemma {:induction false} LexTransitive(a: string, b: string, c: string)
    requires LexLess(a, b) && LexLess(b, c)
    ensures LexLess(a, c)
  {
    if a != [] && a[0] == b[0] == c[0] {
      LexTransitive(a[1..], b[1..], c[1..]);
    }
  }
}
