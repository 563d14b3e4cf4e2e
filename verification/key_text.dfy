/**
 * Facts about the ':'-separated strings the hooks use as subscription keys:
 * a key can be cut back into its parts at the first ':' when the part before
 * it holds no ':', and at the last ':' when the part after it holds none.
 */
module KeyText {

  predicate ColonFree(s: string)
  {
    forall i :: 0 <= i < |s| ==> s[i] != ':'
  }

  /** Equal prefixes cancel: `p + x == p + y` only when `x == y`. */
  lemma CancelPrefix(p: string, x: string, y: string)
    requires p + x == p + y
    ensures x == y
  {
    assert x == (p + x)[|p|..];
    assert y == (p + y)[|p|..];
  }

  /** `a + ":" + b` determines `a` and `b` when `a` is colon-free: `a` ends at the first ':'. */
  lemma SplitAtFirstColon(a: string, b: string, c: string, d: string)
    requires ColonFree(a) && ColonFree(c)
    requires a + ":" + b == c + ":" + d
    ensures a == c && b == d
  {
    var s := a + ":" + b;
    assert s == c + ":" + d;
    assert s[|a|] == ':' && s[|c|] == ':';
    assert forall i :: 0 <= i < |a| ==> s[i] == a[i];
    assert forall i :: 0 <= i < |c| ==> s[i] == c[i];
    assert |a| == |c|;
    assert a == s[..|a|];
    assert c == s[..|c|];
    assert b == s[|a| + 1..];
    assert d == s[|c| + 1..];
  }

  /** `a + ":" + b` determines `a` and `b` when `b` is colon-free: `b` starts after the last ':'. */
  lemma SplitAtLastColon(a: string, b: string, c: string, d: string)
    requires ColonFree(b) && ColonFree(d)
    requires a + ":" + b == c + ":" + d
    ensures a == c && b == d
  {
    var s := a + ":" + b;
    assert s == c + ":" + d;
    assert |a| + |b| == |c| + |d|;
    assert s[|a|] == ':' && s[|c|] == ':';
    assert forall i :: |a| < i < |s| ==> s[i] == b[i - |a| - 1];
    assert forall i :: |c| < i < |s| ==> s[i] == d[i - |c| - 1];
    assert |a| == |c|;
    assert a == s[..|a|];
    assert c == s[..|c|];
    assert b == s[|a| + 1..];
    assert d == s[|c| + 1..];
  }

  /** A key `head + a + ":" + b`, regrouped as the head followed by its body. */
  lemma RegroupPair(head: string, a: string, b: string)
    ensures head + a + ":" + b == head + (a + ":" + b)
  {
  }

  /** A key `head + a + ":" + b + ":idField=" + f`, regrouped as the head followed by its body. */
  lemma RegroupTriple(head: string, a: string, b: string, f: string)
    ensures head + a + ":" + b + ":idField=" + f == head + (a + ":" + (b + ":" + ("idField=" + f)))
  {
    assert ":idField=" == ":" + "idField=";
  }

  /** A key `head + a + ":idField=" + f`, regrouped as the head followed by its body. */
  lemma RegroupSuffix(head: string, a: string, f: string)
    ensures head + a + ":idField=" + f == head + (a + ":" + ("idField=" + f))
  {
    assert ":idField=" == ":" + "idField=";
  }

  /** `x + ":idField=" + f`, with `f` colon-free, determines `x` and `f`. */
  lemma SplitIdFieldSuffix(x1: string, f1: string, x2: string, f2: string)
    requires ColonFree(f1) && ColonFree(f2)
    requires x1 + ":" + ("idField=" + f1) == x2 + ":" + ("idField=" + f2)
    ensures x1 == x2 && f1 == f2
  {
    assert ColonFree("idField=" + f1) by {
      assert forall i :: 8 <= i < |"idField=" + f1| ==> ("idField=" + f1)[i] == f1[i - 8];
    }
    assert ColonFree("idField=" + f2) by {
      assert forall i :: 8 <= i < |"idField=" + f2| ==> ("idField=" + f2)[i] == f2[i - 8];
    }
    SplitAtLastColon(x1, "idField=" + f1, x2, "idField=" + f2);
    CancelPrefix("idField=", f1, f2);
  }

  /** `ns + tag + ":" + body`, with a colon-free tag, determines the tag and the body. */
  lemma SplitTagged(ns: string, t1: string, b1: string, t2: string, b2: string)
    requires ColonFree(t1) && ColonFree(t2)
    requires ns + t1 + ":" + b1 == ns + t2 + ":" + b2
    ensures t1 == t2 && b1 == b2
  {
    RegroupPair(ns, t1, b1);
    RegroupPair(ns, t2, b2);
    CancelPrefix(ns, t1 + ":" + b1, t2 + ":" + b2);
    SplitAtFirstColon(t1, b1, t2, b2);
  }
}
