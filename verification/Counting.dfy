/** Counting the elements of a sequence that satisfy a predicate. */
module Counting {

  function One(b: bool): nat { if b then 1 else 0 }

  function CountIf<T>(s: seq<T>, p: T -> bool): nat {
    if s == [] then 0 else CountIf(s[..|s| - 1], p) + One(p(s[|s| - 1]))
  }

  lemma CountIfMore<T>(s: seq<T>, x: T, p: T -> bool)
    ensures CountIf(s + [x], p) == CountIf(s, p) + One(p(x))
  {
    assert (s + [x])[..|s|] == s;
  }

  lemma {:induction false} CountIfSet<T>(s: seq<T>, n: nat, x: T, p: T -> bool)
    requires n < |s|
    ensures CountIf(s[n := x], p) == CountIf(s, p) + One(p(x)) - One(p(s[n]))
  {
    var last := |s| - 1;
    if n < last {
      CountIfSet(s[..last], n, x, p);
      assert s[n := x][..last] == s[..last][n := x];
    } else {
      assert s[n := x][..last] == s[..last];
    }
  }

  lemma {:induction false} OneOf<T>(s: seq<T>, p: T -> bool) returns (n: nat)
    requires CountIf(s, p) > 0
    ensures n < |s| && p(s[n])
  {
    n := |s| - 1;
    if !p(s[n]) { n := OneOf(s[..n], p); }
  }

  /** More than one is two of them, `none` being an element that is not counted. */
  lemma MoreThanOne<T>(s: seq<T>, none: T, p: T -> bool)
    requires !p(none)
    ensures CountIf(s, p) > 1 <==> exists m, n :: 0 <= m < |s| && 0 <= n < |s| && m != n && p(s[m]) && p(s[n])
  {
    if CountIf(s, p) > 1 {
      var m := OneOf(s, p);
      CountIfSet(s, m, none, p);
      var n := OneOf(s[m := none], p);
      assert s[m := none][n] == s[n];
    }
    if m, n :| 0 <= m < |s| && 0 <= n < |s| && m != n && p(s[m]) && p(s[n]) {
      CountIfSet(s, m, none, p);
      CountIfSet(s[m := none], n, none, p);
    }
  }

  function Is(t: string): string -> bool { (x: string) => x == t }

  /** How often a thread occurs. */
  function Count(s: seq<string>, t: string): nat { CountIf(s, Is(t)) }

  lemma CountMore(s: seq<string>, x: string, t: string)
    ensures Count(s + [x], t) == Count(s, t) + One(x == t)
  {
    CountIfMore(s, x, Is(t));
  }
}
