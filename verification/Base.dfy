/** Small vocabulary shared by every component. */
module Base {

  /** A value the source may leave `null` or `undefined`. */
  datatype Option<+T> = None | Some(value: T) {
    function GetOr(fallback: T): T {
      if Some? then value else fallback
    }
  }

  /** `slice(-n)`: the last `n` elements, or all of them. */
  function Last<T>(s: seq<T>, n: nat): seq<T> {
    if |s| <= n then s else s[|s| - n..]
  }

  /** `slice(0, n)`: the first `n` elements, or all of them. */
  function First<T>(s: seq<T>, n: nat): seq<T> {
    if |s| <= n then s else s[..n]
  }

  ghost predicate NoRepeat<T>(s: seq<T>) {
    forall i, j :: 0 <= i < j < |s| ==> s[i] != s[j]
  }

  ghost predicate IsPrefix<T>(p: seq<T>, s: seq<T>) {
    |p| <= |s| && p == s[..|p|]
  }
}
