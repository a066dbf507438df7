/** Strings as the runtime's language sees them: its white space, and trimming it. */
module Text {
  import opened Base

  /** What `trim()` and `\s` count as white space. */
  predicate IsSpace(c: char) {
    c in {'\t', '\n', '\U{000B}', '\U{000C}', '\r', ' ', '\U{00A0}', '\U{1680}', '\U{2028}', '\U{2029}', '\U{202F}',
          '\U{205F}', '\U{3000}', '\U{FEFF}'}
    || '\U{2000}' <= c <= '\U{200A}'
  }

  /** The end of the white space that begins at `i`. */
  function SpaceEnd(s: string, i: nat): (j: nat)
    requires i <= |s|
    ensures i <= j <= |s|
    decreases |s| - i
  {
    if i < |s| && IsSpace(s[i]) then SpaceEnd(s, i + 1) else i
  }

  function TrimStart(s: string): string {
    if s != "" && IsSpace(s[0]) then TrimStart(s[1..]) else s
  }

  function TrimEnd(s: string): string {
    if s != "" && IsSpace(s[|s| - 1]) then TrimEnd(s[..|s| - 1]) else s
  }

  function Trim(s: string): string { TrimEnd(TrimStart(s)) }

  predicate Trimmed(s: string) {
    s == "" || (!IsSpace(s[0]) && !IsSpace(s[|s| - 1]))
  }

  predicate At(part: string, s: string, i: int) {
    0 <= i <= |s| - |part| && s[i..i + |part|] == part
  }

  /** `part` is a contiguous piece of `s`. */
  ghost predicate Within(part: string, s: string) {
    exists i :: At(part, s, i)
  }

  lemma {:induction false} TrimStartCuts(s: string)
    ensures |TrimStart(s)| <= |s| && TrimStart(s) == s[|s| - |TrimStart(s)|..]
    ensures TrimStart(s) == "" || !IsSpace(TrimStart(s)[0])
  {
    if s != "" && IsSpace(s[0]) { TrimStartCuts(s[1..]); }
  }

  lemma {:induction false} TrimEndCuts(s: string)
    ensures IsPrefix(TrimEnd(s), s)
    ensures TrimEnd(s) == "" || !IsSpace(TrimEnd(s)[|TrimEnd(s)| - 1])
  {
    if s != "" && IsSpace(s[|s| - 1]) { TrimEndCuts(s[..|s| - 1]); }
  }

  lemma TrimTrims(s: string)
    ensures Trimmed(Trim(s)) && Within(Trim(s), s)
    ensures Trimmed(s) <==> Trim(s) == s
  {
    TrimStartCuts(s);
    TrimEndCuts(TrimStart(s));
    var i := |s| - |TrimStart(s)|;
    assert At(Trim(s), s, i);
  }

  /** Everything that is not white space, in order. */
  function Ink(s: string): string {
    if s == "" then "" else (if IsSpace(s[0]) then "" else [s[0]]) + Ink(s[1..])
  }

  lemma {:induction false} InkConcat(a: string, b: string)
    ensures Ink(a + b) == Ink(a) + Ink(b)
  {
    if a == "" {
      assert a + b == b;
    } else {
      assert (a + b)[1..] == a[1..] + b;
      InkConcat(a[1..], b);
    }
  }

  lemma {:induction false} TrimStartInk(s: string)
    ensures Ink(TrimStart(s)) == Ink(s)
  {
    if s != "" && IsSpace(s[0]) { TrimStartInk(s[1..]); }
  }

  lemma {:induction false} TrimEndInk(s: string)
    ensures Ink(TrimEnd(s)) == Ink(s)
  {
    if s != "" && IsSpace(s[|s| - 1]) {
      TrimEndInk(s[..|s| - 1]);
      InkConcat(s[..|s| - 1], s[|s| - 1..]);
      assert s == s[..|s| - 1] + s[|s| - 1..];
    }
  }

  lemma TrimInk(s: string)
    ensures Ink(Trim(s)) == Ink(s)
  {
    TrimStartInk(s);
    TrimEndInk(TrimStart(s));
  }

  /** Trimming leaves nothing exactly when there is nothing but white space. */
  lemma {:induction false} BlankIsInkless(s: string)
    ensures Trim(s) == "" <==> Ink(s) == ""
  {
    TrimTrims(s);
    TrimInk(s);
    if Trim(s) != "" { assert Ink(Trim(s))[0] == Trim(s)[0]; }
  }
}
