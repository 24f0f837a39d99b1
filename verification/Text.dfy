/** Search in strings, as the standard library's `str::find` does it. */
module Text {
  import opened Wrappers

  /** `pat` occurs in `s` starting at index `i`. */
  predicate At(s: string, pat: string, i: nat) {
    i + |pat| <= |s| && s[i..i + |pat|] == pat
  }

  /** `pat` occurs somewhere in `s`. */
  ghost predicate Occurs(s: string, pat: string) {
    exists i: nat :: At(s, pat, i)
  }

  /** `i` is where `pat` occurs first in `s`. */
  ghost predicate FirstAt(s: string, pat: string, i: nat) {
    At(s, pat, i) && forall j: nat | j < i :: !At(s, pat, j)
  }

  function FindFrom(s: string, pat: string, i: nat): (r: Option<nat>)
    requires i <= |s|
    ensures r.Some? ==> i <= r.value && r.value + |pat| <= |s|
    decreases |s| - i
  {
    if At(s, pat, i) then Some(i)
    else if i == |s| then None
    else FindFrom(s, pat, i + 1)
  }

  /** The index of the first occurrence of `pat` in `s`. */
  function Find(s: string, pat: string): (r: Option<nat>)
    ensures r.Some? ==> r.value + |pat| <= |s|
  {
    FindFrom(s, pat, 0)
  }

  lemma {:induction false} FindFromMeaning(s: string, pat: string, i: nat)
    requires i <= |s|
    ensures var r := FindFrom(s, pat, i);
            && (r.Some? ==> At(s, pat, r.value))
            && forall j: nat | i <= j && (r.Some? ==> j < r.value) :: !At(s, pat, j)
    decreases |s| - i
  {
    if !At(s, pat, i) && i < |s| {
      FindFromMeaning(s, pat, i + 1);
    }
  }

  /** `Find` returns the first occurrence when there is one, and nothing when there is none. */
  lemma FindMeaning(s: string, pat: string)
    ensures Find(s, pat).Some? ==> FirstAt(s, pat, Find(s, pat).value)
    ensures Find(s, pat).None? <==> !Occurs(s, pat)
  {
    FindFromMeaning(s, pat, 0);
  }

  lemma FirstIsFind(s: string, pat: string, i: nat)
    requires FirstAt(s, pat, i)
    ensures Find(s, pat) == Some(i)
  {
    FindMeaning(s, pat);
  }

  /** Appending text changes no match that was already complete. */
  lemma AtPrefix(s: string, d: string, pat: string, i: nat)
    requires i + |pat| <= |s|
    ensures At(s + d, pat, i) <==> At(s, pat, i)
  {
    assert (s + d)[i..i + |pat|] == s[i..i + |pat|];
  }

  /** Dropping the first `n` characters shifts matches by `n`. */
  lemma AtDrop(s: string, n: nat, pat: string, i: nat)
    requires n <= |s|
    ensures At(s, pat, n + i) <==> At(s[n..], pat, i)
  {
    if n + i + |pat| <= |s| {
      assert s[n + i..n + i + |pat|] == s[n..][i..i + |pat|];
    }
  }

  /** A first match stays the first match when text is appended. */
  lemma FindExtend(s: string, d: string, pat: string)
    requires Find(s, pat).Some?
    ensures Find(s + d, pat) == Find(s, pat)
  {
    FindMeaning(s, pat);
    var i := Find(s, pat).value;
    AtPrefix(s, d, pat, i);
    forall j: nat | j < i ensures !At(s + d, pat, j) {
      AtPrefix(s, d, pat, j);
    }
    FirstIsFind(s + d, pat, i);
  }

  /** Where a search would end when `n` characters are put in front. */
  function Shift(r: Option<nat>, n: nat): Option<nat> {
    match r
    case None => None
    case Some(i) => Some(n + i)
  }

  /** When no match of `s` starts before `n`, searching the rest is enough. */
  lemma FindDrop(s: string, n: nat, pat: string)
    requires n <= |s|
    requires forall j: nat | j < n :: !At(s, pat, j)
    ensures Find(s, pat) == Shift(Find(s[n..], pat), n)
  {
    hide Find;
    hide At;
    var t := s[n..];
    FindMeaning(t, pat);
    match Find(t, pat) {
      case None =>
        forall j: nat ensures !At(s, pat, j) {
          if n <= j {
            AtDrop(s, n, pat, j - n);
          }
        }
        FindMeaning(s, pat);
      case Some(i) =>
        AtDrop(s, n, pat, i);
        forall j: nat | j < n + i ensures !At(s, pat, j) {
          if n <= j {
            AtDrop(s, n, pat, j - n);
          }
        }
        FirstIsFind(s, pat, n + i);
    }
  }

  /** Concatenation of a sequence of strings. */
  function Concat(ss: seq<string>): string {
    if ss == [] then "" else ss[0] + Concat(ss[1..])
  }

  /** At most the first `n` characters. */
  function Take(s: string, n: nat): string {
    if |s| <= n then s else s[..n]
  }

  /** The number of bytes of one character in UTF-8. */
  function CharBytes(c: char): (n: nat)
    ensures 1 <= n <= 4
  {
    var u := c as int;
    if u < 0x80 then 1 else if u < 0x800 then 2 else if u < 0x10000 then 3 else 4
  }

  /** `str::len`: the length in bytes of the UTF-8 encoding. */
  function Bytes(s: string): nat {
    if s == "" then 0 else CharBytes(s[0]) + Bytes(s[1..])
  }

  lemma {:induction false} BytesAppend(a: string, b: string)
    ensures Bytes(a + b) == Bytes(a) + Bytes(b)
  {
    if a == "" {
      assert a + b == b;
    } else {
      assert (a + b)[1..] == a[1..] + b;
      BytesAppend(a[1..], b);
    }
  }
}
