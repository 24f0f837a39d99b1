/** Well-formed UTF-8 and its character boundaries. */
module Utf8 {
  import opened BigEndian

  predicate Cont(b: byte) { 0x80 <= b <= 0xBF }

  /** The length of the character at the start of `s`, 0 when it is malformed: table 3-7 of the Unicode Standard. */
  function CharLen(s: seq<byte>): (n: nat)
    requires s != []
    ensures n <= 4 && n <= |s|
  {
    if s[0] <= 0x7F then 1
    else if |s| >= 2 && 0xC2 <= s[0] <= 0xDF && Cont(s[1]) then 2
    else if |s| >= 3 && 0xE0 <= s[0] <= 0xEF && Cont(s[1]) && Cont(s[2])
      && (s[0] == 0xE0 ==> 0xA0 <= s[1]) && (s[0] == 0xED ==> s[1] <= 0x9F) then 3
    else if |s| >= 4 && 0xF0 <= s[0] <= 0xF4 && Cont(s[1]) && Cont(s[2]) && Cont(s[3])
      && (s[0] == 0xF0 ==> 0x90 <= s[1]) && (s[0] == 0xF4 ==> s[1] <= 0x8F) then 4
    else 0
  }

  predicate ValidUtf8(s: seq<byte>) {
    s == [] || (CharLen(s) > 0 && ValidUtf8(s[CharLen(s)..]))
  }

  /** `is_char_boundary`. */
  predicate Boundary(s: seq<byte>, i: nat) {
    i == 0 || i == |s| || (i < |s| && !Cont(s[i]))
  }

  lemma CharBytes(s: seq<byte>)
    requires s != [] && CharLen(s) > 0
    ensures !Cont(s[0]) && forall i | 1 <= i < CharLen(s) :: Cont(s[i])
    ensures CharLen(s) > 1 ==> s[0] >= 0x80
  {
  }

  lemma CharLenPrefix(s: seq<byte>, t: seq<byte>)
    requires s != [] && CharLen(s) > 0
    ensures CharLen(s + t) == CharLen(s)
    ensures forall k | CharLen(s) <= k <= |s| :: s[..k] != [] && CharLen(s[..k]) == CharLen(s)
  {
  }

  /** A valid string cut at a boundary is two valid strings. */
  lemma {:induction false} ValidCut(s: seq<byte>, k: nat)
    requires ValidUtf8(s) && k <= |s| && Boundary(s, k)
    ensures ValidUtf8(s[..k]) && ValidUtf8(s[k..])
    decreases |s|
  {
    hide CharLen;
    if k == 0 {
      assert s[0..] == s;
    } else {
      var n := CharLen(s);
      CharBytes(s);
      ValidCut(s[n..], k - n);
      CharLenPrefix(s, []);
      assert s[..k][n..] == s[n..][..k - n] && s[n..][k - n..] == s[k..];
    }
  }

  lemma {:induction false} ValidAppend(a: seq<byte>, b: seq<byte>)
    requires ValidUtf8(a) && ValidUtf8(b)
    ensures ValidUtf8(a + b)
    decreases |a|
  {
    hide CharLen;
    if a == [] {
      assert a + b == b;
    } else {
      var n := CharLen(a);
      CharLenPrefix(a, b);
      assert (a + b)[n..] == a[n..] + b;
      ValidAppend(a[n..], b);
    }
  }
}
