/** UTF-8 by section 3 of RFC 3629: what is well-formed is exactly what encodes scalar values. */
module Unicode {
  import opened BigEndian
  import Text
  import Utf8

  predicate IsScalar(u: int) {
    0 <= u < 0xD800 || 0xE000 <= u < 0x110000
  }

  /** The bytes of one scalar value. */
  function Encoded(u: int): seq<byte>
    requires IsScalar(u)
  {
    if u < 0x80 then [u]
    else if u < 0x800 then [0xC0 + u / 64, 0x80 + u % 64]
    else if u < 0x10000 then [0xE0 + u / 4096, 0x80 + u / 64 % 64, 0x80 + u % 64]
    else [0xF0 + u / 262144, 0x80 + u / 4096 % 64, 0x80 + u / 64 % 64, 0x80 + u % 64]
  }

  predicate AllScalar(us: seq<int>) {
    forall i | 0 <= i < |us| :: IsScalar(us[i])
  }

  function EncodedAll(us: seq<int>): seq<byte>
    requires AllScalar(us)
  {
    if us == [] then [] else Encoded(us[0]) + EncodedAll(us[1..])
  }

  /** The bytes are these ASCII characters, one byte each. */
  ghost predicate Spells(b: seq<byte>, s: string) {
    |b| == |s| && forall i | 0 <= i < |b| :: b[i] == s[i] as int && b[i] < 128
  }

  /** The characters are numbered by their scalar values. */
  function Scalars(s: string): seq<int> {
    seq(|s|, i requires 0 <= i < |s| => s[i] as int)
  }

  lemma FirstEncoded(u: int, rest: seq<byte>)
    requires IsScalar(u)
    ensures Encoded(u) != [] && Utf8.CharLen(Encoded(u) + rest) == |Encoded(u)|
  {
  }

  lemma Digits64(x: int, y: int)
    requires 0 <= y < 64
    ensures (64 * x + y) / 64 == x && (64 * x + y) % 64 == y
  {
  }

  lemma TwoBytes(a: byte, b: byte)
    requires 0xC2 <= a <= 0xDF && Utf8.Cont(b)
    ensures var u: int := 64 * (a as int - 0xC0) + (b as int - 0x80); IsScalar(u) && Encoded(u) == [a, b]
  {
    Digits64(a as int - 0xC0, b as int - 0x80);
  }

  lemma ThreeBytes(a: byte, b: byte, c: byte)
    requires 0xE0 <= a <= 0xEF && Utf8.Cont(b) && Utf8.Cont(c)
    requires (a == 0xE0 ==> 0xA0 <= b) && (a == 0xED ==> b <= 0x9F)
    ensures var u: int := 64 * (64 * (a as int - 0xE0) + (b as int - 0x80)) + (c as int - 0x80); IsScalar(u) && Encoded(u) == [a, b, c]
  {
    var high := 64 * (a as int - 0xE0) + (b as int - 0x80);
    var u := 64 * high + (c as int - 0x80);
    Digits64(high, c as int - 0x80);
    Digits64(a as int - 0xE0, b as int - 0x80);
    assert u / 4096 == u / 64 / 64;
  }

  lemma FourBytes(a: byte, b: byte, c: byte, d: byte)
    requires 0xF0 <= a <= 0xF4 && Utf8.Cont(b) && Utf8.Cont(c) && Utf8.Cont(d)
    requires (a == 0xF0 ==> 0x90 <= b) && (a == 0xF4 ==> b <= 0x8F)
    ensures var u: int := 64 * (64 * (64 * (a as int - 0xF0) + (b as int - 0x80)) + (c as int - 0x80)) + (d as int - 0x80);
            IsScalar(u) && Encoded(u) == [a, b, c, d]
  {
    var top := 64 * (a as int - 0xF0) + (b as int - 0x80);
    var high := 64 * top + (c as int - 0x80);
    var u := 64 * high + (d as int - 0x80);
    Digits64(high, d as int - 0x80);
    Digits64(top, c as int - 0x80);
    Digits64(a as int - 0xF0, b as int - 0x80);
    assert u / 4096 == u / 64 / 64 && u / 262144 == u / 64 / 64 / 64;
  }

  /** The scalar value of a well-formed character. */
  lemma Decoded(s: seq<byte>) returns (u: int)
    requires s != [] && Utf8.CharLen(s) > 0
    ensures IsScalar(u) && Encoded(u) == s[..Utf8.CharLen(s)]
  {
    hide Encoded;
    var n := Utf8.CharLen(s);
    if n == 1 {
      u := s[0];
      OneByte(s[0]);
      assert s[..1] == [s[0]];
    } else if n == 2 {
      u := 64 * (s[0] as int - 0xC0) + (s[1] as int - 0x80);
      TwoBytes(s[0], s[1]);
      assert s[..2] == [s[0], s[1]];
    } else if n == 3 {
      u := 64 * (64 * (s[0] as int - 0xE0) + (s[1] as int - 0x80)) + (s[2] as int - 0x80);
      ThreeBytes(s[0], s[1], s[2]);
      assert s[..3] == [s[0], s[1], s[2]];
    } else {
      u := 64 * (64 * (64 * (s[0] as int - 0xF0) + (s[1] as int - 0x80)) + (s[2] as int - 0x80)) + (s[3] as int - 0x80);
      FourBytes(s[0], s[1], s[2], s[3]);
      assert s[..4] == [s[0], s[1], s[2], s[3]];
    }
  }

  lemma OneByte(a: byte)
    requires a <= 0x7F
    ensures IsScalar(a) && Encoded(a) == [a]
  {
  }

  lemma {:induction false} EncodedIsValid(us: seq<int>)
    requires AllScalar(us)
    ensures Utf8.ValidUtf8(EncodedAll(us))
  {
    hide Encoded;
    hide Utf8.CharLen;
    if us != [] {
      var rest := EncodedAll(us[1..]);
      EncodedIsValid(us[1..]);
      FirstEncoded(us[0], rest);
      assert (Encoded(us[0]) + rest)[|Encoded(us[0])|..] == rest;
    }
  }

  lemma {:induction false} ValidIsEncoded(s: seq<byte>) returns (us: seq<int>)
    requires Utf8.ValidUtf8(s)
    ensures AllScalar(us) && EncodedAll(us) == s
    decreases |s|
  {
    hide Encoded;
    hide Utf8.CharLen;
    us := [];
    if s != [] {
      var n := Utf8.CharLen(s);
      var u := Decoded(s);
      var rest := ValidIsEncoded(s[n..]);
      us := [u] + rest;
      assert us[1..] == rest && s == s[..n] + s[n..];
    }
  }

  /** Bytes are well-formed exactly when they encode scalar values. */
  lemma ValidIff(s: seq<byte>)
    ensures Utf8.ValidUtf8(s) <==> exists us :: AllScalar(us) && EncodedAll(us) == s
  {
    hide Utf8.ValidUtf8;
    hide EncodedAll;
    if Utf8.ValidUtf8(s) {
      var us := ValidIsEncoded(s);
    }
    forall us | AllScalar(us) && EncodedAll(us) == s ensures Utf8.ValidUtf8(s) {
      EncodedIsValid(us);
    }
  }

  lemma EncodedBytes(u: int)
    requires IsScalar(u)
    ensures Encoded(u) != [] && !Utf8.Cont(Encoded(u)[0]) && forall i | 1 <= i < |Encoded(u)| :: Utf8.Cont(Encoded(u)[i])
  {
  }

  lemma EncodedFront(us: seq<int>, n: nat)
    requires AllScalar(us) && 1 <= n <= |us|
    ensures |EncodedAll(us[..n])| == |Encoded(us[0])| + |EncodedAll(us[1..][..n - 1])|
  {
    hide Encoded;
    assert us[..n][1..] == us[1..][..n - 1];
  }

  /** Some of the scalar values, from the first on, take `k` bytes. */
  ghost predicate EndsAt(us: seq<int>, k: nat)
    requires AllScalar(us)
  {
    exists n: nat :: n <= |us| && |EncodedAll(us[..n])| == k
  }

  lemma EndsLater(us: seq<int>, k: nat)
    requires us != [] && AllScalar(us)
    ensures k >= |Encoded(us[0])| ==> (EndsAt(us, k) <==> EndsAt(us[1..], k - |Encoded(us[0])|))
    ensures 0 < k < |Encoded(us[0])| ==> !EndsAt(us, k)
    ensures EndsAt(us, 0)
  {
    var e := |Encoded(us[0])|;
    hide Encoded;
    hide EncodedAll;
    forall n: nat | 1 <= n <= |us| ensures |EncodedAll(us[..n])| == e + |EncodedAll(us[1..][..n - 1])| {
      EncodedFront(us, n);
    }
    NothingEncoded(us);
    if k >= e && EndsAt(us[1..], k - e) {
      var n: nat :| n <= |us[1..]| && |EncodedAll(us[1..][..n])| == k - e;
      assert |EncodedAll(us[..n + 1])| == k;
    }
  }

  lemma NothingEncoded(us: seq<int>)
    ensures us[..0] == [] && |EncodedAll(us[..0])| == 0
  {
  }

  /** A character boundary is where some of the scalar values end. */
  lemma {:induction false} BoundaryIff(us: seq<int>, k: nat)
    requires AllScalar(us) && k <= |EncodedAll(us)|
    ensures Utf8.Boundary(EncodedAll(us), k) <==> EndsAt(us, k)
    decreases |us|
  {
    hide Encoded;
    hide EndsAt;
    if us == [] {
      EmptyEnds();
    } else {
      var e, rest := Encoded(us[0]), EncodedAll(us[1..]);
      EndsLater(us, k);
      EncodedBytes(us[0]);
      if k >= |e| {
        BoundaryIff(us[1..], k - |e|);
        if rest != [] {
          EncodedBytes(us[1]);
          assert rest[0] == Encoded(us[1])[0];
        }
      }
    }
  }

  lemma EmptyEnds()
    ensures EndsAt([], 0)
  {
    NothingEncoded([]);
  }

  /** The length of a string in bytes is the length of its encoding. */
  lemma {:induction false} BytesAreEncoded(s: string)
    ensures AllScalar(Scalars(s)) && |EncodedAll(Scalars(s))| == Text.Bytes(s)
    decreases |s|
  {
    if s != "" {
      BytesAreEncoded(s[1..]);
      assert Scalars(s)[1..] == Scalars(s[1..]);
    }
  }
}
