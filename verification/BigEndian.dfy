/** Bytes and big-endian integers of a fixed width, unsigned and in two's complement. */
module BigEndian {
  type byte = b: int | 0 <= b < 256

  function Pow256(w: nat): (p: nat)
    ensures 0 < p
  {
    if w == 0 then 1 else 256 * Pow256(w - 1)
  }

  /** `from_be_bytes` of an unsigned integer. */
  function FromBE(s: seq<byte>): nat {
    if s == [] then 0 else 256 * FromBE(s[..|s| - 1]) + s[|s| - 1]
  }

  /** `to_be_bytes` of the lowest `w` bytes. */
  function ToBE(n: nat, w: nat): (s: seq<byte>)
    ensures |s| == w
  {
    if w == 0 then [] else ToBE(n / 256, w - 1) + [n % 256]
  }

  lemma {:induction false} FromTo(n: nat, w: nat)
    requires n < Pow256(w)
    ensures FromBE(ToBE(n, w)) == n
  {
    if w > 0 {
      FromTo(n / 256, w - 1);
      assert ToBE(n, w)[..w - 1] == ToBE(n / 256, w - 1);
    }
  }

  lemma {:induction false} ToFrom(s: seq<byte>)
    ensures FromBE(s) < Pow256(|s|) && ToBE(FromBE(s), |s|) == s
  {
    if s != [] {
      var high, low := FromBE(s[..|s| - 1]), s[|s| - 1];
      ToFrom(s[..|s| - 1]);
      assert (256 * high + low) / 256 == high && (256 * high + low) % 256 == low;
      assert s == s[..|s| - 1] + [s[|s| - 1]];
    }
  }

  /** `v` has a two's complement of `w` bytes. */
  predicate FitsSigned(v: int, w: nat) {
    0 <= 2 * v + Pow256(w) && 2 * v < Pow256(w)
  }

  function Signed(u: nat, w: nat): int {
    if 2 * u < Pow256(w) then u else u - Pow256(w)
  }

  function Unsigned(v: int, w: nat): nat
    requires FitsSigned(v, w)
  {
    if 0 <= v then v else v + Pow256(w)
  }

  lemma SignedUnsigned(v: int, w: nat)
    requires FitsSigned(v, w)
    ensures Unsigned(v, w) < Pow256(w) && Signed(Unsigned(v, w), w) == v
  {
  }

  lemma UnsignedSigned(u: nat, w: nat)
    requires u < Pow256(w)
    ensures FitsSigned(Signed(u, w), w) && Unsigned(Signed(u, w), w) == u
  {
  }

  lemma Pow256Values()
    ensures Pow256(1) == 0x100 && Pow256(2) == 0x1_0000 && Pow256(4) == 0x1_0000_0000
  {
    assert Pow256(0) == 1;
    assert Pow256(3) == 256 * Pow256(2);
  }
}
