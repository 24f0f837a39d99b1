/** Where each byte of a header and of a frame is: type codes, widths and byte order. */
module WireFormat {
  import opened Wrappers
  import opened BigEndian
  import opened Headers
  import opened EventStream

  // ---- byte order --------------------------------------------------------------------------

  /** `b` is the integer `v` in two's complement, the most significant byte first. */
  ghost predicate MostSignificantFirst(b: seq<byte>, v: int) {
    forall i | 0 <= i < |b| :: b[i] == v / Pow256(|b| - 1 - i) % 256
  }

  lemma DivideTwice(n: int, p: nat)
    requires 0 < p
    ensures n / 256 / p == n / (256 * p)
  {
    var q, r := n / (256 * p), n % (256 * p);
    assert n == 256 * (p * q) + r;
    assert n / 256 == p * q + r / 256;
    assert r / 256 < p;
    Quotient(n / 256, p, q, r / 256);
  }

  lemma Quotient(n: int, p: nat, q: int, r: int)
    requires 0 <= r < p && n == p * q + r
    ensures n / p == q
  {
    var k, m := n / p, n % p;
    assert n == p * k + m && 0 <= m < p;
    Apart(p, k, q, r, m);
    Apart(p, q, k, m, r);
  }

  /** Two quotients with remainders of the same number do not differ. */
  lemma Apart(p: nat, k: int, q: int, r: int, m: int)
    requires p * k + m == p * q + r && 0 <= r < p && 0 <= m < p
    ensures k <= q
  {
    if k > q {
      assert p * k == p * (k - q - 1) + p * q + p;
      Grows(p, k - q - 1);
    }
  }

  lemma Grows(p: nat, d: nat)
    ensures p * d >= 0
  {
  }

  lemma {:induction false} InOrder(n: nat, w: nat)
    ensures MostSignificantFirst(ToBE(n, w), n)
  {
    if w > 0 {
      InOrder(n / 256, w - 1);
      var b := ToBE(n, w);
      assert b[..w - 1] == ToBE(n / 256, w - 1);
      forall i | 0 <= i < w ensures b[i] == n / Pow256(w - 1 - i) % 256 {
        if i < w - 1 {
          assert b[i] == ToBE(n / 256, w - 1)[i];
          DivideTwice(n, Pow256(w - 2 - i));
        } else {
          assert Pow256(0) == 1;
        }
      }
    }
  }

  lemma {:induction false} PowSplit(a: nat, b: nat)
    ensures Pow256(a + b) == Pow256(a) * Pow256(b)
  {
    if a > 0 {
      PowSplit(a - 1, b);
      assert Pow256(a + b) == 256 * Pow256(a - 1 + b);
      assert 256 * (Pow256(a - 1) * Pow256(b)) == (256 * Pow256(a - 1)) * Pow256(b);
    } else {
      assert Pow256(0) == 1;
    }
  }

  /** Adding a multiple of 256 times the divisor changes no byte. */
  lemma SameByte(v: int, p: nat, k: int)
    requires 0 < p
    ensures (v + 256 * k * p) / p % 256 == v / p % 256
  {
    assert v + 256 * k * p == p * (v / p + 256 * k) + v % p;
    Quotient(v + 256 * k * p, p, v / p + 256 * k, v % p);
  }

  /** Negative integers too are sent in two's complement, the most significant byte first. */
  lemma SignedInOrder(v: int, w: nat)
    requires FitsSigned(v, w)
    ensures MostSignificantFirst(ToBE(Unsigned(v, w), w), v)
  {
    var u := Unsigned(v, w);
    InOrder(u, w);
    var b := ToBE(u, w);
    forall i | 0 <= i < |b| ensures b[i] == v / Pow256(|b| - 1 - i) % 256 {
      if v < 0 {
        var p := Pow256(w - 1 - i);
        PowSplit(i + 1, w - 1 - i);
        assert Pow256(i + 1) == 256 * Pow256(i);
        assert (256 * Pow256(i)) * p == 256 * Pow256(i) * p;
        SameByte(v, p, Pow256(i));
      }
    }
  }

  lemma NumberRead(b: seq<byte>, n: nat)
    requires n < Pow256(|b|) && MostSignificantFirst(b, n)
    ensures FromBE(b) == n
  {
    InOrder(n, |b|);
    assert b == ToBE(n, |b|);
    FromTo(n, |b|);
  }

  // ---- headers -----------------------------------------------------------------------------------

  /** The type code of a value and the bytes behind it. */
  ghost predicate IsValue(code: int, body: seq<byte>, value: HeaderValue) {
    match value
    case Bool(flag) => code == (if flag then 0 else 1) && body == []
    case Byte(v) => code == 2 && |body| == 1 && MostSignificantFirst(body, v)
    case Short(v) => code == 3 && |body| == 2 && MostSignificantFirst(body, v)
    case Int(v) => code == 4 && |body| == 4 && MostSignificantFirst(body, v)
    case Long(v) => code == 5 && |body| == 8 && MostSignificantFirst(body, v)
    case Bytes(b) => code == 6 && |body| == 2 + |b| && MostSignificantFirst(body[..2], |b|) && body[2..] == b
    case Str(b) => code == 7 && |body| == 2 + |b| && MostSignificantFirst(body[..2], |b|) && body[2..] == b
    case Timestamp(v) => code == 8 && |body| == 8 && MostSignificantFirst(body, v)
    case Uuid(b) => code == 9 && body == b
  }

  lemma ValueLayout(value: HeaderValue)
    requires FitsValue(value)
    ensures IsValue(KindOf(value), EncodeBody(value), value)
  {
    hide MostSignificantFirst;
    match value
    case Bool(_) =>
    case Bytes(b) =>
      InOrder(|b|, 2);
      assert EncodeBody(value)[..2] == ToBE(|b|, 2);
    case Str(b) =>
      InOrder(|b|, 2);
      assert EncodeBody(value)[..2] == ToBE(|b|, 2);
    case Uuid(b) =>
    case _ => SignedInOrder(value.v, Width(KindOf(value)));
  }

  /** A header is the length of its name, the name, the type code of its value, and the value. */
  lemma HeaderLayout(h: Header)
    requires FitsHeader(h)
    ensures var s, n := EncodeHeader(h), |h.name|;
            |s| >= n + 2 && s[0] == n && s[1..n + 1] == h.name && IsValue(s[n + 1], s[n + 2..], h.value)
  {
    hide EncodeBody;
    hide IsValue;
    hide FitsValue;
    hide TypedValue;
    ValueLayout(h.value);
    Layout(|h.name| as byte, h.name, KindOf(h.value), EncodeBody(h.value), []);
    var s, n := EncodeHeader(h), |h.name|;
    assert s + [] == s && EncodeBody(h.value) + [] == EncodeBody(h.value);
  }

  // ---- frames --------------------------------------------------------------------------------------

  /** A checksum in four bytes. */
  ghost predicate IsChecksum(b: seq<byte>, crc: Crc, of: seq<byte>) {
    |b| == 4 && MostSignificantFirst(b, crc(of))
  }

  /**
   A frame is its own length and that of its headers, the checksum of these eight bytes, the
   headers, the payload, and the checksum of everything before it.
   */
  lemma FrameLayout(crc: Crc, f: Frame)
    requires FitsFrame(f)
    ensures var s, h := Encode(crc, f), EncodeHeaders(f.headers);
            && |s| == 16 + |h| + |f.payload|
            && MostSignificantFirst(s[..4], |s|)
            && MostSignificantFirst(s[4..8], |h|)
            && IsChecksum(s[8..12], crc, s[..8])
            && s[12..12 + |h|] == h
            && s[12 + |h|..|s| - 4] == f.payload
            && IsChecksum(s[|s| - 4..], crc, s[..|s| - 4])
  {
    hide ToBE;
    hide MostSignificantFirst;
    hide EncodeHeaders;
    hide FitsAll;
    var h, n := EncodeHeaders(f.headers), |f.payload|;
    InOrder(16 + |h| + n, 4);
    InOrder(|h|, 4);
    var lengths := Lengths(|h|, n);
    assert lengths == ToBE(16 + |h| + n, 4) + ToBE(|h|, 4);
    InOrder(crc(lengths), 4);
    var block := Sealed(crc, lengths) + h + f.payload;
    InOrder(crc(block), 4);
    Parts(Sealed(crc, lengths), h, f.payload, ToBE(crc(block), 4));
    FramePlaces(ToBE(16 + |h| + n, 4), ToBE(|h|, 4), ToBE(crc(lengths), 4), h + f.payload, ToBE(crc(block), 4));
    Regrouped(lengths, ToBE(crc(lengths), 4), h, f.payload, ToBE(crc(block), 4));
    assert Encode(crc, f) == block + ToBE(crc(block), 4);
    assert Encode(crc, f)[..|block|] == block;
  }

  lemma FramePlaces(a: seq<byte>, b: seq<byte>, c: seq<byte>, rest: seq<byte>, d: seq<byte>)
    requires |a| == 4 && |b| == 4 && |c| == 4 && |d| == 4
    ensures var s := a + b + c + rest + d;
            s[..4] == a && s[4..8] == b && s[8..12] == c && s[..8] == a + b && s[|s| - 4..] == d
  {
  }

  lemma Regrouped(a: seq<byte>, b: seq<byte>, c: seq<byte>, d: seq<byte>, e: seq<byte>)
    ensures a + b + c + d + e == a + b + (c + d) + e
  {
  }

  /** The numbers in front of a frame: its length, that of its headers, and the checksum of these eight bytes. */
  ghost predicate Announces(data: seq<byte>, total: u32, headers: u32, check: u32) {
    && |data| >= 12 && MostSignificantFirst(data[..4], total)
    && MostSignificantFirst(data[4..8], headers) && MostSignificantFirst(data[8..12], check)
  }

  lemma AnnouncedRead(data: seq<byte>, total: u32, headers: u32, check: u32)
    requires Announces(data, total, headers, check)
    ensures var p := data[..12]; FromBE(p[..4]) == total && FromBE(p[4..8]) == headers && FromBE(p[8..]) == check && p[..8] == data[..8]
  {
    hide FromBE;
    hide MostSignificantFirst;
    Pow256Values();
    NumberRead(data[..4], total);
    NumberRead(data[4..8], headers);
    NumberRead(data[8..12], check);
    var p := data[..12];
    assert p[..4] == data[..4] && p[4..8] == data[4..8] && p[8..] == data[8..12] && p[..8] == data[..8];
  }

  /** Whether bytes are waited for or refused by what they announce, and with which error. */
  lemma PreludeVerdict(crc: Crc, data: seq<byte>, total: u32, headers: u32, check: u32)
    requires Announces(data, total, headers, check)
    ensures var d := Decode(crc, data);
            && (crc(data[..8]) != check ==> d == Bad(PreludeCrc(crc(data[..8]), check)))
            && (crc(data[..8]) == check ==>
                  && (total < 16 ==> d == Bad(TooSmall(total)))
                  && (total > 4194304 ==> d == Bad(TooLarge(total, 4194304)))
                  && (16 <= total <= 4194304 && (headers > total - 16 || headers > 131072) ==> d == Bad(HeadersOverrun(headers)))
                  && (16 <= total <= 4194304 && headers <= total - 16 && headers <= 131072 && |data| < total ==> d == NeedMore))
  {
    hide FromBE;
    hide Announces;
    hide ReadFrame;
    AnnouncedRead(data, total, headers, check);
    assert |data| >= 12 by { AnnouncedLong(data, total, headers, check); }
  }

  lemma AnnouncedLong(data: seq<byte>, total: u32, headers: u32, check: u32)
    requires Announces(data, total, headers, check)
    ensures |data| >= 12
  {
  }

  /** A frame that is all there is refused for its checksum first, then for a header. */
  lemma FrameVerdict(crc: Crc, data: seq<byte>, total: u32, headers: u32, last: u32)
    requires |data| >= 12 && Announces(data, total, headers, crc(data[..8]))
    requires 16 <= total <= 4194304 && headers <= total - 16 && headers <= 131072 && total <= |data|
    requires MostSignificantFirst(data[total - 4..total], last)
    ensures var d, computed := Decode(crc, data), crc(data[..total - 4]);
            && (computed != last ==> d == Bad(MessageCrc(computed, last)))
            && (computed == last ==> forall hs, offset ::
                  && (ParseAll(data[12..12 + headers], 0) == Ok(hs) ==> d == Got(Frame(hs, data[12 + headers..total - 4]), total))
                  && (ParseAll(data[12..12 + headers], 0) == Err(offset) ==> d == Bad(BadHeader(offset))))
  {
    hide FromBE;
    hide ParseAll;
    hide MostSignificantFirst;
    AnnouncedRead(data, total, headers, crc(data[..8]));
    Pow256Values();
    NumberRead(data[total - 4..total], last);
    var s := data[..total];
    assert s[total - 4..] == data[total - 4..total] && s[..total - 4] == data[..total - 4];
    assert s[12..12 + headers] == data[12..12 + headers] && s[12 + headers..total - 4] == data[12 + headers..total - 4];
  }

  /** No header that can be sent is at the start of the bytes. */
  ghost predicate NoHeaderAt(data: seq<byte>) {
    forall h | FitsHeader(h) :: !(EncodeHeader(h) <= data)
  }

  lemma HeaderIsParsed(data: seq<byte>, h: Header)
    requires FitsHeader(h) && data != []
    ensures EncodeHeader(h) <= data ==> ParseHeader(data).Some?
  {
    hide ParseHeader;
    hide EncodeHeader;
    if EncodeHeader(h) <= data {
      var tail := data[|EncodeHeader(h)|..];
      assert data == EncodeHeader(h) + tail;
      ParseEncodedHeader(h, tail);
    }
  }

  lemma NoneThere(data: seq<byte>)
    requires data != [] && ParseHeader(data).None?
    ensures NoHeaderAt(data)
  {
    hide ParseHeader;
    hide EncodeHeader;
    forall h | FitsHeader(h) ensures EncodeHeader(h) <= data ==> ParseHeader(data).Some? {
      HeaderIsParsed(data, h);
    }
  }

  /** The offset that is reported is where well-formed headers end and no header follows. */
  lemma {:induction false} MalformedAt(data: seq<byte>, start: nat, offset: nat) returns (hs: seq<Header>)
    requires ParseAll(data, start) == Err(offset)
    ensures start <= offset < start + |data| && FitsAll(hs) && EncodeHeaders(hs) == data[..offset - start]
    ensures NoHeaderAt(data[offset - start..])
    decreases |data|
  {
    hide ParseHeader;
    hide EncodeHeader;
    hide EncodeHeaders;
    hide FitsHeader;
    hide FitsAll;
    hide NoHeaderAt;
    if ParseHeader(data).None? {
      hs := [];
      NothingEncoded();
      assert data[..0] == [] && data[0..] == data;
      NoneThere(data);
    } else {
      var p := ParseHeader(data).value;
      EncodeParsedHeader(data);
      var rest := MalformedAt(data[p.n..], start + p.n, offset);
      EncodeCons(p.header, rest);
      hs := [p.header] + rest;
      Cut(data, p.n, offset - start);
    }
  }

  lemma NothingEncoded()
    ensures FitsAll([]) && EncodeHeaders([]) == []
  {
  }

  lemma Cut(data: seq<byte>, n: nat, k: nat)
    requires n <= k <= |data|
    ensures data[..k] == data[..n] + data[n..][..k - n] && data[n..][k - n..] == data[k..]
  {
  }
}
