/** Scrubbing AWS identifiers out of messages, and capping them, on the bytes of a string. */
module Scrub {
  import opened BigEndian
  import opened Utf8

  /** `***` and `arn:***`. */
  const STARS: seq<byte> := [0x2A, 0x2A, 0x2A]
  const HIDDEN: seq<byte> := [0x61, 0x72, 0x6E, 0x3A, 0x2A, 0x2A, 0x2A]

  predicate IsDigit(b: byte) { 0x30 <= b <= 0x39 }

  /** ASCII whitespace or a quote ends an ARN. */
  predicate IsDelimiter(b: byte) {
    b == 0x20 || b == 0x09 || b == 0x0A || b == 0x0C || b == 0x0D || b == 0x22 || b == 0x27
  }

  predicate StartsArn(s: seq<byte>) {
    |s| >= 4 && s[0] == 0x61 && s[1] == 0x72 && s[2] == 0x6E && s[3] == 0x3A
  }

  /** The bytes before the first delimiter. */
  function UpToDelimiter(s: seq<byte>): (n: nat)
    ensures n <= |s| && (n < |s| ==> IsDelimiter(s[n]))
  {
    if s == [] || IsDelimiter(s[0]) then 0 else 1 + UpToDelimiter(s[1..])
  }

  function DigitRun(s: seq<byte>): (n: nat)
    ensures n <= |s| && (n < |s| ==> !IsDigit(s[n])) && (s != [] && IsDigit(s[0]) ==> 0 < n)
  {
    if s == [] || !IsDigit(s[0]) then 0 else 1 + DigitRun(s[1..])
  }

  /** What becomes of a run of digits. */
  function Masked(digits: seq<byte>): seq<byte> {
    if |digits| == 12 then STARS else digits
  }

  /** Scrubbing byte by byte: an ARN, a run of digits, or any other byte. */
  function Scrubbed(s: seq<byte>): seq<byte>
    decreases |s|
  {
    if s == [] then []
    else if StartsArn(s) then HIDDEN + Scrubbed(s[4 + UpToDelimiter(s[4..])..])
    else if IsDigit(s[0]) then Masked(s[..DigitRun(s)]) + Scrubbed(s[DigitRun(s)..])
    else [s[0]] + Scrubbed(s[1..])
  }

  // ---- the loop over the characters of a valid string ----------------------------------------

  lemma CopyByte(s: seq<byte>)
    requires s != [] && !StartsArn(s) && !IsDigit(s[0])
    ensures Scrubbed(s) == [s[0]] + Scrubbed(s[1..])
  {
    hide UpToDelimiter;
    hide DigitRun;
  }

  /** The bytes of one character that is no digit and starts no ARN are copied. */
  lemma {:induction false} CopyChar(s: seq<byte>, n: nat)
    requires 1 <= n <= |s| && !StartsArn(s) && !IsDigit(s[0])
    requires forall i | 1 <= i < n :: Cont(s[i])
    ensures Scrubbed(s) == s[..n] + Scrubbed(s[n..])
    decreases n
  {
    hide Scrubbed;
    CopyByte(s);
    if n == 1 {
      assert s[..1] == [s[0]];
    } else {
      assert Cont(s[1]);
      assert !StartsArn(s[1..]) && !IsDigit(s[1]);
      CopyChar(s[1..], n - 1);
      assert s[1..][n - 1..] == s[n..] && [s[0]] + s[1..][..n - 1] == s[..n];
      assert [s[0]] + (s[1..][..n - 1] + Scrubbed(s[n..])) == ([s[0]] + s[1..][..n - 1]) + Scrubbed(s[n..]);
    }
  }

  lemma {:induction false} DigitsAreAscii(s: seq<byte>, i: nat)
    requires i < DigitRun(s)
    ensures IsDigit(s[i])
    decreases i
  {
    if i > 0 {
      DigitsAreAscii(s[1..], i - 1);
    }
  }

  /** After a run of digits a character begins. */
  lemma {:induction false} DigitsEnd(s: seq<byte>, n: nat)
    requires ValidUtf8(s) && n == DigitRun(s)
    ensures Boundary(s, n)
    decreases n
  {
    if n > 0 {
      DigitsEnd(s[1..], n - 1);
      assert n < |s| ==> s[1..][n - 1] == s[n];
    } else if s != [] {
      CharBytes(s);
    }
  }

  /** One round of the loop: how far it goes and what it writes. */
  datatype Round = Round(n: nat, out: seq<byte>)

  function OneRound(s: seq<byte>): (r: Round)
    requires s != [] && ValidUtf8(s)
    ensures 1 <= r.n <= |s|
  {
    if StartsArn(s) then Round(4 + UpToDelimiter(s[4..]), HIDDEN)
    else if IsDigit(s[0]) then Round(DigitRun(s), Masked(s[..DigitRun(s)]))
    else Round(CharLen(s), s[..CharLen(s)])
  }

  /** A round writes what scrubbing writes, and ends on a character boundary. */
  lemma RoundScrubs(s: seq<byte>)
    requires s != [] && ValidUtf8(s)
    ensures var r := OneRound(s);
            Scrubbed(s) == r.out + Scrubbed(s[r.n..]) && Boundary(s, r.n) && ValidUtf8(s[r.n..]) && ValidUtf8(r.out)
  {
    hide ValidUtf8;
    hide UpToDelimiter;
    hide DigitRun;
    assert CharLen(s) > 0 by { FirstChar(s); }
    var r := OneRound(s);
    if StartsArn(s) {
      assert r.n < |s| ==> s[r.n] == s[4..][r.n - 4];
      HiddenValid();
    } else if IsDigit(s[0]) {
      DigitsEnd(s, r.n);
      HiddenValid();
    } else {
      CharBytes(s);
      CopyChar(s, r.n);
      NextBoundary(s);
    }
    ValidCut(s, r.n);
  }

  lemma FirstChar(s: seq<byte>)
    requires s != [] && ValidUtf8(s)
    ensures CharLen(s) > 0 && ValidUtf8(s[CharLen(s)..])
  {
  }

  lemma NextBoundary(s: seq<byte>)
    requires s != [] && ValidUtf8(s)
    ensures Boundary(s, CharLen(s))
  {
    hide CharLen;
    FirstChar(s);
    var rest := s[CharLen(s)..];
    if rest != [] {
      FirstChar(rest);
      CharBytes(rest);
    }
  }

  lemma HiddenValid()
    ensures ValidUtf8(HIDDEN) && ValidUtf8(STARS)
  {
    AsciiValid(HIDDEN);
    AsciiValid(STARS);
  }

  lemma {:induction false} AsciiValid(s: seq<byte>)
    requires forall b | b in s :: b <= 0x7F
    ensures ValidUtf8(s)
    decreases |s|
  {
    if s != [] {
      assert s[0] in s && forall b | b in s[1..] :: b in s;
      AsciiValid(s[1..]);
    }
  }

  method SkipArn(s: seq<byte>, i: nat) returns (j: nat)
    requires i + 4 <= |s|
    ensures i + 4 <= j <= |s| && j - i == 4 + UpToDelimiter(s[i..][4..])
  {
    j := i + 4;
    assert s[i..][4..] == s[j..];
    while j < |s| && !IsDelimiter(s[j])
      invariant i + 4 <= j <= |s|
      invariant j - i + UpToDelimiter(s[j..]) == 4 + UpToDelimiter(s[i + 4..])
    {
      assert s[j..][1..] == s[j + 1..];
      j := j + 1;
    }
  }

  method SkipDigits(s: seq<byte>, i: nat) returns (j: nat)
    requires i <= |s|
    ensures i <= j <= |s| && j - i == DigitRun(s[i..])
  {
    j := i;
    while j < |s| && IsDigit(s[j])
      invariant i <= j <= |s|
      invariant j - i + DigitRun(s[j..]) == DigitRun(s[i..])
    {
      assert s[j..][1..] == s[j + 1..];
      j := j + 1;
    }
  }

  /** One round of the loop of `scrub_identifiers` at index `i`. */
  method ScrubAt(s: seq<byte>, i: nat) returns (j: nat, more: seq<byte>)
    requires i < |s| && ValidUtf8(s[i..])
    ensures i < j <= |s| && OneRound(s[i..]) == Round(j - i, more)
  {
    hide UpToDelimiter;
    hide DigitRun;
    var rest := s[i..];
    if StartsArn(rest) {
      j := SkipArn(s, i);
      more := HIDDEN;
    } else if IsDigit(s[i]) {
      j := SkipDigits(s, i);
      assert s[i..j] == rest[..j - i];
      if j - i == 12 {
        more := STARS;
      } else {
        more := s[i..j];
      }
    } else {
      j := i + CharLen(rest);
      assert s[i..j] == rest[..j - i];
      more := s[i..j];
    }
  }

  /** `scrub_identifiers`: the loop stays on character boundaries and its output is a string again. */
  method ScrubIdentifiers(s: seq<byte>) returns (out: seq<byte>)
    requires ValidUtf8(s)
    ensures out == Scrubbed(s) && ValidUtf8(out)
  {
    hide Scrubbed;
    hide ValidUtf8;
    hide OneRound;
    out := [];
    var i := 0;
    StartsValid(s);
    while i < |s|
      invariant 0 <= i <= |s| && Boundary(s, i) && ValidUtf8(s[i..]) && ValidUtf8(out)
      invariant Scrubbed(s) == out + Scrubbed(s[i..])
    {
      var j, more := ScrubAt(s, i);
      RoundScrubs(s[i..]);
      ValidAppend(out, more);
      Moved(s, i, j - i, out, more);
      out := out + more;
      i := j;
    }
    NothingScrubbed(s, i);
    assert out + [] == out;
  }

  lemma StartsValid(s: seq<byte>)
    ensures Scrubbed(s) == [] + Scrubbed(s[0..]) && s[0..] == s && ValidUtf8([])
  {
    assert [] + Scrubbed(s) == Scrubbed(s);
  }

  lemma NothingScrubbed(s: seq<byte>, i: nat)
    requires i == |s|
    ensures Scrubbed(s[i..]) == []
  {
  }

  lemma Moved(s: seq<byte>, i: nat, n: nat, out: seq<byte>, more: seq<byte>)
    requires i + n <= |s| && Boundary(s[i..], n) && n > 0
    ensures s[i..][n..] == s[i + n..] && Boundary(s, i + n)
    ensures out + (more + Scrubbed(s[i + n..])) == out + more + Scrubbed(s[i + n..])
  {
    hide Scrubbed;
  }

  /** `cap`: cut at the last character boundary that fits. */
  method Cap(s: seq<byte>, limit: nat) returns (r: seq<byte>)
    requires ValidUtf8(s)
    ensures ValidUtf8(r) && |r| <= limit && r <= s
    ensures forall k | |r| < k <= limit && k <= |s| :: !Boundary(s, k)
    ensures |s| <= limit ==> r == s
  {
    if |s| <= limit {
      return s;
    }
    var end := limit;
    while !Boundary(s, end)
      invariant 0 <= end <= limit
      invariant forall k | end < k <= limit :: !Boundary(s, k)
      decreases end
    {
      end := end - 1;
    }
    ValidCut(s, end);
    r := s[..end];
  }

  // ---- what scrubbed text looks like ---------------------------------------------------------------

  /** Every ARN is hidden, up to a delimiter or the end, and no run of digits has twelve. */
  predicate Clean(t: seq<byte>)
    decreases |t|
  {
    if t == [] then true
    else if StartsArn(t) then HIDDEN <= t && (|t| == 7 || IsDelimiter(t[7])) && Clean(t[7..])
    else if IsDigit(t[0]) then DigitRun(t) != 12 && Clean(t[DigitRun(t)..])
    else Clean(t[1..])
  }

  /** The output begins with the byte the input begins with, unless that was hidden or masked. */
  lemma FirstByte(s: seq<byte>)
    ensures s == [] ==> Scrubbed(s) == []
    ensures var t := Scrubbed(s);
            t != [] && t[0] != 0x61 && t[0] != 0x2A && !IsDigit(t[0]) ==>
              s != [] && s[0] == t[0] && t == [t[0]] + Scrubbed(s[1..])
    ensures var t := Scrubbed(s); t != [] && IsDigit(t[0]) ==> s != [] && IsDigit(s[0])
    ensures s != [] && IsDelimiter(s[0]) ==> Scrubbed(s) == [s[0]] + Scrubbed(s[1..])
  {
    if s != [] && !StartsArn(s) && IsDigit(s[0]) {
      assert Masked(s[..DigitRun(s)])[0] in [0x2A, s[0]];
    }
  }

  /** A copied byte does not become the start of an ARN. */
  lemma NoNewArn(s: seq<byte>)
    requires s != [] && !StartsArn(s) && !IsDigit(s[0])
    ensures !StartsArn(Scrubbed(s))
  {
    hide IsDigit;
    var t := Scrubbed(s);
    if StartsArn(t) {
      var t1 := Scrubbed(s[1..]);
      assert t == [s[0]] + t1;
      ArnTail(s[1..]);
    }
  }

  lemma ArnTail(s: seq<byte>)
    ensures var t := Scrubbed(s);
            |t| >= 3 && t[0] == 0x72 && t[1] == 0x6E && t[2] == 0x3A ==> |s| >= 3 && s[0] == 0x72 && s[1] == 0x6E && s[2] == 0x3A
  {
    hide Scrubbed;
    var t := Scrubbed(s);
    if |t| >= 3 && t[0] == 0x72 && t[1] == 0x6E && t[2] == 0x3A {
      FirstByte(s);
      var t1 := Scrubbed(s[1..]);
      assert t1[0] == t[1] && t1[1] == t[2];
      FirstByte(s[1..]);
      var t2 := Scrubbed(s[1..][1..]);
      assert t2[0] == t[2];
      FirstByte(s[1..][1..]);
    }
  }

  lemma {:induction false} RunAppend(a: seq<byte>, b: seq<byte>)
    requires (forall x | x in a :: IsDigit(x)) && (b != [] ==> !IsDigit(b[0]))
    ensures DigitRun(a + b) == |a|
    decreases |a|
  {
    hide IsDigit;
    if a == [] {
      assert a + b == b;
    } else {
      assert (a + b)[1..] == a[1..] + b;
      RunAppend(a[1..], b);
    }
  }

  lemma {:induction false} RunIsDigits(s: seq<byte>, x: byte)
    requires x in s[..DigitRun(s)]
    ensures IsDigit(x)
    decreases |s|
  {
    if x != s[0] {
      assert s[..DigitRun(s)] == [s[0]] + s[1..][..DigitRun(s[1..])];
      RunIsDigits(s[1..], x);
    }
  }

  lemma ArnClean(s: seq<byte>)
    requires StartsArn(s) && Clean(Scrubbed(s[4 + UpToDelimiter(s[4..])..]))
    ensures Clean(Scrubbed(s))
  {
    hide UpToDelimiter;
    var n := 4 + UpToDelimiter(s[4..]);
    var rest := Scrubbed(s[n..]);
    assert n < |s| ==> s[n] == s[4..][n - 4];
    FirstByte(s[n..]);
    var t := HIDDEN + rest;
    assert t[7..] == rest && t[..7] == HIDDEN;
    assert StartsArn(t) && (|t| == 7 || t[7] == rest[0]);
  }

  lemma DigitsClean(s: seq<byte>)
    requires s != [] && !StartsArn(s) && IsDigit(s[0]) && Clean(Scrubbed(s[DigitRun(s)..]))
    ensures Clean(Scrubbed(s))
  {
    var n := DigitRun(s);
    var digits, rest := s[..n], Scrubbed(s[n..]);
    FirstByte(s[n..]);
    if n == 12 {
      StarsClean(rest);
    } else {
      forall x | x in digits ensures IsDigit(x) { RunIsDigits(s, x); }
      RunAppend(digits, rest);
      assert (digits + rest)[n..] == rest;
      assert (digits + rest)[0] == s[0];
    }
  }

  lemma StarsClean(rest: seq<byte>)
    requires Clean(rest)
    ensures Clean(STARS + rest)
  {
    hide DigitRun;
    assert STARS + rest == [0x2A] + ([0x2A] + ([0x2A] + rest));
    StarClean(rest);
    StarClean([0x2A] + rest);
    StarClean([0x2A] + ([0x2A] + rest));
  }

  lemma StarClean(rest: seq<byte>)
    requires Clean(rest)
    ensures Clean([0x2A] + rest)
  {
    assert ([0x2A] + rest)[1..] == rest;
  }

  lemma {:induction false} ScrubbedIsClean(s: seq<byte>)
    ensures Clean(Scrubbed(s))
    decreases |s|
  {
    if s == [] {
    } else if StartsArn(s) {
      ScrubbedIsClean(s[4 + UpToDelimiter(s[4..])..]);
      ArnClean(s);
    } else if IsDigit(s[0]) {
      ScrubbedIsClean(s[DigitRun(s)..]);
      DigitsClean(s);
    } else {
      ScrubbedIsClean(s[1..]);
      NoNewArn(s);
      assert Scrubbed(s)[1..] == Scrubbed(s[1..]) && Scrubbed(s)[0] == s[0];
    }
  }

  /** Clean text is left as it is. */
  lemma {:induction false} CleanIsKept(t: seq<byte>)
    requires Clean(t)
    ensures Scrubbed(t) == t
    decreases |t|
  {
    if t == [] {
    } else if StartsArn(t) {
      HiddenEnds(t);
      CleanIsKept(t[7..]);
      assert t == HIDDEN + t[7..];
    } else if IsDigit(t[0]) {
      CleanIsKept(t[DigitRun(t)..]);
      assert t == t[..DigitRun(t)] + t[DigitRun(t)..];
    } else {
      CleanIsKept(t[1..]);
      assert t == [t[0]] + t[1..];
    }
  }

  lemma HiddenEnds(t: seq<byte>)
    requires HIDDEN <= t && (|t| == 7 || IsDelimiter(t[7]))
    ensures UpToDelimiter(t[4..]) == 3
  {
    var u := t[4..];
    assert u[0] == t[4] && u[1] == t[5] && u[2] == t[6];
    assert u[1..][1..][1..] == t[7..];
    assert t[7..] == [] || t[7..][0] == t[7];
    assert UpToDelimiter(t[7..]) == 0;
    assert UpToDelimiter(u[1..][1..]) == 1;
    assert UpToDelimiter(u[1..]) == 2;
  }

  /** Scrubbing twice is scrubbing once, and a text is left alone exactly when it is clean. */
  lemma ScrubbingTwice(s: seq<byte>)
    ensures Scrubbed(Scrubbed(s)) == Scrubbed(s)
    ensures Scrubbed(s) == s <==> Clean(s)
  {
    hide Clean;
    hide Scrubbed;
    ScrubbedIsClean(s);
    CleanIsKept(Scrubbed(s));
    if Clean(s) {
      CleanIsKept(s);
    }
  }

  /** In scrubbed text every `arn:` is hidden up to a delimiter or the end. */
  lemma {:induction false} CleanArns(t: seq<byte>, i: nat)
    requires Clean(t) && i <= |t| && StartsArn(t[i..])
    ensures HIDDEN <= t[i..] && (|t| == i + 7 || IsDelimiter(t[i + 7]))
    decreases |t|
  {
    if i == 0 {
      assert t[0..] == t;
    } else if StartsArn(t) {
      InsideHidden(t, i);
      CleanArns(t[7..], i - 7);
      assert t[7..][i - 7..] == t[i..];
    } else if IsDigit(t[0]) {
      var n := DigitRun(t);
      if i < n {
        DigitsAreAscii(t, i);
      }
      CleanArns(t[n..], i - n);
      assert t[n..][i - n..] == t[i..];
    } else {
      CleanArns(t[1..], i - 1);
      assert t[1..][i - 1..] == t[i..];
    }
  }

  lemma InsideHidden(t: seq<byte>, i: nat)
    requires HIDDEN <= t && 0 < i <= |t| && StartsArn(t[i..])
    ensures i >= 7
  {
    assert t[i..][0] == t[i];
    assert forall k | 0 <= k < 7 :: t[k] == HIDDEN[k];
  }

  /** A run of digits that nothing extends. */
  ghost predicate MaximalRun(t: seq<byte>, i: nat, j: nat) {
    && i < j <= |t| && (forall k | i <= k < j :: IsDigit(t[k]))
    && (i == 0 || !IsDigit(t[i - 1])) && (j == |t| || !IsDigit(t[j]))
  }

  lemma {:induction false} RunIsMaximal(t: seq<byte>, j: nat)
    requires MaximalRun(t, 0, j)
    ensures DigitRun(t) == j
    decreases j
  {
    if j > 1 {
      assert forall k | 0 <= k < j - 1 :: t[1..][k] == t[k + 1];
      RunIsLength(t[1..], j - 1);
    }
  }

  lemma {:induction false} RunIsLength(t: seq<byte>, j: nat)
    requires j <= |t| && (forall k | 0 <= k < j :: IsDigit(t[k])) && (j == |t| || !IsDigit(t[j]))
    ensures DigitRun(t) == j
    decreases j
  {
    if j > 0 {
      assert forall k | 0 <= k < j - 1 :: t[1..][k] == t[k + 1];
      RunIsLength(t[1..], j - 1);
    }
  }

  /** In scrubbed text no maximal run of digits has twelve. */
  lemma {:induction false} CleanRuns(t: seq<byte>, i: nat, j: nat)
    requires Clean(t) && MaximalRun(t, i, j)
    ensures j - i != 12
    decreases |t|
  {
    if StartsArn(t) {
      assert forall k | 0 <= k < 7 :: t[k] == HIDDEN[k];
      assert i >= 7;
      ShiftRun(t, i, j, 7);
      CleanRuns(t[7..], i - 7, j - 7);
    } else if IsDigit(t[0]) {
      var n := DigitRun(t);
      if i == 0 {
        RunIsMaximal(t, j);
      } else {
        OutsideRun(t, i);
        ShiftRun(t, i, j, n);
        CleanRuns(t[n..], i - n, j - n);
      }
    } else {
      ShiftRun(t, i, j, 1);
      CleanRuns(t[1..], i - 1, j - 1);
    }
  }

  lemma OutsideRun(t: seq<byte>, i: nat)
    requires 0 < i < |t| && IsDigit(t[i]) && !IsDigit(t[i - 1])
    ensures DigitRun(t) <= i
  {
    if i < DigitRun(t) {
      DigitsAreAscii(t, i - 1);
    }
  }

  lemma ShiftRun(t: seq<byte>, i: nat, j: nat, n: nat)
    requires MaximalRun(t, i, j) && n <= i
    ensures MaximalRun(t[n..], i - n, j - n)
  {
  }

  /** Cutting scrubbed text, as `cap` does, shows nothing of an ARN: what is left of it is the start of `arn:***`. */
  lemma CappedArns(t: seq<byte>, k: nat, i: nat)
    requires Clean(t) && k <= |t| && i <= k && StartsArn(t[..k][i..])
    ensures var p := t[..k][i..]; (HIDDEN <= p && (k == i + 7 || IsDelimiter(p[7]))) || p <= HIDDEN
  {
    hide Clean;
    var p := t[..k][i..];
    assert p == t[i..][..k - i];
    assert StartsArn(t[i..]);
    CleanArns(t, i);
    if |p| > 7 {
      assert p[7] == t[i + 7];
    }
  }

  /** The cut at `k` leaves the start of a hidden ARN. */
  ghost predicate CutsHidden(t: seq<byte>, k: nat) {
    exists i: nat :: i + 4 <= k < i + 7 && k <= |t| && StartsArn(t[i..])
  }

  /** The cut at `k` leaves exactly twelve digits of a longer run. */
  predicate CutsToTwelve(t: seq<byte>, k: nat)
    requires k <= |t|
  {
    k >= 12 && (forall j | k - 12 <= j < k :: IsDigit(t[j])) && (k == 12 || !IsDigit(t[k - 13]))
  }

  /** Dropping a front that ends in no digit, or in all the digits of a run. */
  lemma TwelveBehind(t: seq<byte>, k: nat, n: nat)
    requires 0 < n <= k <= |t| && (!IsDigit(t[n - 1]) || (n < |t| && !IsDigit(t[n]) && n < k))
    ensures CutsToTwelve(t, k) <==> CutsToTwelve(t[n..], k - n)
  {
    var u := t[n..];
    assert forall j | 0 <= j < |u| :: u[j] == t[n + j];
    if CutsToTwelve(t, k) {
      assert IsDigit(t[k - 1]) && IsDigit(t[k - 12]);
      assert n - 1 < k - 12;
      forall j | k - n - 12 <= j < k - n ensures IsDigit(u[j]) {
        assert u[j] == t[n + j];
      }
    }
    if CutsToTwelve(u, k - n) {
      forall j | k - 12 <= j < k ensures IsDigit(t[j]) {
        assert u[j - n] == t[j];
      }
      assert k == n + 12 ==> !IsDigit(t[n - 1]) by {
        if k == n + 12 {
          assert IsDigit(u[0]);
        }
      }
    }
  }

  /** No ARN starts in a front of `n` bytes but at its first. */
  lemma HiddenBehind(t: seq<byte>, k: nat, n: nat)
    requires n <= k <= |t| && (forall i: nat | i < n && StartsArn(t[i..]) :: i + 7 <= k)
    ensures CutsHidden(t, k) <==> CutsHidden(t[n..], k - n)
  {
    if CutsHidden(t, k) {
      var i: nat :| i + 4 <= k < i + 7 && StartsArn(t[i..]);
      assert t[n..][i - n..] == t[i..];
      assert (i - n) + 4 <= k - n < (i - n) + 7;
    }
    if CutsHidden(t[n..], k - n) {
      var i: nat :| i + 4 <= k - n < i + 7 && StartsArn(t[n..][i..]);
      assert t[n..][i..] == t[n + i..];
      assert (n + i) + 4 <= k < (n + i) + 7;
    }
  }

  /** Cut text is clean exactly when the cut leaves neither the start of a hidden ARN nor twelve digits. */
  ghost predicate CutsCleanly(t: seq<byte>, k: nat)
    requires k <= |t|
  {
    Clean(t[..k]) <==> !CutsHidden(t, k) && !CutsToTwelve(t, k)
  }

  lemma CutInArn(t: seq<byte>, k: nat)
    requires StartsArn(t) && HIDDEN <= t && k <= |t| && k < 7
    ensures CutsCleanly(t, k)
  {
    hide DigitRun;
    assert t[0..] == t;
    if k >= 4 {
      assert StartsArn(t[..k]);
      assert CutsHidden(t, k);
    } else {
      assert forall i | 0 <= i < k :: t[..k][i] == HIDDEN[i];
      ShortIsClean(t[..k]);
    }
  }

  lemma ShortIsClean(t: seq<byte>)
    requires |t| < 4 && forall i | 0 <= i < |t| :: !IsDigit(t[i])
    ensures Clean(t)
    decreases |t|
  {
    hide IsDigit;
    if t != [] {
      ShortIsClean(t[1..]);
    }
  }

  lemma CutInDigits(t: seq<byte>, k: nat)
    requires t != [] && IsDigit(t[0]) && 0 < k <= DigitRun(t)
    ensures CutsCleanly(t, k)
  {
    hide DigitRun;
    forall i | 0 <= i < k ensures IsDigit(t[i]) {
      DigitsAreAscii(t, i);
    }
    var p := t[..k];
    assert forall i | 0 <= i < k :: p[i] == t[i];
    RunIsLength(p, k);
    assert p[k..] == [] && Clean([]);
    forall i: nat | i < k ensures !StartsArn(t[i..]) {
      assert t[i..][0] == t[i];
    }
  }

  /** The rest is cut where the text is cut. */
  lemma CutBehind(t: seq<byte>, k: nat, n: nat)
    requires Clean(t) && t != [] && n <= k <= |t|
    requires n == if StartsArn(t) then 7 else if IsDigit(t[0]) then DigitRun(t) else 1
    requires IsDigit(t[0]) ==> n < k
    ensures Clean(t[..k]) <==> Clean(t[n..][..k - n])
    ensures CutsHidden(t, k) <==> CutsHidden(t[n..], k - n)
    ensures CutsToTwelve(t, k) <==> CutsToTwelve(t[n..], k - n)
  {
    hide Clean;
    hide DigitRun;
    hide CutsHidden;
    hide CutsToTwelve;
    forall i: nat | i < n && StartsArn(t[i..]) ensures i + 7 <= k {
      if i > 0 {
        if StartsArn(t) {
          CleanUnfolds(t);
          InsideHidden(t, i);
        } else {
          DigitsAreAscii(t, i);
        }
      }
      assert t[0..] == t;
    }
    HiddenBehind(t, k, n);
    CleanUnfolds(t);
    if IsDigit(t[0]) {
      DigitsAreAscii(t, n - 1);
    } else if StartsArn(t) {
      assert t[6] == HIDDEN[6];
    }
    TwelveBehind(t, k, n);
    CleanBehind(t, k, n);
  }

  lemma CleanUnfolds(t: seq<byte>)
    requires Clean(t) && t != []
    ensures StartsArn(t) ==> HIDDEN <= t && (|t| == 7 || IsDelimiter(t[7]))
    ensures !StartsArn(t) && IsDigit(t[0]) ==> DigitRun(t) != 12
  {
    hide DigitRun;
  }

  lemma CleanBehind(t: seq<byte>, k: nat, n: nat)
    requires Clean(t) && t != [] && n <= k <= |t|
    requires n == if StartsArn(t) then 7 else if IsDigit(t[0]) then DigitRun(t) else 1
    requires IsDigit(t[0]) ==> n < k
    ensures Clean(t[..k]) <==> Clean(t[n..][..k - n])
  {
    hide DigitRun;
    var p := t[..k];
    assert p[n..] == t[n..][..k - n];
    assert StartsArn(p) ==> StartsArn(t);
    if StartsArn(t) {
      assert HIDDEN <= p;
      assert k > 7 ==> p[7] == t[7];
    } else if IsDigit(t[0]) {
      forall i | 0 <= i < n ensures IsDigit(p[i]) {
        DigitsAreAscii(t, i);
      }
      RunIsLength(p, n);
    }
  }

  /** Exactly when cutting clean text, as `cap` does with scrubbed text, leaves clean text. */
  lemma {:induction false} CappedIsCleanIff(t: seq<byte>, k: nat)
    requires Clean(t) && k <= |t|
    ensures Clean(t[..k]) <==> !CutsHidden(t, k) && !CutsToTwelve(t, k)
    decreases |t|
  {
    hide DigitRun;
    hide CutsToTwelve;
    hide StartsArn;
    hide IsDigit;
    if k == 0 {
      assert t[..0] == [];
      NoCut(t);
    } else if StartsArn(t) && k < 7 {
      CleanUnfolds(t);
      CutInArn(t, k);
    } else if !StartsArn(t) && IsDigit(t[0]) && k <= DigitRun(t) {
      CutInDigits(t, k);
    } else {
      var n := if StartsArn(t) then 7 else if IsDigit(t[0]) then DigitRun(t) else 1;
      ArnIsNoDigit(t);
      CutBehind(t, k, n);
      CappedIsCleanIff(t[n..], k - n);
    }
  }

  lemma ArnIsNoDigit(t: seq<byte>)
    requires t != []
    ensures StartsArn(t) ==> !IsDigit(t[0])
    ensures IsDigit(t[0]) ==> 0 < DigitRun(t)
  {
  }

  lemma NoCut(t: seq<byte>)
    ensures !CutsHidden(t, 0) && !CutsToTwelve(t, 0)
  {
  }
}
