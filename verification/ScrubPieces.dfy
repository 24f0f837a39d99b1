/**
 What scrubbing does to a text, piece by piece: an ARN up to white space or a quote is replaced,
 and so is a run of just twelve digits; everything else stays as it is.
 */
module ScrubPieces {
  import opened BigEndian
  import opened Unicode
  import Scrub

  /** A piece of a text: what is kept, an ARN, an account number. */
  datatype Piece = Kept(bytes: seq<byte>) | Arn(bytes: seq<byte>) | Account(bytes: seq<byte>)

  predicate Digit(b: byte) {
    '0' as int <= b <= '9' as int
  }

  /** White space or a quote; 12 is the form feed. */
  predicate Ends(b: byte) {
    b == ' ' as int || b == '\t' as int || b == '\n' as int || b == '\r' as int || b == 12 || b == '"' as int || b == '\'' as int
  }

  ghost predicate BeginsArn(s: seq<byte>) {
    |s| >= 4 && Spells(s[..4], "arn:")
  }

  function Source(pieces: seq<Piece>): seq<byte> {
    if pieces == [] then [] else pieces[0].bytes + Source(pieces[1..])
  }

  /** A run of digits that `rest` does not go on with. */
  predicate IsRun(b: seq<byte>, rest: seq<byte>) {
    b != [] && (forall i | 0 <= i < |b| :: Digit(b[i])) && (rest == [] || !Digit(rest[0]))
  }

  /** What the piece in front of `rest` is. */
  ghost predicate IsPiece(p: Piece, rest: seq<byte>) {
    match p
    case Arn(b) => BeginsArn(b) && (forall i | 4 <= i < |b| :: !Ends(b[i])) && (rest == [] || Ends(rest[0]))
    case Account(b) => IsRun(b, rest) && |b| == 12
    case Kept(b) => (IsRun(b, rest) && |b| != 12) || (|b| == 1 && !Digit(b[0]) && !BeginsArn(b + rest))
  }

  ghost predicate ArePieces(pieces: seq<Piece>) {
    pieces == [] || (IsPiece(pieces[0], Source(pieces[1..])) && ArePieces(pieces[1..]))
  }

  /** What is shown of a piece. */
  ghost predicate IsShown(p: Piece, out: seq<byte>) {
    match p
    case Kept(b) => out == b
    case Arn(_) => Spells(out, "arn:***")
    case Account(_) => Spells(out, "***")
  }

  /** `t` shows the pieces one after the other. */
  ghost predicate Shows(pieces: seq<Piece>, t: seq<byte>)
    decreases |pieces|
  {
    if pieces == [] then t == []
    else exists n: nat | n <= |t| :: IsShown(pieces[0], t[..n]) && Shows(pieces[1..], t[n..])
  }

  lemma Constants(s: seq<byte>, b: byte)
    ensures Scrub.StartsArn(s) <==> BeginsArn(s)
    ensures Scrub.IsDigit(b) <==> Digit(b)
    ensures Scrub.IsDelimiter(b) <==> Ends(b)
    ensures Spells(Scrub.HIDDEN, "arn:***") && Spells(Scrub.STARS, "***")
  {
  }

  lemma Sameness()
    ensures forall b :: Scrub.IsDigit(b) <==> Digit(b)
    ensures forall b :: Scrub.IsDelimiter(b) <==> Ends(b)
  {
    forall b: byte ensures (Scrub.IsDigit(b) <==> Digit(b)) && (Scrub.IsDelimiter(b) <==> Ends(b)) {
      Constants([], b);
    }
  }

  lemma {:induction false} NoneEnds(s: seq<byte>)
    ensures forall i | 0 <= i < Scrub.UpToDelimiter(s) :: !Ends(s[i])
    decreases |s|
  {
    hide Ends;
    hide Scrub.IsDelimiter;
    Sameness();
    if s != [] && !Scrub.IsDelimiter(s[0]) {
      NoneEnds(s[1..]);
      assert forall i | 0 < i < |s| :: s[i] == s[1..][i - 1];
    }
  }

  lemma {:induction false} AllDigits(s: seq<byte>)
    ensures forall i | 0 <= i < Scrub.DigitRun(s) :: Digit(s[i])
    decreases |s|
  {
    hide Digit;
    hide Scrub.IsDigit;
    Sameness();
    if s != [] && Scrub.IsDigit(s[0]) {
      AllDigits(s[1..]);
      assert forall i | 0 < i < |s| :: s[i] == s[1..][i - 1];
    }
  }

  /** The first piece of a text, and where it ends. */
  lemma FirstPiece(s: seq<byte>) returns (p: Piece, out: seq<byte>)
    requires s != []
    ensures p.bytes != [] && p.bytes <= s && IsPiece(p, s[|p.bytes|..]) && IsShown(p, out)
    ensures Scrub.Scrubbed(s) == out + Scrub.Scrubbed(s[|p.bytes|..])
  {
    hide Digit;
    hide Ends;
    hide Spells;
    Constants(s, s[0]);
    Sameness();
    if Scrub.StartsArn(s) {
      var n := 4 + Scrub.UpToDelimiter(s[4..]);
      NoneEnds(s[4..]);
      p, out := Arn(s[..n]), Scrub.HIDDEN;
      assert s[..n][..4] == s[..4];
      assert forall i | 4 <= i < n :: s[..n][i] == s[4..][i - 4];
      assert n < |s| ==> s[n..][0] == s[4..][n - 4];
    } else if Scrub.IsDigit(s[0]) {
      var n := Scrub.DigitRun(s);
      AllDigits(s);
      p, out := if n == 12 then Account(s[..n]) else Kept(s[..n]), Scrub.Masked(s[..n]);
    } else {
      p, out := Kept(s[..1]), [s[0]];
      assert s[..1] + s[1..] == s;
    }
  }

  /**
   For every text: it consists of pieces, each ARN of it reaching to white space, a quote or the
   end, each run of digits whole, and nothing kept beginning an ARN; and scrubbing shows these
   pieces, the ARNs as `arn:***`, the runs of just twelve digits as `***`, all others unchanged.
   */
  lemma {:induction false} ScrubbedShows(s: seq<byte>) returns (pieces: seq<Piece>)
    ensures Source(pieces) == s && ArePieces(pieces) && Shows(pieces, Scrub.Scrubbed(s))
    decreases |s|
  {
    hide IsPiece;
    hide IsShown;
    hide Scrub.Scrubbed;
    if s == [] {
      pieces := [];
      NothingScrubbed();
    } else {
      var p, out := FirstPiece(s);
      var rest := ScrubbedShows(s[|p.bytes|..]);
      pieces := [p] + rest;
      var t := Scrub.Scrubbed(s);
      assert pieces[1..] == rest && s == p.bytes + s[|p.bytes|..];
      assert t[..|out|] == out && t[|out|..] == Scrub.Scrubbed(s[|p.bytes|..]);
    }
  }

  lemma NothingScrubbed()
    ensures Scrub.Scrubbed([]) == []
  {
  }
}
