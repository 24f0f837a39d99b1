/**
 The thinking-tag splitter of the response translator: assistant text is cut at
 `<thinking>` and `</thinking>`, and a tail that may still become a tag is held back.
 */
module TagSplitter {
  import opened Wrappers
  import opened Text

  datatype TagPair = TagPair(open: string, close: string)

  /** A pair of tags: neither is empty and both start with `<`. */
  type Tags = g: TagPair | g.open != "" && g.open[0] == '<' && g.close != "" && g.close[0] == '<'
    witness TagPair("<", "<")

  const OPEN_TAG := "<thinking>"
  const CLOSE_TAG := "</thinking>"
  const THINKING: Tags := TagPair(OPEN_TAG, CLOSE_TAG)

  /** The tag the splitter is looking for. */
  function Tag(g: Tags, inside: bool): (tag: string)
    ensures tag != "" && tag[0] == '<'
  {
    if inside then g.close else g.open
  }

  /** The last `n` characters of `s` are the first `n` of `tag`. */
  predicate EndsWithPart(s: string, tag: string, n: nat) {
    n <= |s| && n < |tag| && s[|s| - n..] == tag[..n]
  }

  function PartFrom(s: string, tag: string, n: nat): (k: nat)
    requires n < |tag|
    ensures k <= |s| && k <= n
  {
    if n == 0 || EndsWithPart(s, tag, n) then n else PartFrom(s, tag, n - 1)
  }

  /** The length of the longest end of `s` that is a proper start of `tag`. */
  function Part(s: string, tag: string): (k: nat)
    requires tag != ""
    ensures k <= |s| && k < |tag|
  {
    PartFrom(s, tag, |tag| - 1)
  }

  lemma {:induction false} PartFromMeaning(s: string, tag: string, n: nat)
    requires n < |tag|
    ensures EndsWithPart(s, tag, PartFrom(s, tag, n))
    ensures forall m: nat | PartFrom(s, tag, n) < m <= n :: !EndsWithPart(s, tag, m)
  {
    if n > 0 && !EndsWithPart(s, tag, n) {
      PartFromMeaning(s, tag, n - 1);
    }
  }

  /** `Part` is the longest such end. */
  lemma PartMeaning(s: string, tag: string)
    requires tag != ""
    ensures EndsWithPart(s, tag, Part(s, tag))
    ensures forall m: nat | Part(s, tag) < m :: !EndsWithPart(s, tag, m)
  {
    PartFromMeaning(s, tag, |tag| - 1);
  }

  method PartialTagSuffix(s: string, tag: string) returns (k: nat)
    requires tag != ""
    ensures k == Part(s, tag)
  {
    var max := if |tag| - 1 < |s| then |tag| - 1 else |s|;
    k := max;
    while 0 < k
      invariant k <= max
      invariant forall m: nat | k < m :: !EndsWithPart(s, tag, m)
    {
      if s[|s| - k..] == tag[..k] {
        break;
      }
      k := k - 1;
    }
    assert EndsWithPart(s, tag, k);
    PartMeaning(s, tag);
  }

  datatype TagState = TagState(inside: bool, buf: string, suppress: bool)

  datatype Split = Split(text: string, think: string, st: TagState)

  function Prepend(inside: bool, head: string, r: Split): Split {
    if inside then r.(think := head + r.think) else r.(text := head + r.text)
  }

  /** Splitting all of `s` at once, starting inside or outside a thinking section. */
  function Scan(g: Tags, inside: bool, suppress: bool, s: string): Split
    decreases |s|
  {
    var tag := Tag(g, inside);
    match Find(s, tag)
    case Some(i) => Prepend(inside, s[..i], Scan(g, !inside, suppress || !inside, s[i + |tag|..]))
    case None =>
      var cut := |s| - Part(s, tag);
      Prepend(inside, s[..cut], Split("", "", TagState(inside, s[cut..], suppress)))
  }

  /** What one delta yields: the held-back text and the delta are split together. */
  function Feed(g: Tags, st: TagState, delta: string): Split {
    Scan(g, st.inside, st.suppress, st.buf + delta)
  }

  /** Nothing held back could be emitted already. */
  ghost predicate Settled(g: Tags, st: TagState) {
    Feed(g, st, "") == Split("", "", st)
  }

  /** The outputs and the final state of splitting a text delta by delta. */
  function FeedAll(g: Tags, st: TagState, deltas: seq<string>): Split
    decreases |deltas|
  {
    if deltas == [] then Split("", "", st) else
    var a := Feed(g, st, deltas[0]);
    Then(a, FeedAll(g, a.st, deltas[1..]))
  }

  /** A part of the tag that starts before the cut and reaches the end of `s` would be a longer part. */
  lemma NoLongerPart(s: string, t: string, tag: string, j: nat, n: nat)
    requires tag != "" && s <= t
    requires j < |s| - Part(s, tag) && |s| < j + |tag|
    requires |s| - j <= n <= |tag| && j + n <= |t|
    ensures t[j..j + n] != tag[..n]
  {
    var m := |s| - j;
    PartMeaning(s, tag);
    if t[j..j + n] == tag[..n] {
      assert s[j..] == t[j..j + n][..m] == tag[..n][..m] == tag[..m];
      assert EndsWithPart(s, tag, m);
    }
  }

  lemma NoMatchBeforeCut(s: string, t: string, tag: string, j: nat)
    requires tag != "" && s <= t && Find(s, tag).None?
    requires j < |s| - Part(s, tag)
    ensures !At(t, tag, j)
  {
    if j + |tag| <= |s| {
      FindMeaning(s, tag);
      assert t == s + t[|s|..];
      AtPrefix(s, t[|s|..], tag, j);
    } else if j + |tag| <= |t| {
      NoLongerPart(s, t, tag, j, |tag|);
      assert tag[..|tag|] == tag;
    }
  }

  lemma SamePart(s: string, t: string, tag: string)
    requires tag != "" && s <= t && Find(s, tag).None?
    ensures Part(t, tag) == Part(t[|s| - Part(s, tag)..], tag)
  {
    var cut := |s| - Part(s, tag);
    var u := t[cut..];
    PartMeaning(t, tag);
    PartMeaning(u, tag);
    forall m: nat ensures EndsWithPart(t, tag, m) <==> EndsWithPart(u, tag, m) {
      SamePartLength(s, t, tag, m);
    }
  }

  lemma SamePartLength(s: string, t: string, tag: string, m: nat)
    requires tag != "" && s <= t && Find(s, tag).None?
    ensures EndsWithPart(t, tag, m) <==> EndsWithPart(t[|s| - Part(s, tag)..], tag, m)
  {
    var cut := |s| - Part(s, tag);
    if m <= |t| - cut {
      assert t[|t| - m..] == t[cut..][|t| - cut - m..];
    } else if m <= |t| && m < |tag| {
      assert t[|t| - m..|t| - m + m] == t[|t| - m..];
      NoLongerPart(s, t, tag, |t| - m, m);
    }
  }

  /** A held-back end of `s` decides every later search for the tag. */
  lemma HoldBack(s: string, d: string, tag: string)
    requires tag != "" && Find(s, tag).None?
    ensures var cut := |s| - Part(s, tag);
            && Find(s + d, tag) == Shift(Find(s[cut..] + d, tag), cut)
            && Part(s + d, tag) == Part(s[cut..] + d, tag)
  {
    var cut := |s| - Part(s, tag);
    var t := s + d;
    assert t[cut..] == s[cut..] + d;
    forall j: nat | j < cut ensures !At(t, tag, j) {
      NoMatchBeforeCut(s, t, tag, j);
    }
    FindDrop(t, cut, tag);
    SamePart(s, t, tag);
  }

  /** The outputs of `a`, then those of `b`. */
  function Then(a: Split, b: Split): Split {
    Split(a.text + b.text, a.think + b.think, b.st)
  }

  lemma PrependThen(inside: bool, head: string, a: Split, b: Split)
    ensures Prepend(inside, head, Then(a, b)) == Then(Prepend(inside, head, a), b)
  {
    assert head + (a.text + b.text) == (head + a.text) + b.text;
    assert head + (a.think + b.think) == (head + a.think) + b.think;
  }

  lemma PrependTwice(inside: bool, h1: string, h2: string, r: Split)
    ensures Prepend(inside, h1, Prepend(inside, h2, r)) == Prepend(inside, h1 + h2, r)
  {
    assert h1 + (h2 + r.text) == (h1 + h2) + r.text;
    assert h1 + (h2 + r.think) == (h1 + h2) + r.think;
  }

  lemma Regroup(s: string, cut: nat, d: string)
    requires cut <= |s|
    ensures s + d == s[..cut] + (s[cut..] + d)
  {
  }

  /** What is cut off before the held-back end is only put in front. */
  lemma ScanHeld(g: Tags, inside: bool, suppress: bool, s: string, d: string)
    requires Find(s, Tag(g, inside)).None?
    ensures var cut := |s| - Part(s, Tag(g, inside));
            Scan(g, inside, suppress, s + d) == Prepend(inside, s[..cut], Scan(g, inside, suppress, s[cut..] + d))
  {
    HoldBack(s, d, Tag(g, inside));
    var cut := |s| - Part(s, Tag(g, inside));
    Regroup(s, cut, d);
    ScanShift(g, inside, suppress, s[..cut], s[cut..] + d);
  }

  /** One step of `Scan`: the tag at `i` is cut out. */
  lemma ScanAtTag(g: Tags, inside: bool, suppress: bool, s: string, i: nat, rest: string)
    requires Find(s, Tag(g, inside)) == Some(i) && rest == s[i + |Tag(g, inside)|..]
    ensures Scan(g, inside, suppress, s) == Prepend(inside, s[..i], Scan(g, !inside, suppress || !inside, rest))
  {
  }

  /** The last step of `Scan`: no tag is left, only a part of one is held back. */
  lemma ScanNoTag(g: Tags, inside: bool, suppress: bool, s: string, k: nat)
    requires Find(s, Tag(g, inside)).None? && k == |s| - Part(s, Tag(g, inside))
    ensures Scan(g, inside, suppress, s) == Prepend(inside, s[..k], Split("", "", TagState(inside, s[k..], suppress)))
  {
  }

  /** Slices of a text that another is put in front of. */
  lemma Behind(h: string, u: string, i: nat)
    requires i <= |u|
    ensures (h + u)[..|h| + i] == h + u[..i] && (h + u)[|h| + i..] == u[i..]
  {
  }

  /** Putting text in front that creates neither a tag nor part of one. */
  lemma ScanShift(g: Tags, inside: bool, suppress: bool, h: string, u: string)
    requires var tag := Tag(g, inside);
             && Find(h + u, tag) == Shift(Find(u, tag), |h|)
             && Part(h + u, tag) == Part(u, tag)
    ensures Scan(g, inside, suppress, h + u) == Prepend(inside, h, Scan(g, inside, suppress, u))
  {
    hide Scan;
    hide Find;
    hide Part;
    hide Prepend;
    var tag := Tag(g, inside);
    match Find(u, tag) {
      case Some(i) =>
        var rest := u[i + |tag|..];
        Behind(h, u, i);
        Behind(h, u, i + |tag|);
        ScanAtTag(g, inside, suppress, h + u, |h| + i, rest);
        ScanAtTag(g, inside, suppress, u, i, rest);
        PrependTwice(inside, h, u[..i], Scan(g, !inside, suppress || !inside, rest));
      case None =>
        var k := |u| - Part(u, tag);
        Behind(h, u, k);
        ScanNoTag(g, inside, suppress, h + u, |h| + k);
        ScanNoTag(g, inside, suppress, u, k);
        PrependTwice(inside, h, u[..k], Split("", "", TagState(inside, u[k..], suppress)));
    }
  }

  /** Splitting `s` and then more text `d` is splitting `s + d`. */
  lemma {:induction false} ScanAppend(g: Tags, inside: bool, suppress: bool, s: string, d: string)
    ensures var a := Scan(g, inside, suppress, s);
            Scan(g, inside, suppress, s + d) == Then(a, Feed(g, a.st, d))
    decreases |s|
  {
    var tag := Tag(g, inside);
    match Find(s, tag) {
      case Some(i) =>
        var rest := s[i + |tag|..];
        ScanAppend(g, !inside, suppress || !inside, rest, d);
        ScanAtTag(g, inside, suppress, s, i, rest);
        ScanTagAppend(g, inside, suppress, s, d, i, rest);
        var a := Scan(g, !inside, suppress || !inside, rest);
        PrependThen(inside, s[..i], a, Feed(g, a.st, d));
      case None => ScanEndAppend(g, inside, suppress, s, d);
    }
  }

  /** The case without a tag in `s`. */
  lemma ScanEndAppend(g: Tags, inside: bool, suppress: bool, s: string, d: string)
    requires Find(s, Tag(g, inside)).None?
    ensures var a := Scan(g, inside, suppress, s);
            Scan(g, inside, suppress, s + d) == Then(a, Feed(g, a.st, d))
  {
    var cut := |s| - Part(s, Tag(g, inside));
    var a := Split("", "", TagState(inside, s[cut..], suppress));
    ScanHeld(g, inside, suppress, s, d);
    ThenNothing(a.st, Feed(g, a.st, d));
    PrependThen(inside, s[..cut], a, Feed(g, a.st, d));
  }

  lemma ThenNothing(st: TagState, b: Split)
    ensures Then(Split("", "", st), b) == b
  {
    assert "" + b.text == b.text && "" + b.think == b.think;
  }

  lemma ScanTagAppend(g: Tags, inside: bool, suppress: bool, s: string, d: string, i: nat, rest: string)
    requires Find(s, Tag(g, inside)) == Some(i) && rest == s[i + |Tag(g, inside)|..]
    ensures Scan(g, inside, suppress, s + d) == Prepend(inside, s[..i], Scan(g, !inside, suppress || !inside, rest + d))
  {
    FindExtend(s, d, Tag(g, inside));
    assert (s + d)[i + |Tag(g, inside)|..] == rest + d;
    assert (s + d)[..i] == s[..i];
    ScanAtTag(g, inside, suppress, s + d, i, rest + d);
  }

  /** Two deltas yield what their concatenation yields. */
  lemma FeedAppend(g: Tags, st: TagState, d: string, e: string)
    ensures Feed(g, st, d + e) == Then(Feed(g, st, d), Feed(g, Feed(g, st, d).st, e))
  {
    assert st.buf + (d + e) == (st.buf + d) + e;
    ScanAppend(g, st.inside, st.suppress, st.buf + d, e);
  }

  /** After any delta the splitter is settled. */
  lemma FeedSettles(g: Tags, st: TagState, delta: string)
    ensures Settled(g, Feed(g, st, delta).st)
  {
    var a := Feed(g, st, delta);
    var b := Feed(g, a.st, "");
    assert delta + "" == delta;
    FeedAppend(g, st, delta, "");
    assert |a.text + b.text| == |a.text| && |a.think + b.think| == |a.think|;
  }

  /** However the text is cut into deltas, the outputs are those of the whole text. */
  lemma {:induction false} FeedAllIsScan(g: Tags, st: TagState, deltas: seq<string>)
    requires Settled(g, st)
    ensures FeedAll(g, st, deltas) == Feed(g, st, Concat(deltas))
    decreases |deltas|
  {
    if deltas != [] {
      FeedSettles(g, st, deltas[0]);
      FeedAllIsScan(g, Feed(g, st, deltas[0]).st, deltas[1..]);
      FeedAppend(g, st, deltas[0], Concat(deltas[1..]));
    }
  }

  lemma SplitIndependent(g: Tags, st: TagState, d1: seq<string>, d2: seq<string>)
    requires Settled(g, st) && Concat(d1) == Concat(d2)
    ensures FeedAll(g, st, d1) == FeedAll(g, st, d2)
  {
    FeedAllIsScan(g, st, d1);
    FeedAllIsScan(g, st, d2);
  }

  /** Outside a section with nothing held, text without `<` passes as it is. */
  lemma FastPath(g: Tags, suppress: bool, delta: string)
    requires '<' !in delta
    ensures Scan(g, false, suppress, delta) == Split(delta, "", TagState(false, "", suppress))
  {
    var tag := Tag(g, false);
    FindMeaning(delta, tag);
    PartMeaning(delta, tag);
    forall i: nat ensures !At(delta, tag, i) {
      assert i + |tag| <= |delta| ==> delta[i..i + |tag|][0] == delta[i];
    }
    forall k: nat | 0 < k ensures !EndsWithPart(delta, tag, k) {
      assert k <= |delta| && k < |tag| ==> delta[|delta| - k..][0] == delta[|delta| - k] && tag[..k][0] == '<';
    }
    assert delta[..|delta|] == delta;
  }

  /** The fast path of the splitter gives what the full splitting gives. */
  lemma FastFeed(g: Tags, st: TagState, delta: string)
    requires st.buf == "" && !st.inside && '<' !in delta
    ensures Feed(g, st, delta) == Split(delta, "", st)
  {
    FastPath(g, st.suppress, delta);
    assert "" + delta == delta;
  }

  // ---- what the outputs mean -----------------------------------------------

  /** The sections of `s`, alternately outside and inside, the tags removed. */
  function Sections(g: Tags, inside: bool, s: string): (ss: seq<string>)
    ensures ss != []
    decreases |s|
  {
    match Find(s, Tag(g, inside))
    case Some(i) => [s[..i]] + Sections(g, !inside, s[i + |Tag(g, inside)|..])
    case None => [s]
  }

  /** Sections with the tags put back between them. */
  function Weave(g: Tags, inside: bool, ss: seq<string>): string
    requires ss != []
    decreases |ss|
  {
    if |ss| == 1 then ss[0] else ss[0] + Tag(g, inside) + Weave(g, !inside, ss[1..])
  }

  /** The text of the sections that lie inside (or outside) thinking. */
  function Kind(inside: bool, wanted: bool, ss: seq<string>): string
    decreases |ss|
  {
    if ss == [] then "" else (if inside == wanted then ss[0] else "") + Kind(!inside, wanted, ss[1..])
  }

  /** No section but the last holds the tag that ends it, not even across its end. */
  ghost predicate Cut(g: Tags, inside: bool, ss: seq<string>)
    decreases |ss|
  {
    match |ss|
    case 0 => true
    case 1 => !Occurs(ss[0], Tag(g, inside))
    case _ => FirstAt(ss[0] + Tag(g, inside), Tag(g, inside), |ss[0]|) && Cut(g, !inside, ss[1..])
  }

  lemma SectionsAtTag(g: Tags, inside: bool, s: string, i: nat, rest: string)
    requires Find(s, Tag(g, inside)) == Some(i) && rest == s[i + |Tag(g, inside)|..]
    ensures Sections(g, inside, s) == [s[..i]] + Sections(g, !inside, rest)
  {
  }

  lemma WeaveCons(g: Tags, inside: bool, head: string, ss: seq<string>)
    requires ss != []
    ensures Weave(g, inside, [head] + ss) == head + Tag(g, inside) + Weave(g, !inside, ss)
  {
    assert ([head] + ss)[1..] == ss;
  }

  lemma CutCons(g: Tags, inside: bool, head: string, ss: seq<string>)
    requires ss != []
    requires FirstAt(head + Tag(g, inside), Tag(g, inside), |head|) && Cut(g, !inside, ss)
    ensures Cut(g, inside, [head] + ss)
  {
    assert ([head] + ss)[1..] == ss;
  }

  lemma KindCons(inside: bool, wanted: bool, head: string, ss: seq<string>)
    ensures Kind(inside, wanted, [head] + ss) == (if inside == wanted then head else "") + Kind(!inside, wanted, ss)
  {
    assert ([head] + ss)[1..] == ss;
  }

  /** A match at `i` splits the text in three. */
  lemma ThreeParts(s: string, tag: string, i: nat)
    requires Find(s, tag) == Some(i)
    ensures s == s[..i] + tag + s[i + |tag|..]
  {
    FindMeaning(s, tag);
  }

  /** Putting the tags back between the sections gives the input. */
  lemma {:induction false} WeaveSections(g: Tags, inside: bool, s: string)
    ensures Weave(g, inside, Sections(g, inside, s)) == s
    decreases |s|
  {
    match Find(s, Tag(g, inside)) {
      case Some(i) =>
        var rest := s[i + |Tag(g, inside)|..];
        WeaveSections(g, !inside, rest);
        SectionsAtTag(g, inside, s, i, rest);
        WeaveCons(g, inside, s[..i], Sections(g, !inside, rest));
        ThreeParts(s, Tag(g, inside), i);
      case None =>
    }
  }

  /** Up to its end, the first match in `s` is also the first one in `s[..i] + tag`. */
  lemma FirstInHead(s: string, tag: string, i: nat)
    requires FirstAt(s, tag, i)
    ensures FirstAt(s[..i] + tag, tag, i)
  {
    var head := s[..i] + tag;
    assert s == head + s[i + |tag|..];
    forall j: nat | j <= i ensures At(head, tag, j) == At(s, tag, j) {
      AtPrefix(head, s[i + |tag|..], tag, j);
    }
  }

  /** Every section but the last ends at the first tag of its kind. */
  lemma {:induction false} SectionsCut(g: Tags, inside: bool, s: string)
    ensures Cut(g, inside, Sections(g, inside, s))
    decreases |s|
  {
    var tag := Tag(g, inside);
    FindMeaning(s, tag);
    match Find(s, tag) {
      case Some(i) =>
        var rest := s[i + |tag|..];
        SectionsCut(g, !inside, rest);
        SectionsAtTag(g, inside, s, i, rest);
        FirstInHead(s, tag, i);
        CutCons(g, inside, s[..i], Sections(g, !inside, rest));
      case None =>
    }
  }

  /** What was emitted of one kind, and the held-back end when it is of that kind. */
  function Total(r: Split, wanted: bool): string {
    (if wanted then r.think else r.text) + (if r.st.inside == wanted then r.st.buf else "")
  }

  lemma TotalPrepend(inside: bool, head: string, r: Split, wanted: bool)
    ensures Total(Prepend(inside, head, r), wanted) == (if inside == wanted then head else "") + Total(r, wanted)
  {
    assert (head + r.text) + r.st.buf == head + (r.text + r.st.buf);
    assert (head + r.think) + r.st.buf == head + (r.think + r.st.buf);
  }

  /** The outputs are the sections of their kind; the held-back end belongs to the last one. */
  lemma {:induction false} ScanIsSections(g: Tags, inside: bool, suppress: bool, s: string, wanted: bool)
    ensures Total(Scan(g, inside, suppress, s), wanted) == Kind(inside, wanted, Sections(g, inside, s))
    decreases |s|
  {
    var tag := Tag(g, inside);
    match Find(s, tag) {
      case Some(i) =>
        var rest := s[i + |tag|..];
        ScanIsSections(g, !inside, suppress || !inside, rest, wanted);
        ScanAtTag(g, inside, suppress, s, i, rest);
        TotalPrepend(inside, s[..i], Scan(g, !inside, suppress || !inside, rest), wanted);
        SectionsAtTag(g, inside, s, i, rest);
        KindCons(inside, wanted, s[..i], Sections(g, !inside, rest));
      case None =>
        var cut := |s| - Part(s, tag);
        TotalPrepend(inside, s[..cut], Split("", "", TagState(inside, s[cut..], suppress)), wanted);
        assert s[..cut] + s[cut..] == s;
        KindCons(inside, wanted, s, []);
        assert [s] + [] == [s];
    }
  }

  /** Reasoning is suppressed from the first opening tag on. */
  lemma {:induction false} ScanSuppresses(g: Tags, inside: bool, suppress: bool, s: string)
    ensures Scan(g, inside, suppress, s).st.suppress == (suppress || |Sections(g, inside, s)| > (if inside then 2 else 1))
    decreases |s|
  {
    hide Find;
    hide Part;
    match Find(s, Tag(g, inside)) {
      case Some(i) =>
        var rest := s[i + |Tag(g, inside)|..];
        ScanAtTag(g, inside, suppress, s, i, rest);
        ScanSuppresses(g, !inside, suppress || !inside, rest);
        SectionsAtTag(g, inside, s, i, rest);
      case None =>
    }
  }

  // ---- texts with one section ----------------------------------------------

  /** A tag is found behind text that holds no `<`. */
  lemma FindPlain(head: string, tag: string, rest: string)
    requires '<' !in head && tag != "" && tag[0] == '<'
    ensures Find(head + tag + rest, tag) == Some(|head|)
  {
    var s := head + tag + rest;
    assert s[|head|..|head| + |tag|] == tag;
    forall j: nat | j < |head| ensures !At(s, tag, j) {
      assert j + |tag| <= |s| ==> s[j..j + |tag|][0] == head[j];
    }
    FirstIsFind(s, tag, |head|);
  }

  /** Behind text that holds no `<`, the start of a tag is no tag, and all of it is held back. */
  lemma PartPlain(head: string, tag: string, n: nat)
    requires '<' !in head && tag != "" && tag[0] == '<' && '<' !in tag[1..] && n < |tag|
    ensures Find(head + tag[..n], tag).None? && Part(head + tag[..n], tag) == n
  {
    var s := head + tag[..n];
    FindMeaning(s, tag);
    PartMeaning(s, tag);
    assert s[|s| - n..] == tag[..n];
    assert EndsWithPart(s, tag, n);
    forall i: nat ensures !At(s, tag, i) {
      assert i + |tag| <= |s| ==> s[i..i + |tag|][0] == head[i];
    }
    forall m: nat | n < m ensures !EndsWithPart(s, tag, m) {
      assert m <= |s| && m < |tag| ==> s[|s| - m..][0] == head[|s| - m] && tag[..m][0] == tag[0];
    }
  }

  /** Text in front of the first section. */
  lemma BeforeSection(head: string, rest: string)
    requires '<' !in head
    ensures Feed(THINKING, TagState(false, "", false), head + OPEN_TAG + rest)
            == Prepend(false, head, Scan(THINKING, true, true, rest))
  {
    hide Scan;
    hide Find;
    var s := head + OPEN_TAG + rest;
    assert "" + s == s;
    FindPlain(head, OPEN_TAG, rest);
    assert s[..|head|] == head && s[|head| + |OPEN_TAG|..] == rest;
    ScanAtTag(THINKING, false, false, s, |head|, rest);
  }

  /** Text, a section, and text again. */
  lemma OneSection(head: string, inner: string, tail: string)
    requires '<' !in head && '<' !in inner && '<' !in tail
    ensures Feed(THINKING, TagState(false, "", false), head + "<thinking>" + (inner + "</thinking>" + tail))
            == Split(head + tail, inner, TagState(false, "", true))
  {
    assert OPEN_TAG == "<thinking>" && CLOSE_TAG == "</thinking>";
    hide Scan;
    hide Find;
    var rest := inner + CLOSE_TAG + tail;
    BeforeSection(head, rest);
    FindPlain(inner, CLOSE_TAG, tail);
    assert rest[..|inner|] == inner && rest[|inner| + |CLOSE_TAG|..] == tail;
    ScanAtTag(THINKING, true, true, rest, |inner|, tail);
    FastPath(THINKING, true, tail);
    assert inner + "" == inner;
  }

  /** Text whose end is the start of the next tag. */
  lemma HeldPlain(g: Tags, inside: bool, suppress: bool, head: string, n: nat)
    requires var tag := Tag(g, inside); '<' !in head && '<' !in tag[1..] && n < |tag|
    ensures var part := Tag(g, inside)[..n];
            Scan(g, inside, suppress, head + part) == Prepend(inside, head, Split("", "", TagState(inside, part, suppress)))
  {
    hide Scan;
    hide Find;
    hide Part;
    var tag := Tag(g, inside);
    var s := head + tag[..n];
    PartPlain(head, tag, n);
    ScanNoTag(g, inside, suppress, s, |head|);
    assert s[..|head|] == head && s[|head|..] == tag[..n];
  }

  lemma HeldClosing(inner: string, n: nat)
    requires '<' !in inner && n < |CLOSE_TAG|
    ensures Scan(THINKING, true, true, inner + CLOSE_TAG[..n]) == Split("", inner, TagState(true, CLOSE_TAG[..n], true))
  {
    hide Scan;
    HeldPlain(THINKING, true, true, inner, n);
    assert inner + "" == inner;
  }

  /** Text and a section whose closing tag has only begun. */
  lemma OpenSection(head: string, inner: string, n: nat)
    requires '<' !in head && '<' !in inner && n < |CLOSE_TAG|
    ensures Feed(THINKING, TagState(false, "", false), head + OPEN_TAG + (inner + CLOSE_TAG[..n]))
            == Split(head, inner, TagState(true, CLOSE_TAG[..n], true))
  {
    hide Scan;
    hide Feed;
    BeforeSection(head, inner + CLOSE_TAG[..n]);
    HeldClosing(inner, n);
    assert head + "" == head;
  }

  /** Text whose end may become an opening tag. */
  lemma HeldOpening(head: string, n: nat)
    requires '<' !in head && n < |OPEN_TAG|
    ensures Feed(THINKING, TagState(false, "", false), head + OPEN_TAG[..n])
            == Split(head, "", TagState(false, OPEN_TAG[..n], false))
  {
    hide Scan;
    hide Find;
    var s := head + OPEN_TAG[..n];
    assert "" + s == s;
    HeldPlain(THINKING, false, false, head, n);
    assert head + "" == head;
  }

  // ---- one character at a time ---------------------------------------------

  lemma DropHolds(s: string, pat: string, k: nat)
    requires k <= |s| && Find(s, pat).None?
    ensures Find(s[k..], pat).None?
  {
    FindMeaning(s, pat);
    FindMeaning(s[k..], pat);
    forall i: nat ensures !At(s[k..], pat, i) {
      AtDrop(s, k, pat, i);
    }
  }

  /** What is held back never contains the tag it may grow into. */
  lemma {:induction false} ScanHolds(g: Tags, inside: bool, suppress: bool, s: string)
    ensures var st := Scan(g, inside, suppress, s).st; Find(st.buf, Tag(g, st.inside)).None?
    decreases |s|
  {
    hide Part;
    hide Find;
    hide Scan;
    var tag := Tag(g, inside);
    match Find(s, tag) {
      case Some(i) =>
        var rest := s[i + |tag|..];
        ScanAtTag(g, inside, suppress, s, i, rest);
        ScanHolds(g, !inside, suppress || !inside, rest);
      case None =>
        var cut := |s| - Part(s, tag);
        ScanNoTag(g, inside, suppress, s, cut);
        DropHolds(s, tag, cut);
    }
  }

  /** One more character lets through text or thinking, never both. */
  lemma OneKind(g: Tags, st: TagState, c: char)
    requires Find(st.buf, Tag(g, st.inside)).None?
    ensures var a := Feed(g, st, [c]); a.text == "" || a.think == ""
  {
    hide Part;
    var tag, s := Tag(g, st.inside), st.buf + [c];
    FindMeaning(st.buf, tag);
    match Find(s, tag) {
      case Some(i) =>
        FindMeaning(s, tag);
        if i + |tag| <= |st.buf| {
          AtPrefix(st.buf, [c], tag, i);
        }
        assert s[i + |tag|..] == "";
        ScanAtTag(g, st.inside, st.suppress, s, i, "");
        NothingFed(g, !st.inside, st.suppress || !st.inside);
      case None =>
    }
  }

  lemma NothingFed(g: Tags, inside: bool, suppress: bool)
    ensures Scan(g, inside, suppress, "") == Split("", "", TagState(inside, "", suppress))
  {
    FindMeaning("", Tag(g, inside));
    ScanNoTag(g, inside, suppress, "", 0);
  }
}
