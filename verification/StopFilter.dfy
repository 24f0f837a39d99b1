/**
 The stop-sequence filter of the response translator: text is held back while its end
 may still grow into a stop sequence, and cut where a listed sequence is found.
 */
module StopFilter {
  import opened Wrappers
  import opened Text

  /** The sequences the translator keeps: empty ones are dropped. */
  function Usable(list: seq<string>): (r: seq<string>)
    ensures forall x | x in r :: x != "" && x in list
    ensures forall x | x in list && x != "" :: x in r
  {
    if list == [] then [] else (if list[0] == "" then [] else [list[0]]) + Usable(list[1..])
  }

  /** One character less than the longest sequence. */
  function MaxKeep(list: seq<string>): (k: nat)
    ensures forall x | x in list :: |x| <= k + 1
  {
    if list == [] then 0 else
    var rest := MaxKeep(list[1..]);
    if |list[0]| <= rest then rest else |list[0]| - 1
  }

  /** The first sequence in list order that occurs in `s`. */
  function FirstListed(list: seq<string>, s: string): (r: Option<string>)
    ensures r.Some? ==> Find(s, r.value).Some?
  {
    if list == [] then None
    else if Find(s, list[0]).Some? then Some(list[0])
    else FirstListed(list[1..], s)
  }

  /** It finds nothing exactly when no listed sequence occurs. */
  lemma {:induction false} ListedMeaning(list: seq<string>, s: string)
    ensures FirstListed(list, s).Some? ==> FirstListed(list, s).value in list
    ensures FirstListed(list, s).None? <==> forall x | x in list :: Find(s, x).None?
  {
    if list != [] && Find(s, list[0]).None? {
      ListedMeaning(list[1..], s);
    }
  }

  datatype Filtered = Filtered(emit: string, pending: string, hit: Option<string>)

  /** What one delta yields after `pending` was held back. */
  function Apply(list: seq<string>, pending: string, delta: string): Filtered {
    var p := pending + delta;
    match FirstListed(list, p)
    case Some(x) => Filtered(p[..Find(p, x).value], "", Some(x))
    case None => Hold(list, p)
  }

  /** Everything but the last `MaxKeep` characters is let through. */
  function Hold(list: seq<string>, p: string): Filtered {
    var keep := MaxKeep(list);
    if |p| <= keep then Filtered("", p, None)
    else Filtered(p[..|p| - keep], p[|p| - keep..], None)
  }

  /** A run over deltas; nothing is fed once a sequence was found. */
  function Run(list: seq<string>, pending: string, deltas: seq<string>): Filtered
    decreases |deltas|
  {
    if deltas == [] then Filtered("", pending, None) else
    var a := Apply(list, pending, deltas[0]);
    if a.hit.Some? then a else
    var b := Run(list, a.pending, deltas[1..]);
    b.(emit := a.emit + b.emit)
  }

  /** `pending` is what the filter holds after it saw `seen` without finding a sequence. */
  ghost predicate Holds(list: seq<string>, seen: string, pending: string) {
    && FirstListed(list, seen).None?
    && |pending| <= |seen| && pending == seen[|seen| - |pending|..]
    && |pending| == (if |seen| <= MaxKeep(list) then |seen| else MaxKeep(list))
  }

  /** Searching the held-back text is as good as searching all text seen so far. */
  lemma PendingIsEnough(list: seq<string>, seen: string, pending: string, d: string, x: string)
    requires Holds(list, seen, pending) && x in list
    ensures Find(seen + d, x) == Shift(Find(pending + d, x), |seen| - |pending|)
  {
    var n := |seen| - |pending|;
    ListedMeaning(list, seen);
    FindMeaning(seen, x);
    forall j: nat | j < n ensures !At(seen + d, x, j) {
      AtPrefix(seen, d, x, j);
    }
    FindDrop(seen + d, n, x);
    assert (seen + d)[n..] == pending + d;
  }

  lemma SameHit(list: seq<string>, seen: string, pending: string, d: string)
    requires Holds(list, seen, pending)
    ensures FirstListed(list, seen + d) == FirstListed(list, pending + d)
  {
    forall x | x in list ensures Find(seen + d, x).None? == Find(pending + d, x).None? {
      PendingIsEnough(list, seen, pending, d, x);
    }
    SameListed(list, seen + d, pending + d);
  }

  /** Trying the listed sequences one by one. */
  lemma ListedStep(list: seq<string>, i: nat, s: string)
    requires i < |list|
    ensures FirstListed(list[i..], s) == if Find(s, list[i]).Some? then Some(list[i]) else FirstListed(list[i + 1..], s)
  {
    assert list[i..][1..] == list[i + 1..];
  }

  lemma {:induction false} SameListed(list: seq<string>, s: string, t: string)
    requires forall x | x in list :: Find(s, x).None? == Find(t, x).None?
    ensures FirstListed(list, s) == FirstListed(list, t)
  {
    if list != [] {
      SameListed(list[1..], s, t);
    }
  }

  /**
   What a result says about the whole text: nothing found, and emitted text followed by
   held-back text is the input; or `x` is the first listed sequence in what was read, and
   the emitted text ends where `x` occurs first in the whole input.
   */
  ghost predicate Judged(list: seq<string>, before: string, read: string, input: string, r: Filtered) {
    && r.hit == FirstListed(list, read)
    && match r.hit
       case None => read == input && Holds(list, input, r.pending) && before + r.emit + r.pending == input
       case Some(x) =>
         && read <= input && Find(input, x) == Find(read, x)
         && before + r.emit == input[..Find(input, x).value] && r.pending == ""
  }

  /** What had been let through when `pending` was held back. */
  function Before(seen: string, pending: string): string
    requires |pending| <= |seen|
  {
    seen[..|seen| - |pending|]
  }

  lemma HoldMeaning(list: seq<string>, before: string, p: string, seen: string)
    requires seen == before + p && FirstListed(list, seen).None?
    requires before == "" || MaxKeep(list) <= |p|
    ensures Judged(list, before, seen, seen, Hold(list, p))
  {
    var r := Hold(list, p);
    assert r.emit + r.pending == p;
    assert before + r.emit + r.pending == seen;
  }

  /** One delta, judged by all the text seen so far. */
  lemma ApplyMeaning(list: seq<string>, seen: string, pending: string, d: string)
    requires Holds(list, seen, pending)
    ensures Judged(list, Before(seen, pending), seen + d, seen + d, Apply(list, pending, d))
  {
    hide FirstListed;
    hide Find;
    hide Hold;
    var before, p := Before(seen, pending), pending + d;
    SameHit(list, seen, pending, d);
    assert seen + d == before + p;
    match FirstListed(list, p) {
      case None => HoldMeaning(list, before, p, seen + d);
      case Some(x) =>
        ListedMeaning(list, p);
        PendingIsEnough(list, seen, pending, d, x);
        SliceJoin(before, p, Find(p, x).value);
    }
  }

  lemma SliceJoin(before: string, p: string, i: nat)
    requires i <= |p|
    ensures (before + p)[..|before| + i] == before + p[..i]
  {
  }

  /** The part of the deltas that a run has read when it stops. */
  function Read(list: seq<string>, pending: string, deltas: seq<string>): (n: nat)
    ensures n <= |deltas|
    decreases |deltas|
  {
    if deltas == [] then 0
    else if Apply(list, pending, deltas[0]).hit.Some? then 1
    else 1 + Read(list, Apply(list, pending, deltas[0]).pending, deltas[1..])
  }

  /** The text a run has read when it stops. */
  function ReadText(list: seq<string>, pending: string, deltas: seq<string>): string {
    Concat(deltas[..Read(list, pending, deltas)])
  }

  lemma ReadTextStep(list: seq<string>, pending: string, deltas: seq<string>)
    requires deltas != []
    ensures var a := Apply(list, pending, deltas[0]);
            ReadText(list, pending, deltas)
            == deltas[0] + if a.hit.Some? then "" else ReadText(list, a.pending, deltas[1..])
  {
    var a := Apply(list, pending, deltas[0]);
    if a.hit.Some? {
      assert deltas[..1][1..] == [];
      assert Concat(deltas[..1][1..]) == "";
    } else {
      var n := Read(list, a.pending, deltas[1..]);
      assert deltas[..n + 1][1..] == deltas[1..][..n];
    }
  }

  /** A whole run, judged by the whole input. */
  lemma {:induction false} RunMeaning(list: seq<string>, seen: string, pending: string, deltas: seq<string>)
    requires Holds(list, seen, pending)
    ensures Judged(list, Before(seen, pending), seen + ReadText(list, pending, deltas), seen + Concat(deltas),
                   Run(list, pending, deltas))
    decreases |deltas|
  {
    if deltas == [] {
      assert seen + "" == seen && Before(seen, pending) + "" == Before(seen, pending);
      assert Before(seen, pending) + pending == seen;
    } else {
      var a := Apply(list, pending, deltas[0]);
      ApplyMeaning(list, seen, pending, deltas[0]);
      if a.hit.None? {
        RunMeaning(list, seen + deltas[0], a.pending, deltas[1..]);
      }
      RunStep(list, seen, pending, deltas);
    }
  }

  lemma RunStep(list: seq<string>, seen: string, pending: string, deltas: seq<string>)
    requires deltas != [] && |pending| <= |seen|
    requires var a := Apply(list, pending, deltas[0]);
             var seen' := seen + deltas[0];
             && Judged(list, Before(seen, pending), seen', seen', a)
             && (a.hit.None? ==>
                   Judged(list, Before(seen', a.pending), seen' + ReadText(list, a.pending, deltas[1..]),
                          seen' + Concat(deltas[1..]), Run(list, a.pending, deltas[1..])))
    ensures Judged(list, Before(seen, pending), seen + ReadText(list, pending, deltas), seen + Concat(deltas),
                   Run(list, pending, deltas))
  {
    var d, rest := deltas[0], deltas[1..];
    var a := Apply(list, pending, d);
    ReadTextStep(list, pending, deltas);
    Assoc(seen, d, Concat(rest));
    if a.hit.Some? {
      assert d + "" == d;
      JudgedHit(list, Before(seen, pending), seen + d, Concat(rest), a);
    } else {
      Assoc(seen, d, ReadText(list, a.pending, rest));
      JudgedStep(list, Before(seen, pending), a, seen + d, seen + ReadText(list, pending, deltas),
                 seen + Concat(deltas), Run(list, a.pending, rest));
    }
  }

  lemma Assoc(a: string, b: string, c: string)
    ensures (a + b) + c == a + (b + c)
  {
  }

  /** A hit stays the same hit in a longer input. */
  lemma JudgedHit(list: seq<string>, before: string, read: string, more: string, a: Filtered)
    requires a.hit.Some? && Judged(list, before, read, read, a)
    ensures Judged(list, before, read, read + more, a)
  {
    FindExtend(read, more, a.hit.value);
  }

  /** The outcome `b` of later deltas, with the text `a` let through put in front. */
  lemma JudgedStep(list: seq<string>, before: string, a: Filtered, seen: string, read: string, input: string, b: Filtered)
    requires |a.pending| <= |seen| && before + a.emit + a.pending == seen
    requires Judged(list, Before(seen, a.pending), read, input, b)
    ensures Judged(list, before, read, input, b.(emit := a.emit + b.emit))
  {
    assert Before(seen, a.pending) == before + a.emit;
    assert (before + a.emit) + b.emit == before + (a.emit + b.emit);
  }

  // ---- chunking ---------------------------------------------------------------

  /** No listed sequence is complete before the first listed one that occurs in `w`. */
  ghost predicate CompletesFirst(list: seq<string>, w: string) {
    match FirstListed(list, w)
    case None => true
    case Some(x) =>
      forall y | y in list && Find(w, y).Some? :: Find(w, x).value + |x| <= Find(w, y).value + |y|
  }

  lemma {:induction false} ListedInPrefix(list: seq<string>, s: string, t: string, x: string)
    requires s <= t && FirstListed(list, t) == Some(x) && Find(s, x).Some?
    ensures FirstListed(list, s) == Some(x)
  {
    if list != [] && Find(t, list[0]).None? {
      FoundInPrefix(s, t, list[0]);
      ListedInPrefix(list[1..], s, t, x);
    }
  }

  lemma FoundInPrefix(s: string, t: string, y: string)
    requires s <= t
    ensures Find(s, y).Some? ==> Find(t, y) == Find(s, y)
    ensures Find(t, y).Some? && Find(t, y).value + |y| <= |s| ==> Find(s, y) == Find(t, y)
  {
    assert t == s + t[|s|..];
    if Find(s, y).Some? {
      FindExtend(s, t[|s|..], y);
    } else if Find(t, y).Some? && Find(t, y).value + |y| <= |s| {
      FindMeaning(t, y);
      FindMeaning(s, y);
      AtPrefix(s, t[|s|..], y, Find(t, y).value);
    }
  }

  lemma StartHolds(list: seq<string>)
    requires forall x | x in list :: x != ""
    ensures Holds(list, "", "")
  {
    ListedMeaning(list, "");
  }

  lemma OneShot(list: seq<string>, w: string)
    ensures Run(list, "", [w]) == Apply(list, "", w)
  {
    var a := Apply(list, "", w);
    assert [w][1..] == [];
    assert a.emit + "" == a.emit;
    assert Run(list, a.pending, []) == Filtered("", a.pending, None);
  }

  /** When the deciding sequence completes first, no cutting into deltas changes the outcome. */
  lemma ChunkingIrrelevant(list: seq<string>, deltas: seq<string>)
    requires forall x | x in list :: x != ""
    requires CompletesFirst(list, Concat(deltas))
    ensures Run(list, "", deltas) == Run(list, "", [Concat(deltas)])
  {
    var w := Concat(deltas);
    var r := Run(list, "", deltas);
    var read := ReadText(list, "", deltas);
    StartHolds(list);
    RunMeaning(list, "", "", deltas);
    OneShot(list, w);
    ListedMeaning(list, read);
    ListedMeaning(list, w);
    ApplyMeaning(list, "", "", w);
    assert "" + w == w && "" + read == read && "" + r.emit == r.emit;
    var o := Apply(list, "", w);
    assert "" + o.emit == o.emit;
    assert Before("", "") == "";
    match r.hit {
      case None =>
        assert r.emit == w[..|w| - |r.pending|];
      case Some(y) =>
        var x := FirstListed(list, w).value;
        FoundInPrefix(read, w, y);
        FoundInPrefix(read, w, x);
        ListedInPrefix(list, read, w, x);
    }
  }

  /** When another sequence completes first, cutting right behind it changes the outcome. */
  lemma ChunkingMatters(list: seq<string>, w: string) returns (deltas: seq<string>)
    requires forall x | x in list :: x != ""
    requires !CompletesFirst(list, w)
    ensures Concat(deltas) == w && Run(list, "", deltas).hit != Run(list, "", [w]).hit
  {
    var x := FirstListed(list, w).value;
    var y :| y in list && Find(w, y).Some? && Find(w, x).value + |x| > Find(w, y).value + |y|;
    var m := Find(w, y).value + |y|;
    deltas := [w[..m], w[m..]];
    assert deltas[1..] == [w[m..]] && deltas[1..][1..] == [];
    assert Concat(deltas[1..]) == w[m..] + "" == w[m..];
    assert w == w[..m] + w[m..];
    FoundInPrefix(w[..m], w, y);
    FoundInPrefix(w[..m], w, x);
    ListedMeaning(list, w[..m]);
    assert "" + w[..m] == w[..m] && "" + w == w;
    OneShot(list, w);
  }

  /** Where the text is cut is independent of chunking exactly when the deciding sequence completes first. */
  lemma ChunkingIndependentIff(list: seq<string>, w: string)
    requires forall x | x in list :: x != ""
    ensures (forall deltas | Concat(deltas) == w :: Run(list, "", deltas) == Run(list, "", [w])) <==> CompletesFirst(list, w)
  {
    if CompletesFirst(list, w) {
      forall deltas | Concat(deltas) == w ensures Run(list, "", deltas) == Run(list, "", [w]) {
        ChunkingIrrelevant(list, deltas);
      }
    } else {
      var deltas := ChunkingMatters(list, w);
    }
  }

  /** With a single sequence chunking never matters. */
  lemma SingleSequence(x: string, deltas: seq<string>)
    requires x != ""
    ensures Run([x], "", deltas) == Run([x], "", [Concat(deltas)])
  {
    ListedMeaning([x], Concat(deltas));
    ChunkingIrrelevant([x], deltas);
  }

  /** One sequence, at the end of a text without its first character. */
  lemma OneSequence(x: string, head: string)
    requires x != "" && x[0] !in head
    ensures Usable([x]) == [x] && MaxKeep([x]) == |x| - 1
    ensures FirstListed([x], head + x) == Some(x) && Find(head + x, x) == Some(|head|)
    ensures FirstListed([x], head).None?
  {
    hide Find;
    var s := head + x;
    assert [x][1..] == [];
    assert At(s, x, |head|);
    forall j: nat | j < |head| ensures !At(s, x, j) && !At(head, x, j) {
      assert j + |x| <= |s| ==> s[j..j + |x|][0] == head[j];
      assert j + |x| <= |head| ==> head[j..j + |x|][0] == head[j];
    }
    FirstIsFind(s, x, |head|);
    FindMeaning(head, x);
  }

  /** With two it may: `["bc", "a"]` on `abc` gives `a` in one piece and nothing cut after `a`. */
  lemma TwoSequencesDiffer()
    ensures Run(["bc", "a"], "", ["abc"]) == Filtered("a", "", Some("bc"))
    ensures Run(["bc", "a"], "", ["a", "bc"]) == Filtered("", "", Some("a"))
  {
    var list := ["bc", "a"];
    assert list[1..] == ["a"];
    assert "" + "abc" == "abc" && "" + "a" == "a";
    assert "abc"[0..2][0] == 'a' && "bc"[0] == 'b';
    assert "abc"[1..3] == "bc";
    FirstIsFind("abc", "bc", 1);
    assert At("a", "a", 0);
    FirstIsFind("a", "a", 0);
    assert Find("a", "bc").None?;
  }
}
