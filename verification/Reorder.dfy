/** Tool results put into the order of the calls that they answer. */
module Reorder {
  import opened Wrappers
  import opened Content

  /** Where the first result of that id is. */
  function FirstOf(results: seq<ToolResult>, id: string): (r: Option<nat>)
    ensures r.Some? ==> r.value < |results| && results[r.value].id == id
  {
    if results == [] then None
    else if results[0].id == id then Some(0)
    else match FirstOf(results[1..], id)
      case None => None
      case Some(k) => Some(k + 1)
  }

  function Without(results: seq<ToolResult>, k: nat): (r: seq<ToolResult>)
    requires k < |results|
    ensures |r| == |results| - 1
  {
    results[..k] + results[k + 1..]
  }

  /** What is picked for the ids, one result for each that has one left, and what is left over. */
  datatype Split = Split(picked: seq<ToolResult>, rest: seq<ToolResult>)

  function Pick(results: seq<ToolResult>, ids: seq<string>): Split
    decreases |ids|
  {
    if ids == [] then Split([], results) else
    match FirstOf(results, ids[0])
    case None => Pick(results, ids[1..])
    case Some(k) =>
      var s := Pick(Without(results, k), ids[1..]);
      Split([results[k]] + s.picked, s.rest)
  }

  function Reordered(results: seq<ToolResult>, ids: seq<string>): seq<ToolResult> {
    if |results| <= 1 || ids == [] then results
    else Pick(results, ids).picked + Pick(results, ids).rest
  }

  // ---- in place -----------------------------------------------------------------------------

  function Flat(slots: seq<Option<ToolResult>>): seq<ToolResult> {
    if slots == [] then [] else (if slots[0].Some? then [slots[0].value] else []) + Flat(slots[1..])
  }

  lemma {:induction false} FlatAppend(a: seq<Option<ToolResult>>, b: seq<Option<ToolResult>>)
    ensures Flat(a + b) == Flat(a) + Flat(b)
    decreases |a|
  {
    if a == [] {
      assert a + b == b;
    } else {
      assert (a + b)[1..] == a[1..] + b;
      FlatAppend(a[1..], b);
      var p := if a[0].Some? then [a[0].value] else [];
      assert p + (Flat(a[1..]) + Flat(b)) == (p + Flat(a[1..])) + Flat(b);
    }
  }

  lemma FlatOne(x: Option<ToolResult>)
    ensures Flat([x]) == if x.Some? then [x.value] else []
  {
    assert [x][1..] == [];
  }

  /** No slot before `k` holds that id. */
  ghost predicate NoneBefore(slots: seq<Option<ToolResult>>, k: nat, id: string) {
    k <= |slots| && forall i | 0 <= i < k :: !(slots[i].Some? && slots[i].value.id == id)
  }

  lemma {:induction false} FlatHasNone(slots: seq<Option<ToolResult>>, id: string)
    requires NoneBefore(slots, |slots|, id)
    ensures FirstOf(Flat(slots), id).None?
    decreases |slots|
  {
    if slots != [] {
      assert forall i | 0 <= i < |slots| - 1 :: slots[1..][i] == slots[i + 1];
      FlatHasNone(slots[1..], id);
      assert [] + Flat(slots[1..]) == Flat(slots[1..]);
      if slots[0].Some? {
        assert Flat(slots)[1..] == Flat(slots[1..]);
      }
    }
  }

  lemma {:induction false} FirstAppend(a: seq<ToolResult>, x: ToolResult, b: seq<ToolResult>)
    requires FirstOf(a, x.id).None?
    ensures FirstOf(a + [x] + b, x.id) == Some(|a|)
    decreases |a|
  {
    if a == [] {
      assert a + [x] + b == [x] + b;
    } else {
      assert (a + [x] + b)[1..] == a[1..] + [x] + b;
      FirstAppend(a[1..], x, b);
    }
  }

  /** Taking the first slot of an id takes the first result of that id. */
  lemma TakeSlot(slots: seq<Option<ToolResult>>, k: nat, id: string)
    requires k < |slots| && NoneBefore(slots, k, id) && slots[k].Some? && slots[k].value.id == id
    ensures var first := FirstOf(Flat(slots), id);
            && first.Some? && Flat(slots)[first.value] == slots[k].value
            && Flat(slots[k := None]) == Without(Flat(slots), first.value)
  {
    hide Flat;
    var a, x, b := slots[..k], slots[k], slots[k + 1..];
    assert slots == a + [x] + b && slots[k := None] == a + [None] + b;
    FlatAppend(a + [x], b);
    FlatAppend(a, [x]);
    FlatAppend(a + [None], b);
    FlatAppend(a, [None]);
    FlatOne(x);
    FlatOne(None);
    FlatHasNone(a, id);
    FirstAppend(Flat(a), x.value, Flat(b));
    var all := Flat(a) + [x.value] + Flat(b);
    assert all[..|Flat(a)|] == Flat(a) && all[|Flat(a)| + 1..] == Flat(b);
    assert Flat(a) + [] == Flat(a);
  }

  lemma {:induction false} FlatAll(results: seq<ToolResult>, slots: seq<Option<ToolResult>>)
    requires |slots| == |results| && forall i | 0 <= i < |results| :: slots[i] == Some(results[i])
    ensures Flat(slots) == results
    decreases |results|
  {
    if results != [] {
      FlatAll(results[1..], slots[1..]);
      assert results == [results[0]] + results[1..];
    }
  }

  /** The first slot that holds a result of that id, or the number of slots. */
  method FindSlot(rest: array<Option<ToolResult>>, id: string) returns (k: nat)
    ensures NoneBefore(rest[..], k, id)
    ensures k < rest.Length ==> rest[k].Some? && rest[k].value.id == id
  {
    k := 0;
    while k < rest.Length && !(rest[k].Some? && rest[k].value.id == id)
      invariant NoneBefore(rest[..], k, id)
    {
      k := k + 1;
    }
  }

  /** Take a result for every id that has one, out of its slot. */
  method TakeOrdered(rest: array<Option<ToolResult>>, ids: seq<string>) returns (ordered: seq<ToolResult>)
    modifies rest
    ensures Pick(old(Flat(rest[..])), ids) == Split(ordered, Flat(rest[..]))
  {
    hide Flat;
    hide Without;
    ordered := [];
    ghost var all := Flat(rest[..]);
    var n := 0;
    PickDone(all, ids);
    while n < |ids|
      invariant 0 <= n <= |ids|
      invariant Pick(all, ids) == Onto(ordered, Pick(Flat(rest[..]), ids[n..]))
    {
      var id := ids[n];
      PickStep(Flat(rest[..]), ids, n);
      var k := FindSlot(rest, id);
      if k < rest.Length {
        TakeSlot(rest[..], k, id);
        ghost var before := rest[..];
        ordered := ordered + [rest[k].value];
        rest[k] := None;
        assert rest[..] == before[k := None];
        OntoMore(ordered[..|ordered| - 1], before[k].value, Pick(Flat(rest[..]), ids[n + 1..]));
      } else {
        FlatHasNone(rest[..], id);
      }
      n := n + 1;
    }
    PickNothing(Flat(rest[..]), ids);
    assert ordered + [] == ordered;
  }

  ghost function Onto(ordered: seq<ToolResult>, s: Split): Split {
    Split(ordered + s.picked, s.rest)
  }

  lemma OntoMore(ordered: seq<ToolResult>, x: ToolResult, s: Split)
    ensures Onto(ordered, Split([x] + s.picked, s.rest)) == Onto(ordered + [x], s)
  {
    assert ordered + ([x] + s.picked) == ordered + [x] + s.picked;
  }

  lemma PickDone(all: seq<ToolResult>, ids: seq<string>)
    ensures Pick(all, ids) == Onto([], Pick(all, ids[0..]))
  {
    assert ids[0..] == ids;
    assert [] + Pick(all, ids).picked == Pick(all, ids).picked;
  }

  lemma PickNothing(rest: seq<ToolResult>, ids: seq<string>)
    ensures Pick(rest, ids[|ids|..]) == Split([], rest)
  {
  }

  lemma PickStep(rest: seq<ToolResult>, ids: seq<string>, n: nat)
    requires n < |ids|
    ensures var k := FirstOf(rest, ids[n]);
            && (k.None? ==> Pick(rest, ids[n..]) == Pick(rest, ids[n + 1..]))
            && (k.Some? ==> var s := Pick(Without(rest, k.value), ids[n + 1..]);
                            Pick(rest, ids[n..]) == Split([rest[k.value]] + s.picked, s.rest))
  {
    hide Without;
    assert ids[n..][1..] == ids[n + 1..];
  }

  /** `rest.into_iter().flatten()`. */
  method Flattened(rest: array<Option<ToolResult>>) returns (r: seq<ToolResult>)
    ensures r == Flat(rest[..])
  {
    r := [];
    var k := 0;
    while k < rest.Length
      invariant 0 <= k <= rest.Length
      invariant r == Flat(rest[..k])
    {
      FlatAppend(rest[..k], [rest[k]]);
      FlatOne(rest[k]);
      assert rest[..k + 1] == rest[..k] + [rest[k]];
      if rest[k].Some? {
        r := r + [rest[k].value];
      }
      k := k + 1;
    }
    assert rest[..k] == rest[..];
  }

  /** `reorder_tool_results`: the results are taken out of their slots one by one. */
  method ReorderToolResults(results: seq<ToolResult>, ids: seq<string>) returns (r: seq<ToolResult>)
    ensures r == Reordered(results, ids)
  {
    if |results| <= 1 || |ids| == 0 {
      return results;
    }
    var rest := new Option<ToolResult>[|results|](i requires 0 <= i < |results| => Some(results[i]));
    FlatAll(results, rest[..]);
    var ordered := TakeOrdered(rest, ids);
    var others := Flattened(rest);
    r := ordered + others;
  }

  // ---- what reordering keeps ------------------------------------------------------------------

  lemma WithoutMultiset(results: seq<ToolResult>, k: nat)
    requires k < |results|
    ensures multiset(results) == multiset([results[k]]) + multiset(Without(results, k))
  {
    assert results == results[..k] + ([results[k]] + results[k + 1..]);
  }

  /** Picking is a partition of the results. */
  lemma {:induction false} PickPartition(results: seq<ToolResult>, ids: seq<string>)
    ensures multiset(Pick(results, ids).picked) + multiset(Pick(results, ids).rest) == multiset(results)
    decreases |ids|
  {
    hide Without;
    if ids != [] {
      match FirstOf(results, ids[0])
      case None => PickPartition(results, ids[1..]);
      case Some(k) =>
        PickPartition(Without(results, k), ids[1..]);
        WithoutMultiset(results, k);
    }
  }

  /** Reordering is a permutation: no result is lost, none is made up. */
  lemma ReorderedPermutes(results: seq<ToolResult>, ids: seq<string>)
    ensures multiset(Reordered(results, ids)) == multiset(results)
  {
    hide Pick;
    PickPartition(results, ids);
  }

  /** `a` is `b` with some elements left out. */
  predicate Within<T(==)>(a: seq<T>, b: seq<T>) {
    a == [] || (b != [] && if a[0] == b[0] then Within(a[1..], b[1..]) else Within(a, b[1..]))
  }

  lemma {:induction false} WithinRefl<T>(a: seq<T>)
    ensures Within(a, a)
  {
    if a != [] {
      WithinRefl(a[1..]);
    }
  }

  lemma {:induction false} WithinMore<T>(a: seq<T>, x: T, b: seq<T>)
    requires Within(a, b)
    ensures Within(a, [x] + b)
    decreases |b|, 1
  {
    assert ([x] + b)[1..] == b;
    if a != [] && a[0] == x {
      WithinTail(a, b);
    }
  }

  lemma {:induction false} WithinTail<T>(a: seq<T>, b: seq<T>)
    requires Within(a, b) && a != []
    ensures Within(a[1..], b)
    decreases |b|, 0
  {
    if a[0] == b[0] {
      WithinMore(a[1..], b[0], b[1..]);
      assert b == [b[0]] + b[1..];
    } else {
      WithinTail(a, b[1..]);
      WithinMore(a[1..], b[0], b[1..]);
      assert b == [b[0]] + b[1..];
    }
  }

  lemma {:induction false} WithinWithout(a: seq<ToolResult>, b: seq<ToolResult>, k: nat)
    requires k < |b| && Within(a, Without(b, k))
    ensures Within(a, b)
    decreases |b|
  {
    if k == 0 {
      assert Without(b, 0) == b[1..] && b == [b[0]] + b[1..];
      WithinMore(a, b[0], b[1..]);
    } else if a != [] {
      assert Without(b, k)[1..] == Without(b[1..], k - 1) && Without(b, k)[0] == b[0];
      WithinWithout(if a[0] == b[0] then a[1..] else a, b[1..], k - 1);
    }
  }

  /** What is picked follows the order of the ids; what is left keeps its order. */
  lemma {:induction false} PickOrder(results: seq<ToolResult>, ids: seq<string>)
    ensures Within(IdsOf(Pick(results, ids).picked), ids)
    ensures Within(Pick(results, ids).rest, results)
    decreases |ids|
  {
    hide Without;
    if ids == [] {
      WithinRefl(results);
    } else {
      assert ids == [ids[0]] + ids[1..];
      match FirstOf(results, ids[0])
      case None =>
        PickOrder(results, ids[1..]);
        WithinMore(IdsOf(Pick(results, ids[1..]).picked), ids[0], ids[1..]);
      case Some(k) =>
        var s := Pick(Without(results, k), ids[1..]);
        PickOrder(Without(results, k), ids[1..]);
        WithinWithout(s.rest, results, k);
        assert ([results[k]] + s.picked)[1..] == s.picked;
    }
  }

  function CountIds(ids: seq<string>, id: string): nat {
    if ids == [] then 0 else (if ids[0] == id then 1 else 0) + CountIds(ids[1..], id)
  }

  lemma {:induction false} CountAppend(a: seq<string>, b: seq<string>, id: string)
    ensures CountIds(a + b, id) == CountIds(a, id) + CountIds(b, id)
    decreases |a|
  {
    if a == [] {
      assert a + b == b;
    } else {
      assert (a + b)[1..] == a[1..] + b;
      CountAppend(a[1..], b, id);
    }
  }

  lemma {:induction false} NoneCounts(results: seq<ToolResult>, id: string)
    ensures FirstOf(results, id).None? <==> CountIds(IdsOf(results), id) == 0
    decreases |results|
  {
    if results != [] {
      assert IdsOf(results)[1..] == IdsOf(results[1..]);
      NoneCounts(results[1..], id);
    }
  }

  lemma WithoutCounts(results: seq<ToolResult>, k: nat, id: string)
    requires k < |results|
    ensures CountIds(IdsOf(results), id) == CountIds(IdsOf(Without(results, k)), id) + if results[k].id == id then 1 else 0
  {
    hide CountIds;
    var a, b := results[..k], results[k + 1..];
    assert results == a + ([results[k]] + b);
    IdsAppend(a, b);
    IdsAppend(a, [results[k]] + b);
    IdsAppend([results[k]], b);
    CountAppend(IdsOf(a), IdsOf(b), id);
    CountAppend(IdsOf(a), IdsOf([results[k]]) + IdsOf(b), id);
    CountAppend(IdsOf([results[k]]), IdsOf(b), id);
    CountSingle(results[k], id);
  }

  lemma CountSingle(r: ToolResult, id: string)
    ensures CountIds(IdsOf([r]), id) == if r.id == id then 1 else 0
  {
    assert [r][1..] == [];
    assert IdsOf([r]) == [r.id];
    assert [r.id][1..] == [];
  }

  function Min(a: nat, b: nat): nat {
    if a < b then a else b
  }

  /** For every id as many results are picked as there are calls and results of that id. */
  lemma {:induction false} PickCounts(results: seq<ToolResult>, ids: seq<string>, id: string)
    ensures CountIds(IdsOf(Pick(results, ids).picked), id) == Min(CountIds(IdsOf(results), id), CountIds(ids, id))
    decreases |ids|
  {
    hide Without;
    if ids != [] {
      NoneCounts(results, ids[0]);
      match FirstOf(results, ids[0])
      case None => PickCounts(results, ids[1..], id);
      case Some(k) =>
        var s := Pick(Without(results, k), ids[1..]);
        PickCounts(Without(results, k), ids[1..], id);
        WithoutCounts(results, k, id);
        assert ([results[k]] + s.picked)[1..] == s.picked;
        assert IdsOf([results[k]] + s.picked) == [results[k].id] + IdsOf(s.picked);
        assert ([results[k].id] + IdsOf(s.picked))[1..] == IdsOf(s.picked);
    }
  }
}
