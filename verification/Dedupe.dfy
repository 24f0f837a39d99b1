/** Tool calls are deduplicated before they are folded: the longest input per id, no repeated content. */
module Dedupe {
  import opened Wrappers
  import opened Json
  import opened Text
  import opened Translator

  function IndexOf(list: seq<ToolCall>, id: string): (r: Option<nat>)
    ensures r.Some? ==> r.value < |list| && list[r.value].id == id
    ensures r.None? ==> forall i | 0 <= i < |list| :: list[i].id != id
  {
    if list == [] then None
    else if list[0].id == id then Some(0)
    else match IndexOf(list[1..], id)
      case None => None
      case Some(i) => Some(i + 1)
  }

  predicate Longer(c: ToolCall, d: ToolCall) {
    Bytes(c.input) > Bytes(d.input)
  }

  function Keep(list: seq<ToolCall>, c: ToolCall): seq<ToolCall> {
    match IndexOf(list, c.id)
    case None => list + [c]
    case Some(i) => if Longer(c, list[i]) then list[i := c] else list
  }

  /** One call per id, at the place of the id's first call. */
  function ById(calls: seq<ToolCall>): seq<ToolCall> {
    if calls == [] then [] else Keep(ById(calls[..|calls| - 1]), calls[|calls| - 1])
  }

  /** The input with its white space normalised, when it is JSON at all. */
  function Normalised(serde: Serde, c: ToolCall): string {
    match serde.parse(c.input)
    case Some(v) => serde.show(v)
    case None => c.input
  }

  function Key(serde: Serde, c: ToolCall): (string, string) {
    (c.name, Normalised(serde, c))
  }

  /** Calls whose name and normalised input were not seen before. */
  function Fresh(serde: Serde, list: seq<ToolCall>): seq<ToolCall> {
    if list == [] then [] else
    var before := Fresh(serde, list[..|list| - 1]);
    var c := list[|list| - 1];
    if exists i | 0 <= i < |before| :: Key(serde, before[i]) == Key(serde, c) then before else before + [c]
  }

  function DedupeCalls(serde: Serde, calls: seq<ToolCall>): seq<ToolCall> {
    Fresh(serde, ById(calls))
  }

  // ---- as the source computes it -------------------------------------------------------

  method FindId(list: seq<ToolCall>, id: string) returns (r: Option<nat>)
    ensures r == IndexOf(list, id)
  {
    var i := 0;
    while i < |list|
      invariant i <= |list|
      invariant IndexOf(list, id) == (match IndexOf(list[i..], id) case None => None case Some(k) => Some(k + i))
    {
      assert list[i..][1..] == list[i + 1..];
      if list[i].id == id {
        return Some(i);
      }
      i := i + 1;
    }
    r := None;
  }

  method OnePerId(calls: seq<ToolCall>) returns (byId: seq<ToolCall>)
    ensures byId == ById(calls)
  {
    byId := [];
    for n := 0 to |calls|
      invariant byId == ById(calls[..n])
    {
      var c := calls[n];
      assert calls[..n + 1][..n] == calls[..n];
      var existing := FindId(byId, c.id);
      if existing.Some? {
        if Bytes(c.input) > Bytes(byId[existing.value].input) {
          byId := byId[existing.value := c];
        }
      } else {
        byId := byId + [c];
      }
    }
    assert calls[..|calls|] == calls;
  }

  method DropRepeats(serde: Serde, byId: seq<ToolCall>) returns (out: seq<ToolCall>)
    ensures out == Fresh(serde, byId)
  {
    out := [];
    var seen: seq<(string, string)> := [];
    for n := 0 to |byId|
      invariant out == Fresh(serde, byId[..n])
      invariant |seen| == |out| && forall i | 0 <= i < |out| :: seen[i] == Key(serde, out[i])
    {
      var c := byId[n];
      assert byId[..n + 1][..n] == byId[..n];
      var key := Key(serde, c);
      if key !in seen {
        seen := seen + [key];
        out := out + [c];
      }
    }
    assert byId[..|byId|] == byId;
  }

  method DedupeToolCalls(serde: Serde, calls: seq<ToolCall>) returns (out: seq<ToolCall>)
    ensures out == DedupeCalls(serde, calls)
  {
    var byId := OnePerId(calls);
    out := DropRepeats(serde, byId);
  }

  // ---- what it means -----------------------------------------------------------------------

  /** Call `k` has the longest input of its id, and is the first that has it. */
  ghost predicate Best(calls: seq<ToolCall>, k: nat)
    requires k < |calls|
  {
    forall m | 0 <= m < |calls| && calls[m].id == calls[k].id ::
      if m < k then Bytes(calls[m].input) < Bytes(calls[k].input) else Bytes(calls[m].input) <= Bytes(calls[k].input)
  }

  ghost predicate DistinctIds(list: seq<ToolCall>) {
    forall i, j | 0 <= i < j < |list| :: list[i].id != list[j].id
  }

  /** `e` is the best call of its id. */
  ghost predicate IsBest(calls: seq<ToolCall>, e: ToolCall) {
    exists k: nat :: k < |calls| && calls[k] == e && Best(calls, k)
  }

  /** Every entry is the best call of its id, and every id has an entry. */
  ghost predicate Represents(list: seq<ToolCall>, calls: seq<ToolCall>) {
    && (forall i | 0 <= i < |list| :: IsBest(calls, list[i]))
    && (forall m | 0 <= m < |calls| :: IndexOf(list, calls[m].id).Some?)
  }

  lemma StillBest(calls: seq<ToolCall>, c: ToolCall, e: ToolCall)
    requires IsBest(calls, e) && (e.id == c.id ==> !Longer(c, e))
    ensures IsBest(calls + [c], e)
  {
    var k: nat :| k < |calls| && calls[k] == e && Best(calls, k);
    assert (calls + [c])[k] == e && Best(calls + [c], k);
  }

  lemma KeepBest(list: seq<ToolCall>, calls: seq<ToolCall>, c: ToolCall, i: nat)
    requires Represents(list, calls) && DistinctIds(list) && i < |Keep(list, c)|
    ensures IsBest(calls + [c], Keep(list, c)[i])
  {
    var found := IndexOf(list, c.id);
    if i < |list| && !(found == Some(i) && Longer(c, list[i])) {
      StillBest(calls, c, list[i]);
    } else {
      NewBest(list, calls, c);
      assert (calls + [c])[|calls|] == c;
    }
  }

  lemma KeepFinds(list: seq<ToolCall>, c: ToolCall, id: string)
    requires id == c.id || IndexOf(list, id).Some?
    ensures IndexOf(Keep(list, c), id).Some?
  {
    var kept := Keep(list, c);
    if id == c.id && IndexOf(list, id).None? {
      assert kept[|list|].id == id;
    } else {
      assert kept[IndexOf(list, id).value].id == id;
    }
  }

  lemma KeepRepresents(list: seq<ToolCall>, calls: seq<ToolCall>, c: ToolCall)
    requires Represents(list, calls) && DistinctIds(list)
    ensures Represents(Keep(list, c), calls + [c]) && DistinctIds(Keep(list, c))
  {
    var all, kept := calls + [c], Keep(list, c);
    forall i | 0 <= i < |kept| ensures IsBest(all, kept[i]) {
      KeepBest(list, calls, c, i);
    }
    forall m | 0 <= m < |all| ensures IndexOf(kept, all[m].id).Some? {
      KeepFinds(list, c, all[m].id);
    }
  }

  /** A new call beats all earlier ones of its id when it beats the one that represents them. */
  lemma NewBest(list: seq<ToolCall>, calls: seq<ToolCall>, c: ToolCall)
    requires Represents(list, calls) && DistinctIds(list)
    requires IndexOf(list, c.id).Some? ==> Longer(c, list[IndexOf(list, c.id).value])
    ensures Best(calls + [c], |calls|)
  {
    forall m | 0 <= m < |calls| && calls[m].id == c.id ensures Longer(c, calls[m]) {
      LongestOfId(list, calls, m);
    }
  }

  /** The entry of a call's id is at least as long as the call. */
  lemma LongestOfId(list: seq<ToolCall>, calls: seq<ToolCall>, m: nat)
    requires Represents(list, calls) && m < |calls|
    ensures var i := IndexOf(list, calls[m].id); i.Some? && !Longer(calls[m], list[i.value])
  {
    var r := list[IndexOf(list, calls[m].id).value];
    var k: nat :| k < |calls| && calls[k] == r && Best(calls, k);
    assert m < k ==> Longer(calls[k], calls[m]);
  }

  lemma {:induction false} ByIdRepresents(calls: seq<ToolCall>)
    ensures Represents(ById(calls), calls) && DistinctIds(ById(calls))
  {
    if calls != [] {
      var n := |calls| - 1;
      ByIdRepresents(calls[..n]);
      KeepRepresents(ById(calls[..n]), calls[..n], calls[n]);
      assert calls[..n] + [calls[n]] == calls;
    }
  }

  /** The ids in the order of their first call. */
  function FirstIds(calls: seq<ToolCall>): seq<string> {
    if calls == [] then [] else
    var before := FirstIds(calls[..|calls| - 1]);
    var id := calls[|calls| - 1].id;
    if id in before then before else before + [id]
  }

  lemma {:induction false} ByIdOrder(calls: seq<ToolCall>)
    ensures var list := ById(calls);
            |FirstIds(calls)| == |list| && forall i | 0 <= i < |list| :: list[i].id == FirstIds(calls)[i]
  {
    if calls != [] {
      ByIdOrder(calls[..|calls| - 1]);
      var list := ById(calls[..|calls| - 1]);
      var id := calls[|calls| - 1].id;
      match IndexOf(list, id) {
        case Some(i) => assert FirstIds(calls[..|calls| - 1])[i] == id;
        case None =>
      }
    }
  }

  /** What an input is shown as: JSON in the library's own form, anything else as it is. */
  function ShownInput(serde: Serde, input: string): string {
    match serde.parse(input)
    case Some(v) => serde.show(v)
    case None => input
  }

  /** The two call the same tool with the same input, but for white space. */
  predicate SameCall(serde: Serde, c: ToolCall, d: ToolCall) {
    c.name == d.name && ShownInput(serde, c.input) == ShownInput(serde, d.input)
  }

  /** Some call of `out` says what `c` says. */
  ghost predicate Said(serde: Serde, out: seq<ToolCall>, c: ToolCall) {
    exists i :: 0 <= i < |out| && SameCall(serde, out[i], c)
  }

  /** No two calls say the same. */
  ghost predicate DistinctCalls(serde: Serde, out: seq<ToolCall>) {
    forall i, j | 0 <= i < j < |out| :: !SameCall(serde, out[i], out[j])
  }

  lemma {:induction false} FreshDistinct(serde: Serde, list: seq<ToolCall>)
    ensures DistinctCalls(serde, Fresh(serde, list))
  {
    if list != [] {
      FreshDistinct(serde, list[..|list| - 1]);
    }
  }

  /** What is left out is said by a call that stays. */
  lemma {:induction false} FreshSays(serde: Serde, list: seq<ToolCall>, m: nat)
    requires m < |list|
    ensures Said(serde, Fresh(serde, list), list[m])
  {
    var n := |list| - 1;
    var before, out := Fresh(serde, list[..n]), Fresh(serde, list);
    if m < n {
      FreshSays(serde, list[..n], m);
      var i :| 0 <= i < |before| && SameCall(serde, before[i], list[m]);
      assert out[i] == before[i];
    } else if out != before {
      assert out[|before|] == list[m];
    }
  }

  /** The result keeps the order of the list: `out[i]` is `list[FreshAt[i]]`. */
  lemma {:induction false} FreshIsSub(serde: Serde, list: seq<ToolCall>) returns (at: seq<nat>)
    ensures var out := Fresh(serde, list);
            && |at| == |out|
            && (forall i | 0 <= i < |out| :: at[i] < |list| && out[i] == list[at[i]])
            && (forall i, j | 0 <= i < j < |out| :: at[i] < at[j])
  {
    at := [];
    if list != [] {
      var n := |list| - 1;
      at := FreshIsSub(serde, list[..n]);
      if Fresh(serde, list) != Fresh(serde, list[..n]) {
        at := at + [n];
      }
    }
  }

  lemma SubDistinct(list: seq<ToolCall>, out: seq<ToolCall>, at: seq<nat>)
    requires DistinctIds(list) && |at| == |out|
    requires forall i | 0 <= i < |out| :: at[i] < |list| && out[i] == list[at[i]]
    requires forall i, j | 0 <= i < j < |out| :: at[i] < at[j]
    ensures DistinctIds(out)
  {
  }

  /**
   Every call of the result has the longest input of its id and is the first that has it,
   and neither an id nor a content occurs twice.
   */
  lemma DedupeSound(serde: Serde, calls: seq<ToolCall>)
    ensures var out := DedupeCalls(serde, calls);
            DistinctIds(out) && DistinctCalls(serde, out) && forall i | 0 <= i < |out| :: IsBest(calls, out[i])
  {
    var list := ById(calls);
    ByIdRepresents(calls);
    FreshDistinct(serde, list);
    var at := FreshIsSub(serde, list);
    SubDistinct(list, DedupeCalls(serde, calls), at);
  }

  /** The calls of the result are in the order in which their ids came first: the i-th has the id at place `at[i]`. */
  lemma DedupeOrder(serde: Serde, calls: seq<ToolCall>) returns (at: seq<nat>)
    ensures var out, ids := DedupeCalls(serde, calls), FirstIds(calls);
            && |at| == |out|
            && (forall i | 0 <= i < |out| :: at[i] < |ids| && out[i].id == ids[at[i]])
            && (forall i, j | 0 <= i < j < |out| :: at[i] < at[j])
  {
    ByIdOrder(calls);
    at := FreshIsSub(serde, ById(calls));
  }

  /** For every call, the best call of its id is said by the result. */
  lemma DedupeComplete(serde: Serde, calls: seq<ToolCall>, m: nat) returns (e: ToolCall)
    requires m < |calls|
    ensures e.id == calls[m].id && IsBest(calls, e) && Said(serde, DedupeCalls(serde, calls), e)
  {
    ByIdRepresents(calls);
    var i := IndexOf(ById(calls), calls[m].id).value;
    e := ById(calls)[i];
    FreshSays(serde, ById(calls), i);
  }
}
