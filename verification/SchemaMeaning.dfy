/**
 What sanitising leaves at each keyword of a schema, with the keywords written out: which fields
 are dropped, which are renamed, what is sanitised inside, and how the combinators override.
 */
module SchemaMeaning {
  import opened Wrappers
  import opened Json
  import opened Schema
  import SchemaTwice
  import SchemaSettled

  // ---- one field ------------------------------------------------------------------------------

  /** The keywords that are dropped. */
  predicate IsDropped(key: string) {
    || key == "additionalProperties" || key == "unevaluatedProperties" || key == "patternProperties" || key == "propertyNames"
    || key == "unevaluatedItems" || key == "prefixItems" || key == "minItems" || key == "maxItems" || key == "uniqueItems"
    || key == "minLength" || key == "maxLength" || key == "pattern" || key == "format"
    || key == "contentMediaType" || key == "contentEncoding"
    || key == "minimum" || key == "maximum" || key == "exclusiveMinimum" || key == "exclusiveMaximum" || key == "multipleOf"
    || key == "if" || key == "then" || key == "else" || key == "not"
    || key == "dependentRequired" || key == "dependentSchemas"
    || key == "$schema" || key == "$defs" || key == "$ref" || key == "default"
  }

  predicate IsChoiceKey(key: string) {
    key == "anyOf" || key == "oneOf"
  }

  predicate IsCombinatorKey(key: string) {
    IsChoiceKey(key) || key == "allOf"
  }

  /** Objects are sanitised as schemas, on their own and as the items of an array. */
  ghost predicate IsSanitized(was: Value, v: Value) {
    match was
    case Object(m) => v == Object(Sanitize(m))
    case Array(items) =>
      && v.Array? && |v.items| == |items|
      && forall i | 0 <= i < |items| :: v.items[i] == if items[i].Object? then Object(Sanitize(items[i].fields)) else items[i]
    case _ => v == was
  }

  /** Properties keep their names, whatever these are, and their order. */
  ghost predicate PropsAre(was: seq<Field>, props: seq<Field>) {
    |props| == |was| && forall i | 0 <= i < |was| :: props[i].key == was[i].key && IsSanitized(was[i].value, props[i].value)
  }

  /** The keyword under which a field that is no combinator stays, if it does. */
  function StaysAs(f: Field): Option<string> {
    if IsDropped(f.key) || IsCombinatorKey(f.key) then None
    else if f.key == "const" then Some("enum")
    else if f.key == "required" && f.value == Array([]) then None
    else Some(f.key)
  }

  /** What is then under it. */
  ghost predicate HoldsFor(f: Field, v: Value) {
    if f.key == "const" then v == Array([f.value])
    else if f.key == "required" then v == f.value
    else if f.key == "properties" then
      if f.value.Object? then v.Object? && PropsAre(f.value.fields, v.fields) else v == f.value
    else IsSanitized(f.value, v)
  }

  lemma DroppedIs(key: string)
    ensures IsDropped(key) <==> IsUnsupported(key)
  {
  }

  lemma RequiredKeyword()
    ensures KindOf("required") == RequiredKey
  {
    assert "required"[0] == 'r' && |"required"| == 8;
  }

  lemma ChoiceKeywords()
    ensures KindOf("anyOf") == AnyOfKey && KindOf("oneOf") == AnyOfKey
  {
    assert "anyOf"[0] == 'a' && "oneOf"[0] == 'o' && |"anyOf"| == 5 && |"oneOf"| == 5;
  }

  lemma AllOfKeyword()
    ensures KindOf("allOf") == AllOfKey
  {
    assert "allOf"[0] == 'a' && "allOf"[1] == 'l' && |"allOf"| == 5;
  }

  /** How each keyword is treated, by its name. */
  lemma Kinds(key: string)
    ensures KindOf(key) == Unsupported <==> IsDropped(key)
    ensures KindOf(key) == ConstKey <==> key == "const"
    ensures KindOf(key) == RequiredKey <==> key == "required"
    ensures KindOf(key) == PropertiesKey <==> key == "properties"
    ensures KindOf(key) == AnyOfKey <==> IsChoiceKey(key)
    ensures KindOf(key) == AllOfKey <==> key == "allOf"
  {
    hide IsDropped;
    hide IsUnsupported;
    DroppedIs(key);
    SchemaTwice.ConstKeyword();
    RequiredKeyword();
    PropertiesKeyword();
    ChoiceKeywords();
    AllOfKeyword();
  }

  // ---- the first pass -----------------------------------------------------------------------------

  lemma {:induction false} ItemsAre(items: seq<Value>)
    ensures IsSanitized(Array(items), Array(SanitizeItems(items)))
    decreases |items|
  {
    hide Sanitize;
    if items != [] {
      ItemsAre(items[1..]);
      var r := SanitizeItems(items);
      assert r[1..] == SanitizeItems(items[1..]);
      assert forall i | 0 < i < |items| :: r[i] == r[1..][i - 1] && items[i] == items[1..][i - 1];
    }
  }

  lemma ValueIs(v: Value)
    ensures IsSanitized(v, SanitizeValue(v))
  {
    hide Sanitize;
    if v.Array? {
      ItemsAre(v.items);
    }
  }

  lemma {:induction false} PropsAreIt(props: seq<Field>)
    ensures PropsAre(props, SanitizeProps(props))
    decreases |props|
  {
    hide SanitizeValue;
    hide IsSanitized;
    if props != [] {
      ValueIs(props[0].value);
      PropsAreIt(props[1..]);
      var r := SanitizeProps(props);
      assert r[1..] == SanitizeProps(props[1..]);
      assert forall i | 0 < i < |props| :: r[i] == r[1..][i - 1] && props[i] == props[1..][i - 1];
    }
  }

  lemma PlacedHolds(f: Field)
    ensures SchemaSettled.Written(f) <==> StaysAs(f).Some?
    ensures StaysAs(f).Some? ==> SchemaSettled.Placed(f).key == StaysAs(f).value && HoldsFor(f, SchemaSettled.Placed(f).value)
  {
    hide KindOf;
    hide IsDropped;
    hide SanitizeValue;
    hide SanitizeProps;
    hide IsSanitized;
    hide PropsAre;
    Kinds(f.key);
    ValueIs(f.value);
    if f.value.Object? {
      PropsAreIt(f.value.fields);
    }
  }

  /** Field `i` is the last that stays under `key`, and `v` is what it leaves there. */
  ghost predicate LastAt(s: seq<Field>, key: string, i: nat, v: Value) {
    i < |s| && StaysAs(s[i]) == Some(key) && HoldsFor(s[i], v) && forall j | i < j < |s| :: StaysAs(s[j]) != Some(key)
  }

  /** `r` is what the first pass leaves at `key`. */
  ghost predicate PlainAt(s: seq<Field>, key: string, r: Option<Value>) {
    match r
    case Some(v) => exists i: nat :: LastAt(s, key, i, v)
    case None => forall i | 0 <= i < |s| :: StaysAs(s[i]) != Some(key)
  }

  lemma PlainAtTail(s: seq<Field>, key: string, r: Option<Value>)
    requires s != [] && PlainAt(s[1..], key, r) && (r.None? ==> StaysAs(s[0]) != Some(key))
    ensures PlainAt(s, key, r)
  {
    hide StaysAs;
    hide HoldsFor;
    assert forall i | 0 < i < |s| :: s[i] == s[1..][i - 1];
    if r.Some? {
      var i: nat :| LastAt(s[1..], key, i, r.value);
      assert LastAt(s, key, i + 1, r.value);
    }
  }

  lemma PlainAtFirst(s: seq<Field>, key: string, v: Value)
    requires s != [] && PlainAt(s[1..], key, None) && StaysAs(s[0]) == Some(key) && HoldsFor(s[0], v)
    ensures PlainAt(s, key, Some(v))
  {
    hide StaysAs;
    hide HoldsFor;
    assert forall i | 0 < i < |s| :: s[i] == s[1..][i - 1];
    assert LastAt(s, key, 0, v);
  }

  /** What the first pass leaves at each keyword: what the last field that stays there says. */
  lemma {:induction false} PlainLeaves(rest: seq<Field>, acc: seq<Field>, key: string) returns (r: Option<Value>)
    ensures PlainAt(rest, key, r)
    ensures Lookup(Plain(rest, acc), key) == if r.Some? then r else Lookup(acc, key)
    decreases |rest|
  {
    hide StaysAs;
    hide HoldsFor;
    hide Plain;
    hide Insert;
    hide SchemaSettled.Placed;
    hide SchemaSettled.Written;
    if rest == [] {
      SchemaTwice.PlainNothing(acc);
      r := None;
    } else {
      var p := SchemaSettled.Placed(rest[0]);
      SchemaSettled.PlainStep(rest, acc);
      PlacedHolds(rest[0]);
      if SchemaSettled.Written(rest[0]) {
        SchemaSettled.InsertLookup(acc, p.key, p.value, key);
        r := PlainLeaves(rest[1..], Insert(acc, p.key, p.value), key);
        if r.None? && p.key == key {
          PlainAtFirst(rest, key, p.value);
          r := Some(p.value);
        } else {
          PlainAtTail(rest, key, r);
        }
      } else {
        r := PlainLeaves(rest[1..], acc, key);
        PlainAtTail(rest, key, r);
      }
    }
  }

  // ---- choices ----------------------------------------------------------------------------------------

  /** What a branch holds at a keyword after sanitising; nothing when it is no object. */
  function BranchAt(item: Value, key: string): Option<Value> {
    match item
    case Object(m) => Lookup(Sanitize(m), key)
    case _ => None
  }

  /** The branch allows nothing but null. */
  predicate IsNull(item: Value) {
    BranchAt(item, "type") == Some(Str("null"))
  }

  predicate HasEnum(item: Value) {
    BranchAt(item, "enum").Some? && BranchAt(item, "enum").value.Array?
  }

  function EnumOf(item: Value): seq<Value> {
    if HasEnum(item) then BranchAt(item, "enum").value.items else []
  }

  /** The values of all the enumerations, branch after branch. */
  function AllValues(items: seq<Value>): seq<Value> {
    if items == [] then [] else EnumOf(items[0]) + AllValues(items[1..])
  }

  /** The type that all branches have, if they all have the same. */
  ghost predicate SameType(items: seq<Value>, t: string) {
    forall i | 0 <= i < |items| :: BranchAt(items[i], "type") == Some(Str(t))
  }

  /** Only branch `j` allows something other than null. */
  ghost predicate OnlyBranch(items: seq<Value>, j: nat) {
    j < |items| && !IsNull(items[j]) && forall i | 0 <= i < |items| && i != j :: IsNull(items[i])
  }

  /** What a choice leaves at a keyword: enumerations are put together, otherwise the only branch
      that is not null counts, or else the first. */
  ghost predicate ChoiceAt(items: seq<Value>, key: string, r: Option<Value>) {
    if forall i | 0 <= i < |items| :: HasEnum(items[i]) then
      && (key == "enum" ==> r == Some(Array(AllValues(items))))
      && (key == "type" ==> forall t :: r == Some(Str(t)) <==> SameType(items, t))
      && (key == "type" ==> r.Some? ==> r.value.Str?)
      && (key != "enum" && key != "type" ==> r == None)
    else
      && (forall j: nat :: OnlyBranch(items, j) ==> r == BranchAt(items[j], key))
      && ((forall j: nat :: !OnlyBranch(items, j)) && items != [] ==> r == BranchAt(items[0], key))
  }

  /** The flat schema of these branches, onto what was gathered before, has type `t`. */
  ghost predicate Agrees(f: Flat, items: seq<Value>, t: string) {
    && f.consistent && (f.typ.None? ==> items != [])
    && (f.typ.Some? ==> f.typ.value == t) && SameType(items, t)
  }

  lemma TypeIs(s: seq<Field>)
    ensures forall t :: TypeOf(s) == Some(t) <==> Lookup(s, "type") == Some(Str(t))
  {
  }

  lemma SameTypeFirst(items: seq<Value>, t: string)
    requires items != []
    ensures SameType(items, t) <==> BranchAt(items[0], "type") == Some(Str(t)) && SameType(items[1..], t)
  {
    hide BranchAt;
    assert forall i | 0 < i < |items| :: items[i] == items[1..][i - 1];
  }

  lemma {:induction false} FlattenIs(items: seq<Value>, f: Flat)
    ensures var r := Flatten(SanitizeBranches(items), f);
            && (r.Some? <==> forall i | 0 <= i < |items| :: HasEnum(items[i]))
            && (r.Some? ==> r.value.all == f.all + AllValues(items)
                            && forall t :: r.value.typ == Some(t) && r.value.consistent <==> Agrees(f, items, t))
    decreases |items|
  {
    hide Sanitize;
    hide TypeOf;
    if items == [] {
      assert f.all + [] == f.all;
    } else {
      var bs := SanitizeBranches(items);
      assert bs[1..] == SanitizeBranches(items[1..]);
      assert (forall i | 0 <= i < |items| :: HasEnum(items[i])) <==>
             HasEnum(items[0]) && forall i | 0 <= i < |items[1..]| :: HasEnum(items[1..][i]) by {
        assert forall i | 0 < i < |items| :: items[i] == items[1..][i - 1];
      }
      if HasEnum(items[0]) {
        var b := Sanitize(items[0].fields);
        var e, typ := EnumOf(items[0]), TypeOf(b);
        TypeIs(b);
        var next := Flat(f.all + e, if f.typ.None? then typ else f.typ,
                         f.consistent && typ.Some? && (f.typ.None? || f.typ == typ));
        FlattenIs(items[1..], next);
        assert f.all + e + AllValues(items[1..]) == f.all + (e + AllValues(items[1..]));
        forall t ensures Agrees(next, items[1..], t) <==> Agrees(f, items, t) {
          SameTypeFirst(items, t);
        }
      }
    }
  }

  lemma FlatHolds(f: Flat)
    ensures Lookup(FlatSchema(f), "enum") == Some(Array(f.all))
    ensures Lookup(FlatSchema(f), "type") == if f.typ.Some? && f.consistent then Some(Str(f.typ.value)) else None
    ensures forall key | key != "enum" && key != "type" :: Lookup(FlatSchema(f), key) == None
  {
    var s := FlatSchema(f);
    assert "enum"[0] != "type"[0];
    var none: seq<Field> := [];
    assert forall key :: Lookup(none, key).None?;
    if f.typ.Some? && f.consistent {
      var t := Field("type", Str(f.typ.value));
      assert s[1..] == [t] && [t][1..] == none;
      assert forall key :: Lookup([t], key) == if key == "type" then Some(t.value) else None;
    } else {
      assert s[1..] == none;
    }
  }

  /** Nothing but nulls. */
  lemma {:induction false} AllNull(items: seq<Value>)
    ensures |NonNull(SanitizeBranches(items))| == 0 <==> forall i | 0 <= i < |items| :: IsNull(items[i])
    decreases |items|
  {
    hide Sanitize;
    hide TypeOf;
    if items != [] {
      NullIs(items);
      AllNull(items[1..]);
      assert forall i | 0 < i < |items| :: items[i] == items[1..][i - 1];
    }
  }

  lemma NullIs(items: seq<Value>)
    requires items != []
    ensures var bs := SanitizeBranches(items);
            && bs[1..] == SanitizeBranches(items[1..])
            && (bs[0].Some? && TypeOf(bs[0].value) == Some("null") <==> IsNull(items[0]))
  {
    hide Sanitize;
    if items[0].Object? {
      TypeIs(Sanitize(items[0].fields));
    }
  }

  lemma {:induction false} OneNonNull(items: seq<Value>)
    ensures var n := NonNull(SanitizeBranches(items));
            && (|n| == 1 ==> OnlyBranch(items, SchemaSettled.FirstNonNull(SanitizeBranches(items))))
            && (forall j: nat :: OnlyBranch(items, j) ==> |n| == 1)
    decreases |items|
  {
    hide Sanitize;
    hide TypeOf;
    hide IsNull;
    if items != [] {
      NullIs(items);
      OneNonNull(items[1..]);
      AllNull(items[1..]);
      assert forall i | 0 < i < |items| :: items[i] == items[1..][i - 1];
      forall j: nat | OnlyBranch(items, j) ensures |NonNull(SanitizeBranches(items))| == 1 {
        if j > 0 {
          assert OnlyBranch(items[1..], j - 1);
        }
      }
    }
  }

  lemma OnlyOne(items: seq<Value>, i: nat, j: nat)
    requires OnlyBranch(items, i) && OnlyBranch(items, j)
    ensures i == j
  {
  }

  lemma ChoiceLeaves(items: seq<Value>, key: string)
    requires items != []
    ensures ChoiceAt(items, key, Lookup(Chosen(SanitizeBranches(items)), key))
  {
    hide Sanitize;
    hide Flatten;
    hide FlatSchema;
    hide IsNull;
    hide NonNull;
    SchemaSettled.ChosenIs(items);
    var bs := SanitizeBranches(items);
    var flat := Flatten(bs, Flat([], None, true));
    FlattenIs(items, Flat([], None, true));
    if flat.Some? {
      FlatHolds(flat.value);
      assert [] + AllValues(items) == AllValues(items);
      assert "enum"[0] != "type"[0];
      assert forall t :: Agrees(Flat([], None, true), items, t) <==> SameType(items, t);
    } else {
      OneNonNull(items);
      forall j: nat | OnlyBranch(items, j) ensures j == SchemaSettled.Picked(bs) {
        OnlyOne(items, j, SchemaSettled.FirstNonNull(bs));
      }
    }
  }

  // ---- the second pass ------------------------------------------------------------------------------------

  /** The last branch of `allOf` that has the keyword. */
  ghost predicate AllAt(items: seq<Value>, key: string, r: Option<Value>) {
    match r
    case Some(_) => exists i: nat :: LastBranch(items, key, i, r)
    case None => forall i | 0 <= i < |items| :: BranchAt(items[i], key) == None
  }

  ghost predicate LastBranch(items: seq<Value>, key: string, i: nat, r: Option<Value>) {
    i < |items| && BranchAt(items[i], key) == r && forall j | i < j < |items| :: BranchAt(items[j], key) == None
  }

  lemma {:induction false} AllLeaves(acc: seq<Field>, items: seq<Value>, key: string) returns (r: Option<Value>)
    ensures AllAt(items, key, r)
    ensures Lookup(ExtendAll(acc, items), key) == if r.Some? then r else Lookup(acc, key)
    decreases |items|
  {
    hide Sanitize;
    hide Extend;
    if items == [] {
      r := None;
    } else {
      var here := BranchAt(items[0], key);
      if items[0].Object? {
        var b := Sanitize(items[0].fields);
        SchemaTwice.SanitizedDistinct(items[0].fields);
        SchemaSettled.ExtendLookup(acc, b, key);
        SchemaSettled.HasLookup(b, key);
        r := AllLeaves(Extend(acc, b), items[1..], key);
      } else {
        r := AllLeaves(acc, items[1..], key);
      }
      AllAtTail(items, key, r);
      if r.None? {
        r := here;
      }
    }
  }

  lemma AllAtTail(items: seq<Value>, key: string, r: Option<Value>)
    requires items != [] && AllAt(items[1..], key, r)
    ensures AllAt(items, key, if r.None? then BranchAt(items[0], key) else r)
  {
    hide BranchAt;
    assert forall i | 0 < i < |items| :: items[i] == items[1..][i - 1];
    if r.Some? {
      var i: nat :| LastBranch(items[1..], key, i, r);
      assert LastBranch(items, key, i + 1, r);
    } else if BranchAt(items[0], key).Some? {
      assert LastBranch(items, key, 0, BranchAt(items[0], key));
    }
  }

  /** What a field that is a combinator leaves at a keyword. */
  ghost predicate OverrideAt(f: Field, key: string, r: Option<Value>) {
    if IsChoiceKey(f.key) && f.value.Array? && f.value.items != [] then ChoiceAt(f.value.items, key, r)
    else if f.key == "allOf" && f.value.Array? then AllAt(f.value.items, key, r)
    else r == None
  }

  /** What the combinators of a schema leave at a keyword: what the last one leaves that leaves anything. */
  ghost predicate CombinedAt(s: seq<Field>, key: string, r: Option<Value>) {
    match r
    case Some(_) => exists i: nat :: LastOverride(s, key, i, r)
    case None => forall i | 0 <= i < |s| :: OverrideAt(s[i], key, None)
  }

  ghost predicate LastOverride(s: seq<Field>, key: string, i: nat, r: Option<Value>) {
    i < |s| && OverrideAt(s[i], key, r) && forall j | i < j < |s| :: OverrideAt(s[j], key, None)
  }

  lemma CombinedAtTail(s: seq<Field>, key: string, here: Option<Value>, r: Option<Value>)
    requires s != [] && OverrideAt(s[0], key, here) && CombinedAt(s[1..], key, r)
    ensures CombinedAt(s, key, if r.None? then here else r)
  {
    hide OverrideAt;
    assert forall i | 0 < i < |s| :: s[i] == s[1..][i - 1];
    if r.Some? {
      var i: nat :| LastOverride(s[1..], key, i, r);
      assert LastOverride(s, key, i + 1, r);
    } else if here.Some? {
      assert LastOverride(s, key, 0, here);
    }
  }

  /** What one field of the second pass does. */
  lemma FieldOverrides(f: Field, acc: seq<Field>, key: string) returns (next: seq<Field>, r: Option<Value>)
    ensures next == if SchemaSettled.IsChoice(f) then Extend(acc, Chosen(SanitizeBranches(f.value.items)))
                    else if SchemaSettled.IsAll(f) then ExtendAll(acc, f.value.items) else acc
    ensures OverrideAt(f, key, r) && Lookup(next, key) == if r.Some? then r else Lookup(acc, key)
  {
    hide KindOf;
    hide IsDropped;
    hide Chosen;
    hide Extend;
    hide ExtendAll;
    hide ChoiceAt;
    hide AllAt;
    Kinds(f.key);
    assert |"allOf"| == 5 && "allOf"[1] != "anyOf"[1] && "allOf"[0] != "oneOf"[0];
    next, r := acc, None;
    if SchemaSettled.IsChoice(f) {
      var more := Chosen(SanitizeBranches(f.value.items));
      ChoiceLeaves(f.value.items, key);
      SchemaSettled.ChosenDistinct(f.value.items);
      SchemaSettled.ExtendLookup(acc, more, key);
      SchemaSettled.HasLookup(more, key);
      next, r := Extend(acc, more), Lookup(more, key);
    } else if SchemaSettled.IsAll(f) {
      next := ExtendAll(acc, f.value.items);
      r := AllLeaves(acc, f.value.items, key);
    }
  }

  lemma {:induction false} CombineLeaves(rest: seq<Field>, acc: seq<Field>, key: string) returns (r: Option<Value>)
    ensures CombinedAt(rest, key, r)
    ensures Lookup(Combine(rest, acc), key) == if r.Some? then r else Lookup(acc, key)
    decreases |rest|
  {
    hide OverrideAt;
    hide Combine;
    hide Chosen;
    hide Extend;
    hide ExtendAll;
    hide SchemaSettled.IsChoice;
    hide SchemaSettled.IsAll;
    if rest == [] {
      SchemaTwice.CombineNothing([], acc);
      r := None;
    } else {
      SchemaSettled.CombineStep(rest, acc);
      var next, here := FieldOverrides(rest[0], acc, key);
      r := CombineLeaves(rest[1..], next, key);
      CombinedAtTail(rest, key, here, r);
      if r.None? {
        r := here;
      }
    }
  }

  /**
   For every schema and every keyword, what sanitising leaves there: what the last combinator
   leaves that leaves anything, and only without one what the last other field leaves that
   stays under this keyword.
   */
  lemma SanitizedHolds(schema: seq<Field>, key: string) returns (combined: Option<Value>, plain: Option<Value>)
    ensures CombinedAt(schema, key, combined) && PlainAt(schema, key, plain)
    ensures Lookup(Sanitize(schema), key) == if combined.Some? then combined else plain
  {
    hide CombinedAt;
    hide PlainAt;
    plain := PlainLeaves(schema, [], key);
    combined := CombineLeaves(schema, Plain(schema, []), key);
  }
}
