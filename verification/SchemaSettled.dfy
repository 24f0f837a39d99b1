/**
 The exact condition, on the schema itself, for sanitising it twice to be sanitising it once:
 what is written last at each keyword, at each schema position, is settled. And a schema that
 does not meet it.
 */
module SchemaSettled {
  import opened Wrappers
  import opened Json
  import opened Schema
  import opened SchemaTwice

  // ---- what is written at a keyword --------------------------------------------------------------

  /** The first pass writes this keyword for this field. */
  predicate Writes(f: Field, key: string) {
    match KindOf(f.key)
    case Unsupported => false
    case ConstKey => key == "enum"
    case RequiredKey => f.value != Array([]) && key == f.key
    case AnyOfKey => false
    case AllOfKey => false
    case _ => key == f.key
  }

  predicate PlainWrites(rest: seq<Field>, key: string) {
    rest != [] && (Writes(rest[0], key) || PlainWrites(rest[1..], key))
  }

  /** A branch of `allOf` writes this keyword. */
  predicate ItemsWrite(items: seq<Value>, key: string) {
    items != [] && ((items[0].Object? && Has(Sanitize(items[0].fields), key)) || ItemsWrite(items[1..], key))
  }

  /** A combinator with branches. */
  predicate IsChoice(f: Field) {
    KindOf(f.key).AnyOfKey? && f.value.Array? && f.value.items != []
  }

  predicate IsAll(f: Field) {
    KindOf(f.key).AllOfKey? && f.value.Array?
  }

  /** The second pass writes this keyword for this field. */
  predicate Overrides(f: Field, key: string) {
    if IsChoice(f) then Has(Chosen(SanitizeBranches(f.value.items)), key)
    else IsAll(f) && ItemsWrite(f.value.items, key)
  }

  predicate CombinesWrite(rest: seq<Field>, key: string) {
    rest != [] && (Overrides(rest[0], key) || CombinesWrite(rest[1..], key))
  }

  /** The branch that `anyOf` and `oneOf` come down to when they are not flattened. */
  function Picked(branches: seq<Branch>): (j: nat)
    requires branches != []
    ensures j < |branches|
  {
    if |NonNull(branches)| == 1 then FirstNonNull(branches) else 0
  }

  function FirstNonNull(branches: seq<Branch>): (j: nat)
    requires NonNull(branches) != []
    ensures j < |branches|
  {
    if branches[0].Some? && TypeOf(branches[0].value) == Some("null") then 1 + FirstNonNull(branches[1..]) else 0
  }

  // ---- settled schemas ------------------------------------------------------------------------------

  /** What is written last at every keyword is settled. */
  ghost predicate Settled(s: seq<Field>)
    decreases s, 3
  {
    forall key: string :: SettledAt(s, key)
  }

  /** Combinators write last, and of the fields of a pass the last one that writes. */
  ghost predicate SettledAt(s: seq<Field>, key: string)
    decreases s, 2
  {
    if CombinesWrite(s, key) then CombinesSettled(s, key) else PlainWrites(s, key) ==> PlainSettled(s, key)
  }

  ghost predicate PlainSettled(rest: seq<Field>, key: string)
    requires PlainWrites(rest, key)
    decreases rest, 1
  {
    if PlainWrites(rest[1..], key) then PlainSettled(rest[1..], key) else FieldSettled(rest[0])
  }

  /** A `const` that is an object is stable as a schema; what is sanitised is settled. */
  ghost predicate FieldSettled(f: Field)
    decreases f
  {
    match KindOf(f.key)
    case ConstKey => f.value.Object? ==> Stable(f.value.fields)
    case RequiredKey => true
    case PropertiesKey => f.value.Object? ==> SettledProps(f.value.fields)
    case _ => SettledValue(f.value)
  }

  ghost predicate SettledProps(props: seq<Field>)
    decreases props, 0
  {
    props == [] || (SettledValue(props[0].value) && SettledProps(props[1..]))
  }

  ghost predicate SettledValue(v: Value)
    decreases v
  {
    match v
    case Object(m) => Settled(m)
    case Array(items) => SettledItems(items)
    case _ => true
  }

  ghost predicate SettledItems(items: seq<Value>)
    decreases items, 0
  {
    items == [] || ((items[0].Object? ==> Settled(items[0].fields)) && SettledItems(items[1..]))
  }

  ghost predicate CombinesSettled(rest: seq<Field>, key: string)
    requires CombinesWrite(rest, key)
    decreases rest, 1
  {
    if CombinesWrite(rest[1..], key) then CombinesSettled(rest[1..], key)
    else if IsChoice(rest[0]) then ChoiceSettled(rest[0].value.items, key)
    else AllSettled(rest[0].value.items, key)
  }

  /** Flattened enumerations are settled when those of all branches are, a picked branch where it is. */
  ghost predicate ChoiceSettled(items: seq<Value>, key: string)
    requires items != []
    decreases items, 1
  {
    var bs := SanitizeBranches(items);
    if Flatten(bs, Flat([], None, true)).Some? then key == "enum" ==> EnumsSettled(items)
    else items[Picked(bs)].Object? ==> SettledAt(items[Picked(bs)].fields, key)
  }

  ghost predicate EnumsSettled(items: seq<Value>)
    decreases items, 0
  {
    items == [] || ((items[0].Object? ==> SettledAt(items[0].fields, "enum")) && EnumsSettled(items[1..]))
  }

  ghost predicate AllSettled(items: seq<Value>, key: string)
    requires ItemsWrite(items, key)
    decreases items, 0
  {
    if ItemsWrite(items[1..], key) then AllSettled(items[1..], key) else SettledAt(items[0].fields, key)
  }

  // ---- stability keyword by keyword -------------------------------------------------------------------

  predicate StableAt(s: seq<Field>, key: string) {
    Lookup(s, key).Some? ==> StableField(Field(key, Lookup(s, key).value))
  }

  lemma {:induction false} HasLookup(s: seq<Field>, key: string)
    ensures Has(s, key) <==> Lookup(s, key).Some?
    decreases |s|
  {
    if s != [] {
      HasLookup(s[1..], key);
    }
  }

  lemma {:induction false} InsertLookup(s: seq<Field>, key: string, value: Value, k: string)
    ensures Lookup(Insert(s, key, value), k) == if k == key then Some(value) else Lookup(s, k)
    decreases |s|
  {
    var r := Insert(s, key, value);
    if s == [] {
      assert r[1..] == [];
    } else if s[0].key == key {
      assert r[1..] == s[1..];
    } else {
      InsertLookup(s[1..], key, value, k);
      assert r[1..] == Insert(s[1..], key, value);
    }
  }

  lemma {:induction false} ExtendLookup(s: seq<Field>, more: seq<Field>, k: string)
    requires Distinct(more)
    ensures Lookup(Extend(s, more), k) == if Has(more, k) then Lookup(more, k) else Lookup(s, k)
    decreases |more|
  {
    if more != [] {
      var t := Insert(s, more[0].key, more[0].value);
      InsertLookup(s, more[0].key, more[0].value, k);
      ExtendLookup(t, more[1..], k);
    }
  }

  /** A schema with distinct keywords is stable when it is at every keyword. */
  lemma {:induction false} StableByKeyword(s: seq<Field>)
    requires Distinct(s)
    ensures StableFields(s) <==> forall key: string :: StableAt(s, key)
    decreases |s|
  {
    hide StableField;
    if s == [] {
      assert forall key: string :: StableAt(s, key);
    } else {
      StableByKeyword(s[1..]);
      assert s[0] == Field(s[0].key, s[0].value);
      HasLookup(s[1..], s[0].key);
      assert StableAt(s, s[0].key) <==> StableField(s[0]);
      forall key: string | key != s[0].key ensures StableAt(s, key) <==> StableAt(s[1..], key) {
      }
    }
  }

  // ---- the first pass ------------------------------------------------------------------------------------

  /** What the first pass puts in for a field. */
  function Placed(f: Field): Field {
    match KindOf(f.key)
    case ConstKey => Field("enum", Array([f.value]))
    case RequiredKey => f
    case PropertiesKey => Field(f.key, if f.value.Object? then Object(SanitizeProps(f.value.fields)) else f.value)
    case _ => Field(f.key, SanitizeValue(f.value))
  }

  /** It writes one keyword or none. */
  predicate Written(f: Field) {
    match KindOf(f.key)
    case Unsupported => false
    case RequiredKey => f.value != Array([])
    case AnyOfKey => false
    case AllOfKey => false
    case _ => true
  }

  lemma WritesPlaced(f: Field, key: string)
    ensures Writes(f, key) <==> Written(f) && key == Placed(f).key
  {
    hide KindOf;
  }

  lemma PlainStep(rest: seq<Field>, acc: seq<Field>)
    requires rest != []
    ensures Plain(rest, acc) == Plain(rest[1..], if Written(rest[0]) then Insert(acc, Placed(rest[0]).key, Placed(rest[0]).value) else acc)
  {
    hide KindOf;
    hide SanitizeValue;
    hide SanitizeProps;
    hide Insert;
  }

  lemma ConstIsStableIff(v: Value)
    ensures StableField(Field("enum", Array([v]))) <==> (v.Object? ==> Stable(v.fields))
  {
    hide KindOf;
    hide Stable;
    Keywords();
    assert [v][1..] == [];
    assert StableItems([v]) <==> (v.Object? ==> Stable(v.fields));
  }

  lemma PlacedSettles(f: Field)
    requires Written(f)
    ensures StableField(Placed(f)) <==> FieldSettled(f)
    decreases f, 0
  {
    hide KindOf;
    match KindOf(f.key)
    case ConstKey => ConstIsStableIff(f.value);
    case RequiredKey =>
    case PropertiesKey =>
      if f.value.Object? {
        PropsSettle(f.value.fields);
      }
    case EnumKey => ValueSettles(f.value);
    case PlainKey => ValueSettles(f.value);
    case _ =>
  }

  lemma {:induction false} PlainSettles(rest: seq<Field>, acc: seq<Field>, key: string)
    ensures StableAt(Plain(rest, acc), key) <==> if PlainWrites(rest, key) then PlainSettled(rest, key) else StableAt(acc, key)
    decreases rest, 1
  {
    hide KindOf;
    hide Plain;
    hide Written;
    hide Writes;
    hide Placed;
    hide FieldSettled;
    hide StableField;
    hide Insert;
    if rest == [] {
      PlainNothing(acc);
    } else {
      var f := rest[0];
      PlainStep(rest, acc);
      WritesPlaced(f, key);
      if Written(f) {
        var next := Insert(acc, Placed(f).key, Placed(f).value);
        PlacedSettles(f);
        InsertLookup(acc, Placed(f).key, Placed(f).value, key);
        PlainSettles(rest[1..], next, key);
        assert Placed(f) == Field(Placed(f).key, Placed(f).value);
      } else {
        PlainSettles(rest[1..], acc, key);
      }
    }
  }

  // ---- the second pass --------------------------------------------------------------------------------------

  lemma ExtendSettles(acc: seq<Field>, more: seq<Field>, key: string)
    requires Distinct(more)
    ensures StableAt(Extend(acc, more), key) <==> if Has(more, key) then StableAt(more, key) else StableAt(acc, key)
  {
    hide StableField;
    ExtendLookup(acc, more, key);
  }

  lemma {:induction false} NonNullAt(branches: seq<Branch>)
    requires NonNull(branches) != []
    ensures NonNull(branches)[0] == branches[FirstNonNull(branches)]
    decreases |branches|
  {
    hide TypeOf;
    if branches[0].Some? && TypeOf(branches[0].value) == Some("null") {
      NonNullAt(branches[1..]);
    }
  }

  lemma {:induction false} BranchAt(items: seq<Value>, j: nat)
    requires j < |items|
    ensures SanitizeBranches(items)[j] == if items[j].Object? then Some(Sanitize(items[j].fields)) else None
    decreases |items|
  {
    hide Sanitize;
    if j > 0 {
      BranchAt(items[1..], j - 1);
    }
  }

  /** What a choice comes down to. */
  lemma ChosenIs(items: seq<Value>)
    requires items != []
    ensures var bs := SanitizeBranches(items);
            var flat, v := Flatten(bs, Flat([], None, true)), items[Picked(bs)];
            Chosen(bs) == if flat.Some? then FlatSchema(flat.value) else if v.Object? then Sanitize(v.fields) else []
  {
    hide Sanitize;
    hide Flatten;
    hide FlatSchema;
    var bs := SanitizeBranches(items);
    BranchAt(items, Picked(bs));
    if |NonNull(bs)| == 1 {
      NonNullAt(bs);
    }
  }

  lemma FlatDistinct(f: Flat)
    ensures Distinct(FlatSchema(f))
    ensures Lookup(FlatSchema(f), "enum") == Some(Array(f.all))
    ensures forall key | key != "enum" && Lookup(FlatSchema(f), key).Some? :: key == "type" && Lookup(FlatSchema(f), key).value.Str?
  {
    var s := FlatSchema(f);
    assert "enum"[0] != "type"[0];
    var none: seq<Field> := [];
    assert !Has(none, "enum") && forall key :: Lookup(none, key).None?;
    if f.typ.Some? && f.consistent {
      var t := Field("type", Str(f.typ.value));
      assert s[1..] == [t] && [t][1..] == none;
      assert !Has([t], "enum") && Distinct([t]);
      assert forall key :: Lookup([t], key) == if key == "type" then Some(t.value) else None;
    } else {
      assert s[1..] == none;
    }
  }

  lemma ChosenDistinct(items: seq<Value>)
    requires items != []
    ensures Distinct(Chosen(SanitizeBranches(items)))
  {
    hide Sanitize;
    hide Flatten;
    hide FlatSchema;
    hide Distinct;
    ChosenIs(items);
    var bs := SanitizeBranches(items);
    var flat := Flatten(bs, Flat([], None, true));
    if flat.Some? {
      FlatDistinct(flat.value);
    } else if items[Picked(bs)].Object? {
      SanitizedDistinct(items[Picked(bs)].fields);
    } else {
      NothingDistinct();
    }
  }

  lemma NothingDistinct()
    ensures Distinct([])
  {
  }

  lemma {:induction false} ItemsJoin(a: seq<Value>, b: seq<Value>)
    ensures StableItems(a + b) <==> StableItems(a) && StableItems(b)
    decreases |a|
  {
    hide Stable;
    if a == [] {
      assert a + b == b;
    } else {
      assert (a + b)[1..] == a[1..] + b;
      ItemsJoin(a[1..], b);
    }
  }

  lemma EnumStableIff(e: seq<Value>)
    ensures StableField(Field("enum", Array(e))) <==> StableItems(e)
  {
    hide KindOf;
    hide StableItems;
    Keywords();
    assert StableValue(Array(e)) <==> StableItems(e);
  }

  /** Flattened enumerations are stable when those of all branches are. */
  lemma {:induction false} FlattenSettles(items: seq<Value>, f: Flat)
    requires Flatten(SanitizeBranches(items), f).Some?
    ensures StableItems(Flatten(SanitizeBranches(items), f).value.all) <==> StableItems(f.all) && EnumsSettled(items)
    decreases items, 0
  {
    hide Sanitize;
    hide StableItems;
    hide StableField;
    hide SettledAt;
    hide TypeOf;
    if items != [] {
      var bs := SanitizeBranches(items);
      assert bs[1..] == SanitizeBranches(items[1..]);
      assert items[0].Object?;
      var b := Sanitize(items[0].fields);
      var e := Lookup(b, "enum").value.items;
      var typ := TypeOf(b);
      SettledAtIff(items[0].fields, "enum");
      EnumStableIff(e);
      ItemsJoin(f.all, e);
      FlattenSettles(items[1..], Flat(f.all + e, if f.typ.None? then typ else f.typ,
                                      f.consistent && typ.Some? && (f.typ.None? || f.typ == typ)));
    }
  }

  lemma TypeIsStable(t: string)
    ensures StableField(Field("type", Str(t)))
  {
    hide KindOf;
    Keywords();
    assert StableValue(Str(t));
  }

  lemma ChoiceSettles(items: seq<Value>, key: string)
    requires items != [] && Has(Chosen(SanitizeBranches(items)), key)
    ensures StableAt(Chosen(SanitizeBranches(items)), key) <==> ChoiceSettled(items, key)
    decreases items, 1
  {
    hide Sanitize;
    hide Flatten;
    hide FlatSchema;
    hide StableField;
    hide SettledAt;
    hide EnumsSettled;
    ChosenIs(items);
    var bs := SanitizeBranches(items);
    var flat := Flatten(bs, Flat([], None, true));
    HasLookup(Chosen(bs), key);
    if flat.Some? {
      FlatDistinct(flat.value);
      if key == "enum" {
        FlattenSettles(items, Flat([], None, true));
        EnumStableIff(flat.value.all);
        assert StableItems([]);
      } else {
        TypeIsStable(Lookup(FlatSchema(flat.value), key).value.s);
      }
    } else if items[Picked(bs)].Object? {
      SettledAtIff(items[Picked(bs)].fields, key);
    }
  }

  lemma {:induction false} AllSettles(acc: seq<Field>, items: seq<Value>, key: string)
    ensures StableAt(ExtendAll(acc, items), key)
            <==> if ItemsWrite(items, key) then AllSettled(items, key) else StableAt(acc, key)
    decreases items, 0
  {
    hide Sanitize;
    hide StableAt;
    hide SettledAt;
    hide Extend;
    if items != [] {
      if items[0].Object? {
        var b := Sanitize(items[0].fields);
        SanitizedDistinct(items[0].fields);
        ExtendSettles(acc, b, key);
        AllSettles(Extend(acc, b), items[1..], key);
        SettledAtIff(items[0].fields, key);
      } else {
        AllSettles(acc, items[1..], key);
      }
    }
  }

  lemma CombineStep(rest: seq<Field>, acc: seq<Field>)
    requires rest != []
    ensures var f := rest[0];
            Combine(rest, acc)
            == Combine(rest[1..], if IsChoice(f) then Extend(acc, Chosen(SanitizeBranches(f.value.items)))
                                  else if IsAll(f) then ExtendAll(acc, f.value.items) else acc)
  {
    hide KindOf;
  }

  lemma {:induction false} CombineSettles(rest: seq<Field>, acc: seq<Field>, key: string)
    ensures StableAt(Combine(rest, acc), key)
            <==> if CombinesWrite(rest, key) then CombinesSettled(rest, key) else StableAt(acc, key)
    decreases rest, 1
  {
    hide Combine;
    hide KindOf;
    hide StableAt;
    hide Extend;
    hide ExtendAll;
    hide Chosen;
    hide ChoiceSettled;
    hide AllSettled;
    hide ItemsWrite;
    if rest == [] {
      assert Combine(rest, acc) == acc by { CombineNothing(rest, acc); }
    } else {
      var f := rest[0];
      CombineStep(rest, acc);
      if IsChoice(f) {
        var more := Chosen(SanitizeBranches(f.value.items));
        ChosenDistinct(f.value.items);
        ExtendSettles(acc, more, key);
        if Has(more, key) {
          ChoiceSettles(f.value.items, key);
        }
        CombineSettles(rest[1..], Extend(acc, more), key);
      } else if IsAll(f) {
        AllSettles(acc, f.value.items, key);
        CombineSettles(rest[1..], ExtendAll(acc, f.value.items), key);
      } else {
        CombineSettles(rest[1..], acc, key);
      }
    }
  }

  // ---- all of it ---------------------------------------------------------------------------------------------

  /** Keyword by keyword, the sanitised schema is stable exactly when the schema is settled. */
  lemma {:induction false} SettledAtIff(s: seq<Field>, key: string)
    ensures StableAt(Sanitize(s), key) <==> SettledAt(s, key)
    decreases s, 2
  {
    hide Plain;
    hide Combine;
    PlainSettles(s, [], key);
    CombineSettles(s, Plain(s, []), key);
  }

  lemma {:induction false} SettledIff(s: seq<Field>)
    ensures Stable(Sanitize(s)) <==> Settled(s)
    decreases s, 3
  {
    hide Sanitize;
    hide SettledAt;
    hide StableAt;
    hide StableFields;
    SanitizedDistinct(s);
    StableByKeyword(Sanitize(s));
    forall key: string ensures StableAt(Sanitize(s), key) <==> SettledAt(s, key) {
      SettledAtIff(s, key);
    }
  }

  lemma {:induction false} PropsSettle(props: seq<Field>)
    ensures StableProps(SanitizeProps(props)) <==> SettledProps(props)
    decreases props, 0
  {
    hide SettledValue;
    hide StableValue;
    hide SanitizeValue;
    if props != [] {
      ValueSettles(props[0].value);
      PropsSettle(props[1..]);
      assert SanitizeProps(props)[1..] == SanitizeProps(props[1..]);
    }
  }

  lemma {:induction false} ValueSettles(v: Value)
    ensures StableValue(SanitizeValue(v)) <==> SettledValue(v)
    decreases v
  {
    hide Sanitize;
    hide Settled;
    match v
    case Object(m) => SettledIff(m);
    case Array(items) => ItemsSettle(items);
    case _ =>
  }

  lemma {:induction false} ItemsSettle(items: seq<Value>)
    ensures StableItems(SanitizeItems(items)) <==> SettledItems(items)
    decreases items, 0
  {
    hide Sanitize;
    hide Settled;
    hide Stable;
    if items != [] {
      if items[0].Object? {
        SettledIff(items[0].fields);
      }
      ItemsSettle(items[1..]);
      assert SanitizeItems(items)[1..] == SanitizeItems(items[1..]);
    }
  }

  /** Sanitising any schema twice is sanitising it once if and only if the schema is settled. */
  lemma SettledTwiceIff(s: seq<Field>)
    ensures Sanitize(Sanitize(s)) == Sanitize(s) <==> Settled(s)
  {
    hide Sanitize;
    hide Settled;
    hide Stable;
    SettledIff(s);
    FixedIff(Sanitize(s));
  }

  // ---- a schema that changes twice -------------------------------------------------------------------

  lemma DefaultKeyword()
    ensures KindOf("default") == Unsupported
  {
  }

  lemma DefaultIsDropped(v: Value)
    ensures Sanitize([Field("default", v)]) == []
  {
    hide KindOf;
    DefaultKeyword();
    var s := [Field("default", v)];
    assert s[1..] == [];
    assert Plain([], []) == [] && Combine([], []) == [];
  }

  lemma EnumOnce(items: seq<Value>)
    ensures Sanitize([Field("enum", Array(items))]) == [Field("enum", Array(SanitizeItems(items)))]
  {
    hide KindOf;
    hide Sanitize;
    Keywords();
    var s := [Field("enum", Array(items))];
    assert s[1..] == [];
    SanitizeAgain(s);
    assert AgainAll([]) == [];
  }

  /** An object in `const` loses its `default` only the second time. */
  lemma ConstChangesTwice()
    ensures var s := [Field("const", Object([Field("default", Null)]))];
            && Sanitize(s) == [Field("enum", Array([Object([Field("default", Null)])]))]
            && Sanitize(Sanitize(s)) == [Field("enum", Array([Object([])]))]
  {
    hide Sanitize;
    var m := [Field("default", Null)];
    ConstOnce(Object(m));
    EnumOnce([Object(m)]);
    DefaultIsDropped(Null);
    assert [Object(m)][1..] == [];
    assert SanitizeItems([Object(m)]) == [Object([])] + SanitizeItems([]) == [Object([])] + [];
    assert [Object([])] + [] == [Object([])];
  }
}
