/** Schemas in which every object-valued `const` is stable: sanitising them twice is sanitising them once. */
module SchemaCalm {
  import opened Wrappers
  import opened Json
  import opened Schema
  import opened SchemaTwice

  /** Wherever a schema position has a `const` that is an object, that object is stable as a schema. */
  predicate Calm(s: seq<Field>)
    decreases s
  {
    s == [] || (CalmField(s[0]) && Calm(s[1..]))
  }

  predicate CalmField(f: Field)
    decreases f
  {
    match KindOf(f.key)
    case Unsupported => true
    case RequiredKey => true
    case ConstKey => f.value.Object? ==> Stable(f.value.fields)
    case PropertiesKey => f.value.Object? ==> CalmProps(f.value.fields)
    case _ => CalmValue(f.value)
  }

  predicate CalmProps(props: seq<Field>)
    decreases props
  {
    props == [] || (CalmValue(props[0].value) && CalmProps(props[1..]))
  }

  predicate CalmValue(v: Value)
    decreases v
  {
    match v
    case Object(m) => Calm(m)
    case Array(items) => CalmItems(items)
    case _ => true
  }

  predicate CalmItems(items: seq<Value>)
    decreases items
  {
    items == [] || ((items[0].Object? ==> Calm(items[0].fields)) && CalmItems(items[1..]))
  }

  predicate StableBranches(bs: seq<Branch>) {
    bs == [] || ((bs[0].Some? ==> Stable(bs[0].value)) && StableBranches(bs[1..]))
  }

  lemma {:induction false} InsertStable(acc: seq<Field>, key: string, value: Value)
    requires StableFields(acc) && StableField(Field(key, value))
    ensures StableFields(Insert(acc, key, value))
    decreases |acc|
  {
    hide StableField;
    var r := Insert(acc, key, value);
    if acc == [] {
      assert r[1..] == [];
    } else if acc[0].key == key {
      assert r[1..] == acc[1..];
    } else {
      InsertStable(acc[1..], key, value);
      assert r[1..] == Insert(acc[1..], key, value);
    }
  }

  lemma {:induction false} ExtendStable(acc: seq<Field>, more: seq<Field>)
    requires StableFields(acc) && StableFields(more)
    ensures StableFields(Extend(acc, more))
    decreases |more|
  {
    hide StableField;
    if more != [] {
      InsertStable(acc, more[0].key, more[0].value);
      ExtendStable(Insert(acc, more[0].key, more[0].value), more[1..]);
    }
  }

  lemma {:induction false} LookupStable(s: seq<Field>, key: string)
    requires StableFields(s) && Lookup(s, key).Some?
    ensures StableField(Field(key, Lookup(s, key).value))
    decreases |s|
  {
    hide StableField;
    if s[0].key == key {
      assert s[0] == Field(key, s[0].value);
    } else {
      LookupStable(s[1..], key);
    }
  }

  lemma {:induction false} ItemsAppend(a: seq<Value>, b: seq<Value>)
    requires StableItems(a) && StableItems(b)
    ensures StableItems(a + b)
    decreases |a|
  {
    hide Stable;
    if a == [] {
      assert a + b == b;
    } else {
      assert (a + b)[1..] == a[1..] + b;
      ItemsAppend(a[1..], b);
    }
  }

  /** The values of an `enum` of a stable schema. */
  lemma EnumStable(s: seq<Field>)
    requires Stable(s) && Lookup(s, "enum").Some? && Lookup(s, "enum").value.Array?
    ensures StableItems(Lookup(s, "enum").value.items)
  {
    hide KindOf;
    Keywords();
    LookupStable(s, "enum");
    assert StableValue(Lookup(s, "enum").value);
  }

  lemma {:induction false} FlattenStable(bs: seq<Branch>, f: Flat)
    requires StableBranches(bs) && StableItems(f.all) && Flatten(bs, f).Some?
    ensures StableItems(Flatten(bs, f).value.all)
    decreases |bs|
  {
    hide Stable;
    hide StableItems;
    hide TypeOf;
    if bs != [] {
      var s := bs[0].value;
      EnumStable(s);
      var e := Lookup(s, "enum").value.items;
      ItemsAppend(f.all, e);
      var typ := TypeOf(s);
      FlattenStable(bs[1..], Flat(f.all + e, if f.typ.None? then typ else f.typ,
                                  f.consistent && typ.Some? && (f.typ.None? || f.typ == typ)));
    }
  }

  lemma ConsStable(f: Field, rest: seq<Field>)
    requires StableField(f) && StableFields(rest)
    ensures StableFields([f] + rest)
  {
    hide StableField;
    assert ([f] + rest)[1..] == rest;
  }

  lemma FlatStable(f: Flat)
    requires StableItems(f.all)
    ensures StableFields(FlatSchema(f))
  {
    hide KindOf;
    hide StableItems;
    Keywords();
    var e := Field("enum", Array(f.all));
    assert StableField(e) by { assert StableValue(e.value); }
    ConsStable(e, []);
    if f.typ.Some? && f.consistent {
      var t := Field("type", Str(f.typ.value));
      assert StableField(t) by { assert StableValue(t.value); }
      ConsStable(t, []);
      ConsStable(e, [t]);
      assert [t] + [] == [t];
    }
    assert [e] + [] == [e];
  }

  lemma {:induction false} NonNullStable(bs: seq<Branch>)
    requires StableBranches(bs)
    ensures StableBranches(NonNull(bs))
    decreases |bs|
  {
    hide Stable;
    hide TypeOf;
    if bs != [] {
      NonNullStable(bs[1..]);
      assert ([bs[0]] + NonNull(bs[1..]))[1..] == NonNull(bs[1..]);
      assert [] + NonNull(bs[1..]) == NonNull(bs[1..]);
    }
  }

  lemma ChosenStable(bs: seq<Branch>)
    requires bs != [] && StableBranches(bs)
    ensures StableFields(Chosen(bs))
  {
    hide Flatten;
    hide StableField;
    hide FlatSchema;
    NonNullStable(bs);
    var f := Flatten(bs, Flat([], None, true));
    if f.Some? {
      NoItemsStable();
      FlattenStable(bs, Flat([], None, true));
      FlatStable(f.value);
    }
  }

  lemma NoItemsStable()
    ensures StableItems([])
  {
  }

  lemma {:induction false} SanitizedIsStable(s: seq<Field>)
    requires Calm(s)
    ensures Stable(Sanitize(s))
    decreases s, 2
  {
    hide Calm;
    hide Plain;
    hide Combine;
    hide StableFields;
    hide Distinct;
    assert StableFields([]) by { NoFieldsStable(); }
    PlainStable(s, []);
    CombineStable(s, Plain(s, []));
    SanitizedDistinct(s);
  }

  lemma NoFieldsStable()
    ensures StableFields([])
  {
  }

  lemma {:induction false} PlainStable(rest: seq<Field>, acc: seq<Field>)
    requires Calm(rest) && StableFields(acc)
    ensures StableFields(Plain(rest, acc))
    decreases rest, 1
  {
    hide KindOf;
    hide StableFields;
    Keywords();
    if rest != [] {
      var f := rest[0];
      match KindOf(f.key)
      case Unsupported => PlainStable(rest[1..], acc);
      case AnyOfKey => PlainStable(rest[1..], acc);
      case AllOfKey => PlainStable(rest[1..], acc);
      case ConstKey =>
        ConstStable(f.value);
        InsertStable(acc, "enum", Array([f.value]));
        PlainStable(rest[1..], Insert(acc, "enum", Array([f.value])));
      case RequiredKey =>
        if f.value == Array([]) {
          PlainStable(rest[1..], acc);
        } else {
          InsertStable(acc, f.key, f.value);
          PlainStable(rest[1..], Insert(acc, f.key, f.value));
        }
      case PropertiesKey =>
        var v := if f.value.Object? then Object(SanitizeProps(f.value.fields)) else f.value;
        if f.value.Object? {
          PropsStable(f.value.fields);
        }
        InsertStable(acc, f.key, v);
        PlainStable(rest[1..], Insert(acc, f.key, v));
      case _ =>
        ValueStable(f.value);
        InsertStable(acc, f.key, SanitizeValue(f.value));
        PlainStable(rest[1..], Insert(acc, f.key, SanitizeValue(f.value)));
    }
  }

  lemma ConstStable(v: Value)
    requires v.Object? ==> Stable(v.fields)
    ensures StableField(Field("enum", Array([v])))
  {
    hide KindOf;
    Keywords();
    assert [v][1..] == [];
    assert StableItems([v]);
    assert StableValue(Array([v]));
  }

  lemma {:induction false} CombineStable(rest: seq<Field>, acc: seq<Field>)
    requires Calm(rest) && StableFields(acc)
    ensures StableFields(Combine(rest, acc))
    decreases rest, 1
  {
    hide KindOf;
    hide StableFields;
    if rest != [] {
      var f := rest[0];
      if KindOf(f.key).AnyOfKey? && f.value.Array? && f.value.items != [] {
        var bs := SanitizeBranches(f.value.items);
        assert CalmField(f) && CalmValue(f.value);
        BranchesStable(f.value.items);
        ChosenStable(bs);
        ExtendStable(acc, Chosen(bs));
        CombineStable(rest[1..], Extend(acc, Chosen(bs)));
      } else if KindOf(f.key).AllOfKey? && f.value.Array? {
        assert CalmField(f) && CalmValue(f.value);
        ExtendAllStable(acc, f.value.items);
        CombineStable(rest[1..], ExtendAll(acc, f.value.items));
      } else {
        CombineStable(rest[1..], acc);
      }
    }
  }

  lemma {:induction false} PropsStable(props: seq<Field>)
    requires CalmProps(props)
    ensures StableProps(SanitizeProps(props))
    decreases props
  {
    if props != [] {
      ValueStable(props[0].value);
      PropsStable(props[1..]);
      assert SanitizeProps(props)[1..] == SanitizeProps(props[1..]);
    }
  }

  lemma {:induction false} ValueStable(v: Value)
    requires CalmValue(v)
    ensures StableValue(SanitizeValue(v))
    decreases v
  {
    match v
    case Object(m) => SanitizedIsStable(m);
    case Array(items) => ItemsStable(items);
    case _ =>
  }

  lemma {:induction false} ItemsStable(items: seq<Value>)
    requires CalmItems(items)
    ensures StableItems(SanitizeItems(items))
    decreases items
  {
    hide Stable;
    if items != [] {
      if items[0].Object? {
        SanitizedIsStable(items[0].fields);
      }
      ItemsStable(items[1..]);
      assert SanitizeItems(items)[1..] == SanitizeItems(items[1..]);
    }
  }

  lemma {:induction false} BranchesStable(items: seq<Value>)
    requires CalmItems(items)
    ensures StableBranches(SanitizeBranches(items))
    decreases items
  {
    hide Stable;
    if items != [] {
      if items[0].Object? {
        SanitizedIsStable(items[0].fields);
      }
      BranchesStable(items[1..]);
      assert SanitizeBranches(items)[1..] == SanitizeBranches(items[1..]);
    }
  }

  lemma {:induction false} ExtendAllStable(acc: seq<Field>, items: seq<Value>)
    requires CalmItems(items) && StableFields(acc)
    ensures StableFields(ExtendAll(acc, items))
    decreases items
  {
    hide StableFields;
    if items != [] {
      if items[0].Object? {
        SanitizedIsStable(items[0].fields);
        ExtendStable(acc, Sanitize(items[0].fields));
        ExtendAllStable(Extend(acc, Sanitize(items[0].fields)), items[1..]);
      } else {
        ExtendAllStable(acc, items[1..]);
      }
    }
  }

  /** When every object-valued `const` is stable, sanitising twice is sanitising once, combinators or not. */
  lemma CalmTwice(s: seq<Field>)
    requires Calm(s)
    ensures Sanitize(Sanitize(s)) == Sanitize(s)
  {
    hide Sanitize;
    hide StableFields;
    SanitizedIsStable(s);
    TwiceIff(s);
  }
}
