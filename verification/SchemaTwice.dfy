/** When sanitising a schema twice is sanitising it once. */
module SchemaTwice {
  import opened Json
  import opened Schema

  predicate Has(s: seq<Field>, key: string) {
    s != [] && (s[0].key == key || Has(s[1..], key))
  }

  predicate Distinct(s: seq<Field>) {
    s == [] || (!Has(s[1..], s[0].key) && Distinct(s[1..]))
  }

  /** A clean schema with distinct keywords in which the values of `enum` are left alone too. */
  predicate Stable(s: seq<Field>)
    decreases s, 1
  {
    Distinct(s) && StableFields(s)
  }

  predicate StableFields(s: seq<Field>)
    decreases s, 0
  {
    s == [] || (StableField(s[0]) && StableFields(s[1..]))
  }

  predicate StableField(f: Field)
    decreases f
  {
    match KindOf(f.key)
    case Unsupported => false
    case ConstKey => false
    case AnyOfKey => false
    case AllOfKey => false
    case RequiredKey => f.value != Array([])
    case PropertiesKey => f.value.Object? ==> StableProps(f.value.fields)
    case _ => StableValue(f.value)
  }

  predicate StableProps(props: seq<Field>)
    decreases props, 0
  {
    props == [] || (StableValue(props[0].value) && StableProps(props[1..]))
  }

  predicate StableValue(v: Value)
    decreases v
  {
    match v
    case Object(m) => Stable(m)
    case Array(items) => StableItems(items)
    case _ => true
  }

  predicate StableItems(items: seq<Value>)
    decreases items, 0
  {
    items == [] || ((items[0].Object? ==> Stable(items[0].fields)) && StableItems(items[1..]))
  }

  // ---- distinct keywords ----------------------------------------------------------------------

  lemma {:induction false} InsertHas(s: seq<Field>, key: string, value: Value, k: string)
    ensures Has(Insert(s, key, value), k) <==> Has(s, k) || k == key
    decreases |s|
  {
    var r := Insert(s, key, value);
    if s == [] {
      assert r[1..] == [];
    } else if s[0].key == key {
      assert r[1..] == s[1..];
    } else {
      InsertHas(s[1..], key, value, k);
      assert r[1..] == Insert(s[1..], key, value);
    }
  }

  lemma {:induction false} InsertDistinct(s: seq<Field>, key: string, value: Value)
    requires Distinct(s)
    ensures Distinct(Insert(s, key, value))
    decreases |s|
  {
    var r := Insert(s, key, value);
    if s == [] {
      assert r[1..] == [];
    } else if s[0].key == key {
      assert r[1..] == s[1..];
    } else {
      InsertDistinct(s[1..], key, value);
      InsertHas(s[1..], key, value, s[0].key);
      assert r[1..] == Insert(s[1..], key, value);
    }
  }

  lemma {:induction false} ExtendDistinct(s: seq<Field>, more: seq<Field>)
    requires Distinct(s)
    ensures Distinct(Extend(s, more))
    decreases |more|
  {
    hide Distinct;
    if more != [] {
      InsertDistinct(s, more[0].key, more[0].value);
      ExtendDistinct(Insert(s, more[0].key, more[0].value), more[1..]);
    }
  }

  lemma {:induction false} PlainDistinct(rest: seq<Field>, acc: seq<Field>)
    requires Distinct(acc)
    ensures Distinct(Plain(rest, acc))
    decreases |rest|
  {
    hide Distinct;
    hide KindOf;
    hide SanitizeValue;
    hide SanitizeProps;
    if rest != [] {
      var f := rest[0];
      InsertDistinct(acc, "enum", Array([f.value]));
      InsertDistinct(acc, f.key, f.value);
      InsertDistinct(acc, f.key, SanitizeValue(f.value));
      if f.value.Object? {
        InsertDistinct(acc, f.key, Object(SanitizeProps(f.value.fields)));
      }
      var next := match KindOf(f.key)
                  case Unsupported => acc
                  case ConstKey => Insert(acc, "enum", Array([f.value]))
                  case RequiredKey => if f.value == Array([]) then acc else Insert(acc, f.key, f.value)
                  case PropertiesKey => Insert(acc, f.key, if f.value.Object? then Object(SanitizeProps(f.value.fields)) else f.value)
                  case AnyOfKey => acc
                  case AllOfKey => acc
                  case _ => Insert(acc, f.key, SanitizeValue(f.value));
      PlainDistinct(rest[1..], next);
    }
  }

  lemma {:induction false} ExtendAllDistinct(acc: seq<Field>, items: seq<Value>)
    requires Distinct(acc)
    ensures Distinct(ExtendAll(acc, items))
    decreases |items|
  {
    hide Distinct;
    if items != [] {
      if items[0].Object? {
        ExtendDistinct(acc, Sanitize(items[0].fields));
        ExtendAllDistinct(Extend(acc, Sanitize(items[0].fields)), items[1..]);
      } else {
        ExtendAllDistinct(acc, items[1..]);
      }
    }
  }

  lemma {:induction false} CombineDistinct(rest: seq<Field>, acc: seq<Field>)
    requires Distinct(acc)
    ensures Distinct(Combine(rest, acc))
    decreases |rest|
  {
    hide Distinct;
    hide KindOf;
    if rest != [] {
      var f := rest[0];
      if KindOf(f.key).AnyOfKey? && f.value.Array? && f.value.items != [] {
        ExtendDistinct(acc, Chosen(SanitizeBranches(f.value.items)));
        CombineDistinct(rest[1..], Extend(acc, Chosen(SanitizeBranches(f.value.items))));
      } else if KindOf(f.key).AllOfKey? && f.value.Array? {
        ExtendAllDistinct(acc, f.value.items);
        CombineDistinct(rest[1..], ExtendAll(acc, f.value.items));
      } else {
        CombineDistinct(rest[1..], acc);
      }
    }
  }

  lemma SanitizedDistinct(s: seq<Field>)
    ensures Distinct(Sanitize(s))
  {
    hide Plain;
    hide Combine;
    PlainDistinct(s, []);
    CombineDistinct(s, Plain(s, []));
  }

  // ---- what sanitising does to a clean schema ----------------------------------------------------

  /** A keyword of a clean schema. */
  function Again(f: Field): Field {
    match KindOf(f.key)
    case RequiredKey => f
    case PropertiesKey => if f.value.Object? then Field(f.key, Object(SanitizeProps(f.value.fields))) else f
    case _ => Field(f.key, SanitizeValue(f.value))
  }

  function AgainAll(s: seq<Field>): seq<Field> {
    if s == [] then [] else [Again(s[0])] + AgainAll(s[1..])
  }

  lemma {:induction false} InsertNew(s: seq<Field>, key: string, value: Value)
    requires !Has(s, key)
    ensures Insert(s, key, value) == s + [Field(key, value)]
    decreases |s|
  {
    if s != [] {
      InsertNew(s[1..], key, value);
      assert s == [s[0]] + s[1..];
    }
  }

  /** No keyword of `rest` is in `acc`. */
  predicate Apart(acc: seq<Field>, rest: seq<Field>) {
    rest == [] || (!Has(acc, rest[0].key) && Apart(acc, rest[1..]))
  }

  lemma {:induction false} HasSnoc(acc: seq<Field>, f: Field, k: string)
    ensures Has(acc + [f], k) <==> Has(acc, k) || f.key == k
    decreases |acc|
  {
    if acc == [] {
      assert acc + [f] == [f] && [f][1..] == [];
    } else {
      assert (acc + [f])[1..] == acc[1..] + [f];
      HasSnoc(acc[1..], f, k);
    }
  }

  lemma {:induction false} ApartSnoc(acc: seq<Field>, f: Field, rest: seq<Field>)
    requires Apart(acc, rest) && !Has(rest, f.key)
    ensures Apart(acc + [f], rest)
    decreases |rest|
  {
    if rest != [] {
      HasSnoc(acc, f, rest[0].key);
      ApartSnoc(acc, f, rest[1..]);
    }
  }

  lemma {:induction false} ApartNone(rest: seq<Field>)
    ensures Apart([], rest)
    decreases |rest|
  {
    if rest != [] {
      ApartNone(rest[1..]);
    }
  }

  lemma PlainNothing(acc: seq<Field>)
    ensures Plain([], acc) == acc
  {
  }

  lemma PlainFirst(rest: seq<Field>, acc: seq<Field>)
    requires rest != [] && CleanField(rest[0]) && !Has(acc, rest[0].key)
    ensures Plain(rest, acc) == Plain(rest[1..], acc + [Again(rest[0])]) && Again(rest[0]).key == rest[0].key
  {
    hide KindOf;
    hide SanitizeValue;
    hide SanitizeProps;
    hide Has;
    hide CleanProps;
    hide CleanValue;
    hide Insert;
    InsertNew(acc, rest[0].key, Again(rest[0]).value);
  }

  lemma {:induction false} PlainAgain(rest: seq<Field>, acc: seq<Field>)
    requires CleanSchema(rest) && Distinct(rest) && Apart(acc, rest)
    ensures Plain(rest, acc) == acc + AgainAll(rest)
    decreases |rest|
  {
    hide Plain;
    hide Again;
    hide Has;
    hide CleanField;
    if rest == [] {
      PlainNothing(acc);
      assert acc + [] == acc;
    } else {
      var g := Again(rest[0]);
      PlainFirst(rest, acc);
      ApartSnoc(acc, g, rest[1..]);
      PlainAgain(rest[1..], acc + [g]);
      assert acc + [g] + AgainAll(rest[1..]) == acc + ([g] + AgainAll(rest[1..]));
    }
  }

  lemma {:induction false} CombineNothing(rest: seq<Field>, acc: seq<Field>)
    requires CleanSchema(rest)
    ensures Combine(rest, acc) == acc
    decreases |rest|
  {
    hide KindOf;
    hide CleanProps;
    hide CleanValue;
    if rest != [] {
      CombineNothing(rest[1..], acc);
    }
  }

  lemma SanitizeAgain(s: seq<Field>)
    requires CleanSchema(s) && Distinct(s)
    ensures Sanitize(s) == AgainAll(s)
  {
    hide Plain;
    hide Combine;
    hide CleanSchema;
    hide Distinct;
    ApartNone(s);
    PlainAgain(s, []);
    CombineNothing(s, Plain(s, []));
    assert [] + AgainAll(s) == AgainAll(s);
  }

  // ---- fixed points ------------------------------------------------------------------------------

  lemma {:induction false} StableIsClean(s: seq<Field>)
    requires StableFields(s)
    ensures CleanSchema(s)
    decreases s, 1
  {
    hide KindOf;
    if s != [] {
      var f := s[0];
      if KindOf(f.key).PropertiesKey? {
        if f.value.Object? {
          StablePropsClean(f.value.fields);
        }
      } else if KindOf(f.key).PlainKey? {
        StableValueClean(f.value);
      }
      StableIsClean(s[1..]);
    }
  }

  lemma {:induction false} StableValueClean(v: Value)
    requires StableValue(v)
    ensures CleanValue(v)
    decreases v
  {
    match v
    case Object(m) => StableIsClean(m);
    case Array(items) => StableItemsClean(items);
    case _ =>
  }

  lemma {:induction false} StablePropsClean(props: seq<Field>)
    requires StableProps(props)
    ensures CleanProps(props)
    decreases props, 0
  {
    if props != [] {
      StableValueClean(props[0].value);
      StablePropsClean(props[1..]);
    }
  }

  lemma {:induction false} StableItemsClean(items: seq<Value>)
    requires StableItems(items)
    ensures CleanItems(items)
    decreases items, 0
  {
    if items != [] {
      if items[0].Object? {
        StableIsClean(items[0].fields);
      }
      StableItemsClean(items[1..]);
    }
  }

  /** A clean schema with distinct keywords is left alone exactly when it is stable. */
  lemma {:induction false} AgainIff(s: seq<Field>)
    requires CleanSchema(s)
    ensures AgainAll(s) == s <==> StableFields(s)
    decreases s, 1
  {
    hide CleanField;
    hide Again;
    hide StableField;
    if s != [] {
      AgainFieldIff(s[0]);
      AgainIff(s[1..]);
      assert AgainAll(s)[1..] == AgainAll(s[1..]);
      assert s == [s[0]] + s[1..];
    }
  }

  lemma {:induction false} AgainFieldIff(f: Field)
    requires CleanField(f)
    ensures Again(f) == f <==> StableField(f)
    decreases f, 0
  {
    hide KindOf;
    var kind := KindOf(f.key);
    if kind.PropertiesKey? {
      if f.value.Object? {
        PropsIff(f.value.fields);
      }
    } else if kind.EnumKey? || kind.PlainKey? {
      ValueIff(f.value);
    }
  }

  lemma {:induction false} ValueIff(v: Value)
    ensures SanitizeValue(v) == v <==> StableValue(v)
    decreases v
  {
    match v
    case Object(m) => FixedIff(m);
    case Array(items) => ItemsIff(items);
    case _ =>
  }

  lemma {:induction false} PropsIff(props: seq<Field>)
    ensures SanitizeProps(props) == props <==> StableProps(props)
    decreases props, 0
  {
    hide StableValue;
    hide SanitizeValue;
    if props != [] {
      ValueIff(props[0].value);
      PropsIff(props[1..]);
      assert SanitizeProps(props)[1..] == SanitizeProps(props[1..]);
      assert props == [props[0]] + props[1..];
    }
  }

  lemma {:induction false} ItemsIff(items: seq<Value>)
    ensures SanitizeItems(items) == items <==> StableItems(items)
    decreases items, 0
  {
    hide Sanitize;
    hide Stable;
    if items != [] {
      if items[0].Object? {
        FixedIff(items[0].fields);
      }
      ItemsIff(items[1..]);
      assert SanitizeItems(items)[1..] == SanitizeItems(items[1..]);
      assert items == [items[0]] + items[1..];
    }
  }

  /** Sanitising leaves a schema alone if and only if it is stable. */
  lemma {:induction false} FixedIff(s: seq<Field>)
    ensures Sanitize(s) == s <==> Stable(s)
    decreases s, 2
  {
    hide Sanitize;
    hide Distinct;
    hide StableFields;
    hide CleanSchema;
    SanitizedIsClean(s);
    SanitizedDistinct(s);
    if StableFields(s) {
      StableIsClean(s);
    }
    if CleanSchema(s) && Distinct(s) {
      SanitizeAgain(s);
      AgainIff(s);
    }
  }

  /** Sanitising twice is sanitising once exactly when the result is stable. */
  lemma TwiceIff(s: seq<Field>)
    ensures Sanitize(Sanitize(s)) == Sanitize(s) <==> StableFields(Sanitize(s))
  {
    hide Sanitize;
    hide StableFields;
    hide Distinct;
    FixedIff(Sanitize(s));
    SanitizedDistinct(s);
  }

  // ---- where it fails ---------------------------------------------------------------------------------

  /** A `const` that is an object is put into `enum` as it is, and the second time it is taken for a schema:
      the two agree only if that object is left alone as a schema. */
  lemma ConstTwiceIff(m: seq<Field>)
    ensures var s := [Field("const", Object(m))];
            Sanitize(Sanitize(s)) == Sanitize(s) <==> Sanitize(m) == m
  {
    var s := [Field("const", Object(m))];
    var e := Field("enum", Array([Object(m)]));
    ConstOnce(Object(m));
    Keywords();
    StableOne(e);
    TwiceIff(s);
    FixedIff(m);
    OneItem(m);
  }

  lemma OneItem(m: seq<Field>)
    ensures StableItems([Object(m)]) <==> Stable(m)
  {
    hide Stable;
    assert [Object(m)][1..] == [];
  }

  lemma StableOne(f: Field)
    ensures StableFields([f]) <==> StableField(f)
  {
    hide StableField;
    assert [f][1..] == [];
  }

  lemma ConstKeyword()
    ensures KindOf("const") == ConstKey
  {
    assert "const"[0] == 'c' && "const"[4] == 't' && |"const"| == 5;
  }

  lemma ConstOnce(v: Value)
    ensures Sanitize([Field("const", v)]) == [Field("enum", Array([v]))]
  {
    hide KindOf;
    ConstKeyword();
    var s := [Field("const", v)];
    assert s[1..] == [];
    assert Plain([], [Field("enum", Array([v]))]) == [Field("enum", Array([v]))];
    assert Combine([], [Field("enum", Array([v]))]) == [Field("enum", Array([v]))];
  }
}
