/** JSON Schema sanitisation. Objects keep their fields in insertion order. */
module Schema {
  import opened Wrappers
  import opened Json

  predicate IsUnsupported(key: string) {
    || key == "additionalProperties" || key == "$schema" || key == "propertyNames"
    || key == "default" || key == "exclusiveMinimum" || key == "exclusiveMaximum"
    || key == "$defs" || key == "$ref" || key == "patternProperties"
    || key == "if" || key == "then" || key == "else"
    || key == "dependentRequired" || key == "dependentSchemas" || key == "prefixItems"
    || key == "unevaluatedProperties" || key == "unevaluatedItems" || key == "contentMediaType"
    || key == "contentEncoding" || key == "format" || key == "pattern"
    || key == "minLength" || key == "maxLength" || key == "minimum"
    || key == "maximum" || key == "minItems" || key == "maxItems"
    || key == "uniqueItems" || key == "multipleOf" || key == "not"
  }

  datatype Kind = Unsupported | ConstKey | RequiredKey | PropertiesKey | AnyOfKey | AllOfKey | EnumKey | PlainKey

  /** How a keyword is treated; `anyOf` and `oneOf` are treated alike. */
  function KindOf(key: string): Kind {
    if IsUnsupported(key) then Unsupported
    else if key == "const" then ConstKey
    else if key == "required" then RequiredKey
    else if key == "properties" then PropertiesKey
    else if key == "anyOf" || key == "oneOf" then AnyOfKey
    else if key == "allOf" then AllOfKey
    else if key == "enum" then EnumKey
    else PlainKey
  }

  /** `Map::insert`: a key that is there keeps its place. */
  function Insert(fields: seq<Field>, key: string, value: Value): (r: seq<Field>)
    ensures r != []
  {
    if fields == [] then [Field(key, value)]
    else if fields[0].key == key then [Field(key, value)] + fields[1..]
    else [fields[0]] + Insert(fields[1..], key, value)
  }

  function Extend(fields: seq<Field>, more: seq<Field>): seq<Field>
    decreases |more|
  {
    if more == [] then fields else Extend(Insert(fields, more[0].key, more[0].value), more[1..])
  }

  /** A branch of a combinator after sanitising; nothing for one that is no object. */
  type Branch = Option<seq<Field>>

  datatype Flat = Flat(all: seq<Value>, typ: Option<string>, consistent: bool)

  /** Enumerations put together, unless some branch has none. */
  function Flatten(branches: seq<Branch>, f: Flat): Option<Flat>
    decreases |branches|
  {
    if branches == [] then Some(f) else
    match branches[0]
    case None => None
    case Some(s) =>
      match Lookup(s, "enum")
      case Some(Array(e)) =>
        var typ := TypeOf(s);
        Flatten(branches[1..],
                Flat(f.all + e, if f.typ.None? then typ else f.typ,
                     f.consistent && typ.Some? && (f.typ.None? || f.typ == typ)))
      case _ => None
  }

  function TypeOf(s: seq<Field>): Option<string> {
    match Lookup(s, "type")
    case Some(Str(t)) => Some(t)
    case _ => None
  }

  function FlatSchema(f: Flat): seq<Field> {
    [Field("enum", Array(f.all))] + if f.typ.Some? && f.consistent then [Field("type", Str(f.typ.value))] else []
  }

  /** The branches that are not just `null`. */
  function NonNull(branches: seq<Branch>): seq<Branch> {
    if branches == [] then []
    else (if branches[0].Some? && TypeOf(branches[0].value) == Some("null") then [] else [branches[0]]) + NonNull(branches[1..])
  }

  function OrNothing(b: Branch): seq<Field> {
    if b.Some? then b.value else []
  }

  /** What the branches of `anyOf` and `oneOf` contribute. */
  function Chosen(branches: seq<Branch>): seq<Field>
    requires branches != []
  {
    match Flatten(branches, Flat([], None, true))
    case Some(f) => FlatSchema(f)
    case None => OrNothing(if |NonNull(branches)| == 1 then NonNull(branches)[0] else branches[0])
  }

  function Sanitize(schema: seq<Field>): seq<Field>
    decreases schema, 2
  {
    Combine(schema, Plain(schema, []))
  }

  /** The first pass: every keyword but the combinators. */
  function Plain(rest: seq<Field>, acc: seq<Field>): seq<Field>
    decreases rest, 1
  {
    if rest == [] then acc else
    var f := rest[0];
    Plain(rest[1..],
          match KindOf(f.key)
          case Unsupported => acc
          case ConstKey => Insert(acc, "enum", Array([f.value]))
          case RequiredKey => if f.value == Array([]) then acc else Insert(acc, f.key, f.value)
          case PropertiesKey => Insert(acc, f.key, if f.value.Object? then Object(SanitizeProps(f.value.fields)) else f.value)
          case AnyOfKey => acc
          case AllOfKey => acc
          case _ => Insert(acc, f.key, SanitizeValue(f.value)))
  }

  /** The second pass: the combinators override what is there. */
  function Combine(rest: seq<Field>, acc: seq<Field>): seq<Field>
    decreases rest, 1
  {
    if rest == [] then acc else
    var f := rest[0];
    Combine(rest[1..],
            if KindOf(f.key).AnyOfKey? && f.value.Array? && f.value.items != []
            then Extend(acc, Chosen(SanitizeBranches(f.value.items)))
            else if KindOf(f.key).AllOfKey? && f.value.Array? then ExtendAll(acc, f.value.items)
            else acc)
  }

  function SanitizeProps(props: seq<Field>): (r: seq<Field>)
    decreases props
  {
    if props == [] then [] else [Field(props[0].key, SanitizeValue(props[0].value))] + SanitizeProps(props[1..])
  }

  function SanitizeValue(v: Value): Value
    decreases v
  {
    match v
    case Object(m) => Object(Sanitize(m))
    case Array(items) => Array(SanitizeItems(items))
    case _ => v
  }

  function SanitizeItems(items: seq<Value>): seq<Value>
    decreases items
  {
    if items == [] then []
    else [if items[0].Object? then Object(Sanitize(items[0].fields)) else items[0]] + SanitizeItems(items[1..])
  }

  function SanitizeBranches(items: seq<Value>): (r: seq<Branch>)
    ensures |r| == |items|
    decreases items
  {
    if items == [] then []
    else [if items[0].Object? then Some(Sanitize(items[0].fields)) else None] + SanitizeBranches(items[1..])
  }

  function ExtendAll(acc: seq<Field>, items: seq<Value>): seq<Field>
    decreases items
  {
    if items == [] then acc
    else ExtendAll(if items[0].Object? then Extend(acc, Sanitize(items[0].fields)) else acc, items[1..])
  }

  // ---- a clean schema ------------------------------------------------------------------------

  /** At no schema position is there an unsupported keyword, a `const`, a combinator or an empty `required`.
      What `enum` and `required` hold and `properties` that are no object are no schema positions. */
  predicate CleanSchema(s: seq<Field>)
    decreases s
  {
    s == [] || (CleanField(s[0]) && CleanSchema(s[1..]))
  }

  predicate CleanField(f: Field)
    decreases f
  {
    match KindOf(f.key)
    case Unsupported => false
    case ConstKey => false
    case AnyOfKey => false
    case AllOfKey => false
    case RequiredKey => f.value != Array([])
    case PropertiesKey => f.value.Object? ==> CleanProps(f.value.fields)
    case EnumKey => true
    case PlainKey => CleanValue(f.value)
  }

  /** The names of properties are free, their values are schemas. */
  predicate CleanProps(props: seq<Field>)
    decreases props
  {
    props == [] || (CleanValue(props[0].value) && CleanProps(props[1..]))
  }

  predicate CleanValue(v: Value)
    decreases v
  {
    match v
    case Object(m) => CleanSchema(m)
    case Array(items) => CleanItems(items)
    case _ => true
  }

  predicate CleanItems(items: seq<Value>)
    decreases items
  {
    items == [] || ((items[0].Object? ==> CleanSchema(items[0].fields)) && CleanItems(items[1..]))
  }

  predicate CleanBranches(bs: seq<Branch>) {
    bs == [] || ((bs[0].Some? ==> CleanSchema(bs[0].value)) && CleanBranches(bs[1..]))
  }

  lemma EnumKeyword()
    ensures KindOf("enum") == EnumKey
  {
    assert "enum"[1] == 'n' && "enum"[2] == 'u';
  }

  lemma TypeKeyword()
    ensures KindOf("type") == PlainKey
  {
    assert "type"[1] == 'y';
  }

  lemma PropertiesKeyword()
    ensures KindOf("properties") == PropertiesKey
  {
    assert "properties"[0] == 'p' && |"properties"| == 10;
  }

  lemma Keywords()
    ensures KindOf("enum") == EnumKey && KindOf("type") == PlainKey && KindOf("properties") == PropertiesKey
  {
    hide *;
    EnumKeyword();
    TypeKeyword();
    PropertiesKeyword();
  }

  lemma {:induction false} InsertClean(acc: seq<Field>, key: string, value: Value)
    requires CleanSchema(acc) && CleanField(Field(key, value))
    ensures CleanSchema(Insert(acc, key, value))
    decreases |acc|
  {
    hide CleanField;
    var r := Insert(acc, key, value);
    if acc == [] {
      assert r[1..] == [];
    } else if acc[0].key == key {
      assert r[1..] == acc[1..];
    } else {
      InsertClean(acc[1..], key, value);
      assert r[1..] == Insert(acc[1..], key, value);
    }
  }

  lemma {:induction false} ExtendClean(acc: seq<Field>, more: seq<Field>)
    requires CleanSchema(acc) && CleanSchema(more)
    ensures CleanSchema(Extend(acc, more))
    decreases |more|
  {
    hide CleanField;
    if more != [] {
      InsertClean(acc, more[0].key, more[0].value);
      ExtendClean(Insert(acc, more[0].key, more[0].value), more[1..]);
    }
  }

  lemma ConsClean(f: Field, rest: seq<Field>)
    requires CleanField(f) && CleanSchema(rest)
    ensures CleanSchema([f] + rest)
  {
    hide CleanField;
    assert ([f] + rest)[1..] == rest;
  }

  lemma FlatClean(f: Flat)
    ensures CleanSchema(FlatSchema(f))
  {
    hide KindOf;
    Keywords();
    var e := Field("enum", Array(f.all));
    ConsClean(e, []);
    if f.typ.Some? && f.consistent {
      var t := Field("type", Str(f.typ.value));
      assert CleanField(t) by { assert CleanValue(t.value); }
      ConsClean(t, []);
      ConsClean(e, [t]);
      assert [t] + [] == [t];
    }
    assert [e] + [] == [e];
  }

  lemma {:induction false} NonNullClean(bs: seq<Branch>)
    requires CleanBranches(bs)
    ensures CleanBranches(NonNull(bs))
    decreases |bs|
  {
    hide CleanSchema;
    hide TypeOf;
    if bs != [] {
      NonNullClean(bs[1..]);
      assert ([bs[0]] + NonNull(bs[1..]))[1..] == NonNull(bs[1..]);
      assert [] + NonNull(bs[1..]) == NonNull(bs[1..]);
    }
  }

  lemma ChosenClean(bs: seq<Branch>)
    requires bs != [] && CleanBranches(bs)
    ensures CleanSchema(Chosen(bs))
  {
    hide Flatten;
    hide CleanField;
    NonNullClean(bs);
    var f := Flatten(bs, Flat([], None, true));
    if f.Some? {
      FlatClean(f.value);
    }
  }

  /** No schema position of the result carries what Kiro does not take, whatever the schema was. */
  lemma {:induction false} SanitizedIsClean(schema: seq<Field>)
    ensures CleanSchema(Sanitize(schema))
    decreases schema, 2
  {
    PlainClean(schema, []);
    CombineClean(schema, Plain(schema, []));
  }

  lemma {:induction false} PlainClean(rest: seq<Field>, acc: seq<Field>)
    requires CleanSchema(acc)
    ensures CleanSchema(Plain(rest, acc))
    decreases rest, 1
  {
    hide KindOf;
    hide CleanSchema;
    Keywords();
    if rest != [] {
      var f := rest[0];
      match KindOf(f.key)
      case Unsupported => PlainClean(rest[1..], acc);
      case AnyOfKey => PlainClean(rest[1..], acc);
      case AllOfKey => PlainClean(rest[1..], acc);
      case ConstKey =>
        InsertClean(acc, "enum", Array([f.value]));
        PlainClean(rest[1..], Insert(acc, "enum", Array([f.value])));
      case RequiredKey =>
        if f.value == Array([]) {
          PlainClean(rest[1..], acc);
        } else {
          InsertClean(acc, f.key, f.value);
          PlainClean(rest[1..], Insert(acc, f.key, f.value));
        }
      case PropertiesKey =>
        var v := if f.value.Object? then Object(SanitizeProps(f.value.fields)) else f.value;
        if f.value.Object? {
          PropsClean(f.value.fields);
        }
        InsertClean(acc, f.key, v);
        PlainClean(rest[1..], Insert(acc, f.key, v));
      case _ =>
        ValueClean(f.value);
        InsertClean(acc, f.key, SanitizeValue(f.value));
        PlainClean(rest[1..], Insert(acc, f.key, SanitizeValue(f.value)));
    }
  }

  lemma {:induction false} CombineClean(rest: seq<Field>, acc: seq<Field>)
    requires CleanSchema(acc)
    ensures CleanSchema(Combine(rest, acc))
    decreases rest, 1
  {
    hide KindOf;
    hide CleanSchema;
    if rest != [] {
      var f := rest[0];
      if KindOf(f.key).AnyOfKey? && f.value.Array? && f.value.items != [] {
        var bs := SanitizeBranches(f.value.items);
        BranchesClean(f.value.items);
        ChosenClean(bs);
        ExtendClean(acc, Chosen(bs));
        CombineClean(rest[1..], Extend(acc, Chosen(bs)));
      } else if KindOf(f.key).AllOfKey? && f.value.Array? {
        ExtendAllClean(acc, f.value.items);
        CombineClean(rest[1..], ExtendAll(acc, f.value.items));
      } else {
        CombineClean(rest[1..], acc);
      }
    }
  }

  lemma {:induction false} PropsClean(props: seq<Field>)
    ensures CleanProps(SanitizeProps(props))
    decreases props
  {
    if props != [] {
      ValueClean(props[0].value);
      PropsClean(props[1..]);
      assert SanitizeProps(props)[1..] == SanitizeProps(props[1..]);
    }
  }

  lemma {:induction false} ValueClean(v: Value)
    ensures CleanValue(SanitizeValue(v))
    decreases v
  {
    match v
    case Object(m) => SanitizedIsClean(m);
    case Array(items) => ItemsClean(items);
    case _ =>
  }

  lemma {:induction false} ItemsClean(items: seq<Value>)
    ensures CleanItems(SanitizeItems(items))
    decreases items
  {
    hide CleanSchema;
    if items != [] {
      if items[0].Object? {
        SanitizedIsClean(items[0].fields);
      }
      ItemsClean(items[1..]);
      assert SanitizeItems(items)[1..] == SanitizeItems(items[1..]);
    }
  }

  lemma {:induction false} BranchesClean(items: seq<Value>)
    ensures CleanBranches(SanitizeBranches(items))
    decreases items
  {
    hide CleanSchema;
    if items != [] {
      if items[0].Object? {
        SanitizedIsClean(items[0].fields);
      }
      BranchesClean(items[1..]);
      assert SanitizeBranches(items)[1..] == SanitizeBranches(items[1..]);
    }
  }

  lemma {:induction false} ExtendAllClean(acc: seq<Field>, items: seq<Value>)
    requires CleanSchema(acc)
    ensures CleanSchema(ExtendAll(acc, items))
    decreases items
  {
    hide CleanSchema;
    if items != [] {
      if items[0].Object? {
        SanitizedIsClean(items[0].fields);
        ExtendClean(acc, Sanitize(items[0].fields));
        ExtendAllClean(Extend(acc, Sanitize(items[0].fields)), items[1..]);
      } else {
        ExtendAllClean(acc, items[1..]);
      }
    }
  }
}
