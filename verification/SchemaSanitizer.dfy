/** The sanitiser as it runs: two loops over a map, one call for every object it meets. */
module SchemaSanitizer {
  import opened Wrappers
  import opened Json
  import opened Schema

  /** The objects of a value, itself included. */
  function Nodes(v: Value): nat
    decreases v
  {
    match v
    case Object(m) => 1 + NodesIn(m)
    case Array(items) => NodesAmong(items)
    case _ => 0
  }

  function NodesIn(s: seq<Field>): nat
    decreases s
  {
    if s == [] then 0 else Nodes(s[0].value) + NodesIn(s[1..])
  }

  function NodesAmong(items: seq<Value>): nat
    decreases items
  {
    if items == [] then 0 else Nodes(items[0]) + NodesAmong(items[1..])
  }

  predicate IsCombinator(key: string) {
    KindOf(key).AnyOfKey? || KindOf(key).AllOfKey?
  }

  /** The objects below combinators, and those below other keywords. */
  function Below(s: seq<Field>, combinators: bool): nat {
    if s == [] then 0
    else (if IsCombinator(s[0].key) == combinators then Nodes(s[0].value) else 0) + Below(s[1..], combinators)
  }

  lemma {:induction false} BelowAll(s: seq<Field>)
    ensures Below(s, true) + Below(s, false) == NodesIn(s)
    decreases |s|
  {
    hide IsCombinator;
    hide Nodes;
    if s != [] {
      BelowAll(s[1..]);
    }
  }

  /** `sanitize_schema`; `calls` counts the calls of it that this one takes, itself included. */
  method SanitizeSchema(schema: seq<Field>) returns (result: seq<Field>, ghost calls: nat)
    ensures result == Sanitize(schema)
    ensures calls <= 1 + NodesIn(schema)
    decreases schema, 2
  {
    hide KindOf;
    hide Plain;
    hide Combine;
    var first, plainCalls := FirstPass(schema);
    ghost var combineCalls;
    result, combineCalls := SecondPass(schema, first);
    BelowAll(schema);
    calls := 1 + plainCalls + combineCalls;
  }

  method FirstPass(schema: seq<Field>) returns (result: seq<Field>, ghost calls: nat)
    ensures result == Plain(schema, []) && calls <= Below(schema, false)
    decreases schema, 1
  {
    hide KindOf;
    hide Plain;
    hide SanitizeProps;
    hide SanitizeValue;
    result, calls := [], 0;
    var i := 0;
    assert schema[0..] == schema;
    while i < |schema|
      invariant 0 <= i <= |schema|
      invariant Plain(schema, []) == Plain(schema[i..], result)
      invariant calls + Below(schema[i..], false) <= Below(schema, false)
    {
      var f := schema[i];
      PlainStep(schema, i, result);
      assert schema[i..][1..] == schema[i + 1..];
      ghost var more := 0;
      match KindOf(f.key) {
        case Unsupported =>
        case ConstKey => result := Insert(result, "enum", Array([f.value]));
        case RequiredKey =>
          if f.value != Array([]) {
            result := Insert(result, f.key, f.value);
          }
        case PropertiesKey =>
          if f.value.Object? {
            var props;
            props, more := SanitizeEach(f.value.fields);
            result := Insert(result, f.key, Object(props));
          } else {
            result := Insert(result, f.key, f.value);
          }
        case AnyOfKey =>
        case AllOfKey =>
        case EnumKey =>
          var v;
          v, more := SanitizeOne(f.value);
          result := Insert(result, f.key, v);
        case PlainKey =>
          var v;
          v, more := SanitizeOne(f.value);
          result := Insert(result, f.key, v);
      }
      calls := calls + more;
      i := i + 1;
    }
    PlainEnd(result, schema[i..]);
  }

  lemma PlainEnd(acc: seq<Field>, rest: seq<Field>)
    requires rest == []
    ensures Plain(rest, acc) == acc && Combine(rest, acc) == acc
  {
  }

  lemma PlainStep(schema: seq<Field>, i: nat, acc: seq<Field>)
    requires i < |schema|
    ensures var f := schema[i];
            Plain(schema[i..], acc)
            == Plain(schema[i + 1..],
                     match KindOf(f.key)
                     case Unsupported => acc
                     case ConstKey => Insert(acc, "enum", Array([f.value]))
                     case RequiredKey => if f.value == Array([]) then acc else Insert(acc, f.key, f.value)
                     case PropertiesKey => Insert(acc, f.key, if f.value.Object? then Object(SanitizeProps(f.value.fields)) else f.value)
                     case AnyOfKey => acc
                     case AllOfKey => acc
                     case _ => Insert(acc, f.key, SanitizeValue(f.value)))
  {
    hide KindOf;
    hide SanitizeProps;
    hide SanitizeValue;
    hide Insert;
    assert schema[i..][1..] == schema[i + 1..];
  }

  method SecondPass(schema: seq<Field>, first: seq<Field>) returns (result: seq<Field>, ghost calls: nat)
    ensures result == Combine(schema, first) && calls <= Below(schema, true)
    decreases schema, 1
  {
    hide KindOf;
    hide Combine;
    hide Chosen;
    result, calls := first, 0;
    var i := 0;
    assert schema[0..] == schema;
    while i < |schema|
      invariant 0 <= i <= |schema|
      invariant Combine(schema, first) == Combine(schema[i..], result)
      invariant calls + Below(schema[i..], true) <= Below(schema, true)
    {
      var f := schema[i];
      CombineStep(schema, i, result);
      assert schema[i..][1..] == schema[i + 1..];
      ghost var more := 0;
      if KindOf(f.key).AnyOfKey? && f.value.Array? && f.value.items != [] {
        var branches;
        branches, more := SanitizeBranchesOnce(f.value.items);
        result := Extend(result, Chosen(branches));
      } else if KindOf(f.key).AllOfKey? && f.value.Array? {
        result, more := ExtendWith(result, f.value.items);
      }
      calls := calls + more;
      i := i + 1;
    }
    PlainEnd(result, schema[i..]);
  }

  lemma CombineStep(schema: seq<Field>, i: nat, acc: seq<Field>)
    requires i < |schema|
    ensures var f := schema[i];
            Combine(schema[i..], acc)
            == Combine(schema[i + 1..],
                       if KindOf(f.key).AnyOfKey? && f.value.Array? && f.value.items != []
                       then Extend(acc, Chosen(SanitizeBranches(f.value.items)))
                       else if KindOf(f.key).AllOfKey? && f.value.Array? then ExtendAll(acc, f.value.items)
                       else acc)
  {
    hide KindOf;
    hide Chosen;
    hide Extend;
    hide ExtendAll;
    hide SanitizeBranches;
    assert schema[i..][1..] == schema[i + 1..];
  }

  /** `sanitize_value`. */
  method SanitizeOne(v: Value) returns (r: Value, ghost calls: nat)
    ensures r == SanitizeValue(v) && calls <= Nodes(v)
    decreases v
  {
    hide Sanitize;
    calls := 0;
    match v {
      case Object(m) =>
        var s;
        s, calls := SanitizeSchema(m);
        r := Object(s);
      case Array(items) =>
        var rs;
        rs, calls := SanitizeAmong(items);
        r := Array(rs);
      case _ => r := v;
    }
  }

  method SanitizeAmong(items: seq<Value>) returns (r: seq<Value>, ghost calls: nat)
    ensures r == SanitizeItems(items) && calls <= NodesAmong(items)
    decreases items
  {
    hide Sanitize;
    if items == [] {
      return [], 0;
    }
    var rest, more := SanitizeAmong(items[1..]);
    if items[0].Object? {
      var s, one := SanitizeSchema(items[0].fields);
      return [Object(s)] + rest, one + more;
    }
    return [items[0]] + rest, more;
  }

  method SanitizeEach(props: seq<Field>) returns (r: seq<Field>, ghost calls: nat)
    ensures r == SanitizeProps(props) && calls <= NodesIn(props)
    decreases props
  {
    if props == [] {
      return [], 0;
    }
    var v, one := SanitizeOne(props[0].value);
    var rest, more := SanitizeEach(props[1..]);
    return [Field(props[0].key, v)] + rest, one + more;
  }

  /** Every object branch is sanitised once, whatever is made of the branches afterwards. */
  method SanitizeBranchesOnce(items: seq<Value>) returns (r: seq<Branch>, ghost calls: nat)
    ensures r == SanitizeBranches(items) && calls <= NodesAmong(items)
    decreases items
  {
    hide Sanitize;
    if items == [] {
      return [], 0;
    }
    var rest, more := SanitizeBranchesOnce(items[1..]);
    if items[0].Object? {
      var s, one := SanitizeSchema(items[0].fields);
      return [Some(s)] + rest, one + more;
    }
    return [None] + rest, more;
  }

  method ExtendWith(acc: seq<Field>, items: seq<Value>) returns (r: seq<Field>, ghost calls: nat)
    ensures r == ExtendAll(acc, items) && calls <= NodesAmong(items)
    decreases items
  {
    hide Sanitize;
    if items == [] {
      return acc, 0;
    }
    var next := acc;
    ghost var one := 0;
    if items[0].Object? {
      var s;
      s, one := SanitizeSchema(items[0].fields);
      next := Extend(acc, s);
    }
    var rest, more := ExtendWith(next, items[1..]);
    return rest, one + more;
  }

  // ---- the root -----------------------------------------------------------------------------

  /** `ensure_object_root`. */
  function EnsureObjectRoot(schema: seq<Field>): seq<Field> {
    if schema == [] then [Field("type", Str("object")), Field("properties", Object([]))]
    else match TypeOf(schema)
      case Some(t) =>
        if t == "object" then schema
        else [Field("type", Str("object")), Field("properties", Object([Field("input", Object(schema))]))]
      case None => Insert(schema, "type", Str("object"))
  }

  lemma {:induction false} LookupInserted(s: seq<Field>, key: string, value: Value)
    ensures Lookup(Insert(s, key, value), key) == Some(value)
    decreases |s|
  {
    if s != [] && s[0].key != key {
      LookupInserted(s[1..], key, value);
      assert Insert(s, key, value)[1..] == Insert(s[1..], key, value);
    }
  }

  /** The root of every tool schema is an object, and making it one keeps the schema clean. */
  lemma RootIsObject(schema: seq<Field>)
    ensures TypeOf(EnsureObjectRoot(schema)) == Some("object")
    ensures CleanSchema(schema) ==> CleanSchema(EnsureObjectRoot(schema))
  {
    hide CleanSchema;
    hide KindOf;
    LookupInserted(schema, "type", Str("object"));
    if CleanSchema(schema) {
      RootIsClean(schema);
    }
  }

  lemma RootIsClean(schema: seq<Field>)
    requires CleanSchema(schema)
    ensures CleanSchema(EnsureObjectRoot(schema))
  {
    hide KindOf;
    hide CleanSchema;
    Keywords();
    var t := Field("type", Str("object"));
    var none, wrapped := Field("properties", Object([])), Field("properties", Object([Field("input", Object(schema))]));
    assert CleanField(t) by { assert CleanValue(t.value); }
    InsertClean(schema, "type", Str("object"));
    PropsOf(schema);
    assert CleanSchema([]) by { NothingClean(); }
    assert [none] + [] == [none] && [wrapped] + [] == [wrapped];
    assert CleanField(none) && CleanField(wrapped);
    ConsClean(none, []);
    ConsClean(t, [none]);
    ConsClean(wrapped, []);
    ConsClean(t, [wrapped]);
    assert [t] + [none] == [t, none] && [t] + [wrapped] == [t, wrapped];
  }

  lemma {:induction false} InsertKeeps(s: seq<Field>, key: string, value: Value, other: string)
    requires other != key
    ensures Lookup(Insert(s, key, value), other) == Lookup(s, other)
    decreases |s|
  {
    if s != [] {
      var r := Insert(s, key, value);
      if s[0].key != key {
        InsertKeeps(s[1..], key, value, other);
        assert r[1..] == Insert(s[1..], key, value);
      } else {
        assert r[1..] == s[1..];
      }
    } else {
      assert [Field(key, value)][1..] == [];
    }
  }

  /**
   Nothing of a schema is lost when its root is made an object: a root of that type stays as it
   is, one without a type in words gets it and keeps all its other fields, and any other is
   found whole as the only property, `input`, of the new root.
   */
  lemma RootKeeps(schema: seq<Field>)
    ensures var r, typ := Object(EnsureObjectRoot(schema)), Get(Object(schema), "type");
            if typ.Some? && typ.value.Str? && typ.value.s == "object" then r == Object(schema)
            else if typ.Some? && typ.value.Str? then
              && |r.fields| == 2 && Get(r, "type") == Some(Str("object"))
              && Get(r, "properties") == Some(Object([Field("input", Object(schema))]))
            else
              && Get(r, "type") == Some(Str("object"))
              && (schema == [] ==> |r.fields| == 2 && Get(r, "properties") == Some(Object([])))
              && (schema != [] ==> forall key | key != "type" :: Get(r, key) == Get(Object(schema), key))
  {
    LookupInserted(schema, "type", Str("object"));
    forall key | key != "type" ensures Lookup(Insert(schema, "type", Str("object")), key) == Lookup(schema, key) {
      InsertKeeps(schema, "type", Str("object"), key);
    }
    assert "type"[0] != "properties"[0];
    TwoFields(Field("type", Str("object")), Field("properties", Object([])));
    TwoFields(Field("type", Str("object")), Field("properties", Object([Field("input", Object(schema))])));
  }

  lemma TwoFields(a: Field, b: Field)
    requires a.key != b.key
    ensures Lookup([a, b], a.key) == Some(a.value) && Lookup([a, b], b.key) == Some(b.value)
  {
    assert [a, b][1..] == [b];
  }

  lemma NothingClean()
    ensures CleanSchema([])
  {
  }

  lemma PropsOf(schema: seq<Field>)
    requires CleanSchema(schema)
    ensures CleanProps([]) && CleanProps([Field("input", Object(schema))])
  {
    hide CleanSchema;
    var p := [Field("input", Object(schema))];
    assert p[1..] == [];
    assert CleanValue(p[0].value);
  }
}
