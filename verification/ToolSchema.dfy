/** Tool arguments and results, the schema check on them, and the freezing of argument values. */
module ToolSchema {
  import opened Common

  /** Mapping keys need not be text until a value has been frozen. */
  datatype Key = Name(text: string) | NonText(tag: int)

  datatype Field = Field(key: Key, value: Value)

  /** Frozen mappings are read-only views and frozen arrays are tuples; the others can still change. */
  datatype Value =
    | Null
    | Bool(flag: bool)
    | Integer(i: int)
    | Number(r: real)
    | Text(s: string)
    | Array(items: seq<Value>, tuple: bool)
    | Object(fields: seq<Field>, readOnly: bool)
    | Opaque(tag: int)

  /** A missing or unrecognised type name checks nothing about the value's kind. */
  datatype Kind = ObjectKind | ArrayKind | StringKind | IntegerKind | NumberKind | BooleanKind | NullKind | AnyKind

  datatype Property = Property(name: string, schema: Schema)

  datatype Schema =
    | Empty
    | Schema(kind: Kind, required: seq<string>, properties: seq<Property>, closed: bool, items: Option<Schema>)

  /** Booleans are neither integers nor numbers; lists and tuples are both arrays. */
  predicate IsKind(v: Value, kind: Kind) {
    match kind
    case ObjectKind => v.Object?
    case ArrayKind => v.Array?
    case StringKind => v.Text?
    case IntegerKind => v.Integer?
    case NumberKind => v.Integer? || v.Number?
    case BooleanKind => v.Bool?
    case NullKind => v.Null?
    case AnyKind => true
  }

  /** Index of the field with this name. */
  function Find(fields: seq<Field>, name: string): (i: Option<nat>)
    ensures i.Some? ==> i.value < |fields| && fields[i.value].key == Name(name)
    ensures i.None? ==> forall k | 0 <= k < |fields| :: fields[k].key != Name(name)
  {
    if fields == [] then None
    else if fields[0].key == Name(name) then Some(0)
    else
      var rest := Find(fields[1..], name);
      if rest.Some? then Some(rest.value + 1) else None
  }

  predicate Declared(properties: seq<Property>, key: Key) {
    exists j | 0 <= j < |properties| :: Name(properties[j].name) == key
  }

  /** What the schema says about one value, its parts aside. */
  predicate LocallyOk(v: Value, s: Schema) {
    s.Schema? ==>
      && IsKind(v, s.kind)
      && (s.kind.ObjectKind? ==>
            && (forall j | 0 <= j < |s.required| :: Find(v.fields, s.required[j]).Some?)
            && (s.closed ==> forall k | 0 <= k < |v.fields| :: Declared(s.properties, v.fields[k].key)))
  }

  /** The recursive check; false stands for the schema error. */
  predicate Validate(v: Value, s: Schema)
    decreases s
  {
    && LocallyOk(v, s)
    && (s.Schema? && s.kind.ObjectKind? ==>
          forall j | 0 <= j < |s.properties| ::
            var i := Find(v.fields, s.properties[j].name);
            i.Some? ==> Validate(v.fields[i.value].value, s.properties[j].schema))
    && (s.Schema? && s.kind.ArrayKind? && s.items.Some? ==>
          forall k | 0 <= k < |v.items| :: Validate(v.items[k], s.items.value))
  }

  // ---------------------------------------------------------------- conformance, path by path

  /** One hop from a value and its schema to a part of the value and the part's schema. */
  datatype Hop = ToProperty(j: nat) | ToItem(k: nat)

  function Follow(v: Value, s: Schema, hop: Hop): Option<(Value, Schema)> {
    match hop
    case ToProperty(j) =>
      if s.Schema? && s.kind.ObjectKind? && v.Object? && j < |s.properties|
         && Find(v.fields, s.properties[j].name).Some?
      then Some((v.fields[Find(v.fields, s.properties[j].name).value].value, s.properties[j].schema))
      else None
    case ToItem(k) =>
      if s.Schema? && s.kind.ArrayKind? && s.items.Some? && v.Array? && k < |v.items|
      then Some((v.items[k], s.items.value))
      else None
  }

  function Reach(v: Value, s: Schema, path: seq<Hop>): Option<(Value, Schema)>
    decreases |path|
  {
    if path == [] then Some((v, s))
    else
      match Follow(v, s, path[0])
      case None => None
      case Some(part) => Reach(part.0, part.1, path[1..])
  }

  predicate FineAt(v: Value, s: Schema, path: seq<Hop>) {
    Reach(v, s, path).Some? ==> LocallyOk(Reach(v, s, path).value.0, Reach(v, s, path).value.1)
  }

  /** Every part of the value that the schema describes is as described. */
  ghost predicate Conforms(v: Value, s: Schema) {
    forall path: seq<Hop> :: FineAt(v, s, path)
  }

  lemma {:induction false} ValidIsFineAt(v: Value, s: Schema, path: seq<Hop>)
    requires Validate(v, s)
    ensures FineAt(v, s, path)
    decreases |path|
  {
    if path != [] {
      var part := Follow(v, s, path[0]);
      if part.Some? {
        ValidIsFineAt(part.value.0, part.value.1, path[1..]);
      }
    }
  }

  lemma PartConforms(v: Value, s: Schema, hop: Hop)
    requires Conforms(v, s) && Follow(v, s, hop).Some?
    ensures Conforms(Follow(v, s, hop).value.0, Follow(v, s, hop).value.1)
  {
    var part := Follow(v, s, hop).value;
    forall path: seq<Hop> ensures FineAt(part.0, part.1, path) {
      var whole := [hop] + path;
      assert whole[1..] == path && FineAt(v, s, whole);
    }
  }

  lemma {:induction false} ConformingIsValid(v: Value, s: Schema)
    requires Conforms(v, s)
    ensures Validate(v, s)
    decreases s
  {
    assert FineAt(v, s, []);
    if s.Schema? && s.kind.ObjectKind? {
      forall j | 0 <= j < |s.properties| && Find(v.fields, s.properties[j].name).Some?
        ensures Validate(v.fields[Find(v.fields, s.properties[j].name).value].value, s.properties[j].schema)
      {
        PartConforms(v, s, ToProperty(j));
        ConformingIsValid(v.fields[Find(v.fields, s.properties[j].name).value].value, s.properties[j].schema);
      }
    }
    if s.Schema? && s.kind.ArrayKind? && s.items.Some? {
      forall k | 0 <= k < |v.items| ensures Validate(v.items[k], s.items.value) {
        PartConforms(v, s, ToItem(k));
        ConformingIsValid(v.items[k], s.items.value);
      }
    }
  }

  /** The recursive check accepts exactly the conforming values. */
  lemma ValidateIsConformance(v: Value, s: Schema)
    ensures Validate(v, s) <==> Conforms(v, s)
  {
    if Validate(v, s) {
      forall path: seq<Hop> ensures FineAt(v, s, path) {
        ValidIsFineAt(v, s, path);
      }
    }
    if Conforms(v, s) {
      ConformingIsValid(v, s);
    }
  }

  // ---------------------------------------------------------------- what is accepted, value by value

  /** Which type names accept a value: booleans are no numbers, integers are, unknown values are nothing known. */
  lemma KindsOfValue(v: Value, kind: Kind)
    ensures IsKind(v, kind) <==>
              match v {
                case Null => kind == NullKind || kind == AnyKind
                case Bool(_) => kind == BooleanKind || kind == AnyKind
                case Integer(_) => kind == IntegerKind || kind == NumberKind || kind == AnyKind
                case Number(_) => kind == NumberKind || kind == AnyKind
                case Text(_) => kind == StringKind || kind == AnyKind
                case Array(_, _) => kind == ArrayKind || kind == AnyKind
                case Object(_, _) => kind == ObjectKind || kind == AnyKind
                case Opaque(_) => kind == AnyKind
              }
  {
  }

  predicate HasKey(fields: seq<Field>, name: string) {
    exists k | 0 <= k < |fields| :: fields[k].key == Name(name)
  }

  predicate IsMapping(fields: seq<Field>) {
    forall i, k | 0 <= i < k < |fields| :: fields[i].key != fields[k].key
  }

  /**
   A mapping is accepted exactly when each required name is a key, no key is undeclared where the schema is
   closed, and the value under each declared name is accepted by that name's schema.
  */
  lemma ObjectIsAccepted(fields: seq<Field>, readOnly: bool, s: Schema)
    requires s.Schema? && s.kind == ObjectKind && IsMapping(fields)
    ensures Validate(Object(fields, readOnly), s) <==>
              && (forall j | 0 <= j < |s.required| :: HasKey(fields, s.required[j]))
              && (s.closed ==> forall k | 0 <= k < |fields| :: Declared(s.properties, fields[k].key))
              && (forall j, k | 0 <= j < |s.properties| && 0 <= k < |fields| ::
                    fields[k].key == Name(s.properties[j].name) ==> Validate(fields[k].value, s.properties[j].schema))
  {
    forall name ensures Find(fields, name).Some? <==> HasKey(fields, name) {
      var i := Find(fields, name);
      assert i.Some? ==> fields[i.value].key == Name(name);
    }
    forall j, k | 0 <= j < |s.properties| && 0 <= k < |fields| && fields[k].key == Name(s.properties[j].name)
      ensures Find(fields, s.properties[j].name) == Some(k)
    {
      var i := Find(fields, s.properties[j].name);
      assert i.Some? && fields[i.value].key == fields[k].key;
    }
  }

  /** An array is accepted exactly when all its items are; any other kind of schema looks at the kind alone. */
  lemma OthersAreAccepted(v: Value, s: Schema)
    ensures s.Empty? ==> Validate(v, s)
    ensures s.Schema? && s.kind == ArrayKind ==>
              (Validate(v, s) <==>
                 v.Array? && (s.items.Some? ==> forall k | 0 <= k < |v.items| :: Validate(v.items[k], s.items.value)))
    ensures s.Schema? && s.kind != ArrayKind && s.kind != ObjectKind ==> (Validate(v, s) <==> IsKind(v, s.kind))
    ensures s.Schema? && s.kind == ObjectKind && Validate(v, s) ==> v.Object?
  {
  }

  // ---------------------------------------------------------------- freezing

  /** No mapping inside the value has a key that is not text. */
  predicate TextKeys(v: Value) {
    match v
    case Object(fields, _) =>
      forall k | 0 <= k < |fields| :: fields[k].key.Name? && TextKeys(fields[k].value)
    case Array(items, _) => forall k | 0 <= k < |items| :: TextKeys(items[k])
    case _ => true
  }

  /** Read-only views and tuples all the way down; defined where freezing does not raise. */
  function Freeze(v: Value): Value
    requires TextKeys(v)
  {
    match v
    case Object(fields, _) =>
      Object(seq(|fields|, k requires 0 <= k < |fields| => Field(fields[k].key, Freeze(fields[k].value))), true)
    case Array(items, _) =>
      Array(seq(|items|, k requires 0 <= k < |items| => Freeze(items[k])), true)
    case _ => v
  }

  predicate IsFrozen(v: Value) {
    match v
    case Object(fields, readOnly) => readOnly && forall k | 0 <= k < |fields| :: IsFrozen(fields[k].value)
    case Array(items, tuple) => tuple && forall k | 0 <= k < |items| :: IsFrozen(items[k])
    case _ => true
  }

  /** Equal but for what can still be changed. */
  predicate SameContent(v: Value, w: Value) {
    match v
    case Object(fields, _) =>
      && w.Object? && |w.fields| == |fields|
      && forall k | 0 <= k < |fields| ::
           w.fields[k].key == fields[k].key && SameContent(fields[k].value, w.fields[k].value)
    case Array(items, _) =>
      w.Array? && |w.items| == |items| && forall k | 0 <= k < |items| :: SameContent(items[k], w.items[k])
    case _ => w == v
  }

  lemma {:induction false} FreezeFreezes(v: Value)
    requires TextKeys(v)
    ensures IsFrozen(Freeze(v)) && SameContent(v, Freeze(v))
  {
    match v
    case Object(fields, _) =>
      forall k | 0 <= k < |fields|
        ensures IsFrozen(Freeze(fields[k].value)) && SameContent(fields[k].value, Freeze(fields[k].value))
      {
        FreezeFreezes(fields[k].value);
      }
    case Array(items, _) =>
      forall k | 0 <= k < |items| ensures IsFrozen(Freeze(items[k])) && SameContent(items[k], Freeze(items[k])) {
        FreezeFreezes(items[k]);
      }
    case _ =>
  }

  lemma {:induction false} FindSame(a: seq<Field>, b: seq<Field>, name: string)
    requires |a| == |b| && forall k | 0 <= k < |a| :: a[k].key == b[k].key
    ensures Find(a, name) == Find(b, name)
  {
    if a != [] {
      FindSame(a[1..], b[1..], name);
    }
  }

  /** The check looks at content only. */
  lemma {:induction false} ContentDecides(v: Value, w: Value, s: Schema)
    requires SameContent(v, w)
    ensures Validate(v, s) <==> Validate(w, s)
    decreases s
  {
    if s.Schema? && s.kind.ObjectKind? && v.Object? {
      forall name ensures Find(v.fields, name) == Find(w.fields, name) {
        FindSame(v.fields, w.fields, name);
      }
      forall j | 0 <= j < |s.properties| && Find(v.fields, s.properties[j].name).Some?
        ensures var i := Find(v.fields, s.properties[j].name).value;
          Validate(v.fields[i].value, s.properties[j].schema) <==> Validate(w.fields[i].value, s.properties[j].schema)
      {
        var i := Find(v.fields, s.properties[j].name).value;
        ContentDecides(v.fields[i].value, w.fields[i].value, s.properties[j].schema);
      }
    }
    if s.Schema? && s.kind.ArrayKind? && s.items.Some? && v.Array? {
      forall k | 0 <= k < |v.items|
        ensures Validate(v.items[k], s.items.value) <==> Validate(w.items[k], s.items.value)
      {
        ContentDecides(v.items[k], w.items[k], s.items.value);
      }
    }
  }

  /** Freezing arguments neither changes what they say nor what the check says about them. */
  lemma FreezingIsTransparent(v: Value, s: Schema)
    requires TextKeys(v)
    ensures IsFrozen(Freeze(v)) && SameContent(v, Freeze(v))
    ensures Validate(Freeze(v), s) <==> Validate(v, s)
  {
    FreezeFreezes(v);
    ContentDecides(v, Freeze(v), s);
  }

  /** The arguments of a step: a mapping, frozen; anything else, or a key that is not text, is refused. */
  function FreezeArguments(v: Value): (r: Option<Value>)
    ensures r.Some? <==> v.Object? && TextKeys(v)
    ensures r.Some? ==> IsFrozen(r.value) && SameContent(v, r.value)
  {
    if v.Object? && TextKeys(v) then
      FreezeFreezes(v);
      Some(Freeze(v))
    else None
  }
}
