/**
 The type-directed JSON codec for profiling domain objects (src/edgeshard/profiling/codec.py).

 JSON values are those of section 3 of RFC 8259, with integers and reals told apart as the JSON library
 does; an object is its list of members, a repeated name meaning its last member.  Floats are finite.
 */
module Codec {
  import opened Options

  const TYPE_TAG := "__type__"

  datatype Json =
    | JNull
    | JBool(flag: bool)
    | JInt(int_: int)
    | JFloat(real_: real)
    | JStr(text: string)
    | JArr(items: seq<Json>)
    | JObj(members: seq<JMember>)

  datatype JMember = JMember(name: string, value: Json)

  /** A domain value; `cls` and `enum_` identify Python classes, whose names need not be unique. */
  datatype Value =
    | VNull
    | VBool(flag: bool)
    | VInt(int_: int)
    | VFloat(real_: real)
    | VStr(text: string)
    | VTime(time: int)
    | VEnum(enum_: nat, text: string)
    | VTuple(items: seq<Value>)
    | VList(items: seq<Value>)
    | VRec(cls: nat, fields: seq<Value>)

  /** Type hints. */
  datatype Type =
    | TNone
    | TBool
    | TInt
    | TFloat
    | TStr
    | TTime
    | TEnum(enum_: nat)
    | TTuple(args: seq<Type>)
    | TVariadic(item: Type)
    | TList(item: Type)
    | TData(cls: nat)
    | TUnion(args: seq<Type>)

  datatype FieldDef = FieldDef(name: string, hint: Type, default: Option<Value>)

  datatype ClassDef = ClassDef(name: string, fields: seq<FieldDef>)

  /** The dataclasses and enums, the ISO-8601 text of instants, and the `__post_init__` checks. */
  datatype Env = Env(
    classes: seq<ClassDef>, enums: seq<set<string>>,
    iso: int -> string, parse: string -> Option<int>, valid: (nat, seq<Value>) -> bool)

  // ---------------------------------------------------------------------------
  // encode_payload
  // ---------------------------------------------------------------------------

  function Encode(env: Env, v: Value): Json
    decreases v, 1
  {
    match v
    case VNull => JNull
    case VBool(b) => JBool(b)
    case VInt(i) => JInt(i)
    case VFloat(x) => JFloat(x)
    case VStr(s) => JStr(s)
    case VTime(t) => JStr(env.iso(t))
    case VEnum(_, s) => JStr(s)
    case VTuple(items) => JArr(EncodeAll(env, items))
    case VList(items) => JArr(EncodeAll(env, items))
    case VRec(c, fields) =>
      if c < |env.classes| && |fields| == |env.classes[c].fields| then
        var values := EncodeAll(env, fields);
        JObj([JMember(TYPE_TAG, JStr(env.classes[c].name))] + Members(env.classes[c].fields, values))
      else JNull
  }

  function EncodeAll(env: Env, vs: seq<Value>): (r: seq<Json>)
    ensures |r| == |vs|
    ensures forall i :: 0 <= i < |vs| ==> r[i] == Encode(env, vs[i])
    decreases vs, 0
  {
    seq(|vs|, i requires 0 <= i < |vs| => Encode(env, vs[i]))
  }

  function Members(defs: seq<FieldDef>, values: seq<Json>): (r: seq<JMember>)
    requires |defs| == |values|
    ensures |r| == |defs|
    ensures forall i :: 0 <= i < |defs| ==> r[i] == JMember(defs[i].name, values[i])
  {
    seq(|defs|, i requires 0 <= i < |defs| => JMember(defs[i].name, values[i]))
  }

  // ---------------------------------------------------------------------------
  // decode
  // ---------------------------------------------------------------------------

  /** The last member of that name: what `dict` keeps of a repeated name. */
  function Find(ms: seq<JMember>, name: string): (r: Option<nat>)
    ensures r.Some? ==> r.value < |ms| && ms[r.value].name == name
    ensures r.None? <==> forall i :: 0 <= i < |ms| ==> ms[i].name != name
  {
    if ms == [] then None
    else if ms[|ms| - 1].name == name then Some(|ms| - 1)
    else Find(ms[..|ms| - 1], name)
  }

  function Tag(ms: seq<JMember>): Option<string>
  {
    var i := Find(ms, TYPE_TAG);
    if i.Some? && ms[i.value].value.JStr? then Some(ms[i.value].value.text) else None
  }

  /** The first dataclass among the members of a union whose name is `tag`. */
  function Variant(env: Env, args: seq<Type>, tag: Option<string>): (r: Option<nat>)
    ensures r.Some? ==> r.value < |env.classes| && TData(r.value) in args && tag == Some(env.classes[r.value].name)
  {
    if args == [] then None
    else if args[0].TData? && args[0].cls < |env.classes| &&
            tag == Some(env.classes[args[0].cls].name) then Some(args[0].cls)
    else Variant(env, args[1..], tag)
  }

  predicate HasData(args: seq<Type>)
  {
    exists i :: 0 <= i < |args| && args[i].TData?
  }

  function Decode(env: Env, t: Type, p: Json): Option<Value>
    decreases p, t, 1
  {
    match t
    case TNone => None
    case TBool => if p.JBool? then Some(VBool(p.flag)) else None
    case TInt => if p.JInt? then Some(VInt(p.int_)) else None
    case TFloat =>
      if p.JFloat? then Some(VFloat(p.real_)) else if p.JInt? then Some(VFloat(p.int_ as real)) else None
    case TStr => if p.JStr? then Some(VStr(p.text)) else None
    case TTime =>
      if p.JStr? && env.parse(p.text).Some? then Some(VTime(env.parse(p.text).value)) else None
    case TEnum(e) =>
      if p.JStr? && e < |env.enums| && p.text in env.enums[e] then Some(VEnum(e, p.text)) else None
    case TTuple(args) =>
      if !p.JArr? || |p.items| != |args| then None
      else var vs := DecodeEach(env, args, p.items); if vs.Some? then Some(VTuple(vs.value)) else None
    case TVariadic(item) =>
      if !p.JArr? then None
      else var vs := DecodeAll(env, item, p.items); if vs.Some? then Some(VTuple(vs.value)) else None
    case TList(item) =>
      if !p.JArr? then None
      else var vs := DecodeAll(env, item, p.items); if vs.Some? then Some(VList(vs.value)) else None
    case TData(c) => if p.JObj? then DecodeData(env, c, p.members) else None
    case TUnion(args) =>
      if p.JNull? then (if TNone in args then Some(VNull) else None)
      else if HasData(args) && p.JObj? then
        var c := Variant(env, args, Tag(p.members));
        if c.Some? then DecodeData(env, c.value, p.members) else None
      else DecodeFirst(env, args, p)
  }

  /** The first candidate that accepts; `None` members are no candidates. */
  function DecodeFirst(env: Env, args: seq<Type>, p: Json): Option<Value>
    decreases p, args, 0
  {
    if args == [] then None
    else if args[0].TNone? then DecodeFirst(env, args[1..], p)
    else
      var v := Decode(env, args[0], p);
      if v.Some? then v else DecodeFirst(env, args[1..], p)
  }

  function DecodeEach(env: Env, args: seq<Type>, ps: seq<Json>): (r: Option<seq<Value>>)
    requires |args| == |ps|
    ensures r.Some? ==> |r.value| == |ps|
    decreases ps, args, 0
  {
    if ps == [] then Some([])
    else
      var v, rest := Decode(env, args[0], ps[0]), DecodeEach(env, args[1..], ps[1..]);
      if v.Some? && rest.Some? then Some([v.value] + rest.value) else None
  }

  function DecodeAll(env: Env, item: Type, ps: seq<Json>): (r: Option<seq<Value>>)
    ensures r.Some? ==> |r.value| == |ps|
    decreases ps, item, 0
  {
    if ps == [] then Some([])
    else
      var v, rest := Decode(env, item, ps[0]), DecodeAll(env, item, ps[1..]);
      if v.Some? && rest.Some? then Some([v.value] + rest.value) else None
  }

  /** `_decode_dataclass`: tag, fields, no unknown member, then the class's own checks. */
  function DecodeData(env: Env, c: nat, ms: seq<JMember>): Option<Value>
    decreases ms, env, 0
  {
    if c >= |env.classes| || Tag(ms) != Some(env.classes[c].name) then None
    else
      var defs := env.classes[c].fields;
      var vs := DecodeFields(env, defs, ms);
      if vs.None? || !OnlyKnown(defs, ms) || !env.valid(c, vs.value) then None
      else Some(VRec(c, vs.value))
  }

  predicate OnlyKnown(defs: seq<FieldDef>, ms: seq<JMember>)
  {
    forall i :: 0 <= i < |ms| ==> ms[i].name == TYPE_TAG || exists j :: 0 <= j < |defs| && defs[j].name == ms[i].name
  }

  function DecodeFields(env: Env, defs: seq<FieldDef>, ms: seq<JMember>): (r: Option<seq<Value>>)
    ensures r.Some? ==> |r.value| == |defs|
    decreases ms, defs, 0
  {
    if defs == [] then Some([])
    else
      var last := |defs| - 1;
      var init := DecodeFields(env, defs[..last], ms);
      var i := Find(ms, defs[last].name);
      var v := if i.None? then defs[last].default else Decode(env, defs[last].hint, ms[i.value].value);
      if init.Some? && v.Some? then Some(init.value + [v.value]) else None
  }

  // ---------------------------------------------------------------------------
  // Typing
  // ---------------------------------------------------------------------------

  ghost predicate HasType(env: Env, v: Value, t: Type)
    decreases v, t
  {
    match t
    case TNone => v.VNull?
    case TBool => v.VBool?
    case TInt => v.VInt?
    case TFloat => v.VFloat?
    case TStr => v.VStr?
    case TTime => v.VTime?
    case TEnum(e) => v.VEnum? && v.enum_ == e && e < |env.enums| && v.text in env.enums[e]
    case TTuple(args) =>
      v.VTuple? && |v.items| == |args| && forall i :: 0 <= i < |args| ==> HasType(env, v.items[i], args[i])
    case TVariadic(item) => v.VTuple? && forall i :: 0 <= i < |v.items| ==> HasType(env, v.items[i], item)
    case TList(item) => v.VList? && forall i :: 0 <= i < |v.items| ==> HasType(env, v.items[i], item)
    case TData(c) =>
      && v.VRec? && v.cls == c && c < |env.classes| && |v.fields| == |env.classes[c].fields|
      && (forall i :: 0 <= i < |v.fields| ==> HasType(env, v.fields[i], env.classes[c].fields[i].hint))
      && env.valid(c, v.fields)
    case TUnion(args) => exists i :: 0 <= i < |args| && HasType(env, v, args[i])
  }

  datatype Shape = Null | Bool | Int | Float | Text | Array | Object

  function ShapeOf(p: Json): Shape
  {
    match p
    case JNull => Null
    case JBool(_) => Bool
    case JInt(_) => Int
    case JFloat(_) => Float
    case JStr(_) => Text
    case JArr(_) => Array
    case JObj(_) => Object
  }

  /** The payload shapes a type's decoder may accept. */
  function Accepts(t: Type): set<Shape>
  {
    match t
    case TNone => {}
    case TFloat => {Int, Float}
    case TUnion(args) => AcceptsAny(args)
    case _ => Emits(t)
  }

  function AcceptsAny(args: seq<Type>): (r: set<Shape>)
    ensures forall i :: 0 <= i < |args| ==> Accepts(args[i]) <= r
    ensures TNone in args ==> Null in r
  {
    if args == [] then {} else Accepts(args[0]) + AcceptsAny(args[1..]) + if args[0].TNone? then {Null} else {}
  }

  /** The payload shapes its values are encoded to. */
  function Emits(t: Type): set<Shape>
  {
    match t
    case TNone => {Null}
    case TBool => {Bool}
    case TInt => {Int}
    case TFloat => {Float}
    case TStr => {Text}
    case TTime => {Text}
    case TEnum(_) => {Text}
    case TTuple(_) => {Array}
    case TVariadic(_) => {Array}
    case TList(_) => {Array}
    case TData(_) => {Object}
    case TUnion(args) => EmitsAny(args)
  }

  function EmitsAny(args: seq<Type>): (r: set<Shape>)
    ensures forall i :: 0 <= i < |args| ==> Emits(args[i]) <= r
  {
    if args == [] then {} else Emits(args[0]) + EmitsAny(args[1..])
  }

  /** Unions the codec was designed for: `None` is a direct member if any member has it, objects are told apart by
      their tags whenever tagged classes are direct members, and otherwise no earlier member accepts what a later
      one is encoded to. */
  ghost predicate UnionOk(env: Env, args: seq<Type>)
  {
    && (Null in EmitsAny(args) ==> TNone in args)
    && (HasData(args) ==> forall i :: 0 <= i < |args| && Object in Emits(args[i]) ==> args[i].TData?)
    && (forall i, j :: 0 <= i < |args| && 0 <= j < |args| ==> SameNameSameClass(env, args[i], args[j]))
    && (forall i, j :: 0 <= i < j < |args| ==> Disjoint(HasData(args), args[i], args[j]))
  }

  predicate SameNameSameClass(env: Env, a: Type, b: Type)
  {
    (a.TData? && b.TData? && a.cls < |env.classes| && b.cls < |env.classes|) ==>
      (env.classes[a.cls].name == env.classes[b.cls].name ==> a == b)
  }

  predicate Disjoint(tagged: bool, earlier: Type, later: Type)
  {
    forall s :: s in Accepts(earlier) && s in Emits(later) ==> s == Null || (tagged && s == Object)
  }

  ghost predicate TypeOk(env: Env, t: Type)
  {
    match t
    case TNone => false
    case TTuple(args) => forall i :: 0 <= i < |args| ==> TypeOk(env, args[i])
    case TVariadic(item) => TypeOk(env, item)
    case TList(item) => TypeOk(env, item)
    case TUnion(args) => UnionOk(env, args) && forall i :: 0 <= i < |args| ==> args[i].TNone? || TypeOk(env, args[i])
    case _ => true
  }

  ghost predicate ClassOk(env: Env, c: ClassDef)
  {
    && (forall i, j :: 0 <= i < j < |c.fields| ==> c.fields[i].name != c.fields[j].name)
    && (forall i :: 0 <= i < |c.fields| ==> c.fields[i].name != TYPE_TAG && TypeOk(env, c.fields[i].hint))
  }

  ghost predicate EnvOk(env: Env)
  {
    && (forall i :: 0 <= i < |env.classes| ==> ClassOk(env, env.classes[i]))
    && (forall t :: env.parse(env.iso(t)) == Some(t))
  }

  // ---------------------------------------------------------------------------
  // Shapes
  // ---------------------------------------------------------------------------

  lemma {:induction false} EmitsSound(env: Env, v: Value, t: Type)
    requires HasType(env, v, t)
    ensures ShapeOf(Encode(env, v)) in Emits(t)
    decreases t
  {
    if t.TUnion? {
      var i :| 0 <= i < |t.args| && HasType(env, v, t.args[i]);
      EmitsSound(env, v, t.args[i]);
    }
  }

  lemma {:induction false} AcceptsSound(env: Env, t: Type, p: Json)
    requires Decode(env, t, p).Some?
    ensures ShapeOf(p) in Accepts(t)
    decreases t
  {
    if t.TUnion? && !p.JNull? {
      if HasData(t.args) && p.JObj? {
        var i :| 0 <= i < |t.args| && t.args[i].TData?;
        assert Object in Accepts(t.args[i]);
      } else {
        FirstAccepts(env, t.args, p);
      }
    }
  }

  lemma {:induction false} FirstAccepts(env: Env, args: seq<Type>, p: Json)
    requires DecodeFirst(env, args, p).Some?
    ensures ShapeOf(p) in AcceptsAny(args)
    decreases args
  {
    if args[0].TNone? || Decode(env, args[0], p).None? {
      FirstAccepts(env, args[1..], p);
    } else {
      AcceptsSound(env, args[0], p);
    }
  }

  // ---------------------------------------------------------------------------
  // Round trip
  // ---------------------------------------------------------------------------

  /** Arrays, item by item. */
  lemma {:induction false} AllRoundTrip(env: Env, item: Type, vs: seq<Value>)
    requires forall i :: 0 <= i < |vs| ==> Decode(env, item, Encode(env, vs[i])) == Some(vs[i])
    ensures DecodeAll(env, item, EncodeAll(env, vs)) == Some(vs)
    decreases |vs|
  {
    if vs != [] {
      AllRoundTrip(env, item, vs[1..]);
      assert EncodeAll(env, vs)[1..] == EncodeAll(env, vs[1..]);
      assert [vs[0]] + vs[1..] == vs;
    }
  }

  lemma {:induction false} EachRoundTrip(env: Env, args: seq<Type>, vs: seq<Value>)
    requires |args| == |vs|
    requires forall i :: 0 <= i < |vs| ==> Decode(env, args[i], Encode(env, vs[i])) == Some(vs[i])
    ensures DecodeEach(env, args, EncodeAll(env, vs)) == Some(vs)
    decreases |vs|
  {
    if vs != [] {
      EachRoundTrip(env, args[1..], vs[1..]);
      assert EncodeAll(env, vs)[1..] == EncodeAll(env, vs[1..]);
      assert [vs[0]] + vs[1..] == vs;
    }
  }

  /** Objects: with distinct field names, none of them the tag, every name finds its own member. */
  lemma FindMember(ms: seq<JMember>, i: nat)
    requires i < |ms| && forall j :: 0 <= j < |ms| && j != i ==> ms[j].name != ms[i].name
    ensures Find(ms, ms[i].name) == Some(i)
  {
  }

  lemma {:induction false} FieldsRoundTrip(env: Env, defs: seq<FieldDef>, ms: seq<JMember>, vs: seq<Value>)
    requires |defs| == |vs| < |ms|
    requires forall i, j :: 0 <= i < j < |ms| ==> ms[i].name != ms[j].name
    requires forall i :: 1 <= i <= |defs| ==> ms[i].name == defs[i - 1].name
    requires forall i :: 1 <= i <= |defs| ==> Decode(env, defs[i - 1].hint, ms[i].value) == Some(vs[i - 1])
    ensures DecodeFields(env, defs, ms) == Some(vs)
    decreases |defs|
  {
    if defs != [] {
      var last := |defs| - 1;
      FieldsRoundTrip(env, defs[..last], ms, vs[..last]);
      FindMember(ms, last + 1);
      assert vs[..last] + [vs[last]] == vs;
    }
  }

  /** The members of an encoded dataclass. */
  ghost predicate Encodes(env: Env, c: nat, vs: seq<Value>, ms: seq<JMember>)
    requires c < |env.classes|
  {
    var defs := env.classes[c].fields;
    && |vs| == |defs| && |ms| == |defs| + 1
    && ms[0] == JMember(TYPE_TAG, JStr(env.classes[c].name))
    && forall i :: 1 <= i < |ms| ==> ms[i] == JMember(defs[i - 1].name, Encode(env, vs[i - 1]))
  }

  lemma EncodedObject(env: Env, c: nat, vs: seq<Value>)
    requires c < |env.classes| && |vs| == |env.classes[c].fields|
    ensures Encode(env, VRec(c, vs)).JObj? && Encodes(env, c, vs, Encode(env, VRec(c, vs)).members)
  {
    var values, defs := EncodeAll(env, vs), env.classes[c].fields;
    var ms := [JMember(TYPE_TAG, JStr(env.classes[c].name))] + Members(defs, values);
    assert Encode(env, VRec(c, vs)) == JObj(ms);
    forall i | 1 <= i < |ms| ensures ms[i] == JMember(defs[i - 1].name, Encode(env, vs[i - 1])) {
      assert ms[i] == Members(defs, values)[i - 1];
    }
  }

  lemma NamesDistinct(env: Env, c: nat, vs: seq<Value>, ms: seq<JMember>)
    requires c < |env.classes| && ClassOk(env, env.classes[c]) && Encodes(env, c, vs, ms)
    ensures forall i, j :: 0 <= i < j < |ms| ==> ms[i].name != ms[j].name
    ensures OnlyKnown(env.classes[c].fields, ms)
    ensures Tag(ms) == Some(env.classes[c].name)
  {
    var defs := env.classes[c].fields;
    assert forall i :: 0 < i < |ms| ==> ms[i].name == defs[i - 1].name;
    FindMember(ms, 0);
  }

  lemma DataRoundTrip(env: Env, c: nat, vs: seq<Value>, ms: seq<JMember>)
    requires c < |env.classes| && ClassOk(env, env.classes[c]) && Encodes(env, c, vs, ms) && env.valid(c, vs)
    requires forall i :: 0 <= i < |vs| ==> Decode(env, env.classes[c].fields[i].hint, Encode(env, vs[i])) == Some(vs[i])
    ensures DecodeData(env, c, ms) == Some(VRec(c, vs))
  {
    NamesDistinct(env, c, vs, ms);
    FieldsRoundTrip(env, env.classes[c].fields, ms, vs);
  }

  /** The tag commits to the right variant. */
  lemma {:induction false} VariantFound(env: Env, args: seq<Type>, i: nat)
    requires i < |args| && args[i].TData? && args[i].cls < |env.classes|
    requires forall j :: 0 <= j < |args| ==> SameNameSameClass(env, args[i], args[j])
    ensures Variant(env, args, Some(env.classes[args[i].cls].name)) == Some(args[i].cls)
    decreases args
  {
    assert SameNameSameClass(env, args[i], args[0]);
    if i > 0 && !(args[0].TData? && args[0].cls < |env.classes| &&
                  env.classes[args[0].cls].name == env.classes[args[i].cls].name) {
      assert forall j :: 0 <= j < |args[1..]| ==> args[1..][j] == args[j + 1];
      VariantFound(env, args[1..], i - 1);
    }
  }

  /** No earlier candidate takes a payload whose shape it does not accept. */
  lemma {:induction false} FirstFound(env: Env, args: seq<Type>, p: Json, i: nat, v: Value)
    requires i < |args| && !args[i].TNone? && Decode(env, args[i], p) == Some(v)
    requires forall j :: 0 <= j < i ==> ShapeOf(p) !in Accepts(args[j])
    ensures DecodeFirst(env, args, p) == Some(v)
    decreases args
  {
    if i > 0 {
      if Decode(env, args[0], p).Some? { AcceptsSound(env, args[0], p); }
      FirstFound(env, args[1..], p, i - 1, v);
    }
  }

  lemma UnionRoundTrip(env: Env, args: seq<Type>, v: Value, i: nat)
    requires i < |args| && UnionOk(env, args) && HasType(env, v, args[i])
    requires args[i].TNone? || Decode(env, args[i], Encode(env, v)) == Some(v)
    requires args[i].TData? ==>
               && Encode(env, v).JObj? && args[i].cls < |env.classes|
               && Tag(Encode(env, v).members) == Some(env.classes[args[i].cls].name)
    ensures Decode(env, TUnion(args), Encode(env, v)) == Some(v)
  {
    var p := Encode(env, v);
    EmitsSound(env, v, args[i]);
    if p.JNull? {
      NullMeansNone(env, v, args[i]);
    } else if HasData(args) && p.JObj? {
      VariantFound(env, args, i);
    } else {
      forall j | 0 <= j < i ensures ShapeOf(p) !in Accepts(args[j]) {
        assert Disjoint(HasData(args), args[j], args[i]);
      }
      FirstFound(env, args, p, i, v);
    }
  }

  lemma {:induction false} NullMeansNone(env: Env, v: Value, t: Type)
    requires HasType(env, v, t) && Encode(env, v).JNull?
    ensures v.VNull?
    decreases t
  {
    if t.TUnion? {
      var i :| 0 <= i < |t.args| && HasType(env, v, t.args[i]);
      NullMeansNone(env, v, t.args[i]);
    }
  }

  /** Decoding the encoding of a well-typed value gives it back. */
  lemma {:induction false} RoundTrip(env: Env, v: Value, t: Type)
    requires EnvOk(env) && TypeOk(env, t) && HasType(env, v, t)
    ensures Decode(env, t, Encode(env, v)) == Some(v)
    decreases v, 1, t
  {
    match t
    case TTuple(args) => TupleRoundTrip(env, v.items, args);
    case TVariadic(item) => ItemsRoundTrip(env, v.items, item);
    case TList(item) => ItemsRoundTrip(env, v.items, item);
    case TData(c) => ClassRoundTrip(env, v, c);
    case TUnion(args) =>
      var i :| 0 <= i < |args| && HasType(env, v, args[i]);
      if !args[i].TNone? { RoundTrip(env, v, args[i]); }
      if args[i].TData? { ClassRoundTrip(env, v, args[i].cls); }
      UnionRoundTrip(env, args, v, i);
    case _ =>
  }

  lemma {:induction false} TupleRoundTrip(env: Env, vs: seq<Value>, args: seq<Type>)
    requires EnvOk(env) && |vs| == |args|
    requires forall i :: 0 <= i < |args| ==> TypeOk(env, args[i]) && HasType(env, vs[i], args[i])
    ensures DecodeEach(env, args, EncodeAll(env, vs)) == Some(vs)
    decreases vs, 0
  {
    forall i | 0 <= i < |args| ensures Decode(env, args[i], Encode(env, vs[i])) == Some(vs[i]) {
      RoundTrip(env, vs[i], args[i]);
    }
    EachRoundTrip(env, args, vs);
  }

  lemma {:induction false} ItemsRoundTrip(env: Env, vs: seq<Value>, item: Type)
    requires EnvOk(env) && TypeOk(env, item) && forall i :: 0 <= i < |vs| ==> HasType(env, vs[i], item)
    ensures DecodeAll(env, item, EncodeAll(env, vs)) == Some(vs)
    decreases vs, 0
  {
    forall i | 0 <= i < |vs| ensures Decode(env, item, Encode(env, vs[i])) == Some(vs[i]) {
      RoundTrip(env, vs[i], item);
    }
    AllRoundTrip(env, item, vs);
  }

  lemma {:induction false} ClassRoundTrip(env: Env, v: Value, c: nat)
    requires EnvOk(env) && HasType(env, v, TData(c))
    ensures Encode(env, v).JObj? && Tag(Encode(env, v).members) == Some(env.classes[c].name)
    ensures DecodeData(env, c, Encode(env, v).members) == Some(v)
    decreases v, 0
  {
    var defs := env.classes[c].fields;
    assert ClassOk(env, env.classes[c]);
    EncodedObject(env, c, v.fields);
    var ms := Encode(env, v).members;
    NamesDistinct(env, c, v.fields, ms);
    forall i | 0 <= i < |v.fields| ensures Decode(env, defs[i].hint, Encode(env, v.fields[i])) == Some(v.fields[i]) {
      RoundTrip(env, v.fields[i], defs[i].hint);
    }
    DataRoundTrip(env, c, v.fields, ms);
  }

  /** Encoding loses nothing: values of one type with one payload are equal. */
  lemma EncodeInjective(env: Env, v: Value, w: Value, t: Type)
    requires EnvOk(env) && TypeOk(env, t) && HasType(env, v, t) && HasType(env, w, t)
    requires Encode(env, v) == Encode(env, w)
    ensures v == w
  {
    RoundTrip(env, v, t);
    RoundTrip(env, w, t);
  }

  // ---------------------------------------------------------------------------
  // Decoding is sound
  // ---------------------------------------------------------------------------

  ghost predicate DefaultsOk(env: Env)
  {
    forall c :: 0 <= c < |env.classes| ==> FieldDefaultsOk(env, env.classes[c].fields)
  }

  ghost predicate FieldDefaultsOk(env: Env, defs: seq<FieldDef>)
  {
    forall i :: 0 <= i < |defs| && defs[i].default.Some? ==> HasType(env, defs[i].default.value, defs[i].hint)
  }

  /** Whatever payload is accepted, the value has the type asked for, its classes' own checks included. */
  lemma {:induction false} DecodeSound(env: Env, t: Type, p: Json)
    requires DefaultsOk(env) && Decode(env, t, p).Some?
    ensures HasType(env, Decode(env, t, p).value, t)
    decreases p, t, 1
  {
    var v := Decode(env, t, p).value;
    match t
    case TTuple(args) => EachSound(env, args, p.items);
    case TVariadic(item) => AllSound(env, item, p.items);
    case TList(item) => AllSound(env, item, p.items);
    case TData(c) => DataSound(env, c, p.members);
    case TUnion(args) =>
      if p.JNull? {
        var i :| 0 <= i < |args| && args[i] == TNone;
        assert HasType(env, v, args[i]);
      } else if HasData(args) && p.JObj? {
        var c := Variant(env, args, Tag(p.members)).value;
        DataSound(env, c, p.members);
        var i :| 0 <= i < |args| && args[i] == TData(c);
        assert HasType(env, v, args[i]);
      } else {
        FirstSound(env, args, p);
      }
    case _ =>
  }

  lemma {:induction false} FirstSound(env: Env, args: seq<Type>, p: Json)
    requires DefaultsOk(env) && DecodeFirst(env, args, p).Some?
    ensures exists i :: 0 <= i < |args| && HasType(env, DecodeFirst(env, args, p).value, args[i])
    decreases p, args, 0
  {
    if args[0].TNone? || Decode(env, args[0], p).None? {
      FirstSound(env, args[1..], p);
      var i :| 0 <= i < |args[1..]| && HasType(env, DecodeFirst(env, args, p).value, args[1..][i]);
      assert args[1..][i] == args[i + 1];
    } else {
      DecodeSound(env, args[0], p);
    }
  }

  lemma {:induction false} EachSound(env: Env, args: seq<Type>, ps: seq<Json>)
    requires DefaultsOk(env) && |args| == |ps| && DecodeEach(env, args, ps).Some?
    ensures forall i :: 0 <= i < |args| ==> HasType(env, DecodeEach(env, args, ps).value[i], args[i])
    decreases ps, args, 0
  {
    if ps != [] {
      DecodeSound(env, args[0], ps[0]);
      EachSound(env, args[1..], ps[1..]);
    }
  }

  lemma {:induction false} AllSound(env: Env, item: Type, ps: seq<Json>)
    requires DefaultsOk(env) && DecodeAll(env, item, ps).Some?
    ensures forall i :: 0 <= i < |ps| ==> HasType(env, DecodeAll(env, item, ps).value[i], item)
    decreases ps, item, 0
  {
    if ps != [] {
      DecodeSound(env, item, ps[0]);
      AllSound(env, item, ps[1..]);
    }
  }

  lemma {:induction false} DataSound(env: Env, c: nat, ms: seq<JMember>)
    requires DefaultsOk(env) && DecodeData(env, c, ms).Some?
    ensures HasType(env, DecodeData(env, c, ms).value, TData(c))
    decreases ms, env, 0
  {
    FieldsSound(env, env.classes[c].fields, ms);
  }

  lemma {:induction false} FieldsSound(env: Env, defs: seq<FieldDef>, ms: seq<JMember>)
    requires DefaultsOk(env) && FieldDefaultsOk(env, defs) && DecodeFields(env, defs, ms).Some?
    ensures forall i :: 0 <= i < |defs| ==> HasType(env, DecodeFields(env, defs, ms).value[i], defs[i].hint)
    decreases ms, defs, 0
  {
    if defs != [] {
      var last := |defs| - 1;
      FieldsSound(env, defs[..last], ms);
      var i := Find(ms, defs[last].name);
      if i.Some? { DecodeSound(env, defs[last].hint, ms[i.value].value); }
    }
  }

  /** Re-encoding an accepted payload, which may have left defaults out or integers to widen, is stable. */
  lemma DecodeNormalises(env: Env, t: Type, p: Json)
    requires EnvOk(env) && DefaultsOk(env) && TypeOk(env, t) && Decode(env, t, p).Some?
    ensures Decode(env, t, Encode(env, Decode(env, t, p).value)) == Decode(env, t, p)
  {
    DecodeSound(env, t, p);
    RoundTrip(env, Decode(env, t, p).value, t);
  }

  // ---------------------------------------------------------------------------
  // What the union conditions are for
  // ---------------------------------------------------------------------------

  /** A float declared before int widens integers; int before float does not. */
  lemma FloatBeforeIntWidens(env: Env, i: int)
    ensures HasType(env, VInt(i), TUnion([TFloat, TInt]))
    ensures Decode(env, TUnion([TFloat, TInt]), Encode(env, VInt(i))) == Some(VFloat(i as real))
    ensures Decode(env, TUnion([TInt, TFloat]), Encode(env, VInt(i))) == Some(VInt(i))
  {
    var args, p := [TFloat, TInt], JInt(i);
    assert HasType(env, VInt(i), args[1]);
    assert Decode(env, TFloat, p) == Some(VFloat(i as real)) && Decode(env, TInt, p) == Some(VInt(i));
    assert DecodeFirst(env, args, p) == Some(VFloat(i as real));
    assert DecodeFirst(env, [TInt, TFloat], p) == Some(VInt(i));
  }

  /** `None` inside an aliased member of a union is not seen. */
  lemma NestedNoneIsRefused(env: Env, t: Type)
    requires !t.TNone?
    ensures HasType(env, VNull, TUnion([TUnion([TStr, TNone]), t]))
    ensures Decode(env, TUnion([TUnion([TStr, TNone]), t]), Encode(env, VNull)) == None
  {
    var inner := TUnion([TStr, TNone]);
    assert HasType(env, VNull, inner.args[1]);
    assert HasType(env, VNull, [inner, t][0]);
  }

  /** Two variants of one name: the first declared takes both. */
  lemma SameNameIsConfused(env: Env, a: nat, b: nat, v: Value)
    requires EnvOk(env) && a < |env.classes| && b < |env.classes| && a != b
    requires env.classes[a].name == env.classes[b].name && HasType(env, v, TData(b))
    ensures HasType(env, v, TUnion([TData(a), TData(b)]))
    ensures Decode(env, TUnion([TData(a), TData(b)]), Encode(env, v)) != Some(v)
  {
    var args := [TData(a), TData(b)];
    assert HasType(env, v, args[1]);
    ClassRoundTrip(env, v, b);
    FirstVariantTakes(env, args, Encode(env, v).members, a);
  }

  lemma FirstVariantTakes(env: Env, args: seq<Type>, ms: seq<JMember>, a: nat)
    requires args != [] && args[0] == TData(a) && a < |env.classes| && Tag(ms) == Some(env.classes[a].name)
    ensures var v := Decode(env, TUnion(args), JObj(ms)); v.Some? ==> v.value.VRec? && v.value.cls == a
  {
    assert args[0].TData? && HasData(args);
    assert Variant(env, args, Tag(ms)) == Some(a);
  }

  // ---------------------------------------------------------------------------
  // The loops as the source writes them
  // ---------------------------------------------------------------------------

  method EncodePayload(env: Env, v: Value) returns (p: Json)
    ensures p == Encode(env, v)
    decreases v
  {
    match v
    case VNull => p := JNull;
    case VBool(b) => p := JBool(b);
    case VInt(i) => p := JInt(i);
    case VFloat(x) => p := JFloat(x);
    case VStr(s) => p := JStr(s);
    case VTime(t) => p := JStr(env.iso(t));
    case VEnum(_, s) => p := JStr(s);
    case VTuple(items) => var list := EncodeItems(env, items); p := JArr(list);
    case VList(items) => var list := EncodeItems(env, items); p := JArr(list);
    case VRec(c, fields) =>
      if c >= |env.classes| || |fields| != |env.classes[c].fields| {
        return JNull;
      }
      var defs := env.classes[c].fields;
      var encoded := [JMember(TYPE_TAG, JStr(env.classes[c].name))];
      for i := 0 to |fields|
        invariant |encoded| == i + 1 && encoded[0] == JMember(TYPE_TAG, JStr(env.classes[c].name))
        invariant forall j :: 0 <= j < i ==> encoded[j + 1] == JMember(defs[j].name, Encode(env, fields[j]))
      {
        var item := EncodePayload(env, fields[i]);
        encoded := encoded + [JMember(defs[i].name, item)];
      }
      assert encoded[1..] == Members(defs, EncodeAll(env, fields));
      assert encoded == [encoded[0]] + encoded[1..];
      p := JObj(encoded);
  }

  method EncodeItems(env: Env, items: seq<Value>) returns (list: seq<Json>)
    ensures list == EncodeAll(env, items)
    decreases items
  {
    list := [];
    for i := 0 to |items|
      invariant |list| == i && forall j :: 0 <= j < i ==> list[j] == Encode(env, items[j])
    {
      var item := EncodePayload(env, items[i]);
      list := list + [item];
    }
  }

  method DecodeDataclass(env: Env, c: nat, members: seq<JMember>) returns (r: Option<Value>)
    requires c < |env.classes|
    ensures r == DecodeData(env, c, members)
  {
    if Tag(members) != Some(env.classes[c].name) {
      return None;
    }
    var defs := env.classes[c].fields;
    var kwargs: seq<Value> := [];
    for i := 0 to |defs|
      invariant DecodeFields(env, defs[..i], members) == Some(kwargs)
    {
      FieldsPrefix(env, defs, members, i);
      var at := Find(members, defs[i].name);
      var item := if at.None? then defs[i].default else Decode(env, defs[i].hint, members[at.value].value);
      if item.None? {
        FieldsFail(env, defs, members, i + 1);
        return None;
      }
      kwargs := kwargs + [item.value];
    }
    assert defs[..|defs|] == defs;
    if !OnlyKnown(defs, members) || !env.valid(c, kwargs) {
      return None;
    }
    r := Some(VRec(c, kwargs));
  }

  lemma FieldsPrefix(env: Env, defs: seq<FieldDef>, ms: seq<JMember>, i: nat)
    requires i < |defs|
    ensures defs[..i + 1][..i] == defs[..i] && defs[..i + 1][i] == defs[i]
  {
  }

  /** A field that fails makes the whole object fail. */
  lemma {:induction false} FieldsFail(env: Env, defs: seq<FieldDef>, ms: seq<JMember>, i: nat)
    requires i <= |defs| && DecodeFields(env, defs[..i], ms).None?
    ensures DecodeFields(env, defs, ms).None?
    decreases |defs|
  {
    if i == |defs| {
      assert defs[..i] == defs;
    } else {
      var last := |defs| - 1;
      assert defs[..last][..i] == defs[..i];
      FieldsFail(env, defs[..last], ms, i);
    }
  }
}
