/**
 Exactly which unions of scalars survive a round trip through the codec
 (src/edgeshard/profiling/codec.py, the untagged part of `_decode_union`).
 */
module ScalarUnions {
  import opened Options
  import opened Codec

  predicate Scalar(t: Type)
  {
    t.TNone? || t.TBool? || t.TInt? || t.TFloat? || t.TStr? || t.TTime?
  }

  predicate ScalarUnion(args: seq<Type>)
  {
    && (forall i :: 0 <= i < |args| ==> Scalar(args[i]))
    && (forall i, j :: 0 <= i < j < |args| ==> args[i] != args[j])
  }

  /** Every value of the union comes back. */
  ghost predicate RoundTrips(env: Env, args: seq<Type>)
  {
    forall v :: HasType(env, v, TUnion(args)) ==> Decode(env, TUnion(args), Encode(env, v)) == Some(v)
  }

  /** The earlier member takes payloads of the later one: float those of int, and strings and instants each other's. */
  predicate Clash(earlier: Type, later: Type)
  {
    || (earlier.TFloat? && later.TInt?)
    || (earlier.TStr? && later.TTime?)
    || (earlier.TTime? && later.TStr?)
  }

  ghost predicate NoClash(args: seq<Type>)
  {
    forall i, j :: 0 <= i < j < |args| ==> !Clash(args[i], args[j])
  }

  lemma {:induction false} NullIsNone(args: seq<Type>)
    requires (forall i :: 0 <= i < |args| ==> Scalar(args[i])) && Null in EmitsAny(args)
    ensures TNone in args
    decreases |args|
  {
    if !args[0].TNone? { NullIsNone(args[1..]); }
  }

  lemma DisjointIff(a: Type, b: Type)
    requires Scalar(a) && Scalar(b) && a != b
    ensures Disjoint(false, a, b) <==> !Clash(a, b)
  {
    if Clash(a, b) {
      var s := if b.TInt? then Int else Text;
      assert s in Accepts(a) && s in Emits(b);
    }
  }

  /** For distinct scalars the codec's union condition says just that no pair clashes in this order. */
  lemma UnionOkIffNoClash(env: Env, args: seq<Type>)
    requires ScalarUnion(args)
    ensures UnionOk(env, args) <==> NoClash(args)
  {
    if Null in EmitsAny(args) { NullIsNone(args); }
    assert !HasData(args);
    forall i, j | 0 <= i < j < |args| ensures Disjoint(HasData(args), args[i], args[j]) <==> !Clash(args[i], args[j]) {
      DisjointIff(args[i], args[j]);
    }
  }

  /** What a clash does: a value of the later member comes back as one of the earlier. */
  lemma ClashBreaks(env: Env, args: seq<Type>, i: nat, j: nat) returns (v: Value)
    requires EnvOk(env) && ScalarUnion(args) && i < j < |args| && Clash(args[i], args[j])
    ensures HasType(env, v, TUnion(args)) && Decode(env, TUnion(args), Encode(env, v)) != Some(v)
  {
    var w: Value;
    if args[j].TInt? {
      v, w := VInt(0), VFloat(0.0);
    } else if args[j].TTime? {
      v, w := VTime(0), VStr(env.iso(0));
    } else {
      v, w := VStr(env.iso(0)), VTime(0);
    }
    assert HasType(env, v, args[j]);
    var p := Encode(env, v);
    assert Decode(env, args[i], p) == Some(w) && w != v;
    forall k | 0 <= k < i ensures ShapeOf(p) !in Accepts(args[k]) {
      assert Scalar(args[k]) && args[k] != args[i] && args[k] != args[j];
    }
    FirstFound(env, args, p, i, w);
    assert !HasData(args);
  }

  /** A union of distinct scalars round-trips if and only if no member takes a later member's payloads, which is
      what the codec's condition on unions comes to. */
  lemma ScalarUnionIff(env: Env, args: seq<Type>)
    requires EnvOk(env) && ScalarUnion(args)
    ensures RoundTrips(env, args) <==> NoClash(args)
    ensures RoundTrips(env, args) <==> UnionOk(env, args)
  {
    UnionOkIffNoClash(env, args);
    if NoClash(args) {
      assert TypeOk(env, TUnion(args));
      forall v | HasType(env, v, TUnion(args)) ensures Decode(env, TUnion(args), Encode(env, v)) == Some(v) {
        RoundTrip(env, v, TUnion(args));
      }
    } else {
      var i, j :| 0 <= i < j < |args| && Clash(args[i], args[j]);
      var v := ClashBreaks(env, args, i, j);
    }
  }
}
