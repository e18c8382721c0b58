/**
 The static capability of a Worker and its order-insensitive fingerprint
 (src/edgeshard/cluster/capability.py).

 `json.dumps(item, sort_keys=True)` and SHA-256 are foreign code: the sort key and the digest are
 function parameters, and the theorems ask of them only that they are injective.
 */
module Capability {
  import opened Options
  import opened Orders

  // ---------------------------------------------------------------------------
  // Dataclass values and their plain JSON form
  // ---------------------------------------------------------------------------

  datatype Scalar = Null | Flag(flag: bool) | Number(number: int) | Text(text: string)

  /** A frozen dataclass value: scalars, enum members, tuples and records. */
  datatype Val =
    | Leaf(scalar: Scalar)
    | Member(name: string)
    | Tup(items: seq<Val>)
    | Rec(fields: seq<Field>)

  datatype Field = Field(name: string, value: Val)

  datatype Canon =
    | CLeaf(scalar: Scalar)
    | CList(items: seq<Canon>)
    | CMap(entries: map<string, Canon>)

  const ORDER_INSENSITIVE: set<string> :=
    {"network_interfaces", "devices", "memory_pools", "runtime_platforms",
     "addresses", "supported_dtypes", "platform_tags"}

  const REVISION_FIELD := "capability_revision"

  function FieldNames(fields: seq<Field>): (r: seq<string>)
    ensures |r| == |fields| && forall i :: 0 <= i < |fields| ==> r[i] == fields[i].name
  {
    seq(|fields|, i requires 0 <= i < |fields| => fields[i].name)
  }

  /** The dict filled by assigning `values` to `names` in order. */
  function Zip<T>(names: seq<string>, values: seq<T>): map<string, T>
    requires |names| == |values|
  {
    if names == [] then map[]
    else
      var last := |names| - 1;
      Zip(names[..last], values[..last])[names[last] := values[last]]
  }

  /** `_canonical_value`. */
  function Canonical(key: Canon -> string, v: Val): Canon
    decreases v
  {
    match v
    case Leaf(s) => CLeaf(s)
    case Member(name) => CLeaf(Text(name))
    case Tup(items) => CList(CanonicalItems(key, items))
    case Rec(fields) => CMap(CanonicalFields(key, fields))
  }

  function CanonicalItems(key: Canon -> string, items: seq<Val>): (r: seq<Canon>)
    ensures |r| == |items|
    ensures forall i :: 0 <= i < |items| ==> r[i] == Canonical(key, items[i])
    decreases items
  {
    seq(|items|, i requires 0 <= i < |items| => Canonical(key, items[i]))
  }

  /** The value stored under one field name: lists of order-insensitive fields are sorted. */
  function CanonicalField(key: Canon -> string, f: Field): Canon
    decreases f
  {
    var item := Canonical(key, f.value);
    if f.name in ORDER_INSENSITIVE && item.CList? then CList(Sort(key, item.items)) else item
  }

  function CanonicalValues(key: Canon -> string, fields: seq<Field>): (r: seq<Canon>)
    ensures |r| == |fields|
    ensures forall i :: 0 <= i < |fields| ==> r[i] == CanonicalField(key, fields[i])
    decreases fields, 0
  {
    seq(|fields|, i requires 0 <= i < |fields| => CanonicalField(key, fields[i]))
  }

  function CanonicalFields(key: Canon -> string, fields: seq<Field>): map<string, Canon>
    decreases fields, 1
  {
    Zip(FieldNames(fields), CanonicalValues(key, fields))
  }

  /** `_canonical_value` as the source writes it, filling a local dict in a loop. */
  method CanonicalValue(key: Canon -> string, v: Val) returns (c: Canon)
    ensures c == Canonical(key, v)
    decreases v
  {
    match v
    case Leaf(s) => c := CLeaf(s);
    case Member(name) => c := CLeaf(Text(name));
    case Tup(items) =>
      var list: seq<Canon> := [];
      for i := 0 to |items|
        invariant |list| == i
        invariant forall j :: 0 <= j < i ==> list[j] == Canonical(key, items[j])
      {
        var item := CanonicalValue(key, items[i]);
        list := list + [item];
      }
      assert list == CanonicalItems(key, items);
      c := CList(list);
    case Rec(fields) =>
      var mapping: map<string, Canon> := map[];
      for i := 0 to |fields|
        invariant mapping == Zip(FieldNames(fields)[..i], CanonicalValues(key, fields)[..i])
      {
        var item := CanonicalValue(key, fields[i].value);
        if fields[i].name in ORDER_INSENSITIVE && item.CList? {
          item := CList(Sort(key, item.items));
        }
        mapping := mapping[fields[i].name := item];
        ZipSnoc(FieldNames(fields), CanonicalValues(key, fields), i);
      }
      assert FieldNames(fields)[..|fields|] == FieldNames(fields);
      assert CanonicalValues(key, fields)[..|fields|] == CanonicalValues(key, fields);
      c := CMap(mapping);
  }

  // ---------------------------------------------------------------------------
  // Equality up to reordering, defined without canonical forms
  // ---------------------------------------------------------------------------

  function Names(fields: seq<Field>): set<string>
  {
    set i | 0 <= i < |fields| :: fields[i].name
  }

  /** Field names of one dataclass are distinct, at every depth. */
  ghost predicate WellFormed(v: Val)
    decreases v
  {
    match v
    case Tup(items) => forall i :: 0 <= i < |items| ==> WellFormed(items[i])
    case Rec(fields) =>
      && (forall i, j :: 0 <= i < j < |fields| ==> fields[i].name != fields[j].name)
      && (forall i :: 0 <= i < |fields| ==> WellFormed(fields[i].value))
    case _ => true
  }

  function Plain(v: Val): Option<Scalar>
  {
    match v
    case Leaf(s) => Some(s)
    case Member(name) => Some(Text(name))
    case _ => None
  }

  /** Equal up to the order, at every nesting depth, of the order-insensitive collections. */
  ghost predicate Similar(a: Val, b: Val)
    decreases a
  {
    match a
    case Tup(xs) =>
      b.Tup? && |xs| == |b.items| && forall i :: 0 <= i < |xs| ==> Similar(xs[i], b.items[i])
    case Rec(fs) =>
      && b.Rec?
      && Names(fs) == Names(b.fields)
      && forall i, j :: 0 <= i < |fs| && 0 <= j < |b.fields| && fs[i].name == b.fields[j].name ==>
           SimilarField(fs[i], b.fields[j])
    case _ => Plain(a) == Plain(b)
  }

  ghost predicate SimilarField(f: Field, g: Field)
    decreases f
  {
    if f.name in ORDER_INSENSITIVE && f.value.Tup? && g.value.Tup?
    then PairsOff(f.value.items, g.value.items)
    else Similar(f.value, g.value)
  }

  /** The items can be paired off one by one, each with a similar partner, none left over. */
  ghost predicate PairsOff(xs: seq<Val>, ys: seq<Val>)
    decreases xs
  {
    if xs == [] then ys == []
    else exists j :: 0 <= j < |ys| && Similar(xs[0], ys[j]) && PairsOff(xs[1..], Without(ys, j))
  }

  function Without<T>(s: seq<T>, j: int): (r: seq<T>)
    requires 0 <= j < |s|
    ensures |r| == |s| - 1
    ensures forall i :: 0 <= i < |r| ==> r[i] == s[Skip(i, j)]
  {
    s[..j] + s[j + 1..]
  }

  /** Where the item at `i` stood before the one at `j` was taken out. */
  function Skip(i: int, j: int): int
  {
    if i < j then i else i + 1
  }

  lemma WithoutBag<T>(s: seq<T>, j: int)
    requires 0 <= j < |s|
    ensures multiset(s) == multiset(Without(s, j)) + multiset{s[j]}
  {
    assert s == s[..j] + [s[j]] + s[j + 1..];
  }

  // ---------------------------------------------------------------------------
  // Canonical forms agree exactly on similar values
  // ---------------------------------------------------------------------------

  lemma ZipSnoc<T>(names: seq<string>, values: seq<T>, i: nat)
    requires |names| == |values| && i < |names|
    ensures Zip(names[..i + 1], values[..i + 1]) == Zip(names[..i], values[..i])[names[i] := values[i]]
  {
    assert names[..i + 1][..i] == names[..i] && values[..i + 1][..i] == values[..i];
  }

  predicate Distinct(names: seq<string>)
  {
    forall i, j :: 0 <= i < j < |names| ==> names[i] != names[j]
  }

  lemma {:induction false} ZipAt<T>(names: seq<string>, values: seq<T>)
    requires |names| == |values| && Distinct(names)
    ensures forall n :: n in Zip(names, values) <==> n in names
    ensures forall i :: 0 <= i < |names| ==> names[i] in Zip(names, values) && Zip(names, values)[names[i]] == values[i]
    decreases |names|
  {
    if names != [] {
      var last := |names| - 1;
      ZipAt(names[..last], values[..last]);
      assert names == names[..last] + [names[last]];
    }
  }

  /** Two dicts are equal iff they have the same names, each with the same value. */
  lemma ZipEqualIff<T>(fn: seq<string>, fv: seq<T>, gn: seq<string>, gv: seq<T>)
    requires |fn| == |fv| && |gn| == |gv| && Distinct(fn) && Distinct(gn)
    ensures Zip(fn, fv) == Zip(gn, gv) <==>
            && (forall n :: n in fn <==> n in gn)
            && forall i, j :: 0 <= i < |fn| && 0 <= j < |gn| && fn[i] == gn[j] ==> fv[i] == gv[j]
  {
    ZipAt(fn, fv);
    ZipAt(gn, gv);
    var f, g := Zip(fn, fv), Zip(gn, gv);
    if f == g {
      forall n ensures n in fn <==> n in gn { assert n in f <==> n in g; }
    }
    if (forall n :: n in fn <==> n in gn) && forall i, j :: 0 <= i < |fn| && 0 <= j < |gn| && fn[i] == gn[j] ==>
         fv[i] == gv[j] {
      forall n | n in f ensures n in g && f[n] == g[n] {
        assert n in fn && n in gn;
        var i :| 0 <= i < |fn| && fn[i] == n;
        var j :| 0 <= j < |gn| && gn[j] == n;
      }
      assert f == g;
    }
  }

  lemma ZipPop<T>(names: seq<string>, values: seq<T>, n: string, v: T)
    requires |names| == |values| && Distinct(names) && n !in names
    ensures Zip(names + [n], values + [v]) - {n} == Zip(names, values)
  {
    ZipAt(names, values);
    assert (names + [n])[..|names|] == names && (values + [v])[..|names|] == values;
  }

  /** Two capability values get the same canonical form exactly when they are equal up to order. */
  lemma {:induction false} CanonicalIffSimilar(key: Canon -> string, a: Val, b: Val)
    requires Injective(key) && WellFormed(a) && WellFormed(b)
    ensures Canonical(key, a) == Canonical(key, b) <==> Similar(a, b)
    decreases a
  {
    match a
    case Leaf(_) =>
    case Member(_) =>
    case Tup(xs) =>
      if b.Tup? && |xs| == |b.items| {
        forall i | 0 <= i < |xs|
          ensures Canonical(key, xs[i]) == Canonical(key, b.items[i]) <==> Similar(xs[i], b.items[i])
        {
          CanonicalIffSimilar(key, xs[i], b.items[i]);
        }
        TupleCase(key, xs, b.items);
      }
    case Rec(fs) =>
      if b.Rec? {
        forall i, j | 0 <= i < |fs| && 0 <= j < |b.fields| && fs[i].name == b.fields[j].name
          ensures CanonicalField(key, fs[i]) == CanonicalField(key, b.fields[j]) <==> SimilarField(fs[i], b.fields[j])
        {
          FieldIffSimilar(key, fs[i], b.fields[j]);
        }
        RecordCase(key, fs, b.fields);
      }
  }

  lemma TupleCase(key: Canon -> string, xs: seq<Val>, ys: seq<Val>)
    requires |xs| == |ys|
    ensures CanonicalItems(key, xs) == CanonicalItems(key, ys) <==>
            forall i :: 0 <= i < |xs| ==> Canonical(key, xs[i]) == Canonical(key, ys[i])
  {
    var cx, cy := CanonicalItems(key, xs), CanonicalItems(key, ys);
    if cx == cy {
      forall i | 0 <= i < |xs| ensures Canonical(key, xs[i]) == Canonical(key, ys[i]) {
        assert cx[i] == cy[i];
      }
    }
  }

  lemma NamesIff(fs: seq<Field>, gs: seq<Field>)
    ensures Names(fs) == Names(gs) <==> forall n :: n in FieldNames(fs) <==> n in FieldNames(gs)
    ensures forall n :: n in Names(fs) <==> n in FieldNames(fs)
  {
    forall n ensures n in Names(fs) <==> n in FieldNames(fs) {
      if n in Names(fs) { var i :| 0 <= i < |fs| && fs[i].name == n; assert FieldNames(fs)[i] == n; }
    }
    forall n ensures n in Names(gs) <==> n in FieldNames(gs) {
      if n in Names(gs) { var i :| 0 <= i < |gs| && gs[i].name == n; assert FieldNames(gs)[i] == n; }
    }
  }

  lemma RecordCase(key: Canon -> string, fs: seq<Field>, gs: seq<Field>)
    requires forall i, j :: 0 <= i < j < |fs| ==> fs[i].name != fs[j].name
    requires forall i, j :: 0 <= i < j < |gs| ==> gs[i].name != gs[j].name
    ensures CanonicalFields(key, fs) == CanonicalFields(key, gs) <==>
            && Names(fs) == Names(gs)
            && forall i, j :: 0 <= i < |fs| && 0 <= j < |gs| && fs[i].name == gs[j].name ==>
                 CanonicalField(key, fs[i]) == CanonicalField(key, gs[j])
  {
    var fv, gv := CanonicalValues(key, fs), CanonicalValues(key, gs);
    NamesIff(fs, gs);
    ZipEqualIff(FieldNames(fs), fv, FieldNames(gs), gv);
    if CanonicalFields(key, fs) == CanonicalFields(key, gs) {
      forall i, j | 0 <= i < |fs| && 0 <= j < |gs| && fs[i].name == gs[j].name
        ensures CanonicalField(key, fs[i]) == CanonicalField(key, gs[j])
      {
        assert fv[i] == gv[j];
      }
    }
  }

  lemma {:induction false} FieldIffSimilar(key: Canon -> string, f: Field, g: Field)
    requires Injective(key) && WellFormed(f.value) && WellFormed(g.value) && f.name == g.name
    ensures CanonicalField(key, f) == CanonicalField(key, g) <==> SimilarField(f, g)
    decreases f
  {
    CanonicalIffSimilar(key, f.value, g.value);
    if f.name in ORDER_INSENSITIVE && f.value.Tup? && g.value.Tup? {
      var xs, ys := f.value.items, g.value.items;
      PairsOffIff(key, xs, ys);
      SortIgnoresOrder(key, CanonicalItems(key, xs), CanonicalItems(key, ys));
    }
  }

  /** Two nonempty bags are equal iff the first item has a partner whose removal leaves equal bags. */
  lemma BagStep<T>(cx: seq<T>, cy: seq<T>)
    requires cx != []
    ensures multiset(cx) == multiset(cy) <==>
            exists j :: 0 <= j < |cy| && cx[0] == cy[j] && multiset(cx[1..]) == multiset(Without(cy, j))
  {
    DropHead(cx);
    if multiset(cx) == multiset(cy) {
      assert cx[0] in multiset(cy);
      var j :| 0 <= j < |cy| && cy[j] == cx[0];
      WithoutBag(cy, j);
      assert multiset(cx[1..]) == multiset(Without(cy, j));
    }
    if j :| 0 <= j < |cy| && cx[0] == cy[j] && multiset(cx[1..]) == multiset(Without(cy, j)) {
      WithoutBag(cy, j);
      assert multiset(cx) == multiset(cx[1..]) + multiset{cx[0]};
    }
  }

  lemma ItemsWithout(key: Canon -> string, ys: seq<Val>, j: int)
    requires 0 <= j < |ys|
    ensures CanonicalItems(key, Without(ys, j)) == Without(CanonicalItems(key, ys), j)
  {
    var kept, cy := Without(ys, j), CanonicalItems(key, ys);
    forall i | 0 <= i < |kept| ensures Canonical(key, kept[i]) == Without(cy, j)[i] {
      assert kept[i] == ys[Skip(i, j)] && Without(cy, j)[i] == cy[Skip(i, j)];
    }
  }

  lemma {:induction false} PairsOffIff(key: Canon -> string, xs: seq<Val>, ys: seq<Val>)
    requires Injective(key)
    requires forall i :: 0 <= i < |xs| ==> WellFormed(xs[i])
    requires forall i :: 0 <= i < |ys| ==> WellFormed(ys[i])
    ensures multiset(CanonicalItems(key, xs)) == multiset(CanonicalItems(key, ys)) <==> PairsOff(xs, ys)
    decreases xs
  {
    var cx, cy := CanonicalItems(key, xs), CanonicalItems(key, ys);
    if xs == [] {
      assert |multiset(cy)| == |ys|;
    } else {
      BagStep(cx, cy);
      forall j | 0 <= j < |ys|
        ensures Similar(xs[0], ys[j]) <==> cx[0] == cy[j]
        ensures multiset(cx[1..]) == multiset(Without(cy, j)) <==> PairsOff(xs[1..], Without(ys, j))
      {
        CanonicalIffSimilar(key, xs[0], ys[j]);
        PairsOffIff(key, xs[1..], Without(ys, j));
        ItemsWithout(key, ys, j);
        assert cx[1..] == CanonicalItems(key, xs[1..]);
      }
    }
  }

  // ---------------------------------------------------------------------------
  // WorkerCapability and its revision
  // ---------------------------------------------------------------------------

  datatype Device = Device(
    deviceId: string, kind: string, locator: string, vendor: string, model: string,
    computeCapability: Option<string>, memoryPoolId: Option<string>,
    supportedDtypes: seq<string>, driverVersion: Option<string>, platformTags: seq<string>)

  datatype MemoryPool = MemoryPool(memoryPoolId: string, model: string, totalBytes: int)

  datatype NetworkInterface = NetworkInterface(
    interfaceId: string, name: string, addresses: seq<string>, mtu: Option<int>)

  datatype RuntimePlatform = RuntimePlatform(backend: string, platform: string, image: Option<string>)

  datatype OSInfo = OSInfo(name: string, version: Option<string>, kernel: Option<string>)

  datatype ContainerRuntime = ContainerRuntime(
    runtime: string, version: Option<string>, nvidiaRuntimeAvailable: bool)

  datatype WorkerCapability = WorkerCapability(
    architecture: string, os: OSInfo, containerRuntime: Option<ContainerRuntime>,
    networkInterfaces: seq<NetworkInterface>, devices: seq<Device>,
    memoryPools: seq<MemoryPool>, runtimePlatforms: seq<RuntimePlatform>, revision: string)

  function DeviceIds(c: WorkerCapability): set<string>
  {
    set i | 0 <= i < |c.devices| :: c.devices[i].deviceId
  }

  function PoolIds(c: WorkerCapability): set<string>
  {
    set i | 0 <= i < |c.memoryPools| :: c.memoryPools[i].memoryPoolId
  }

  function TextVal(s: string): Val { Leaf(Text(s)) }

  function OptTextVal(s: Option<string>): Val
  {
    if s.Some? then Leaf(Text(s.value)) else Leaf(Null)
  }

  function Vals<T>(item: T -> Val, s: seq<T>): (r: Val)
    ensures r.Tup? && |r.items| == |s|
    ensures forall i :: 0 <= i < |s| ==> r.items[i] == item(s[i])
  {
    Tup(seq(|s|, i requires 0 <= i < |s| => item(s[i])))
  }

  function IdentityVal(d: Device): Val
  {
    Rec([Field("device_id", TextVal(d.deviceId)), Field("kind", Member(d.kind)),
         Field("local_locator", TextVal(d.locator))])
  }

  function DeviceVal(d: Device): Val
  {
    Rec([Field("identity", IdentityVal(d)),
         Field("vendor", TextVal(d.vendor)), Field("model", TextVal(d.model)),
         Field("compute_capability", OptTextVal(d.computeCapability)),
         Field("memory_pool_id", OptTextVal(d.memoryPoolId)),
         Field("supported_dtypes", Vals(TextVal, d.supportedDtypes)),
         Field("driver_version", OptTextVal(d.driverVersion)),
         Field("platform_tags", Vals(TextVal, d.platformTags))])
  }

  function PoolVal(p: MemoryPool): Val
  {
    Rec([Field("memory_pool_id", TextVal(p.memoryPoolId)), Field("model", Member(p.model)),
         Field("total_bytes", Leaf(Number(p.totalBytes)))])
  }

  function InterfaceVal(n: NetworkInterface): Val
  {
    Rec([Field("interface_id", TextVal(n.interfaceId)), Field("name", TextVal(n.name)),
         Field("addresses", Vals(TextVal, n.addresses)),
         Field("mtu", Leaf(if n.mtu.Some? then Number(n.mtu.value) else Null))])
  }

  function PlatformVal(p: RuntimePlatform): Val
  {
    Rec([Field("backend", TextVal(p.backend)), Field("platform", TextVal(p.platform)),
         Field("image", OptTextVal(p.image))])
  }

  function OSVal(o: OSInfo): Val
  {
    Rec([Field("name", TextVal(o.name)), Field("version", OptTextVal(o.version)),
         Field("kernel", OptTextVal(o.kernel))])
  }

  function RuntimeVal(r: Option<ContainerRuntime>): Val
  {
    match r
    case None => Leaf(Null)
    case Some(c) =>
      Rec([Field("runtime", TextVal(c.runtime)), Field("version", OptTextVal(c.version)),
           Field("nvidia_runtime_available", Leaf(Flag(c.nvidiaRuntimeAvailable)))])
  }

  /** Every field but `capability_revision`. */
  function ContentFields(c: WorkerCapability): seq<Field>
  {
    [Field("architecture", TextVal(c.architecture)), Field("os", OSVal(c.os)),
     Field("container_runtime", RuntimeVal(c.containerRuntime)),
     Field("network_interfaces", Vals(InterfaceVal, c.networkInterfaces)),
     Field("devices", Vals(DeviceVal, c.devices)),
     Field("memory_pools", Vals(PoolVal, c.memoryPools)),
     Field("runtime_platforms", Vals(PlatformVal, c.runtimePlatforms))]
  }

  function CapabilityVal(c: WorkerCapability): Val
  {
    Rec(ContentFields(c) + [Field(REVISION_FIELD, TextVal(c.revision))])
  }

  /** What the revision fingerprints: the capability without its revision field. */
  function Content(c: WorkerCapability): Val
  {
    Rec(ContentFields(c))
  }

  /** `compute_capability_revision`: canonicalise, pop the revision, digest. */
  function Revision(key: Canon -> string, digest: Canon -> string, c: WorkerCapability): string
  {
    digest(CMap(CanonicalFields(key, CapabilityVal(c).fields) - {REVISION_FIELD}))
  }

  lemma ValsWellFormed<T(!new)>(item: T -> Val, s: seq<T>)
    requires forall x :: WellFormed(item(x))
    ensures WellFormed(Vals(item, s))
  {
  }

  lemma InterfaceWellFormed(n: NetworkInterface)
    ensures WellFormed(InterfaceVal(n))
  {
    ValsWellFormed(TextVal, n.addresses);
  }

  lemma DeviceWellFormed(d: Device)
    ensures WellFormed(DeviceVal(d))
  {
    ValsWellFormed(TextVal, d.supportedDtypes);
    ValsWellFormed(TextVal, d.platformTags);
    assert WellFormed(IdentityVal(d));
  }

  lemma ContentWellFormed(c: WorkerCapability)
    ensures WellFormed(Content(c))
  {
    forall n ensures WellFormed(InterfaceVal(n)) { InterfaceWellFormed(n); }
    forall d ensures WellFormed(DeviceVal(d)) { DeviceWellFormed(d); }
    ValsWellFormed(InterfaceVal, c.networkInterfaces);
    ValsWellFormed(DeviceVal, c.devices);
    ValsWellFormed(PoolVal, c.memoryPools);
    ValsWellFormed(PlatformVal, c.runtimePlatforms);
  }

  lemma RevisionDigestsContent(key: Canon -> string, digest: Canon -> string, c: WorkerCapability)
    ensures Revision(key, digest, c) == digest(Canonical(key, Content(c)))
  {
    var fs, last := ContentFields(c), Field(REVISION_FIELD, TextVal(c.revision));
    assert FieldNames(fs + [last]) == FieldNames(fs) + [REVISION_FIELD];
    assert CanonicalValues(key, fs + [last]) == CanonicalValues(key, fs) + [CanonicalField(key, last)];
    ContentNames(c);
    ZipPop(FieldNames(fs), CanonicalValues(key, fs), REVISION_FIELD, CanonicalField(key, last));
  }

  lemma ContentNames(c: WorkerCapability)
    ensures Distinct(FieldNames(ContentFields(c))) && REVISION_FIELD !in FieldNames(ContentFields(c))
  {
  }

  /** The fingerprint theorem: two Workers' capabilities share a revision exactly when they are
      equal up to enumeration order, whatever revision strings they carry. */
  lemma RevisionIffSimilar(key: Canon -> string, digest: Canon -> string, a: WorkerCapability, b: WorkerCapability)
    requires Injective(key) && Injective(digest)
    ensures Revision(key, digest, a) == Revision(key, digest, b) <==> Similar(Content(a), Content(b))
  {
    RevisionDigestsContent(key, digest, a);
    RevisionDigestsContent(key, digest, b);
    ContentWellFormed(a);
    ContentWellFormed(b);
    CanonicalIffSimilar(key, Content(a), Content(b));
  }

  // ---------------------------------------------------------------------------
  // A revision determines the device and pool ids
  // ---------------------------------------------------------------------------

  lemma {:induction false} PairsOffPartner(xs: seq<Val>, ys: seq<Val>, i: int)
    requires PairsOff(xs, ys) && 0 <= i < |xs|
    ensures exists j :: 0 <= j < |ys| && Similar(xs[i], ys[j])
    decreases xs
  {
    var k :| 0 <= k < |ys| && Similar(xs[0], ys[k]) && PairsOff(xs[1..], Without(ys, k));
    if i > 0 {
      PairsOffPartner(xs[1..], Without(ys, k), i - 1);
      var j :| 0 <= j < |Without(ys, k)| && Similar(xs[i], Without(ys, k)[j]);
      assert Without(ys, k)[j] == ys[Skip(j, k)];
    }
  }

  lemma SimilarDevices(a: Device, b: Device)
    requires Similar(DeviceVal(a), DeviceVal(b))
    ensures a.deviceId == b.deviceId
  {
    var f, g := DeviceVal(a).fields, DeviceVal(b).fields;
    assert SimilarField(f[0], g[0]);
    assert Similar(IdentityVal(a), IdentityVal(b));
    var h, k := IdentityVal(a).fields, IdentityVal(b).fields;
    assert SimilarField(h[0], k[0]);
    assert Similar(h[0].value, k[0].value);
  }

  lemma SimilarPools(a: MemoryPool, b: MemoryPool)
    requires Similar(PoolVal(a), PoolVal(b))
    ensures a.memoryPoolId == b.memoryPoolId
  {
    var f, g := PoolVal(a).fields, PoolVal(b).fields;
    assert SimilarField(f[0], g[0]);
    assert Similar(f[0].value, g[0].value);
  }

  lemma PartnerDevice(xs: seq<Device>, ys: seq<Device>, i: nat)
    requires PairsOff(Vals(DeviceVal, xs).items, Vals(DeviceVal, ys).items) && i < |xs|
    ensures exists j :: 0 <= j < |ys| && ys[j].deviceId == xs[i].deviceId
  {
    PairsOffPartner(Vals(DeviceVal, xs).items, Vals(DeviceVal, ys).items, i);
    var j :| 0 <= j < |ys| && Similar(DeviceVal(xs[i]), DeviceVal(ys[j]));
    SimilarDevices(xs[i], ys[j]);
  }

  lemma PartnerPool(xs: seq<MemoryPool>, ys: seq<MemoryPool>, i: nat)
    requires PairsOff(Vals(PoolVal, xs).items, Vals(PoolVal, ys).items) && i < |xs|
    ensures exists j :: 0 <= j < |ys| && ys[j].memoryPoolId == xs[i].memoryPoolId
  {
    PairsOffPartner(Vals(PoolVal, xs).items, Vals(PoolVal, ys).items, i);
    var j :| 0 <= j < |ys| && Similar(PoolVal(xs[i]), PoolVal(ys[j]));
    SimilarPools(xs[i], ys[j]);
  }

  lemma SimilarContent(a: WorkerCapability, b: WorkerCapability)
    requires Similar(Content(a), Content(b))
    ensures PairsOff(Vals(DeviceVal, a.devices).items, Vals(DeviceVal, b.devices).items)
    ensures PairsOff(Vals(PoolVal, a.memoryPools).items, Vals(PoolVal, b.memoryPools).items)
  {
    var f, g := ContentFields(a), ContentFields(b);
    assert SimilarField(f[4], g[4]) && SimilarField(f[5], g[5]);
  }

  lemma SimilarIds(a: WorkerCapability, b: WorkerCapability)
    requires Similar(Content(a), Content(b))
    ensures DeviceIds(a) <= DeviceIds(b) && PoolIds(a) <= PoolIds(b)
  {
    SimilarContent(a, b);
    forall i | 0 <= i < |a.devices| ensures a.devices[i].deviceId in DeviceIds(b) {
      PartnerDevice(a.devices, b.devices, i);
    }
    forall i | 0 <= i < |a.memoryPools| ensures a.memoryPools[i].memoryPoolId in PoolIds(b) {
      PartnerPool(a.memoryPools, b.memoryPools, i);
    }
  }

  /** Equal revisions name the same devices and memory pools. */
  lemma SameRevisionSameIds(key: Canon -> string, digest: Canon -> string, a: WorkerCapability, b: WorkerCapability)
    requires Injective(key) && Injective(digest)
    requires Revision(key, digest, a) == Revision(key, digest, b)
    ensures DeviceIds(a) == DeviceIds(b) && PoolIds(a) == PoolIds(b)
  {
    RevisionIffSimilar(key, digest, a, b);
    RevisionIffSimilar(key, digest, b, a);
    SimilarIds(a, b);
    SimilarIds(b, a);
  }
}
