/**
 What a capability revision identifies, in terms of the capability itself
 (src/edgeshard/cluster/capability.py): everything but the revision field, up to the order of interfaces, devices,
 pools, platforms, addresses, dtypes and tags.
 */
module Fingerprint {
  import opened Options
  import opened Capability
  import Orders

  // ---------------------------------------------------------------------------
  // The same capability
  // ---------------------------------------------------------------------------

  /** A device without the order of its dtypes and tags. */
  function DeviceKey(d: Device): (Device, multiset<string>, multiset<string>)
  {
    (d.(supportedDtypes := [], platformTags := []), multiset(d.supportedDtypes), multiset(d.platformTags))
  }

  function InterfaceKey(n: NetworkInterface): (NetworkInterface, multiset<string>)
  {
    (n.(addresses := []), multiset(n.addresses))
  }

  /** The values `f` takes on `s`, as often. */
  function Bag<T, K(==)>(f: T -> K, s: seq<T>): multiset<K>
  {
    if s == [] then multiset{} else multiset{f(s[0])} + Bag(f, s[1..])
  }

  /** Equal but for the revision field and the order of the collections whose order means nothing. */
  predicate SameCapability(a: WorkerCapability, b: WorkerCapability)
  {
    && a.architecture == b.architecture && a.os == b.os && a.containerRuntime == b.containerRuntime
    && Bag(InterfaceKey, a.networkInterfaces) == Bag(InterfaceKey, b.networkInterfaces)
    && Bag(DeviceKey, a.devices) == Bag(DeviceKey, b.devices)
    && multiset(a.memoryPools) == multiset(b.memoryPools)
    && multiset(a.runtimePlatforms) == multiset(b.runtimePlatforms)
  }

  // ---------------------------------------------------------------------------
  // Pairing off items is having the same bag
  // ---------------------------------------------------------------------------

  lemma {:induction false} BagWithout<T, K>(f: T -> K, s: seq<T>, j: int)
    requires 0 <= j < |s|
    ensures Bag(f, s) == multiset{f(s[j])} + Bag(f, Without(s, j))
  {
    if j == 0 {
      assert Without(s, 0) == s[1..];
    } else {
      var rest := Without(s[1..], j - 1);
      BagWithout(f, s[1..], j - 1);
      assert Without(s, j) == [s[0]] + rest;
      assert Bag(f, Without(s, j)) == multiset{f(s[0])} + Bag(f, rest);
    }
  }

  lemma {:induction false} InBag<T, K>(f: T -> K, s: seq<T>, k: K)
    requires k in Bag(f, s)
    ensures exists j :: 0 <= j < |s| && f(s[j]) == k
  {
    if f(s[0]) != k {
      InBag(f, s[1..], k);
      var j :| 0 <= j < |s[1..]| && f(s[1..][j]) == k;
      assert f(s[j + 1]) == k;
    }
  }

  /** `f` tells apart exactly the items whose values are not similar. */
  ghost predicate Tells<T(!new), K>(item: T -> Val, f: T -> K)
  {
    forall x, y :: Similar(item(x), item(y)) <==> f(x) == f(y)
  }

  lemma {:induction false} PairsOffIsBag<T(!new), K>(item: T -> Val, f: T -> K, xs: seq<T>, ys: seq<T>)
    requires Tells(item, f)
    ensures PairsOff(Vals(item, xs).items, Vals(item, ys).items) <==> Bag(f, xs) == Bag(f, ys)
    decreases |xs|
  {
    if xs == [] {
      if ys != [] { assert f(ys[0]) in Bag(f, ys); }
    } else {
      forall j | 0 <= j < |ys|
        ensures PairsWith(item, xs, ys, j) <==> f(xs[0]) == f(ys[j]) && Bag(f, xs[1..]) == Bag(f, Without(ys, j))
      {
        PairsOffIsBag(item, f, xs[1..], Without(ys, j));
      }
      PairsFirst(item, xs, ys);
      BagSplits(f, xs, ys);
    }
  }

  /** The first of `xs` pairs with the `j`-th of `ys`, and the others pair off. */
  ghost predicate PairsWith<T>(item: T -> Val, xs: seq<T>, ys: seq<T>, j: int)
    requires xs != [] && 0 <= j < |ys|
  {
    && Similar(item(xs[0]), item(ys[j]))
    && PairsOff(Vals(item, xs[1..]).items, Vals(item, Without(ys, j)).items)
  }

  lemma PairsFirst<T>(item: T -> Val, xs: seq<T>, ys: seq<T>)
    requires xs != []
    ensures PairsOff(Vals(item, xs).items, Vals(item, ys).items) <==>
            exists j :: 0 <= j < |ys| && PairsWith(item, xs, ys, j)
  {
    var vs, ws := Vals(item, xs).items, Vals(item, ys).items;
    assert vs[1..] == Vals(item, xs[1..]).items;
    forall j | 0 <= j < |ys|
      ensures PairsWith(item, xs, ys, j) <==> Similar(vs[0], ws[j]) && PairsOff(vs[1..], Without(ws, j))
    {
      assert Without(ws, j) == Vals(item, Without(ys, j)).items;
    }
  }

  lemma BagSplits<T, K>(f: T -> K, xs: seq<T>, ys: seq<T>)
    requires xs != []
    ensures Bag(f, xs) == Bag(f, ys) <==>
            exists j :: 0 <= j < |ys| && f(xs[0]) == f(ys[j]) && Bag(f, xs[1..]) == Bag(f, Without(ys, j))
  {
    var head, tail, all := f(xs[0]), Bag(f, xs[1..]), Bag(f, ys);
    if multiset{head} + tail == all {
      assert head in all;
      InBag(f, ys, head);
      var j :| 0 <= j < |ys| && f(ys[j]) == head;
      BagWithout(f, ys, j);
      Cancels(head, tail, Bag(f, Without(ys, j)));
    }
    if j :| 0 <= j < |ys| && head == f(ys[j]) && tail == Bag(f, Without(ys, j)) {
      BagWithout(f, ys, j);
    }
  }

  lemma Cancels<K>(k: K, a: multiset<K>, b: multiset<K>)
    requires multiset{k} + a == multiset{k} + b
    ensures a == b
  {
    assert a == (multiset{k} + a) - multiset{k};
    assert b == (multiset{k} + b) - multiset{k};
  }

  lemma {:induction false} BagOfItself<T(!new)>(f: T -> T, s: seq<T>)
    requires forall x :: f(x) == x
    ensures Bag(f, s) == multiset(s)
  {
    if s != [] {
      BagOfItself(f, s[1..]);
      assert s == [s[0]] + s[1..];
    }
  }

  // ---------------------------------------------------------------------------
  // Record by record
  // ---------------------------------------------------------------------------

  /** Two values of one dataclass are similar field by field. */
  lemma SimilarBy(fs: seq<Field>, gs: seq<Field>, same: seq<bool>)
    requires |fs| == |gs| == |same| && WellFormed(Rec(fs))
    requires forall i :: 0 <= i < |fs| ==> fs[i].name == gs[i].name && (SimilarField(fs[i], gs[i]) <==> same[i])
    ensures Similar(Rec(fs), Rec(gs)) <==> forall i :: 0 <= i < |same| ==> same[i]
  {
    assert Names(fs) == Names(gs);
    if Similar(Rec(fs), Rec(gs)) {
      forall i | 0 <= i < |fs| ensures same[i] { assert SimilarField(fs[i], gs[i]); }
    }
  }

  lemma PlainField(name: string, v: Val, w: Val)
    requires name !in ORDER_INSENSITIVE
    ensures SimilarField(Field(name, v), Field(name, w)) <==> Similar(v, w)
  {
  }

  lemma ListField<T>(name: string, item: T -> Val, xs: seq<T>, ys: seq<T>)
    requires name in ORDER_INSENSITIVE
    ensures SimilarField(Field(name, Vals(item, xs)), Field(name, Vals(item, ys))) <==>
            PairsOff(Vals(item, xs).items, Vals(item, ys).items)
  {
  }

  lemma TextField(name: string, a: string, b: string)
    requires name !in ORDER_INSENSITIVE
    ensures SimilarField(Field(name, TextVal(a)), Field(name, TextVal(b))) <==> a == b
    ensures SimilarField(Field(name, Member(a)), Field(name, Member(b))) <==> a == b
  {
  }

  lemma OptTextField(name: string, a: Option<string>, b: Option<string>)
    requires name !in ORDER_INSENSITIVE
    ensures SimilarField(Field(name, OptTextVal(a)), Field(name, OptTextVal(b))) <==> a == b
  {
  }

  lemma TextsPairOff(xs: seq<string>, ys: seq<string>)
    ensures PairsOff(Vals(TextVal, xs).items, Vals(TextVal, ys).items) <==> multiset(xs) == multiset(ys)
  {
    var id := (s: string) => s;
    PairsOffIsBag(TextVal, id, xs, ys);
    BagOfItself(id, xs);
    BagOfItself(id, ys);
  }

  lemma SimilarIdentities(d: Device, e: Device)
    ensures Similar(IdentityVal(d), IdentityVal(e)) <==>
            d.deviceId == e.deviceId && d.kind == e.kind && d.locator == e.locator
  {
    TextField("device_id", d.deviceId, e.deviceId);
    TextField("kind", d.kind, e.kind);
    TextField("local_locator", d.locator, e.locator);
    var same := [d.deviceId == e.deviceId, d.kind == e.kind, d.locator == e.locator];
    SimilarBy(IdentityVal(d).fields, IdentityVal(e).fields, same);
    assert (forall i :: 0 <= i < |same| ==> same[i]) <==> same[0] && same[1] && same[2];
  }

  /** Field by field, whether two devices agree. */
  function SameDevice(d: Device, e: Device): seq<bool>
  {
    [d.deviceId == e.deviceId && d.kind == e.kind && d.locator == e.locator,
     d.vendor == e.vendor, d.model == e.model, d.computeCapability == e.computeCapability,
     d.memoryPoolId == e.memoryPoolId, multiset(d.supportedDtypes) == multiset(e.supportedDtypes),
     d.driverVersion == e.driverVersion, multiset(d.platformTags) == multiset(e.platformTags)]
  }

  /** Fields `from` to `to` have one name and agree as `same` says. */
  ghost predicate Agree(f: seq<Field>, g: seq<Field>, same: seq<bool>, from: nat, to: nat)
  {
    && to <= |f| == |g| == |same|
    && forall i :: from <= i < to ==> f[i].name == g[i].name && (SimilarField(f[i], g[i]) <==> same[i])
  }

  lemma DeviceTexts(d: Device, e: Device)
    ensures Agree(DeviceVal(d).fields, DeviceVal(e).fields, SameDevice(d, e), 0, 3)
  {
    SimilarIdentities(d, e);
    PlainField("identity", IdentityVal(d), IdentityVal(e));
    TextField("vendor", d.vendor, e.vendor);
    TextField("model", d.model, e.model);
  }

  lemma DeviceOptions(d: Device, e: Device)
    ensures Agree(DeviceVal(d).fields, DeviceVal(e).fields, SameDevice(d, e), 3, 5)
    ensures Agree(DeviceVal(d).fields, DeviceVal(e).fields, SameDevice(d, e), 6, 7)
  {
    OptTextField("compute_capability", d.computeCapability, e.computeCapability);
    OptTextField("memory_pool_id", d.memoryPoolId, e.memoryPoolId);
    OptTextField("driver_version", d.driverVersion, e.driverVersion);
  }

  lemma DeviceLists(d: Device, e: Device)
    ensures Agree(DeviceVal(d).fields, DeviceVal(e).fields, SameDevice(d, e), 5, 6)
    ensures Agree(DeviceVal(d).fields, DeviceVal(e).fields, SameDevice(d, e), 7, 8)
  {
    TextsPairOff(d.supportedDtypes, e.supportedDtypes);
    ListField("supported_dtypes", TextVal, d.supportedDtypes, e.supportedDtypes);
    TextsPairOff(d.platformTags, e.platformTags);
    ListField("platform_tags", TextVal, d.platformTags, e.platformTags);
  }

  lemma DevicesTold()
    ensures Tells(DeviceVal, DeviceKey)
  {
    forall d, e ensures Similar(DeviceVal(d), DeviceVal(e)) <==> DeviceKey(d) == DeviceKey(e) {
      DeviceTold(d, e);
    }
  }

  lemma DeviceTold(d: Device, e: Device)
    ensures Similar(DeviceVal(d), DeviceVal(e)) <==> DeviceKey(d) == DeviceKey(e)
  {
    DeviceTexts(d, e);
    DeviceOptions(d, e);
    DeviceLists(d, e);
    DeviceWellFormed(d);
    SimilarBy(DeviceVal(d).fields, DeviceVal(e).fields, SameDevice(d, e));
    var same := SameDevice(d, e);
    assert (forall i :: 0 <= i < |same| ==> same[i]) <==>
           same[0] && same[1] && same[2] && same[3] && same[4] && same[5] && same[6] && same[7];
  }

  function SameInterface(m: NetworkInterface, n: NetworkInterface): seq<bool>
  {
    [m.interfaceId == n.interfaceId, m.name == n.name, multiset(m.addresses) == multiset(n.addresses), m.mtu == n.mtu]
  }

  lemma InterfaceTexts(m: NetworkInterface, n: NetworkInterface)
    ensures Agree(InterfaceVal(m).fields, InterfaceVal(n).fields, SameInterface(m, n), 0, 2)
  {
    TextField("interface_id", m.interfaceId, n.interfaceId);
    TextField("name", m.name, n.name);
  }

  lemma InterfaceLists(m: NetworkInterface, n: NetworkInterface)
    ensures Agree(InterfaceVal(m).fields, InterfaceVal(n).fields, SameInterface(m, n), 2, 4)
  {
    TextsPairOff(m.addresses, n.addresses);
    ListField("addresses", TextVal, m.addresses, n.addresses);
    PlainField("mtu", InterfaceVal(m).fields[3].value, InterfaceVal(n).fields[3].value);
  }

  lemma InterfaceTold(m: NetworkInterface, n: NetworkInterface)
    ensures Similar(InterfaceVal(m), InterfaceVal(n)) <==> InterfaceKey(m) == InterfaceKey(n)
  {
    InterfaceTexts(m, n);
    InterfaceLists(m, n);
    InterfaceWellFormed(m);
    var same := SameInterface(m, n);
    SimilarBy(InterfaceVal(m).fields, InterfaceVal(n).fields, same);
    assert (forall i :: 0 <= i < |same| ==> same[i]) <==> same[0] && same[1] && same[2] && same[3];
  }

  lemma InterfacesTold()
    ensures Tells(InterfaceVal, InterfaceKey)
  {
    forall m, n ensures Similar(InterfaceVal(m), InterfaceVal(n)) <==> InterfaceKey(m) == InterfaceKey(n) {
      InterfaceTold(m, n);
    }
  }

  lemma PoolTold(p: MemoryPool, q: MemoryPool)
    ensures Similar(PoolVal(p), PoolVal(q)) <==> p == q
  {
    var f, g := PoolVal(p).fields, PoolVal(q).fields;
    TextField("memory_pool_id", p.memoryPoolId, q.memoryPoolId);
    TextField("model", p.model, q.model);
    PlainField("total_bytes", f[2].value, g[2].value);
    var same := [p.memoryPoolId == q.memoryPoolId, p.model == q.model, p.totalBytes == q.totalBytes];
    SimilarBy(f, g, same);
    assert (forall i :: 0 <= i < |same| ==> same[i]) <==> same[0] && same[1] && same[2];
  }

  lemma PoolsTold(f: MemoryPool -> MemoryPool)
    requires forall p :: f(p) == p
    ensures Tells(PoolVal, f)
  {
    forall p, q ensures Similar(PoolVal(p), PoolVal(q)) <==> f(p) == f(q) { PoolTold(p, q); }
  }

  lemma PlatformTold(p: RuntimePlatform, q: RuntimePlatform)
    ensures Similar(PlatformVal(p), PlatformVal(q)) <==> p == q
  {
    TextField("backend", p.backend, q.backend);
    TextField("platform", p.platform, q.platform);
    OptTextField("image", p.image, q.image);
    var same := [p.backend == q.backend, p.platform == q.platform, p.image == q.image];
    SimilarBy(PlatformVal(p).fields, PlatformVal(q).fields, same);
    assert (forall i :: 0 <= i < |same| ==> same[i]) <==> same[0] && same[1] && same[2];
  }

  lemma PlatformsTold(f: RuntimePlatform -> RuntimePlatform)
    requires forall p :: f(p) == p
    ensures Tells(PlatformVal, f)
  {
    forall p, q ensures Similar(PlatformVal(p), PlatformVal(q)) <==> f(p) == f(q) { PlatformTold(p, q); }
  }

  lemma SimilarOS(a: OSInfo, b: OSInfo)
    ensures Similar(OSVal(a), OSVal(b)) <==> a == b
  {
    TextField("name", a.name, b.name);
    OptTextField("version", a.version, b.version);
    OptTextField("kernel", a.kernel, b.kernel);
    var same := [a.name == b.name, a.version == b.version, a.kernel == b.kernel];
    SimilarBy(OSVal(a).fields, OSVal(b).fields, same);
    assert (forall i :: 0 <= i < |same| ==> same[i]) <==> same[0] && same[1] && same[2];
  }

  lemma SimilarRuntimes(a: Option<ContainerRuntime>, b: Option<ContainerRuntime>)
    ensures Similar(RuntimeVal(a), RuntimeVal(b)) <==> a == b
  {
    if a.Some? && b.Some? {
      var r, t, f, g := a.value, b.value, RuntimeVal(a).fields, RuntimeVal(b).fields;
      TextField("runtime", r.runtime, t.runtime);
      OptTextField("version", r.version, t.version);
      PlainField("nvidia_runtime_available", f[2].value, g[2].value);
      var same := [r.runtime == t.runtime, r.version == t.version,
                   r.nvidiaRuntimeAvailable == t.nvidiaRuntimeAvailable];
      SimilarBy(f, g, same);
      assert (forall i :: 0 <= i < |same| ==> same[i]) <==> same[0] && same[1] && same[2];
    }
  }

  // ---------------------------------------------------------------------------
  // The capability
  // ---------------------------------------------------------------------------

  lemma ArchitectureAgrees(a: WorkerCapability, b: WorkerCapability)
    ensures PartIs(a, b, 0, a.architecture == b.architecture)
  {
    TextField("architecture", a.architecture, b.architecture);
  }

  lemma OSAgrees(a: WorkerCapability, b: WorkerCapability)
    ensures PartIs(a, b, 1, a.os == b.os)
  {
    SimilarOS(a.os, b.os);
    PlainField("os", OSVal(a.os), OSVal(b.os));
  }

  lemma RuntimeAgrees(a: WorkerCapability, b: WorkerCapability)
    ensures PartIs(a, b, 2, a.containerRuntime == b.containerRuntime)
  {
    SimilarRuntimes(a.containerRuntime, b.containerRuntime);
    PlainField("container_runtime", RuntimeVal(a.containerRuntime), RuntimeVal(b.containerRuntime));
  }

  /** A list field agrees when its items have one bag. */
  lemma ListAgrees<T(!new), K>(name: string, item: T -> Val, f: T -> K, xs: seq<T>, ys: seq<T>)
    requires name in ORDER_INSENSITIVE && Tells(item, f)
    ensures SimilarField(Field(name, Vals(item, xs)), Field(name, Vals(item, ys))) <==> Bag(f, xs) == Bag(f, ys)
  {
    PairsOffIsBag(item, f, xs, ys);
    ListField(name, item, xs, ys);
  }

  lemma InterfacesAgree(a: WorkerCapability, b: WorkerCapability)
    ensures PartIs(a, b, 3, Bag(InterfaceKey, a.networkInterfaces) == Bag(InterfaceKey, b.networkInterfaces))
  {
    InterfacesTold();
    ListAgrees("network_interfaces", InterfaceVal, InterfaceKey, a.networkInterfaces, b.networkInterfaces);
  }

  lemma DevicesAgree(a: WorkerCapability, b: WorkerCapability)
    ensures PartIs(a, b, 4, Bag(DeviceKey, a.devices) == Bag(DeviceKey, b.devices))
  {
    DevicesTold();
    ListAgrees("devices", DeviceVal, DeviceKey, a.devices, b.devices);
  }

  lemma PoolsAgree(a: WorkerCapability, b: WorkerCapability)
    ensures PartIs(a, b, 5, multiset(a.memoryPools) == multiset(b.memoryPools))
  {
    var same := (p: MemoryPool) => p;
    PoolsTold(same);
    ListAgrees("memory_pools", PoolVal, same, a.memoryPools, b.memoryPools);
    BagOfItself(same, a.memoryPools);
    BagOfItself(same, b.memoryPools);
  }

  lemma PlatformsAgree(a: WorkerCapability, b: WorkerCapability)
    ensures PartIs(a, b, 6, multiset(a.runtimePlatforms) == multiset(b.runtimePlatforms))
  {
    var same := (p: RuntimePlatform) => p;
    PlatformsTold(same);
    ListAgrees("runtime_platforms", PlatformVal, same, a.runtimePlatforms, b.runtimePlatforms);
    BagOfItself(same, a.runtimePlatforms);
    BagOfItself(same, b.runtimePlatforms);
  }

  /** Part `i` of the two capabilities agrees exactly if `same`. */
  ghost predicate PartIs(a: WorkerCapability, b: WorkerCapability, i: nat, same: bool)
    requires i < 7
  {
    SimilarField(ContentFields(a)[i], ContentFields(b)[i]) <==> same
  }

  lemma AllParts(f: seq<Field>, g: seq<Field>)
    requires |f| == |g| == 7 && WellFormed(Rec(f)) && forall i :: 0 <= i < 7 ==> f[i].name == g[i].name
    ensures Similar(Rec(f), Rec(g)) <==>
            && SimilarField(f[0], g[0]) && SimilarField(f[1], g[1]) && SimilarField(f[2], g[2])
            && SimilarField(f[3], g[3]) && SimilarField(f[4], g[4]) && SimilarField(f[5], g[5])
            && SimilarField(f[6], g[6])
  {
    var same := seq(7, i requires 0 <= i < 7 => SimilarField(f[i], g[i]));
    SimilarBy(f, g, same);
    assert (forall i :: 0 <= i < |same| ==> same[i]) <==>
           same[0] && same[1] && same[2] && same[3] && same[4] && same[5] && same[6];
  }

  lemma SimilarIffSame(a: WorkerCapability, b: WorkerCapability)
    ensures Similar(Content(a), Content(b)) <==> SameCapability(a, b)
  {
    ContentWellFormed(a);
    AllParts(ContentFields(a), ContentFields(b));
    ArchitectureAgrees(a, b);
    OSAgrees(a, b);
    RuntimeAgrees(a, b);
    InterfacesAgree(a, b);
    DevicesAgree(a, b);
    PoolsAgree(a, b);
    PlatformsAgree(a, b);
  }

  /** Two capabilities get one revision if and only if they are the same capability: nothing is left out, and no order
      that means nothing gets in. */
  lemma RevisionIffSame(key: Canon -> string, digest: Canon -> string, a: WorkerCapability, b: WorkerCapability)
    requires Orders.Injective(key) && Orders.Injective(digest)
    ensures Revision(key, digest, a) == Revision(key, digest, b) <==> SameCapability(a, b)
  {
    RevisionIffSimilar(key, digest, a, b);
    SimilarIffSame(a, b);
  }
}
