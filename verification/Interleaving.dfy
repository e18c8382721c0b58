/**
 Writers of disjoint cases: the profile store ends up the same however their writes interleave
 (`asyncio.gather` over the workers in src/edgeshard/control/master/profiling_controller.py).
 */
module Interleaving {
  import opened Ledger

  type Store = map<string, CaseState>

  /** One `update_case_state`. */
  datatype Write = Write(id: string, state: CaseState)

  function Apply(store: Store, writes: seq<Write>): Store
  {
    if writes == [] then store
    else Apply(store, writes[..|writes| - 1])[writes[|writes| - 1].id := writes[|writes| - 1].state]
  }

  ghost predicate Within(writes: seq<Write>, ids: set<string>)
  {
    forall i :: 0 <= i < |writes| ==> writes[i].id in ids
  }

  /** `whole` takes, one at a time, the next write of some writer until all have none left. */
  ghost predicate Interleaves(parts: seq<seq<Write>>, whole: seq<Write>)
    decreases |whole|
  {
    if whole == [] then forall k :: 0 <= k < |parts| ==> parts[k] == []
    else
      exists k ::
        0 <= k < |parts| && TakesFrom(parts, whole, k) && Interleaves(parts[k := parts[k][1..]], whole[1..])
  }

  ghost predicate TakesFrom(parts: seq<seq<Write>>, whole: seq<Write>, k: nat)
  {
    k < |parts| && whole != [] && parts[k] != [] && whole[0] == parts[k][0]
  }

  /** What is written about one case, in order. */
  function About(writes: seq<Write>, id: string): seq<CaseState>
  {
    if writes == [] then []
    else (if writes[0].id == id then [writes[0].state] else []) + About(writes[1..], id)
  }

  lemma {:induction false} AboutSnoc(writes: seq<Write>, w: Write, id: string)
    ensures About(writes + [w], id) == About(writes, id) + if w.id == id then [w.state] else []
    decreases |writes|
  {
    if writes == [] {
      assert writes + [w] == [w] && [w][1..] == [];
    } else {
      assert (writes + [w])[1..] == writes[1..] + [w] && (writes + [w])[0] == writes[0];
      AboutSnoc(writes[1..], w, id);
    }
  }

  /** The store says about a case what was last written about it. */
  lemma {:induction false} LastWriteWins(store: Store, writes: seq<Write>, id: string)
    ensures var said, after := About(writes, id), Apply(store, writes);
            if said == [] then (id in after <==> id in store) && (id in store ==> after[id] == store[id])
            else id in after && after[id] == said[|said| - 1]
    decreases |writes|
  {
    if writes != [] {
      var init, last := writes[..|writes| - 1], writes[|writes| - 1];
      LastWriteWins(store, init, id);
      AboutSnoc(init, last, id);
      assert init + [last] == writes;
    }
  }

  lemma {:induction false} AboutOthers(writes: seq<Write>, ids: set<string>, id: string)
    requires Within(writes, ids) && id !in ids
    ensures About(writes, id) == []
    decreases |writes|
  {
    if writes != [] {
      assert writes[0].id in ids;
      AboutOthers(writes[1..], ids, id);
    }
  }

  ghost predicate Owned(parts: seq<seq<Write>>, owners: seq<set<string>>)
  {
    && |parts| == |owners|
    && (forall k :: 0 <= k < |parts| ==> Within(parts[k], owners[k]))
    && (forall k, l :: 0 <= k < l < |parts| ==> owners[k] !! owners[l])
  }

  lemma OwnedStep(parts: seq<seq<Write>>, owners: seq<set<string>>, k: nat)
    requires Owned(parts, owners) && k < |parts| && parts[k] != []
    ensures Owned(parts[k := parts[k][1..]], owners)
  {
    assert Within(parts[k], owners[k]);
    assert Within(parts[k][1..], owners[k]);
  }

  /** In any interleaving, what is written about a case is what its own writer writes about it. */
  lemma {:induction false} AboutOwner(parts: seq<seq<Write>>, owners: seq<set<string>>, whole: seq<Write>, o: nat,
                                      id: string)
    requires Owned(parts, owners) && Interleaves(parts, whole) && o < |parts| && id in owners[o]
    ensures About(whole, id) == About(parts[o], id)
    decreases |whole|
  {
    if whole != [] {
      var k :| 0 <= k < |parts| && TakesFrom(parts, whole, k) && Interleaves(parts[k := parts[k][1..]], whole[1..]);
      OwnedStep(parts, owners, k);
      AboutOwner(parts[k := parts[k][1..]], owners, whole[1..], o, id);
      OwnWrite(parts, owners, k);
      if k != o { assert owners[k] !! owners[o]; }
    }
  }

  lemma OwnWrite(parts: seq<seq<Write>>, owners: seq<set<string>>, k: nat)
    requires Owned(parts, owners) && k < |parts| && parts[k] != []
    ensures parts[k][0].id in owners[k]
  {
    assert Within(parts[k], owners[k]);
  }

  lemma {:induction false} AboutNobody(parts: seq<seq<Write>>, owners: seq<set<string>>, whole: seq<Write>, id: string)
    requires Owned(parts, owners) && Interleaves(parts, whole) && forall k :: 0 <= k < |owners| ==> id !in owners[k]
    ensures About(whole, id) == []
    decreases |whole|
  {
    if whole != [] {
      var k :| 0 <= k < |parts| && TakesFrom(parts, whole, k) && Interleaves(parts[k := parts[k][1..]], whole[1..]);
      OwnedStep(parts, owners, k);
      OwnWrite(parts, owners, k);
      AboutNobody(parts[k := parts[k][1..]], owners, whole[1..], id);
    }
  }

  /** Any two interleavings of writers of disjoint cases leave the same store. */
  lemma InterleavingsAgree(store: Store, parts: seq<seq<Write>>, owners: seq<set<string>>, one: seq<Write>,
                           two: seq<Write>)
    requires Owned(parts, owners) && Interleaves(parts, one) && Interleaves(parts, two)
    ensures Apply(store, one) == Apply(store, two)
  {
    var a, b := Apply(store, one), Apply(store, two);
    forall id ensures (id in a <==> id in b) && (id in a ==> a[id] == b[id]) {
      LastWriteWins(store, one, id);
      LastWriteWins(store, two, id);
      if k :| 0 <= k < |owners| && id in owners[k] {
        AboutOwner(parts, owners, one, k, id);
        AboutOwner(parts, owners, two, k, id);
      } else {
        AboutNobody(parts, owners, one, id);
        AboutNobody(parts, owners, two, id);
      }
    }
  }

  function Joined(parts: seq<seq<Write>>): seq<Write>
  {
    if parts == [] then [] else parts[0] + Joined(parts[1..])
  }

  /** Running the writers one after the other is one of the interleavings. */
  lemma {:induction false} SequentialInterleaves(parts: seq<seq<Write>>, n: nat)
    requires n <= |parts| && forall k :: 0 <= k < n ==> parts[k] == []
    ensures Interleaves(parts, Joined(parts[n..]))
    decreases |parts| - n, if n < |parts| then |parts[n]| else 0
  {
    if n < |parts| {
      assert parts[n..][1..] == parts[n + 1..];
      if parts[n] == [] {
        SequentialInterleaves(parts, n + 1);
        assert Joined(parts[n..]) == Joined(parts[n + 1..]);
      } else {
        var rest := parts[n := parts[n][1..]];
        SequentialInterleaves(rest, n);
        var whole := Joined(parts[n..]);
        assert rest[n..][1..] == parts[n + 1..];
        assert whole == parts[n] + Joined(parts[n + 1..]);
        assert whole[1..] == Joined(rest[n..]);
        assert TakesFrom(parts, whole, n);
      }
    }
  }

  lemma {:induction false} ApplyJoins(store: Store, a: seq<Write>, b: seq<Write>)
    ensures Apply(store, a + b) == Apply(Apply(store, a), b)
    decreases |b|
  {
    if b == [] {
      assert a + b == a;
    } else {
      var init := b[..|b| - 1];
      assert (a + b)[..|a + b| - 1] == a + init;
      ApplyJoins(store, a, init);
    }
  }
}
