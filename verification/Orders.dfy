/**
 Orderings the system sorts by: strings compare code point by code point, `sorted(...)` with a
 string key is an insertion sort here, and the sorted form of a collection is unique.
 */
module Orders {

  /** Python's `<=` on strings. */
  predicate StrLe(a: string, b: string)
  {
    a == [] || (b != [] && (a[0] < b[0] || (a[0] == b[0] && StrLe(a[1..], b[1..]))))
  }

  predicate StrLt(a: string, b: string)
  {
    a != b && StrLe(a, b)
  }

  lemma {:induction false} StrLeReflexive(a: string)
    ensures StrLe(a, a)
  {
    if a != [] {
      StrLeReflexive(a[1..]);
    }
  }

  lemma {:induction false} StrLeTotal(a: string, b: string)
    ensures StrLe(a, b) || StrLe(b, a)
  {
    if a != [] && b != [] && a[0] == b[0] {
      StrLeTotal(a[1..], b[1..]);
    }
  }

  lemma {:induction false} StrLeAntisymmetric(a: string, b: string)
    requires StrLe(a, b) && StrLe(b, a)
    ensures a == b
  {
    if a != [] {
      StrLeAntisymmetric(a[1..], b[1..]);
      assert a == [a[0]] + a[1..] && b == [b[0]] + b[1..];
    }
  }

  lemma {:induction false} StrLeTransitive(a: string, b: string, c: string)
    requires StrLe(a, b) && StrLe(b, c)
    ensures StrLe(a, c)
  {
    if a != [] && a[0] == b[0] && b[0] == c[0] {
      StrLeTransitive(a[1..], b[1..], c[1..]);
    }
  }

  lemma StrLtTransitive(a: string, b: string, c: string)
    requires StrLt(a, b) && StrLt(b, c)
    ensures StrLt(a, c)
  {
    StrLeTransitive(a, b, c);
    if a == c {
      StrLeAntisymmetric(a, b);
    }
  }

  // ---------------------------------------------------------------------------
  // sorted(items, key=key)
  // ---------------------------------------------------------------------------

  predicate SortedBy<T>(key: T -> string, s: seq<T>)
  {
    forall i, j :: 0 <= i < j < |s| ==> StrLe(key(s[i]), key(s[j]))
  }

  function Insert<T>(key: T -> string, x: T, s: seq<T>): (r: seq<T>)
    ensures multiset(r) == multiset(s) + multiset{x}
  {
    if s == [] then [x]
    else if StrLe(key(x), key(s[0])) then
      assert s == [s[0]] + s[1..];
      [x] + s
    else
      assert s == [s[0]] + s[1..];
      [s[0]] + Insert(key, x, s[1..])
  }

  function Sort<T>(key: T -> string, s: seq<T>): (r: seq<T>)
    ensures multiset(r) == multiset(s)
  {
    if s == [] then []
    else
      assert s == [s[0]] + s[1..];
      Insert(key, s[0], Sort(key, s[1..]))
  }

  lemma {:induction false} InsertSorted<T>(key: T -> string, x: T, s: seq<T>)
    requires SortedBy(key, s)
    ensures SortedBy(key, Insert(key, x, s))
  {
    if s != [] {
      if StrLe(key(x), key(s[0])) {
        forall j | 0 <= j < |s| ensures StrLe(key(x), key(s[j])) {
          if j > 0 { StrLeTransitive(key(x), key(s[0]), key(s[j])); }
        }
      } else {
        InsertSorted(key, x, s[1..]);
        var rest := Insert(key, x, s[1..]);
        StrLeTotal(key(x), key(s[0]));
        forall j | 0 <= j < |rest| ensures StrLe(key(s[0]), key(rest[j])) {
          assert rest[j] in multiset(rest);
          assert rest[j] == x || rest[j] in s[1..];
        }
      }
    }
  }

  lemma {:induction false} SortSorted<T>(key: T -> string, s: seq<T>)
    ensures SortedBy(key, Sort(key, s))
  {
    if s != [] {
      SortSorted(key, s[1..]);
      InsertSorted(key, s[0], Sort(key, s[1..]));
    }
  }

  ghost predicate Injective<T(!new)>(key: T -> string)
  {
    forall x, y :: key(x) == key(y) ==> x == y
  }

  lemma SortedHeadLeast<T(!new)>(key: T -> string, s: seq<T>, x: T)
    requires SortedBy(key, s) && x in s
    ensures StrLe(key(s[0]), key(x))
  {
    var i :| 0 <= i < |s| && s[i] == x;
    if i == 0 { StrLeReflexive(key(x)); }
  }

  lemma DropHead<T>(s: seq<T>)
    requires s != []
    ensures multiset(s[1..]) == multiset(s) - multiset{s[0]}
  {
    assert s == [s[0]] + s[1..];
  }

  /** Two sorted arrangements of the same items are the same sequence. */
  lemma {:induction false} SortedUnique<T(!new)>(key: T -> string, s: seq<T>, t: seq<T>)
    requires Injective(key)
    requires SortedBy(key, s) && SortedBy(key, t)
    requires multiset(s) == multiset(t)
    ensures s == t
    decreases |s|
  {
    if s == [] {
      assert |multiset(t)| == 0;
    } else {
      assert s[0] in multiset(t);
      assert t[0] in multiset(s);
      SortedHeadLeast(key, s, t[0]);
      SortedHeadLeast(key, t, s[0]);
      StrLeAntisymmetric(key(s[0]), key(t[0]));
      DropHead(s);
      DropHead(t);
      SortedUnique(key, s[1..], t[1..]);
      assert s == [s[0]] + s[1..] && t == [t[0]] + t[1..];
    }
  }

  /** Sorting forgets exactly the order: equal sorted forms iff equal as bags of items. */
  lemma SortIgnoresOrder<T(!new)>(key: T -> string, s: seq<T>, t: seq<T>)
    requires Injective(key)
    ensures Sort(key, s) == Sort(key, t) <==> multiset(s) == multiset(t)
  {
    SortSorted(key, s);
    SortSorted(key, t);
    if multiset(s) == multiset(t) {
      SortedUnique(key, Sort(key, s), Sort(key, t));
    }
  }

  // ---------------------------------------------------------------------------
  // sorted(set_of_ids)
  // ---------------------------------------------------------------------------

  predicate StrictlyAscending(ids: seq<string>)
  {
    forall i, j :: 0 <= i < j < |ids| ==> StrLt(ids[i], ids[j])
  }

  predicate IsLeast(m: string, ids: set<string>)
  {
    m in ids && forall x :: x in ids ==> StrLe(m, x)
  }

  lemma {:induction false} LeastExists(ids: set<string>)
    requires ids != {}
    ensures exists m :: IsLeast(m, ids)
  {
    var x :| x in ids;
    var rest := ids - {x};
    StrLeReflexive(x);
    if rest == {} {
      assert ids == {x};
      assert IsLeast(x, ids);
    } else {
      LeastExists(rest);
      var m :| IsLeast(m, rest);
      StrLeTotal(x, m);
      if StrLe(m, x) {
        assert IsLeast(m, ids);
      } else {
        forall y | y in ids ensures StrLe(x, y) {
          if y != x { StrLeTransitive(x, m, y); }
        }
        assert IsLeast(x, ids);
      }
    }
  }

  lemma LeastUnique(ids: set<string>)
    ensures forall m, n :: IsLeast(m, ids) && IsLeast(n, ids) ==> m == n
  {
    forall m, n | IsLeast(m, ids) && IsLeast(n, ids) ensures m == n {
      StrLeAntisymmetric(m, n);
    }
  }

  function SortedIds(ids: set<string>): (r: seq<string>)
    ensures forall x :: x in r <==> x in ids
    ensures StrictlyAscending(r)
    ensures |r| == |ids|
  {
    if ids == {} then []
    else
      LeastExists(ids);
      LeastUnique(ids);
      var m :| IsLeast(m, ids);
      var rest := SortedIds(ids - {m});
      assert forall j :: 0 <= j < |rest| ==> rest[j] in ids - {m};
      [m] + rest
  }
}
