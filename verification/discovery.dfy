/**
 `get_migrations`: keep the module names that look like migrations and sort
 them by the integer value of their prefix. The module names that
 `pkgutil.iter_modules` yields are an input sequence. Python 2.7 yields them
 sorted by file name, each once and without `__init__`; the model accepts any
 sequence, which covers those (and is why a listing without repeats may be
 assumed). Python's `sorted` is stable, so the result is the stable sort of
 the kept names, which a stable insertion sort computes exactly.
 */
module Discovery {
  import opened Names

  /** `int(name.split("_")[0])`, the sort key. */
  function Key(name: MigrationName): nat {
    PrefixOfMigrationName(name);
    Value(Prefix(name))
  }

  /** The names of `names` that match the migration pattern, in order. */
  function Matching(names: seq<string>): (r: seq<MigrationName>)
    ensures forall n :: n in r <==> n in names && IsMigrationName(n)
  {
    if names == [] then []
    else if IsMigrationName(names[0]) then
      var n: MigrationName := names[0];
      [n] + Matching(names[1..])
    else Matching(names[1..])
  }

  /** The filter keeps a single name exactly when it is migration-shaped. */
  lemma MatchingSingle(x: string)
    ensures Matching([x]) == if IsMigrationName(x) then [x] else []
  {
    assert [x][1..] == [];
  }

  /** The filter works name by name: it distributes over concatenation, so
      it keeps the listing's order and the number of times each name occurs. */
  lemma {:induction false} MatchingAppend(s: seq<string>, t: seq<string>)
    ensures Matching(s + t) == Matching(s) + Matching(t)
  {
    if s == [] {
      assert s + t == t;
    } else {
      assert (s + t)[0] == s[0];
      assert (s + t)[1..] == s[1..] + t;
      MatchingAppend(s[1..], t);
    }
  }

  /** `s` is in non-decreasing order of `key`. */
  ghost predicate SortedBy<T>(s: seq<T>, key: T -> nat) {
    forall i, j :: 0 <= i < j < |s| ==> key(s[i]) <= key(s[j])
  }

  /** The elements of `s` whose key is `k`, in order. */
  function WithKey<T>(s: seq<T>, key: T -> nat, k: nat): seq<T> {
    if s == [] then []
    else (if key(s[0]) == k then [s[0]] else []) + WithKey(s[1..], key, k)
  }

  /** Insert `x` after every element whose key is not greater than its own. */
  function Insert<T>(x: T, s: seq<T>, key: T -> nat): (r: seq<T>)
    requires SortedBy(s, key)
    ensures SortedBy(r, key)
    ensures multiset(r) == multiset(s) + multiset{x}
  {
    if s == [] then [x]
    else if key(x) < key(s[0]) then
      SortedCons(x, s, key);
      [x] + s
    else
      SortedTail(s, key);
      var rest := Insert(x, s[1..], key);
      InsertBehind(x, s, rest, key);
      [s[0]] + rest
  }

  lemma SortedTail<T>(s: seq<T>, key: T -> nat)
    requires SortedBy(s, key) && s != []
    ensures SortedBy(s[1..], key)
    ensures forall j :: 0 <= j < |s[1..]| ==> key(s[0]) <= key(s[1..][j])
  {
  }

  /** The step of `Insert` past a head whose key is not above `x`'s. */
  lemma InsertBehind<T>(x: T, s: seq<T>, rest: seq<T>, key: T -> nat)
    requires s != [] && SortedBy(s, key) && key(s[0]) <= key(x)
    requires SortedBy(rest, key) && multiset(rest) == multiset(s[1..]) + multiset{x}
    ensures SortedBy([s[0]] + rest, key)
    ensures multiset([s[0]] + rest) == multiset(s) + multiset{x}
  {
    assert s == [s[0]] + s[1..];
    assert multiset(s) == multiset([s[0]]) + multiset(s[1..]);
    KeysAtLeast(rest, s[1..], x, key, key(s[0]));
    SortedCons(s[0], rest, key);
    assert multiset([s[0]] + rest) == multiset([s[0]]) + multiset(rest);
  }

  /** Every element of `r` has key at least `b` when `r` holds the elements
      of `s` and `x`, all of which do. */
  lemma KeysAtLeast<T>(r: seq<T>, s: seq<T>, x: T, key: T -> nat, b: nat)
    requires multiset(r) == multiset(s) + multiset{x}
    requires forall i :: 0 <= i < |s| ==> b <= key(s[i])
    requires b <= key(x)
    ensures forall j :: 0 <= j < |r| ==> b <= key(r[j])
  {
    forall j | 0 <= j < |r|
      ensures b <= key(r[j])
    {
      assert r[j] in multiset(r);
      if r[j] != x {
        assert r[j] in multiset(s);
        var i :| 0 <= i < |s| && s[i] == r[j];
      }
    }
  }

  lemma SortedCons<T>(a: T, t: seq<T>, key: T -> nat)
    requires SortedBy(t, key)
    requires forall j :: 0 <= j < |t| ==> key(a) <= key(t[j])
    ensures SortedBy([a] + t, key)
  {
    var r := [a] + t;
    forall i, j | 0 <= i < j < |r|
      ensures key(r[i]) <= key(r[j])
    {
      assert r[j] == t[j - 1];
      if i > 0 {
        assert r[i] == t[i - 1];
      }
    }
  }

  /** Python's `sorted(s, key=key)`: a stable insertion sort. */
  function Sort<T>(s: seq<T>, key: T -> nat): (r: seq<T>)
    ensures SortedBy(r, key)
    ensures multiset(r) == multiset(s)
  {
    if s == [] then []
    else
      var last := |s| - 1;
      assert s == s[..last] + [s[last]];
      Insert(s[last], Sort(s[..last], key), key)
  }

  ghost predicate SortedByKey(s: seq<MigrationName>) {
    forall i, j :: 0 <= i < j < |s| ==> Key(s[i]) <= Key(s[j])
  }

  /** `get_migrations`: the migration-shaped names of the listing, as a
      permutation sorted by numeric prefix, names with equal prefixes in
      listing order; other names are dropped. */
  function GetMigrations(listing: seq<string>): (r: seq<MigrationName>)
    ensures forall n :: n in r <==> n in listing && IsMigrationName(n)
    ensures SortedByKey(r)
    ensures multiset(r) == multiset(Matching(listing))
    ensures forall k :: WithKey(r, Key, k) == WithKey(Matching(listing), Key, k)
  {
    var kept := Matching(listing);
    var r := Sort(kept, Key);
    assert forall n :: n in r <==> n in multiset(kept);
    forall k
      ensures WithKey(r, Key, k) == WithKey(kept, Key, k)
    {
      SortIsStable(kept, Key, k);
    }
    r
  }

  lemma {:induction false} WithKeyAppend<T>(s: seq<T>, t: seq<T>, key: T -> nat, k: nat)
    ensures WithKey(s + t, key, k) == WithKey(s, key, k) + WithKey(t, key, k)
  {
    if s != [] {
      assert (s + t)[1..] == s[1..] + t;
      WithKeyAppend(s[1..], t, key, k);
    } else {
      assert s + t == t;
    }
  }

  lemma {:induction false} WithKeyNone<T>(s: seq<T>, key: T -> nat, k: nat)
    requires forall i :: 0 <= i < |s| ==> key(s[i]) != k
    ensures WithKey(s, key, k) == []
  {
    if s != [] {
      WithKeyNone(s[1..], key, k);
    }
  }

  lemma WithKeySingle<T>(x: T, key: T -> nat, k: nat)
    ensures WithKey([x], key, k) == if key(x) == k then [x] else []
  {
    assert [x][1..] == [];
  }

  /** `x` lands after every element of `s` that shares its key. */
  lemma {:induction false} InsertIsStable<T>(x: T, s: seq<T>, key: T -> nat, k: nat)
    requires SortedBy(s, key)
    ensures WithKey(Insert(x, s, key), key, k) == WithKey(s, key, k) + WithKey([x], key, k)
  {
    WithKeySingle(x, key, k);
    if s == [] {
    } else if key(x) < key(s[0]) {
      assert Insert(x, s, key) == [x] + s;
      WithKeyAppend([x], s, key, k);
      if key(x) == k {
        WithKeyNone(s, key, k);
      }
    } else {
      var rest := Insert(x, s[1..], key);
      assert Insert(x, s, key) == [s[0]] + rest;
      assert SortedBy(s[1..], key);
      InsertIsStable(x, s[1..], key, k);
      WithKeyConsStep(x, s, rest, key, k);
    }
  }

  lemma WithKeyConsStep<T>(x: T, s: seq<T>, rest: seq<T>, key: T -> nat, k: nat)
    requires s != [] && WithKey(rest, key, k) == WithKey(s[1..], key, k) + WithKey([x], key, k)
    ensures WithKey([s[0]] + rest, key, k) == WithKey(s, key, k) + WithKey([x], key, k)
  {
    WithKeyAppend([s[0]], rest, key, k);
    WithKeyAppend([s[0]], s[1..], key, k);
    assert [s[0]] + s[1..] == s;
    var a, b, c := WithKey([s[0]], key, k), WithKey(s[1..], key, k), WithKey([x], key, k);
    assert a + (b + c) == (a + b) + c;
  }

  /** Elements with equal keys keep their relative order. */
  lemma {:induction false} SortIsStable<T>(s: seq<T>, key: T -> nat, k: nat)
    ensures WithKey(Sort(s, key), key, k) == WithKey(s, key, k)
  {
    if s != [] {
      var last := |s| - 1;
      SortIsStable(s[..last], key, k);
      SortLastIsStable(s, key, k);
      WithKeySnoc(s, key, k);
    }
  }

  lemma WithKeySnoc<T>(s: seq<T>, key: T -> nat, k: nat)
    requires s != []
    ensures WithKey(s, key, k) == WithKey(s[..|s| - 1], key, k) + WithKey([s[|s| - 1]], key, k)
  {
    assert s == s[..|s| - 1] + [s[|s| - 1]];
    WithKeyAppend(s[..|s| - 1], [s[|s| - 1]], key, k);
  }

  /** The step of `SortIsStable`: the last element is inserted after its
      equals. */
  lemma SortLastIsStable<T>(s: seq<T>, key: T -> nat, k: nat)
    requires s != []
    requires WithKey(Sort(s[..|s| - 1], key), key, k) == WithKey(s[..|s| - 1], key, k)
    ensures WithKey(Sort(s, key), key, k) == WithKey(s[..|s| - 1], key, k) + WithKey([s[|s| - 1]], key, k)
  {
    var sorted := Sort(s[..|s| - 1], key);
    assert Sort(s, key) == Insert(s[|s| - 1], sorted, key);
    InsertIsStable(s[|s| - 1], sorted, key, k);
  }

  /** Two elements sort by key, and keep their order on a tie. */
  lemma SortOfTwo<T>(t: T, u: T, key: T -> nat)
    ensures Sort([t, u], key) == if key(u) < key(t) then [u, t] else [t, u]
  {
    SortOfOne(t, key);
    SortLastStep(t, u, key);
    InsertIntoOne(u, t, key);
  }

  lemma SortOfOne<T>(t: T, key: T -> nat)
    ensures Sort([t], key) == [t]
  {
    assert [t][..0] == [];
  }

  lemma SortLastStep<T>(t: T, u: T, key: T -> nat)
    ensures Sort([t, u], key) == Insert(u, Sort([t], key), key)
  {
    assert [t, u][..1] == [t];
  }

  lemma InsertIntoOne<T>(u: T, t: T, key: T -> nat)
    ensures Insert(u, [t], key) == if key(u) < key(t) then [u, t] else [t, u]
  {
    assert [t][1..] == [];
    assert Insert(u, [], key) == [u];
  }
}
