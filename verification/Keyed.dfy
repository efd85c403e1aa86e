// Lists searched by a key, as the configure session edits them: `iter().find`, `retain`,
// find-or-insert.
module Keyed {
  import opened Wrappers

  function Find<X, K(==)>(xs: seq<X>, key: X -> K, k: K): Option<X> {
    if xs == [] then None else if key(xs[0]) == k then Some(xs[0]) else Find(xs[1..], key, k)
  }

  // `retain` of everything without the key.
  function Without<X, K(==)>(xs: seq<X>, key: X -> K, k: K): (r: seq<X>)
    ensures |r| <= |xs|
    ensures forall x | x in r :: x in xs && key(x) != k
  {
    if xs == [] then [] else (if key(xs[0]) == k then [] else [xs[0]]) + Without(xs[1..], key, k)
  }

  // The first element with the key of `x` becomes `x`; if there is none, `x` is appended.
  function Store<X, K(==)>(xs: seq<X>, key: X -> K, x: X): (r: seq<X>)
    ensures forall y | y in r :: y == x || y in xs
  {
    if xs == [] then [x]
    else if key(xs[0]) == key(x) then [x] + xs[1..]
    else [xs[0]] + Store(xs[1..], key, x)
  }

  lemma {:induction false} FindKey<X, K>(xs: seq<X>, key: X -> K, k: K)
    ensures Find(xs, key, k).Some? ==> key(Find(xs, key, k).value) == k && Find(xs, key, k).value in xs
  {
    if xs != [] && key(xs[0]) != k {
      FindKey(xs[1..], key, k);
    }
  }

  lemma {:induction false} FindStore<X, K>(xs: seq<X>, key: X -> K, x: X, k: K)
    ensures Find(Store(xs, key, x), key, k) == if k == key(x) then Some(x) else Find(xs, key, k)
  {
    if xs != [] && key(xs[0]) != key(x) {
      FindStore(xs[1..], key, x, k);
      assert Store(xs, key, x)[1..] == Store(xs[1..], key, x);
    } else if xs != [] {
      assert Store(xs, key, x)[1..] == xs[1..];
    }
  }

  lemma {:induction false} FindWithout<X, K>(xs: seq<X>, key: X -> K, gone: K, k: K)
    ensures Find(Without(xs, key, gone), key, k) == if k == gone then None else Find(xs, key, k)
  {
    if xs != [] {
      FindWithout(xs[1..], key, gone, k);
      if key(xs[0]) != gone {
        assert Without(xs, key, gone)[1..] == Without(xs[1..], key, gone);
      } else {
        assert Without(xs, key, gone) == Without(xs[1..], key, gone);
      }
    }
  }

  // `retain` shortens the list exactly when the key was there; otherwise nothing changes.
  lemma {:induction false} WithoutAbsent<X, K>(xs: seq<X>, key: X -> K, k: K)
    ensures |Without(xs, key, k)| == |xs| <==> Find(xs, key, k).None?
    ensures Find(xs, key, k).None? ==> Without(xs, key, k) == xs
  {
    if xs != [] {
      WithoutAbsent(xs[1..], key, k);
    }
  }

  lemma {:induction false} StoreSame<X, K>(xs: seq<X>, key: X -> K, x: X)
    ensures Find(xs, key, key(x)) == Some(x) <==> Store(xs, key, x) == xs
  {
    if xs != [] && key(xs[0]) != key(x) {
      StoreSame(xs[1..], key, x);
      assert Store(xs, key, x)[1..] == Store(xs[1..], key, x);
    } else if xs != [] {
      assert Store(xs, key, x)[0] == x;
    }
  }

  // ----- all elements with a key -----

  function Only<X, K(==)>(xs: seq<X>, key: X -> K, k: K): seq<X> {
    if xs == [] then [] else (if key(xs[0]) == k then [xs[0]] else []) + Only(xs[1..], key, k)
  }

  // All of them in order, None if there are none.
  function FindAll<X, K(==)>(xs: seq<X>, key: X -> K, k: K): Option<seq<X>> {
    var r := Only(xs, key, k);
    if r == [] then None else Some(r)
  }

  lemma OnlyCons<X, K>(x: X, xs: seq<X>, key: X -> K, k: K)
    ensures Only([x] + xs, key, k) == (if key(x) == k then [x] else []) + Only(xs, key, k)
  {
    assert ([x] + xs)[1..] == xs;
  }

  lemma {:induction false} OnlyAppend<X, K>(xs: seq<X>, key: X -> K, x: X, k: K)
    ensures Only(xs + [x], key, k) == Only(xs, key, k) + (if key(x) == k then [x] else [])
  {
    if xs == [] {
      assert xs + [x] == [x] && [x][1..] == [];
    } else {
      hide Only;
      var rest, head := xs[1..], if key(xs[0]) == k then [xs[0]] else [];
      calc {
        Only(xs + [x], key, k);
        { assert xs + [x] == [xs[0]] + (rest + [x]); }
        Only([xs[0]] + (rest + [x]), key, k);
        { OnlyCons(xs[0], rest + [x], key, k); }
        head + Only(rest + [x], key, k);
        { OnlyAppend(rest, key, x, k); }
        head + (Only(rest, key, k) + (if key(x) == k then [x] else []));
        head + Only(rest, key, k) + (if key(x) == k then [x] else []);
        { OnlyCons(xs[0], rest, key, k); assert xs == [xs[0]] + rest; }
        Only(xs, key, k) + (if key(x) == k then [x] else []);
      }
    }
  }

  lemma {:induction false} OnlyWithout<X, K>(xs: seq<X>, key: X -> K, gone: K, k: K)
    ensures Only(Without(xs, key, gone), key, k) == if k == gone then [] else Only(xs, key, k)
  {
    if xs != [] {
      OnlyWithout(xs[1..], key, gone, k);
      var rest := Without(xs[1..], key, gone);
      if key(xs[0]) != gone {
        assert Without(xs, key, gone) == [xs[0]] + rest;
        OnlyCons(xs[0], rest, key, k);
      } else {
        assert Without(xs, key, gone) == rest;
      }
    }
  }

  lemma {:induction false} OnlyAbsent<X, K>(xs: seq<X>, key: X -> K, k: K)
    ensures FindAll(xs, key, k).None? <==> Find(xs, key, k).None?
  {
    if xs != [] {
      OnlyAbsent(xs[1..], key, k);
    }
  }

  // Last write wins, and the elements of every other key stay, in their order.
  lemma FindAllReplaced<X, K>(xs: seq<X>, key: X -> K, x: X, k: K)
    ensures FindAll(Without(xs, key, key(x)) + [x], key, k) == if k == key(x) then Some([x]) else FindAll(xs, key, k)
  {
    hide Only, Without;
    OnlyWithout(xs, key, key(x), k);
    OnlyAppend(Without(xs, key, key(x)), key, x, k);
    assert [] + [x] == [x];
    assert Only(xs, key, k) + [] == Only(xs, key, k);
  }

  lemma FindAllWithout<X, K>(xs: seq<X>, key: X -> K, gone: K, k: K)
    ensures FindAll(Without(xs, key, gone), key, k) == if k == gone then None else FindAll(xs, key, k)
    ensures |Without(xs, key, gone)| != |xs| <==> FindAll(xs, key, gone).Some?
  {
    hide Only, Without;
    OnlyWithout(xs, key, gone, k);
    WithoutAbsent(xs, key, gone);
    OnlyAbsent(xs, key, gone);
  }

  // Appending to a list without the key.
  lemma FindAllAdded<X, K>(xs: seq<X>, key: X -> K, x: X, k: K)
    requires FindAll(xs, key, key(x)).None?
    ensures FindAll(xs + [x], key, k) == if k == key(x) then Some([x]) else FindAll(xs, key, k)
  {
    hide Only;
    OnlyAppend(xs, key, x, k);
    assert [] + [x] == [x];
    assert Only(xs, key, k) + [] == Only(xs, key, k);
  }

  // ----- lists in which no key is repeated -----

  ghost predicate Once<X, K(!new)>(xs: seq<X>, key: X -> K) {
    forall k :: |Only(xs, key, k)| <= 1
  }

  lemma {:induction false} OnlyMember<X, K>(xs: seq<X>, key: X -> K, x: X)
    ensures multiset(Only(xs, key, key(x)))[x] == multiset(xs)[x]
  {
    if xs != [] {
      OnlyMember(xs[1..], key, x);
      assert xs == [xs[0]] + xs[1..];
    }
  }

  lemma {:induction false} OnlyStore<X, K>(xs: seq<X>, key: X -> K, x: X, k: K)
    ensures k != key(x) ==> Only(Store(xs, key, x), key, k) == Only(xs, key, k)
    ensures |Only(Store(xs, key, x), key, key(x))| == if Only(xs, key, key(x)) == [] then 1
                                                      else |Only(xs, key, key(x))|
  {
    if xs == [] {
      OnlyCons(x, [], key, k);
      OnlyCons(x, [], key, key(x));
    } else {
      var rest := xs[1..];
      if key(xs[0]) == key(x) {
        OnlyCons(x, rest, key, k);
        OnlyCons(x, rest, key, key(x));
      } else {
        OnlyStore(rest, key, x, k);
        OnlyCons(xs[0], Store(rest, key, x), key, k);
        OnlyCons(xs[0], Store(rest, key, x), key, key(x));
      }
    }
  }

  // None of the edits repeats a key.
  lemma OnceWithout<X, K(!new)>(xs: seq<X>, key: X -> K, gone: K)
    requires Once(xs, key)
    ensures Once(Without(xs, key, gone), key)
  {
    hide Only, Without;
    forall k ensures |Only(Without(xs, key, gone), key, k)| <= 1 { OnlyWithout(xs, key, gone, k); }
  }

  lemma OnceStore<X, K(!new)>(xs: seq<X>, key: X -> K, x: X)
    requires Once(xs, key)
    ensures Once(Store(xs, key, x), key)
  {
    hide Only, Store;
    forall k ensures |Only(Store(xs, key, x), key, k)| <= 1 { OnlyStore(xs, key, x, k); }
  }

  lemma OnceReplaced<X, K(!new)>(xs: seq<X>, key: X -> K, x: X)
    requires Once(xs, key)
    ensures Once(Without(xs, key, key(x)) + [x], key)
  {
    hide Only, Without;
    forall k ensures |Only(Without(xs, key, key(x)) + [x], key, k)| <= 1 {
      OnlyWithout(xs, key, key(x), k);
      OnlyAppend(Without(xs, key, key(x)), key, x, k);
    }
  }

  lemma {:induction false} OnlyFirst<X, K>(xs: seq<X>, key: X -> K, k: K)
    ensures Find(xs, key, k) == if Only(xs, key, k) == [] then None else Some(Only(xs, key, k)[0])
  {
    if xs != [] && key(xs[0]) != k {
      OnlyFirst(xs[1..], key, k);
    }
  }

  // The only element with its key is the one that is found.
  lemma OnceFound<X, K(!new)>(xs: seq<X>, key: X -> K, x: X)
    requires Once(xs, key) && x in xs
    ensures Find(xs, key, key(x)) == Some(x)
  {
    hide Only, Find;
    OnlyMember(xs, key, x);
    OnlyFirst(xs, key, key(x));
    var only := Only(xs, key, key(x));
    assert x in only;
  }

  lemma {:induction false} WithoutLength<X, K>(xs: seq<X>, key: X -> K, k: K)
    ensures |Without(xs, key, k)| + |Only(xs, key, k)| == |xs|
  {
    if xs != [] { WithoutLength(xs[1..], key, k); }
  }

  // The same keys, none repeated: the same length.
  lemma {:induction false} OnceLength<X, K(!new)>(xs: seq<X>, ys: seq<X>, key: X -> K)
    requires Once(xs, key) && Once(ys, key)
    requires forall k :: Find(xs, key, k).Some? == Find(ys, key, k).Some?
    ensures |xs| == |ys|
    decreases |xs|
  {
    hide Without, Only, Find;
    if xs == [] {
      if ys != [] {
        OnceFound(ys, key, ys[0]);
        Nowhere(key, key(ys[0]));
      }
    } else {
      var k := key(xs[0]);
      OnceFound(xs, key, xs[0]);
      OnlyFirst(xs, key, k);
      OnlyFirst(ys, key, k);
      WithoutLength(xs, key, k);
      WithoutLength(ys, key, k);
      OnceWithout(xs, key, k);
      OnceWithout(ys, key, k);
      var a, b := Without(xs, key, k), Without(ys, key, k);
      forall j ensures Find(a, key, j).Some? == Find(b, key, j).Some? {
        FindWithout(xs, key, k, j);
        FindWithout(ys, key, k, j);
      }
      OnceLength(a, b, key);
    }
  }

  lemma Nowhere<X, K>(key: X -> K, k: K)
    ensures Find([], key, k).None?
  {
  }

  // ----- lists that differ in nothing but order -----

  // The same elements, those with the same key in the same order.
  ghost predicate Reordered<X, K(!new)>(xs: seq<X>, ys: seq<X>, key: X -> K) {
    multiset(xs) == multiset(ys) && forall k :: Only(xs, key, k) == Only(ys, key, k)
  }

  lemma SameLeaves<X(!new), K(!new)>(xs: seq<X>, ys: seq<X>, key: X -> K)
    ensures (forall k :: FindAll(xs, key, k) == FindAll(ys, key, k)) <==> Reordered(xs, ys, key)
  {
    hide Only;
    if forall k :: FindAll(xs, key, k) == FindAll(ys, key, k) {
      forall k ensures Only(xs, key, k) == Only(ys, key, k) {
        assert FindAll(xs, key, k) == FindAll(ys, key, k);
      }
      forall x ensures multiset(xs)[x] == multiset(ys)[x] {
        OnlyMember(xs, key, x);
        OnlyMember(ys, key, x);
        assert Only(xs, key, key(x)) == Only(ys, key, key(x));
      }
    }
  }

  // The same blocks, each the same up to `same`.
  ghost predicate SameBlocks<X(!new)>(xs: seq<X>, ys: seq<X>, same: (X, X) -> bool) {
    && |xs| == |ys|
    && (forall x | x in xs :: exists y :: y in ys && same(x, y))
    && (forall y | y in ys :: exists x :: x in xs && same(x, y))
  }

  // What is found under a key is there on both sides, and the same.
  ghost predicate FoundSame<X(!new), K>(xs: seq<X>, ys: seq<X>, key: X -> K, same: (X, X) -> bool, k: K) {
    var f, g := Find(xs, key, k), Find(ys, key, k);
    f.Some? == g.Some? && (f.Some? ==> same(f.value, g.value))
  }

  lemma BlocksFound<X(!new), K(!new)>(xs: seq<X>, ys: seq<X>, key: X -> K, same: (X, X) -> bool)
    requires Once(xs, key) && Once(ys, key) && forall x, y | same(x, y) :: key(x) == key(y)
    ensures (forall k :: FoundSame(xs, ys, key, same, k)) <==> SameBlocks(xs, ys, same)
  {
    hide Once, Find;
    if forall k :: FoundSame(xs, ys, key, same, k) {
      forall k ensures Find(xs, key, k).Some? == Find(ys, key, k).Some? { assert FoundSame(xs, ys, key, same, k); }
      OnceLength(xs, ys, key);
      forall x | x in xs ensures exists y :: y in ys && same(x, y) {
        OnceFound(xs, key, x);
        assert FoundSame(xs, ys, key, same, key(x));
        FindKey(ys, key, key(x));
      }
      forall y | y in ys ensures exists x :: x in xs && same(x, y) {
        OnceFound(ys, key, y);
        assert FoundSame(xs, ys, key, same, key(y));
        FindKey(xs, key, key(y));
      }
    }
    if SameBlocks(xs, ys, same) {
      forall k ensures FoundSame(xs, ys, key, same, k) { FoundOnBoth(xs, ys, key, same, k); }
    }
  }

  lemma FoundOnBoth<X(!new), K(!new)>(xs: seq<X>, ys: seq<X>, key: X -> K, same: (X, X) -> bool, k: K)
    requires Once(xs, key) && Once(ys, key) && forall x, y | same(x, y) :: key(x) == key(y)
    requires SameBlocks(xs, ys, same)
    ensures FoundSame(xs, ys, key, same, k)
  {
    hide Once, Find;
    FindKey(xs, key, k);
    FindKey(ys, key, k);
    if Find(xs, key, k).Some? {
      var y :| y in ys && same(Find(xs, key, k).value, y);
      OnceFound(ys, key, y);
    } else if Find(ys, key, k).Some? {
      var x :| x in xs && same(x, Find(ys, key, k).value);
      OnceFound(xs, key, x);
    }
  }

  // `iter_mut().find` with insertion before it, as the `*_mut` helpers do it.
  method FindOrInsert<X, K(==)>(xs: seq<X>, key: X -> K, empty: X) returns (ys: seq<X>, at: nat)
    ensures at < |ys| && key(ys[at]) == key(empty)
    ensures forall i | 0 <= i < at :: key(ys[i]) != key(empty)
    ensures Find(xs, key, key(empty)).Some? ==> ys == xs && Find(xs, key, key(empty)) == Some(ys[at])
    ensures Find(xs, key, key(empty)).None? ==> ys == xs + [empty] && at == |xs|
  {
    at := 0;
    while at < |xs| && key(xs[at]) != key(empty)
      invariant at <= |xs| && forall i | 0 <= i < at :: key(xs[i]) != key(empty)
      invariant Find(xs, key, key(empty)) == Find(xs[at..], key, key(empty))
    {
      assert xs[at..][1..] == xs[at + 1..];
      at := at + 1;
    }
    ys := if at < |xs| then xs else xs + [empty];
    assert at < |xs| ==> xs[at..][0] == xs[at];
    assert at == |xs| ==> xs[at..] == [];
  }
}
