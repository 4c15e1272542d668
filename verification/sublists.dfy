/** The nested-list engine every "manage a sub-collection" resolver is built
    from: the bounded-list utility (`slicer`), append-then-cap for creation,
    an in-place update of the elements whose id matches, and the filter that
    deletes them. Elements are generic; `key` projects an element's id. */
module SubLists {

  /** Every capped sub-list keeps at most this many entries. */
  const Cap: nat := 20

  /** `a` is a contiguous suffix of `b`. */
  ghost predicate IsSuffix<T>(a: seq<T>, b: seq<T>) {
    |a| <= |b| && b[|b| - |a|..] == a
  }

  /** `a` is obtained from `b` by deleting elements, keeping their order. */
  ghost predicate IsSubseq<T>(a: seq<T>, b: seq<T>)
    decreases |b|
  {
    if b == [] then a == []
    else (a != [] && a[0] == b[0] && IsSubseq(a[1..], b[1..])) || IsSubseq(a, b[1..])
  }

  /** No two elements of `xs` carry the same id. */
  ghost predicate UniqueKeys<T>(xs: seq<T>, key: T -> string) {
    forall i, j :: 0 <= i < j < |xs| ==> key(xs[i]) != key(xs[j])
  }

  /** No element of `xs` carries the id `id`. */
  ghost predicate KeyAbsent<T>(xs: seq<T>, key: T -> string, id: string) {
    forall i :: 0 <= i < |xs| ==> key(xs[i]) != id
  }

  /** The bounded-list utility: keeps the `n` most recently appended
      elements, dropping from the front. Its source is not part of this
      model; this is the behaviour the resolvers rely on. */
  function Slicer<T>(xs: seq<T>, n: nat): (r: seq<T>)
    ensures |r| == if |xs| <= n then |xs| else n
    ensures IsSuffix(r, xs)
  {
    if |xs| <= n then xs else xs[|xs| - n..]
  }

  /** Creation on a capped list: append `x`, then keep the last `Cap`. */
  function CappedAppend<T>(xs: seq<T>, x: T): (r: seq<T>)
    ensures 0 < |r| <= Cap
    ensures r[|r| - 1] == x
    ensures IsSuffix(r, xs + [x])
    ensures |xs| < Cap ==> r == xs + [x]
  {
    Slicer(xs + [x], Cap)
  }

  /** On a full list, creation evicts exactly the oldest element. */
  lemma CappedAppendEvictsOldest<T>(xs: seq<T>, x: T)
    requires |xs| == Cap
    ensures CappedAppend(xs, x) == xs[1..] + [x]
    ensures CappedAppend(xs, x)[0] == xs[1]
  {
    assert (xs + [x])[1..] == xs[1..] + [x];
  }

  /** In-place update: every element whose id is `id` becomes `f` of itself;
      the others, and the order, are kept. */
  function MapWhere<T>(xs: seq<T>, key: T -> string, id: string, f: T -> T): (r: seq<T>)
    ensures |r| == |xs|
    ensures forall i :: 0 <= i < |xs| ==> r[i] == (if key(xs[i]) == id then f(xs[i]) else xs[i])
  {
    if xs == [] then []
    else [if key(xs[0]) == id then f(xs[0]) else xs[0]] + MapWhere(xs[1..], key, id, f)
  }

  /** Deletion: the elements whose id is `id` are filtered out. */
  function RemoveKey<T>(xs: seq<T>, key: T -> string, id: string): (r: seq<T>)
    ensures |r| <= |xs|
    ensures IsSubseq(r, xs)
    ensures KeyAbsent(r, key, id)
    ensures forall j :: 0 <= j < |r| ==> r[j] in xs
    ensures forall i :: 0 <= i < |xs| && key(xs[i]) != id ==> xs[i] in r
  {
    if xs == [] then []
    else if key(xs[0]) == id then RemoveKey(xs[1..], key, id)
    else [xs[0]] + RemoveKey(xs[1..], key, id)
  }

  /** Deletion removes every occurrence of an element with id `id` and
      keeps every other element as often as it occurred. With `IsSubseq`
      this fixes the result as the order-preserving filter. */
  lemma {:induction false} RemoveKeyCounts<T>(xs: seq<T>, key: T -> string, id: string)
    ensures forall y :: multiset(RemoveKey(xs, key, id))[y] == if key(y) == id then 0 else multiset(xs)[y]
  {
    if xs != [] {
      RemoveKeyCounts(xs[1..], key, id);
      var rest := RemoveKey(xs[1..], key, id);
      assert xs == [xs[0]] + xs[1..];
      assert multiset(xs) == multiset([xs[0]]) + multiset(xs[1..]);
      if key(xs[0]) != id {
        assert multiset([xs[0]] + rest) == multiset([xs[0]]) + multiset(rest);
      }
    }
  }

  /** Deletion changes the list exactly when some element carries `id`. */
  lemma {:induction false} RemoveKeyUnchanged<T>(xs: seq<T>, key: T -> string, id: string)
    ensures RemoveKey(xs, key, id) == xs <==> KeyAbsent(xs, key, id)
  {
    if xs != [] {
      RemoveKeyUnchanged(xs[1..], key, id);
      if key(xs[0]) != id && KeyAbsent(xs, key, id) {
        assert KeyAbsent(xs[1..], key, id) by {
          forall i | 0 <= i < |xs[1..]|
            ensures key(xs[1..][i]) != id
          {
            assert xs[1..][i] == xs[i + 1];
          }
        }
        assert xs == [xs[0]] + xs[1..];
      }
    }
  }

  /** Updating an id no element carries leaves the list as it was. */
  lemma MapWhereAbsent<T>(xs: seq<T>, key: T -> string, id: string, f: T -> T)
    requires KeyAbsent(xs, key, id)
    ensures MapWhere(xs, key, id, f) == xs
  {
  }

  /** Deleting by the id of the element just appended undoes the append,
      provided no older element carries that id. */
  lemma {:induction false} RemoveAppended<T>(xs: seq<T>, key: T -> string, x: T)
    requires KeyAbsent(xs, key, key(x))
    ensures RemoveKey(xs + [x], key, key(x)) == xs
  {
    if xs == [] {
      assert RemoveKey([x], key, key(x)) == RemoveKey([], key, key(x));
    } else {
      assert (xs + [x])[1..] == xs[1..] + [x];
      RemoveAppended(xs[1..], key, x);
      assert xs == [xs[0]] + xs[1..];
    }
  }

  /** A suffix of a list with unique ids has unique ids. */
  lemma SuffixKeepsUnique<T>(a: seq<T>, b: seq<T>, key: T -> string)
    requires IsSuffix(a, b) && UniqueKeys(b, key)
    ensures UniqueKeys(a, key)
  {
    var d := |b| - |a|;
    forall i, j | 0 <= i < j < |a|
      ensures key(a[i]) != key(a[j])
    {
      assert a[i] == b[d + i] && a[j] == b[d + j];
    }
  }

  /** Appending a fresh id, then capping, keeps ids unique. */
  lemma CappedAppendKeepsUnique<T>(xs: seq<T>, key: T -> string, x: T)
    requires UniqueKeys(xs, key) && KeyAbsent(xs, key, key(x))
    ensures UniqueKeys(CappedAppend(xs, x), key)
  {
    var ys := xs + [x];
    forall i, j | 0 <= i < j < |ys|
      ensures key(ys[i]) != key(ys[j])
    {
      if j == |xs| {
        assert ys[i] == xs[i];
      } else {
        assert ys[i] == xs[i] && ys[j] == xs[j];
      }
    }
    SuffixKeepsUnique(CappedAppend(xs, x), ys, key);
  }

  /** With unique ids, no later element shares the first element's id. */
  lemma HeadKeyNotInTail<T>(xs: seq<T>, key: T -> string)
    requires UniqueKeys(xs, key) && xs != []
    ensures forall y :: y in xs[1..] ==> key(y) != key(xs[0])
  {
    forall y | y in xs[1..]
      ensures key(y) != key(xs[0])
    {
      var m :| 0 <= m < |xs[1..]| && xs[1..][m] == y;
      assert xs[1 + m] == y;
    }
  }

  /** Deletion keeps ids unique. */
  lemma {:induction false} RemoveKeyKeepsUnique<T>(xs: seq<T>, key: T -> string, id: string)
    requires UniqueKeys(xs, key)
    ensures UniqueKeys(RemoveKey(xs, key, id), key)
  {
    if xs != [] {
      RemoveKeyKeepsUnique(xs[1..], key, id);
      var rest := RemoveKey(xs[1..], key, id);
      if key(xs[0]) != id {
        HeadKeyNotInTail(xs, key);
        var r := [xs[0]] + rest;
        forall i, j | 0 <= i < j < |r|
          ensures key(r[i]) != key(r[j])
        {
          assert r[j] == rest[j - 1];
          if i == 0 {
            assert rest[j - 1] in xs[1..];
          } else {
            assert r[i] == rest[i - 1];
          }
        }
      }
    }
  }

  /** An update that keeps each element's id keeps ids unique. */
  lemma MapWhereKeepsUnique<T>(xs: seq<T>, key: T -> string, id: string, f: T -> T)
    requires UniqueKeys(xs, key)
    requires forall i :: 0 <= i < |xs| ==> key(f(xs[i])) == key(xs[i])
    ensures UniqueKeys(MapWhere(xs, key, id, f), key)
  {
    var r := MapWhere(xs, key, id, f);
    assert forall i :: 0 <= i < |xs| ==> key(r[i]) == key(xs[i]);
  }
}
