/**
 * A JavaScript `Set` as the helper uses it: a sequence without repeats, kept in
 * insertion order, which is the order `Array.from(set)` returns.
 */
module OrderedSets {

  /** No element occurs twice. */
  predicate Distinct<T(==,!new)>(xs: seq<T>) {
    forall i, j :: 0 <= i < j < |xs| ==> xs[i] != xs[j]
  }

  /** `new Set(xs)`: the elements of `xs`, each once, in order of first occurrence. */
  function FromList<T(==,!new)>(xs: seq<T>): (r: seq<T>)
    ensures Distinct(r)
    ensures forall x :: x in r <==> x in xs
    ensures Distinct(xs) ==> r == xs
  {
    if xs == [] then []
    else
      var init, x := xs[..|xs| - 1], xs[|xs| - 1];
      assert xs == init + [x];
      var r0 := FromList(init);
      if x in r0 then r0 else r0 + [x]
  }

  /** The index of the first occurrence of `x` in `xs`. */
  function First<T(==)>(xs: seq<T>, x: T): (k: nat)
    requires x in xs
    ensures k < |xs| && xs[k] == x
    ensures forall j :: 0 <= j < k ==> xs[j] != x
  {
    if xs[0] == x then 0
    else
      assert x in xs[1..] by {
        var i :| 0 <= i < |xs| && xs[i] == x;
        assert xs[1..][i - 1] == x;
      }
      var k := First(xs[1..], x);
      assert forall j :: 1 <= j <= k ==> xs[j] == xs[1..][j - 1];
      1 + k
  }

  /** A position holding `x` with no `x` before it is the first occurrence. */
  lemma FirstIs<T>(xs: seq<T>, x: T, k: nat)
    requires k < |xs| && xs[k] == x
    requires forall j :: 0 <= j < k ==> xs[j] != x
    ensures First(xs, x) == k
  {
  }

  /** The first occurrence of an element of `xs[..n]` lies in that prefix. */
  lemma FirstOfPrefix<T>(xs: seq<T>, n: nat, y: T)
    requires n <= |xs| && y in xs[..n]
    ensures First(xs, y) == First(xs[..n], y) < n
  {
    assert y in xs by {
      var t :| 0 <= t < n && xs[..n][t] == y;
      assert xs[t] == y;
    }
    var k := First(xs[..n], y);
    assert forall j :: 0 <= j <= k ==> xs[..n][j] == xs[j];
    FirstIs(xs, y, k);
  }

  /**
   * `new Set(xs)` keeps the elements in the order of their first occurrence in `xs`,
   * repeats included: an element that occurs first earlier comes earlier.
   */
  lemma {:induction false} FromListOrder<T(!new)>(xs: seq<T>)
    ensures forall i, j :: 0 <= i < j < |FromList(xs)| ==> First(xs, FromList(xs)[i]) < First(xs, FromList(xs)[j])
  {
    if xs != [] {
      var init, x := xs[..|xs| - 1], xs[|xs| - 1];
      assert xs == init + [x];
      var r0 := FromList(init);
      FromListOrder(init);
      assert forall i, j :: 0 <= i < j < |r0| ==> First(init, r0[i]) < First(init, r0[j]);
      OrderSnoc(init, x, r0, FromList(xs));
    }
  }

  /** One step of `FromList`: the first-occurrence order survives appending an element. */
  lemma OrderSnoc<T>(init: seq<T>, x: T, r0: seq<T>, r: seq<T>)
    requires forall y :: y in r0 ==> y in init
    requires forall i, j :: 0 <= i < j < |r0| ==> First(init, r0[i]) < First(init, r0[j])
    requires r == r0 || (x !in init && r == r0 + [x])
    ensures forall i :: 0 <= i < |r| ==> r[i] in init + [x]
    ensures forall i, j :: 0 <= i < j < |r| ==> First(init + [x], r[i]) < First(init + [x], r[j])
  {
    var xs := init + [x];
    forall y | y in init
      ensures First(xs, y) == First(init, y) < |init|
    {
      FirstOfPrefix(xs, |init|, y);
    }
    if r != r0 {
      FirstIs(xs, x, |init|);
    }
    forall i | 0 <= i < |r| ensures r[i] in xs {
      if i < |r0| {
        assert r[i] == r0[i] && r0[i] in init;
      } else {
        assert r[i] == x;
      }
    }
    forall i, j | 0 <= i < j < |r|
      ensures First(xs, r[i]) < First(xs, r[j])
    {
      var a := r0[i];
      assert r[i] == a && a in init;
      if j < |r0| {
        assert r[j] == r0[j] && r0[j] in init;
      } else {
        assert r[j] == x;
      }
    }
  }

  /** Building a set element by element: `new Set(xs.concat([x]))` is `new Set(xs)` with `x` added. */
  lemma FromListSnoc<T(!new)>(xs: seq<T>, x: T)
    ensures FromList(xs + [x]) == Insert(FromList(xs), x)
  {
    assert (xs + [x])[..|xs|] == xs;
  }

  /** A repeated element stays where it first occurred: `new Set([a, b, a])` is `[a, b]`. */
  lemma FromListRepeat<T(!new)>(a: T, b: T)
    requires a != b
    ensures FromList([a, b, a]) == [a, b]
  {
    FromListSnoc([a, b], a);
    assert [a, b, a] == [a, b] + [a];
    assert Distinct([a, b]);
  }

  /** `set.add(x)`: appends `x` unless it is already present. */
  function Insert<T(==,!new)>(xs: seq<T>, x: T): (r: seq<T>)
    ensures Distinct(xs) ==> Distinct(r)
    ensures forall y :: y in r <==> y in xs || y == x
    ensures x in xs ==> r == xs
    ensures x !in xs ==> r == xs + [x]
  {
    if x in xs then xs else xs + [x]
  }

  /** `set.delete(x)`: drops `x`, keeping the others in their order. */
  function Delete<T(==,!new)>(xs: seq<T>, x: T): (r: seq<T>)
    ensures Distinct(xs) ==> Distinct(r)
    ensures forall y :: y in r <==> y in xs && y != x
    ensures x !in xs ==> r == xs
    ensures Distinct(xs) ==> forall k :: 0 <= k < |xs| && xs[k] == x ==> r == xs[..k] + xs[k + 1..]
  {
    if xs == [] then []
    else
      var rest := Delete(xs[1..], x);
      assert forall y :: y in xs <==> y == xs[0] || y in xs[1..];
      assert Distinct(xs) ==> Distinct(xs[1..]) && xs[0] !in xs[1..];
      if xs[0] == x then rest
      else
        SpliceTail(xs);
        [xs[0]] + rest
  }

  lemma SpliceTail<T>(xs: seq<T>)
    requires xs != []
    ensures forall k :: 1 <= k < |xs| ==> xs[1..][k - 1] == xs[k]
    ensures forall k :: 1 <= k < |xs| ==> xs[..k] + xs[k + 1..] == [xs[0]] + (xs[1..][..k - 1] + xs[1..][k..])
  {
    forall k | 1 <= k < |xs| ensures xs[..k] + xs[k + 1..] == [xs[0]] + (xs[1..][..k - 1] + xs[1..][k..]) {
      assert xs[..k] == [xs[0]] + xs[1..][..k - 1];
      assert xs[k + 1..] == xs[1..][k..];
    }
  }

  /** Adding a new element and deleting it again gives back the set, order included. */
  lemma {:induction false} DeleteUndoesInsert<T(!new)>(xs: seq<T>, x: T)
    requires x !in xs
    ensures Delete(Insert(xs, x), x) == xs
  {
    if xs != [] {
      assert (xs + [x])[1..] == xs[1..] + [x];
      DeleteUndoesInsert(xs[1..], x);
    }
  }
}
