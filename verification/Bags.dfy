/** Sums of multisets over the values of a map and over the elements of a multiset.
    The model counts messages with them: a bus holds the sum of its queues, and the
    deduplication index counts the image of that sum under the key function. */
module Bags {

  datatype Option<+T> = None | Some(value: T)

  // Sum and Image are used through their laws (SumEmpty, SumRemove, SumUpdate and their
  // counterparts). Their recursions, SumFold and ImageFold, are tied to them under a
  // trigger that only SumIsFold and ImageIsFold pull, so that the solver does not unfold
  // them in every proof that mentions a sum.

  ghost predicate Unfold(u: nat) { true }

  ghost function SumFold<K(!new), V, T>(m: map<K, V>, f: V -> multiset<T>): multiset<T>
    decreases m.Keys
  {
    if m == map[] then multiset{}
    else
      var k :| k in m;
      f(m[k]) + SumFold(m - {k}, f)
  }

  ghost predicate IsSum<K(!new), V, T>(m: map<K, V>, f: V -> multiset<T>, r: multiset<T>) {
    forall u: nat {:trigger Unfold(u)} :: Unfold(u) ==> r == SumFold(m, f)
  }

  /** The sum of `f` over the values of `m`. */
  ghost function Sum<K(!new), V, T>(m: map<K, V>, f: V -> multiset<T>): multiset<T> {
    assert IsSum(m, f, SumFold(m, f));
    var r :| IsSum(m, f, r);
    r
  }

  lemma SumIsFold<K(!new), V, T>(m: map<K, V>, f: V -> multiset<T>)
    ensures Sum(m, f) == SumFold(m, f)
  {
    assert IsSum(m, f, SumFold(m, f));
    assert IsSum(m, f, Sum(m, f));
    assert Unfold(0);
  }

  lemma {:induction false} SumFoldRemove<K(!new), V, T>(m: map<K, V>, f: V -> multiset<T>, k: K)
    requires k in m
    ensures SumFold(m, f) == f(m[k]) + SumFold(m - {k}, f)
    decreases m.Keys
  {
    var j :| j in m && SumFold(m, f) == f(m[j]) + SumFold(m - {j}, f);
    if j != k {
      SumFoldRemove(m - {j}, f, k);
      SumFoldRemove(m - {k}, f, j);
      assert m - {j} - {k} == m - {k} - {j};
    }
  }

  lemma SumEmpty<K(!new), V, T>(m: map<K, V>, f: V -> multiset<T>)
    requires m == map[]
    ensures Sum(m, f) == multiset{}
  {
    SumIsFold(m, f);
  }

  lemma SumRemove<K(!new), V, T>(m: map<K, V>, f: V -> multiset<T>, k: K)
    requires k in m
    ensures Sum(m, f) == f(m[k]) + Sum(m - {k}, f)
  {
    SumIsFold(m, f);
    SumIsFold(m - {k}, f);
    SumFoldRemove(m, f, k);
  }

  lemma SumUpdate<K(!new), V, T>(m: map<K, V>, f: V -> multiset<T>, k: K, v: V)
    ensures Sum(m[k := v], f) == Sum(m - {k}, f) + f(v)
    ensures Sum(m, f) == Sum(m - {k}, f) + if k in m then f(m[k]) else multiset{}
  {
    SumRemove(m[k := v], f, k);
    assert m[k := v] - {k} == m - {k};
    if k in m {
      SumRemove(m, f, k);
    } else {
      assert m - {k} == m;
    }
  }

  ghost function ImageFold<A(!new), B>(f: A -> multiset<B>, s: multiset<A>): multiset<B>
    decreases |s|
  {
    if s == multiset{} then multiset{}
    else
      var a :| a in s;
      f(a) + ImageFold(f, s - multiset{a})
  }

  ghost predicate IsImage<A(!new), B>(f: A -> multiset<B>, s: multiset<A>, r: multiset<B>) {
    forall u: nat {:trigger Unfold(u)} :: Unfold(u) ==> r == ImageFold(f, s)
  }

  /** The sum of `f` over the elements of `s`. */
  ghost function Image<A(!new), B>(f: A -> multiset<B>, s: multiset<A>): multiset<B> {
    assert IsImage(f, s, ImageFold(f, s));
    var r :| IsImage(f, s, r);
    r
  }

  lemma ImageIsFold<A(!new), B>(f: A -> multiset<B>, s: multiset<A>)
    ensures Image(f, s) == ImageFold(f, s)
  {
    assert IsImage(f, s, ImageFold(f, s));
    assert IsImage(f, s, Image(f, s));
    assert Unfold(0);
  }

  lemma {:induction false} ImageFoldRemove<A(!new), B>(f: A -> multiset<B>, s: multiset<A>, a: A)
    requires a in s
    ensures ImageFold(f, s) == f(a) + ImageFold(f, s - multiset{a})
    decreases |s|
  {
    var c :| c in s && ImageFold(f, s) == f(c) + ImageFold(f, s - multiset{c});
    if c != a {
      assert a in s - multiset{c} && c in s - multiset{a};
      ImageFoldRemove(f, s - multiset{c}, a);
      ImageFoldRemove(f, s - multiset{a}, c);
      assert s - multiset{c} - multiset{a} == s - multiset{a} - multiset{c};
    }
  }

  lemma ImageEmpty<A(!new), B>(f: A -> multiset<B>, s: multiset<A>)
    requires s == multiset{}
    ensures Image(f, s) == multiset{}
  {
    ImageIsFold(f, s);
  }

  lemma ImageRemove<A(!new), B>(f: A -> multiset<B>, s: multiset<A>, a: A)
    requires a in s
    ensures Image(f, s) == f(a) + Image(f, s - multiset{a})
  {
    ImageIsFold(f, s);
    ImageIsFold(f, s - multiset{a});
    ImageFoldRemove(f, s, a);
  }

  lemma ImageAdd<A(!new), B>(f: A -> multiset<B>, s: multiset<A>, a: A)
    ensures Image(f, s + multiset{a}) == Image(f, s) + f(a)
  {
    ImageRemove(f, s + multiset{a}, a);
    assert s + multiset{a} - multiset{a} == s;
  }

  /** If `live` grows by `ins` and shrinks by `outs`, and `rest` takes up the difference to
      `total`, the sum is still right. */
  lemma Balance<T>(live: multiset<T>, live': multiset<T>, ins: multiset<T>, outs: multiset<T>,
                   rest: multiset<T>, rest': multiset<T>, total: multiset<T>, total': multiset<T>)
    requires live' + outs == live + ins
    requires total == live + rest
    requires total' + rest + outs == total + rest' + ins
    ensures total' == live' + rest'
  {
    forall x: T
      ensures total'[x] == live'[x] + rest'[x]
    {
      assert (live' + outs)[x] == (live + ins)[x];
      assert (total' + rest + outs)[x] == (total + rest' + ins)[x];
    }
  }

  ghost predicate NoDup<T(!new)>(s: seq<T>) {
    forall i, j :: 0 <= i < j < |s| ==> s[i] != s[j]
  }

  lemma NoDupSnoc<T(!new)>(s: seq<T>, x: T)
    requires NoDup(s) && x !in s
    ensures NoDup(s + [x])
  {
  }

  function Reversed<T>(s: seq<T>): (r: seq<T>)
    ensures |r| == |s|
  {
    if s == [] then [] else Reversed(s[1..]) + [s[0]]
  }

  /** `s` with every occurrence of `x` removed. */
  function Without<T(==, !new)>(s: seq<T>, x: T): (r: seq<T>)
    ensures x !in r
    ensures forall y :: y in r <==> y in s && y != x
  {
    if s == [] then []
    else if s[0] == x then Without(s[1..], x)
    else [s[0]] + Without(s[1..], x)
  }

  lemma {:induction false} WithoutNoDup<T(!new)>(s: seq<T>, x: T)
    requires NoDup(s)
    ensures NoDup(Without(s, x))
    ensures x !in s ==> Without(s, x) == s
  {
    if s != [] {
      WithoutNoDup(s[1..], x);
      assert s == [s[0]] + s[1..];
      assert s[0] !in s[1..];
    }
  }

  lemma {:induction false} WithoutLast<T(!new)>(s: seq<T>, x: T, y: T)
    ensures Without(s + [y], x) == if y == x then Without(s, x) else Without(s, x) + [y]
  {
    if s == [] {
      assert s + [y] == [y];
      assert [y][1..] == [];
    } else {
      assert (s + [y])[1..] == s[1..] + [y];
      WithoutLast(s[1..], x, y);
    }
  }
}
