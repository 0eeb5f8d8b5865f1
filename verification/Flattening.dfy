/**
  Sequences flattened through a projection, and what rearranging the sequence does to them. The rail
  files sessions into nested lists, so where a session went is a question about such flattenings.
 */
module Flattening {
  import opened Sorting

  function Flat<T, U>(s: seq<T>, f: T -> seq<U>): seq<U> {
    if s == [] then [] else f(s[0]) + Flat(s[1..], f)
  }

  function Filter<T>(s: seq<T>, p: T -> bool): seq<T> {
    if s == [] then [] else (if p(s[0]) then [s[0]] else []) + Filter(s[1..], p)
  }

  /** The first position where `p` holds, or the length. */
  function IndexWhere<T>(s: seq<T>, p: T -> bool): (i: nat)
    ensures i <= |s| && (i < |s| ==> p(s[i]))
    ensures forall j :: 0 <= j < i ==> !p(s[j])
  {
    if s == [] || p(s[0]) then 0 else 1 + IndexWhere(s[1..], p)
  }

  lemma {:induction false} FilterMembers<T>(s: seq<T>, p: T -> bool)
    ensures forall x :: x in Filter(s, p) <==> x in s && p(x)
  {
    if s != [] {
      FilterMembers(s[1..], p);
      assert forall x :: x in s <==> x == s[0] || x in s[1..];
    }
  }

  lemma {:induction false} FilterPush<T>(s: seq<T>, x: T, p: T -> bool)
    ensures Filter(s + [x], p) == Filter(s, p) + if p(x) then [x] else []
  {
    if s == [] {
      assert [x][1..] == [];
    } else {
      FilterPush(s[1..], x, p);
      assert (s + [x])[0] == s[0] && (s + [x])[1..] == s[1..] + [x];
      var head, rest := if p(s[0]) then [s[0]] else [], Filter(s[1..], p);
      var last := if p(x) then [x] else [];
      assert head + (rest + last) == (head + rest) + last;
    }
  }

  lemma {:induction false} FlatAppend<T, U>(a: seq<T>, b: seq<T>, f: T -> seq<U>)
    ensures Flat(a + b, f) == Flat(a, f) + Flat(b, f)
  {
    if a == [] {
      assert a + b == b;
    } else {
      FlatAppend(a[1..], b, f);
      assert (a + b)[0] == a[0] && (a + b)[1..] == a[1..] + b;
      assert f(a[0]) + (Flat(a[1..], f) + Flat(b, f)) == (f(a[0]) + Flat(a[1..], f)) + Flat(b, f);
    }
  }

  lemma FlatPush<T, U>(s: seq<T>, x: T, f: T -> seq<U>)
    ensures Flat(s + [x], f) == Flat(s, f) + f(x)
  {
    FlatAppend(s, [x], f);
    assert Flat([x], f) == f(x) + Flat([], f) == f(x);
  }

  /** Replacing one element moves exactly its own contribution. */
  lemma FlatUpdate<T, U>(s: seq<T>, i: nat, x: T, f: T -> seq<U>)
    requires i < |s|
    ensures multiset(Flat(s[i := x], f)) + multiset(f(s[i])) == multiset(Flat(s, f)) + multiset(f(x))
  {
    var before, after := s[..i], s[i + 1..];
    assert s == before + ([s[i]] + after);
    assert s[i := x] == before + ([x] + after);
    FlatAppend(before, [s[i]] + after, f);
    FlatAppend(before, [x] + after, f);
  }

  lemma FlatAppendCounts<T, U>(a: seq<T>, b: seq<T>, f: T -> seq<U>)
    ensures multiset(Flat(a + b, f)) == multiset(Flat(a, f)) + multiset(Flat(b, f))
  {
    FlatAppend(a, b, f);
  }

  lemma FlatNext<T, U>(s: seq<T>, i: nat, f: T -> seq<U>)
    requires i < |s|
    ensures multiset(Flat(s[..i + 1], f)) == multiset(Flat(s[..i], f)) + multiset(f(s[i]))
  {
    FlatPush(s[..i], s[i], f);
    assert s[..i + 1] == s[..i] + [s[i]];
  }

  function Without<T>(s: seq<T>, i: nat): seq<T>
    requires i < |s|
  {
    s[..i] + s[i + 1..]
  }

  lemma WithoutCounts<T>(s: seq<T>, i: nat)
    requires i < |s|
    ensures multiset(s) == multiset{s[i]} + multiset(Without(s, i))
  {
    assert s == s[..i] + [s[i]] + s[i + 1..];
  }

  lemma FlatWithout<T, U>(s: seq<T>, i: nat, f: T -> seq<U>)
    requires i < |s|
    ensures multiset(Flat(s, f)) == multiset(f(s[i])) + multiset(Flat(Without(s, i), f))
  {
    var a, b := s[..i], s[i + 1..];
    assert s == a + ([s[i]] + b);
    FlatAppend(a, [s[i]] + b, f);
    FlatAppend(a, b, f);
    assert Flat([s[i]] + b, f) == f(s[i]) + Flat(b, f);
    Swap(multiset(Flat(a, f)), multiset(f(s[i])), multiset(Flat(b, f)));
  }

  lemma Swap<U>(a: multiset<U>, b: multiset<U>, c: multiset<U>)
    ensures a + (b + c) == b + (a + c)
  {
  }

  lemma CancelOne<T>(x: T, a: multiset<T>, b: multiset<T>)
    requires multiset{x} + a == multiset{x} + b
    ensures a == b
  {
    assert a == (multiset{x} + a) - multiset{x};
    assert b == (multiset{x} + b) - multiset{x};
  }

  /** Permuting a list permutes what it flattens to. */
  lemma {:induction false} FlatPermute<T, U>(a: seq<T>, b: seq<T>, f: T -> seq<U>)
    requires multiset(a) == multiset(b)
    ensures multiset(Flat(a, f)) == multiset(Flat(b, f))
    decreases |a|
  {
    assert |multiset(a)| == |multiset(b)|;
    if a != [] {
      assert a[0] in multiset(b);
      var k :| 0 <= k < |b| && b[k] == a[0];
      WithoutCounts(a, 0);
      WithoutCounts(b, k);
      CancelOne(a[0], multiset(Without(a, 0)), multiset(Without(b, k)));
      FlatPermute(Without(a, 0), Without(b, k), f);
      FlatWithout(a, 0, f);
      FlatWithout(b, k, f);
    }
  }

  /** The same, when the replacement holds `extra` more than what it replaces. */
  lemma FlatGrow<T, U>(s: seq<T>, i: nat, x: T, f: T -> seq<U>, extra: multiset<U>)
    requires i < |s| && multiset(f(x)) == multiset(f(s[i])) + extra
    ensures multiset(Flat(s[i := x], f)) == multiset(Flat(s, f)) + extra
  {
    FlatUpdate(s, i, x, f);
    Cancel(multiset(Flat(s[i := x], f)), multiset(f(s[i])), multiset(Flat(s, f)), extra);
  }

  lemma Cancel<U>(a: multiset<U>, b: multiset<U>, c: multiset<U>, extra: multiset<U>)
    requires a + b == c + (b + extra)
    ensures a == c + extra
  {
    forall u ensures a[u] == (c + extra)[u] {
      assert (a + b)[u] == (c + (b + extra))[u];
    }
  }

  lemma {:induction false} FlatInsert<T, U>(x: T, s: seq<T>, le: (T, T) -> bool, f: T -> seq<U>)
    ensures multiset(Flat(Insert(x, s, le), f)) == multiset(f(x)) + multiset(Flat(s, f))
  {
    if !(s == [] || le(x, s[0])) { FlatInsert(x, s[1..], le, f); }
  }

  lemma {:induction false} FlatSort<T, U>(s: seq<T>, le: (T, T) -> bool, f: T -> seq<U>)
    ensures multiset(Flat(SortBy(s, le), f)) == multiset(Flat(s, f))
  {
    if s != [] {
      FlatSort(s[1..], le, f);
      FlatInsert(s[0], SortBy(s[1..], le), le, f);
    }
  }

  /** Splitting a list between two disjoint filters loses nothing. */
  lemma {:induction false} FlatSplit<T, U>(s: seq<T>, p: T -> bool, q: T -> bool, both: T -> bool, f: T -> seq<U>)
    requires forall x <- s :: both(x) == (p(x) || q(x)) && !(p(x) && q(x))
    ensures multiset(Flat(Filter(s, both), f)) ==
      multiset(Flat(Filter(s, p), f)) + multiset(Flat(Filter(s, q), f))
  {
    if s != [] {
      FlatSplit(s[1..], p, q, both, f);
      var rest := s[1..];
      assert s[0] in s;
      FlatHead(s, p, f);
      FlatHead(s, q, f);
      FlatHead(s, both, f);
    }
  }

  lemma FlatHead<T, U>(s: seq<T>, p: T -> bool, f: T -> seq<U>)
    requires s != []
    ensures multiset(Flat(Filter(s, p), f)) ==
      (if p(s[0]) then multiset(f(s[0])) else multiset{}) + multiset(Flat(Filter(s[1..], p), f))
  {
    if p(s[0]) {
      assert Filter(s, p) == [s[0]] + Filter(s[1..], p);
      FlatAppend([s[0]], Filter(s[1..], p), f);
      assert Flat([s[0]], f) == f(s[0]) + Flat([], f);
    } else {
      assert Filter(s, p) == Filter(s[1..], p);
    }
  }

  /** What a filter drops contributes nothing, so the filtered list flattens alike. */
  lemma {:induction false} FlatDrop<T, U>(s: seq<T>, p: T -> bool, f: T -> seq<U>)
    requires forall x <- s :: !p(x) ==> f(x) == []
    ensures Flat(Filter(s, p), f) == Flat(s, f)
  {
    if s != [] {
      FlatDrop(s[1..], p, f);
      assert s[0] in s;
      if p(s[0]) {
        assert Filter(s, p) == [s[0]] + Filter(s[1..], p);
        FlatAppend([s[0]], Filter(s[1..], p), f);
        assert Flat([s[0]], f) == f(s[0]) + Flat([], f) == f(s[0]);
      } else {
        assert Filter(s, p) == [] + Filter(s[1..], p) == Filter(s[1..], p);
      }
    }
  }

  lemma {:induction false} FlatSame<T, V, U>(s: seq<T>, t: seq<V>, f: T -> seq<U>, g: V -> seq<U>)
    requires |s| == |t| && forall i :: 0 <= i < |s| ==> multiset(f(s[i])) == multiset(g(t[i]))
    ensures multiset(Flat(s, f)) == multiset(Flat(t, g))
  {
    if s != [] { FlatSame(s[1..], t[1..], f, g); }
  }

  lemma {:induction false} FlatSum<T, U>(s: seq<T>, f: T -> seq<U>, g: T -> seq<U>, h: T -> seq<U>)
    requires forall x <- s :: multiset(h(x)) == multiset(f(x)) + multiset(g(x))
    ensures multiset(Flat(s, h)) == multiset(Flat(s, f)) + multiset(Flat(s, g))
  {
    if s != [] {
      assert s[0] in s;
      FlatSum(s[1..], f, g, h);
    }
  }

  function OwnedBy<T>(owner: T -> int, j: int): T -> bool {
    x => owner(x) == j
  }

  function OwnedAmong<T>(owner: T -> int, js: seq<int>): T -> bool {
    x => owner(x) in js
  }

  /** What one owner's part of the list flattens to. */
  function Share<T, U>(s: seq<T>, owner: T -> int, f: T -> seq<U>): int -> seq<U> {
    j => Flat(Filter(s, OwnedBy(owner, j)), f)
  }

  /** Dealing a list out to distinct owners loses and repeats nothing. */
  lemma {:induction false} DealOut<T, U>(s: seq<T>, owner: T -> int, js: seq<int>, f: T -> seq<U>)
    requires forall i, k :: 0 <= i < k < |js| ==> js[i] != js[k]
    ensures multiset(Flat(js, Share(s, owner, f))) == multiset(Flat(Filter(s, OwnedAmong(owner, js)), f))
    decreases |js|
  {
    if js == [] {
      FilterNone(s, OwnedAmong(owner, js));
    } else {
      DealOut(s, owner, js[1..], f);
      assert forall j :: j in js <==> j == js[0] || j in js[1..];
      FlatSplit(s, OwnedBy(owner, js[0]), OwnedAmong(owner, js[1..]), OwnedAmong(owner, js), f);
    }
  }

  lemma {:induction false} FilterNone<T>(s: seq<T>, p: T -> bool)
    requires forall x <- s :: !p(x)
    ensures Filter(s, p) == []
  {
    if s != [] {
      assert s[0] in s;
      FilterNone(s[1..], p);
    }
  }

  lemma {:induction false} FilterSame<T>(s: seq<T>, p: T -> bool, q: T -> bool)
    requires forall x <- s :: p(x) == q(x)
    ensures Filter(s, p) == Filter(s, q)
  {
    if s != [] {
      assert s[0] in s;
      FilterSame(s[1..], p, q);
    }
  }
}
