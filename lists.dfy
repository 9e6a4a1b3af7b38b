/** Sequence operations the components use through JavaScript's Array methods:
    `filter`, and the facts about it on which the selection and search logic rest. */
module Lists {

  /** `s.filter(f)`: the elements of `s` that satisfy `f`, in their original order. */
  function Filter<T(==,!new)>(f: T -> bool, s: seq<T>): (r: seq<T>)
    ensures |r| <= |s|
    ensures forall x :: x in r <==> x in s && f(x)
  {
    if s == [] then []
    else
      var rest := Filter(f, s[1..]);
      assert forall x :: x in s <==> x == s[0] || x in s[1..];
      if f(s[0]) then [s[0]] + rest else rest
  }

  /** `a` is obtained from `b` by deleting elements: the elements of `a` occur in `b`
      in the same relative order. */
  predicate IsSubseq<T(==,!new)>(a: seq<T>, b: seq<T>)
    decreases |b|
  {
    if b == [] then a == []
    else (a != [] && a[0] == b[0] && IsSubseq(a[1..], b[1..])) || IsSubseq(a, b[1..])
  }

  /** No element occurs twice. */
  predicate NoDup<T(==,!new)>(s: seq<T>) {
    forall i, j :: 0 <= i < j < |s| ==> s[i] != s[j]
  }

  /** The test `x => x !== t`. */
  function Unequal<T(==)>(t: T): T -> bool {
    x => x != t
  }

  /** Every element except `t`, in order: `s.filter(x => x !== t)`. */
  function RemoveAll<T(==,!new)>(s: seq<T>, t: T): (r: seq<T>)
    ensures t !in r
    ensures forall x :: x != t ==> (x in r <==> x in s)
  {
    Filter(Unequal(t), s)
  }

  lemma {:induction false} FilterIsSubseq<T(!new)>(f: T -> bool, s: seq<T>)
    ensures IsSubseq(Filter(f, s), s)
  {
    if s != [] {
      FilterIsSubseq(f, s[1..]);
      if f(s[0]) {
        assert Filter(f, s) == [s[0]] + Filter(f, s[1..]);
        assert Filter(f, s)[1..] == Filter(f, s[1..]);
      }
    }
  }

  /** `filter` keeps every copy of a selected element and no copy of any other. */
  lemma {:induction false} FilterCounts<T(!new)>(f: T -> bool, s: seq<T>)
    ensures forall x :: multiset(Filter(f, s))[x] == if f(x) then multiset(s)[x] else 0
  {
    if s != [] {
      FilterCounts(f, s[1..]);
      assert s == [s[0]] + s[1..];
      assert multiset(s) == multiset{s[0]} + multiset(s[1..]);
    }
  }

  lemma {:induction false} FilterKeepsAll<T(!new)>(f: T -> bool, s: seq<T>)
    requires forall x :: x in s ==> f(x)
    ensures Filter(f, s) == s
  {
    if s != [] {
      FilterKeepsAll(f, s[1..]);
      assert s == [s[0]] + s[1..];
    }
  }

  lemma {:induction false} FilterConcat<T(!new)>(f: T -> bool, a: seq<T>, b: seq<T>)
    ensures Filter(f, a + b) == Filter(f, a) + Filter(f, b)
  {
    if a == [] {
      assert a + b == b;
    } else {
      assert (a + b)[0] == a[0];
      assert (a + b)[1..] == a[1..] + b;
      FilterConcat(f, a[1..], b);
    }
  }

  /** Two tests that agree on every element select the same elements. */
  lemma {:induction false} FilterExtensional<T(!new)>(f: T -> bool, g: T -> bool, s: seq<T>)
    requires forall x :: x in s ==> f(x) == g(x)
    ensures Filter(f, s) == Filter(g, s)
  {
    if s != [] {
      assert s[0] in s;
      assert forall x :: x in s[1..] ==> x in s;
      FilterExtensional(f, g, s[1..]);
    }
  }

  /** Two tests that no element satisfies together select at most |s| elements between them. */
  lemma {:induction false} FilterDisjointLength<T(!new)>(f: T -> bool, g: T -> bool, s: seq<T>)
    requires forall x :: x in s ==> !(f(x) && g(x))
    ensures |Filter(f, s)| + |Filter(g, s)| <= |s|
  {
    if s != [] {
      assert s[0] in s;
      assert forall x :: x in s[1..] ==> x in s;
      FilterDisjointLength(f, g, s[1..]);
    }
  }

  lemma {:induction false} FilterNoDup<T(!new)>(f: T -> bool, s: seq<T>)
    requires NoDup(s)
    ensures NoDup(Filter(f, s))
  {
    if s != [] {
      var tail := s[1..];
      assert NoDup(tail) by {
        forall i, j | 0 <= i < j < |tail| ensures tail[i] != tail[j] {
          assert tail[i] == s[i + 1] && tail[j] == s[j + 1];
        }
      }
      FilterNoDup(f, tail);
      if f(s[0]) {
        assert s[0] !in tail by {
          forall k | 0 <= k < |tail| ensures tail[k] != s[0] {
            assert tail[k] == s[k + 1];
          }
        }
        NoDupCons(s[0], Filter(f, tail));
      }
    }
  }

  lemma NoDupCons<T(!new)>(x: T, s: seq<T>)
    requires x !in s && NoDup(s)
    ensures NoDup([x] + s)
  {
  }

  lemma NoDupSnoc<T(!new)>(s: seq<T>, x: T)
    requires x !in s && NoDup(s)
    ensures NoDup(s + [x])
  {
  }

  /** In a sequence without duplicates, removing an element that occurs removes exactly
      one copy of it. */
  lemma {:induction false} RemoveAllOnce<T(!new)>(s: seq<T>, t: T)
    requires NoDup(s) && t in s
    ensures multiset(RemoveAll(s, t)) + multiset{t} == multiset(s)
  {
    var tail := s[1..];
    assert s == [s[0]] + tail;
    assert NoDup(tail) by {
      forall i, j | 0 <= i < j < |tail| ensures tail[i] != tail[j] {
        assert tail[i] == s[i + 1] && tail[j] == s[j + 1];
      }
    }
    if s[0] == t {
      assert t !in tail by {
        forall k | 0 <= k < |tail| ensures tail[k] != t {
          assert tail[k] == s[k + 1];
        }
      }
      assert RemoveAll(s, t) == RemoveAll(tail, t);
      FilterKeepsAll(Unequal(t), tail);
      assert RemoveAll(tail, t) == tail;
    } else {
      assert RemoveAll(s, t) == [s[0]] + RemoveAll(tail, t);
      RemoveAllOnce(tail, t);
    }
  }
}
