/**
 * Python's `sorted(xs, key=f)` on string keys: a stable sort, written here as an
 * insertion sort and proved to give an ordered permutation that keeps the input
 * order among elements with equal keys.
 */
module Sorting {
  import opened Strings

  /** `s` is in ascending order of `key`. */
  ghost predicate Ordered<T>(s: seq<T>, key: T -> string)
  {
    forall i, j :: 0 <= i < j < |s| ==> Below(key(s[i]), key(s[j]))
  }

  /** The elements of `s` whose key is `k`, in their order in `s`. */
  function Matching<T>(s: seq<T>, key: T -> string, k: string): seq<T>
  {
    if s == [] then [] else (if key(s[0]) == k then [s[0]] else []) + Matching(s[1..], key, k)
  }

  /** `r` is what a stable sort of `s` by `key` returns. */
  ghost predicate StableSortOf<T>(r: seq<T>, s: seq<T>, key: T -> string)
  {
    && Ordered(r, key)
    && multiset(r) == multiset(s)
    && forall k :: Matching(r, key, k) == Matching(s, key, k)
  }

  lemma LowerBound<T>(y: T, t: seq<T>, key: T -> string)
    requires Ordered(t, key) && t != [] && Below(key(y), key(t[0]))
    ensures forall e :: e in t ==> Below(key(y), key(e))
  {
    forall e | e in t
      ensures Below(key(y), key(e))
    {
      var m :| 0 <= m < |t| && t[m] == e;
      if m > 0 {
        BelowTransitive(key(y), key(t[0]), key(e));
      }
    }
  }

  lemma PrependOrdered<T>(y: T, t: seq<T>, key: T -> string)
    requires Ordered(t, key)
    requires forall e :: e in t ==> Below(key(y), key(e))
    ensures Ordered([y] + t, key)
  {
    var r := [y] + t;
    forall i, j | 0 <= i < j < |r|
      ensures Below(key(r[i]), key(r[j]))
    {
      if i == 0 {
        assert r[j] in t;
      } else {
        assert r[i] == t[i - 1] && r[j] == t[j - 1];
      }
    }
  }

  lemma TailOrdered<T>(t: seq<T>, key: T -> string)
    requires Ordered(t, key) && t != []
    ensures Ordered(t[1..], key)
  {
    forall i, j | 0 <= i < j < |t[1..]|
      ensures Below(key(t[1..][i]), key(t[1..][j]))
    {
      assert t[1..][i] == t[i + 1] && t[1..][j] == t[j + 1];
    }
  }

  /** `x` may go in front of an ordered `t` when its key is not above that of `t`'s first element. */
  lemma InsertFront<T>(x: T, t: seq<T>, key: T -> string)
    requires Ordered(t, key) && (t == [] || Below(key(x), key(t[0])))
    ensures Ordered([x] + t, key)
  {
    if t != [] {
      LowerBound(x, t, key);
    }
    PrependOrdered(x, t, key);
  }

  /** `t[0]` may stay in front of `rest` when `rest` holds `t[1..]` and an `x` whose key is above it. */
  lemma InsertBehind<T>(x: T, t: seq<T>, rest: seq<T>, key: T -> string)
    requires Ordered(t, key) && t != [] && !Below(key(x), key(t[0]))
    requires Ordered(rest, key) && multiset(rest) == multiset(t[1..]) + multiset{x}
    ensures Ordered([t[0]] + rest, key)
  {
    BelowTotal(key(x), key(t[0]));
    forall e | e in rest
      ensures Below(key(t[0]), key(e))
    {
      assert e in multiset(rest);
      if e != x {
        assert e in multiset(t[1..]);
        var m :| 0 <= m < |t[1..]| && t[1..][m] == e;
        assert t[m + 1] == e;
      }
    }
    PrependOrdered(t[0], rest, key);
  }

  /** Puts `x` in front of the first element of `t` whose key is not below `x`'s. */
  function Insert<T>(x: T, t: seq<T>, key: T -> string): (r: seq<T>)
    ensures multiset(r) == multiset(t) + multiset{x}
  {
    if t == [] || Below(key(x), key(t[0])) then [x] + t
    else
      var rest := Insert(x, t[1..], key);
      assert t == [t[0]] + t[1..];
      [t[0]] + rest
  }

  /** Inserting into an ordered sequence keeps it ordered. */
  lemma {:induction false} InsertOrdered<T>(x: T, t: seq<T>, key: T -> string)
    requires Ordered(t, key)
    ensures Ordered(Insert(x, t, key), key)
  {
    if t == [] || Below(key(x), key(t[0])) {
      InsertFront(x, t, key);
    } else {
      TailOrdered(t, key);
      InsertOrdered(x, t[1..], key);
      InsertBehind(x, t, Insert(x, t[1..], key), key);
    }
  }

  lemma MatchingSingle<T>(y: T, key: T -> string, k: string)
    ensures Matching([y], key, k) == if key(y) == k then [y] else []
  {
    assert [y][1..] == [];
  }

  lemma MatchingCons<T>(s: seq<T>, key: T -> string, k: string)
    requires s != []
    ensures Matching(s, key, k) == Matching([s[0]], key, k) + Matching(s[1..], key, k)
  {
    assert [s[0]][1..] == [];
  }

  /** Among elements whose key is `k`, the inserted `x` comes first. */
  lemma InsertMatchingFront<T>(x: T, t: seq<T>, key: T -> string, k: string)
    requires t == [] || Below(key(x), key(t[0]))
    ensures Matching(Insert(x, t, key), key, k) == Matching([x], key, k) + Matching(t, key, k)
  {
    var r := Insert(x, t, key);
    assert r == [x] + t;
    MatchingCons(r, key, k);
    assert r[1..] == t;
  }

  /** `x` goes behind `t[0]` exactly when the key of `x` is above that of `t[0]`. */
  lemma InsertBehindStep<T>(x: T, t: seq<T>, key: T -> string)
    requires t != [] && !Below(key(x), key(t[0]))
    ensures Insert(x, t, key) == [t[0]] + Insert(x, t[1..], key)
    ensures key(x) != key(t[0])
  {
    BelowReflexive(key(x));
  }

  lemma MatchingBehind<T>(x: T, t: seq<T>, rest: seq<T>, key: T -> string, k: string)
    requires t != [] && key(x) != key(t[0])
    requires Matching(rest, key, k) == Matching([x], key, k) + Matching(t[1..], key, k)
    ensures Matching([t[0]] + rest, key, k) == Matching([x], key, k) + Matching(t, key, k)
  {
    var front, mid := Matching([t[0]], key, k), Matching([x], key, k);
    MatchingSingle(x, key, k);
    MatchingSingle(t[0], key, k);
    calc {
      Matching([t[0]] + rest, key, k);
      { MatchingCons([t[0]] + rest, key, k); assert ([t[0]] + rest)[1..] == rest; }
      front + Matching(rest, key, k);
      front + (mid + Matching(t[1..], key, k));
      mid + (front + Matching(t[1..], key, k));
      { MatchingCons(t, key, k); }
      mid + Matching(t, key, k);
    }
  }

  /** Among the elements whose key is `k`, the inserted `x` comes first. */
  lemma {:induction false} InsertMatching<T>(x: T, t: seq<T>, key: T -> string, k: string)
    ensures Matching(Insert(x, t, key), key, k) == Matching([x], key, k) + Matching(t, key, k)
  {
    if t == [] || Below(key(x), key(t[0])) {
      InsertMatchingFront(x, t, key, k);
    } else {
      InsertMatching(x, t[1..], key, k);
      InsertBehindStep(x, t, key);
      MatchingBehind(x, t, Insert(x, t[1..], key), key, k);
    }
  }

  /** Inserting the first element into a stable sort of the rest gives a stable sort of the whole. */
  lemma SortStep<T>(s: seq<T>, rest: seq<T>, key: T -> string)
    requires s != [] && StableSortOf(rest, s[1..], key)
    ensures StableSortOf(Insert(s[0], rest, key), s, key)
  {
    var r := Insert(s[0], rest, key);
    InsertOrdered(s[0], rest, key);
    calc {
      multiset(r);
      multiset(rest) + multiset{s[0]};
      multiset(s[1..]) + multiset{s[0]};
      { assert s == [s[0]] + s[1..]; }
      multiset(s);
    }
    forall k
      ensures Matching(r, key, k) == Matching(s, key, k)
    {
      InsertMatching(s[0], rest, key, k);
      MatchingCons(s, key, k);
    }
  }

  /** Python's `sorted(s, key=key)`. */
  function SortBy<T>(s: seq<T>, key: T -> string): (r: seq<T>)
    ensures |r| == |s|
    ensures StableSortOf(r, s, key)
  {
    if s == [] then []
    else
      var rest := SortBy(s[1..], key);
      SortStep(s, rest, key);
      var r := Insert(s[0], rest, key);
      assert |r| == |multiset(r)| == |multiset(s)|;
      r
  }
}
