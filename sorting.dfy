/** A stable sort driven by a comparator in the convention of
    `Array.prototype.sort`: a negative result puts the first argument first,
    a positive one the second, and zero keeps the input order. The language
    guarantees that this sort is stable; it is modelled as insertion sort, and
    the lemmas below prove it sorted, a permutation, and stable. */
module Sorting {
  import Seqs


  /** `cmp` orders the values of `dom` as a total preorder: swapping the
      arguments flips the sign, and "goes no later than" is transitive. */
  ghost predicate PreorderOn<T>(cmp: (T, T) -> int, dom: set<T>) {
    && (forall a, b :: a in dom && b in dom ==> (cmp(a, b) < 0 <==> cmp(b, a) > 0))
    && (forall a, b, c {:trigger cmp(a, b), cmp(b, c), cmp(a, c)} ::
          a in dom && b in dom && c in dom && cmp(a, b) <= 0 && cmp(b, c) <= 0 ==> cmp(a, c) <= 0)
  }

  ghost predicate Within<T>(s: seq<T>, dom: set<T>) {
    forall a :: a in s ==> a in dom
  }

  /** Every element goes no later than every element after it. */
  ghost predicate Sorted<T>(cmp: (T, T) -> int, s: seq<T>) {
    forall i, j :: 0 <= i < j < |s| ==> cmp(s[i], s[j]) <= 0
  }

  /** The elements of `s` that compare equal to `k`, in their order in `s`. */
  function Ties<T>(cmp: (T, T) -> int, s: seq<T>, k: T): seq<T> {
    if s == [] then [] else Tie(cmp, s[0], k) + Ties(cmp, s[1..], k)
  }

  /** `a` alone when it compares equal to `k`, else nothing. */
  function Tie<T>(cmp: (T, T) -> int, a: T, k: T): seq<T> {
    if cmp(a, k) == 0 then [a] else []
  }

  /** Puts `x` before the first element it does not follow. */
  function Insert<T>(cmp: (T, T) -> int, x: T, t: seq<T>): (r: seq<T>)
    ensures multiset(r) == multiset(t) + multiset{x}
    ensures |r| == |t| + 1
  {
    if t == [] then [x]
    else if cmp(x, t[0]) <= 0 then [x] + t
    else
      assert t == [t[0]] + t[1..];
      [t[0]] + Insert(cmp, x, t[1..])
  }

  function Sort<T>(cmp: (T, T) -> int, s: seq<T>): (r: seq<T>)
    ensures multiset(r) == multiset(s)
    ensures |r| == |s|
  {
    if s == [] then []
    else
      assert s == [s[0]] + s[1..];
      Insert(cmp, s[0], Sort(cmp, s[1..]))
  }

  lemma {:induction false} InsertSorted<T>(cmp: (T, T) -> int, dom: set<T>, x: T, t: seq<T>)
    requires PreorderOn(cmp, dom) && x in dom && Within(t, dom) && Sorted(cmp, t)
    ensures Sorted(cmp, Insert(cmp, x, t))
    decreases |t|
  {
    if t != [] {
      if cmp(x, t[0]) <= 0 {
        SortedBefore(cmp, dom, x, t);
      } else {
        var rest := Insert(cmp, x, t[1..]);
        InsertSorted(cmp, dom, x, t[1..]);
        HeadPrecedesInsert(cmp, dom, x, t);
        SortedCons(cmp, t[0], rest);
      }
    }
  }

  /** Putting an element that goes no later than the head in front keeps
      a sorted sequence sorted. */
  lemma SortedBefore<T>(cmp: (T, T) -> int, dom: set<T>, x: T, t: seq<T>)
    requires PreorderOn(cmp, dom) && x in dom && Within(t, dom) && Sorted(cmp, t)
    requires t != [] && cmp(x, t[0]) <= 0
    ensures Sorted(cmp, [x] + t)
  {
    var r := [x] + t;
    forall i, j | 0 <= i < j < |r| ensures cmp(r[i], r[j]) <= 0 {
      if i == 0 && j > 1 {
        assert t[0] in dom && t[j - 1] in dom;
        assert cmp(t[0], t[j - 1]) <= 0;
      } else if i > 0 {
        assert r[i] == t[i - 1] && r[j] == t[j - 1];
      }
    }
  }

  /** When the head of a sorted `t` goes before `x`, it goes no later than
      anything in the insertion of `x` into the tail. */
  lemma HeadPrecedesInsert<T>(cmp: (T, T) -> int, dom: set<T>, x: T, t: seq<T>)
    requires PreorderOn(cmp, dom) && x in dom && Within(t, dom) && Sorted(cmp, t)
    requires t != [] && cmp(x, t[0]) > 0
    ensures forall e :: e in Insert(cmp, x, t[1..]) ==> cmp(t[0], e) <= 0
  {
    var rest := Insert(cmp, x, t[1..]);
    assert cmp(t[0], x) < 0 by { assert t[0] in dom; }
    forall e | e in rest ensures cmp(t[0], e) <= 0 {
      assert e in multiset(rest);
      if e != x {
        assert e in multiset(t[1..]);
        var j :| 0 <= j < |t[1..]| && t[1..][j] == e;
        assert cmp(t[0], t[j + 1]) <= 0;
      }
    }
  }

  /** A sorted sequence stays sorted behind an element that goes no later
      than any of its elements. */
  lemma SortedCons<T>(cmp: (T, T) -> int, y: T, rest: seq<T>)
    requires Sorted(cmp, rest) && forall e :: e in rest ==> cmp(y, e) <= 0
    ensures Sorted(cmp, [y] + rest)
  {
    var r := [y] + rest;
    forall i, j | 0 <= i < j < |r| ensures cmp(r[i], r[j]) <= 0 {
      if i == 0 {
        assert r[j] == rest[j - 1] && rest[j - 1] in rest;
      } else {
        assert r[i] == rest[i - 1] && r[j] == rest[j - 1];
      }
    }
  }

  /** The sort's output is ordered by `cmp` whenever `cmp` is a total
      preorder on the input's elements. */
  lemma {:induction false} SortSorted<T>(cmp: (T, T) -> int, dom: set<T>, s: seq<T>)
    requires PreorderOn(cmp, dom) && Within(s, dom)
    ensures Sorted(cmp, Sort(cmp, s))
    decreases |s|
  {
    if s != [] {
      var t := Sort(cmp, s[1..]);
      SortSorted(cmp, dom, s[1..]);
      forall a | a in t ensures a in dom {
        assert a in multiset(t);
        assert a in s[1..];
      }
      InsertSorted(cmp, dom, s[0], t);
    }
  }

  /** No element of `t` tied with `k` goes strictly before `x` when `x` is
      tied with `k` too. */
  ghost predicate TiesBefore<T>(cmp: (T, T) -> int, x: T, t: seq<T>, k: T) {
    forall y :: y in t ==> (cmp(x, k) == 0 && cmp(y, k) == 0 ==> cmp(x, y) <= 0)
  }

  lemma {:induction false} InsertTies<T>(cmp: (T, T) -> int, x: T, t: seq<T>, k: T)
    requires TiesBefore(cmp, x, t, k)
    ensures Ties(cmp, Insert(cmp, x, t), k) == Tie(cmp, x, k) + Ties(cmp, t, k)
    decreases |t|
  {
    if t == [] || cmp(x, t[0]) <= 0 {
      InsertTiesInFront(cmp, x, t, k);
    } else {
      assert forall y :: y in t[1..] ==> y in t;
      assert t[0] in t;
      InsertTies(cmp, x, t[1..], k);
      TiesPastHead(cmp, x, t[0], t[1..], Insert(cmp, x, t[1..]), k);
      Seqs.HeadTail(t);
    }
  }

  /** Inserting in front adds `x`'s own tie in front. */
  lemma InsertTiesInFront<T>(cmp: (T, T) -> int, x: T, t: seq<T>, k: T)
    requires t == [] || cmp(x, t[0]) <= 0
    ensures Ties(cmp, Insert(cmp, x, t), k) == Tie(cmp, x, k) + Ties(cmp, t, k)
  {
    assert Insert(cmp, x, t) == [x] + t;
    TiesCons(cmp, x, t, k);
  }

  /** Past a head `h` that is not tied with `k` together with `x`, the ties
      of `x` and of `h` commute, since at most one of the two is there. */
  lemma TiesPastHead<T>(cmp: (T, T) -> int, x: T, h: T, u: seq<T>, rest: seq<T>, k: T)
    requires Tie(cmp, x, k) == [] || Tie(cmp, h, k) == []
    requires Ties(cmp, rest, k) == Tie(cmp, x, k) + Ties(cmp, u, k)
    ensures Ties(cmp, [h] + rest, k) == Tie(cmp, x, k) + Ties(cmp, [h] + u, k)
  {
    var mine, head, tail := Tie(cmp, x, k), Tie(cmp, h, k), Ties(cmp, u, k);
    TiesCons(cmp, h, rest, k);
    TiesCons(cmp, h, u, k);
    if mine == [] {
      assert mine + tail == tail;
      assert Ties(cmp, [h] + rest, k) == head + tail;
      assert Ties(cmp, [h] + u, k) == head + tail;
      assert mine + (head + tail) == head + tail;
    } else {
      assert head + (mine + tail) == mine + tail;
      assert Ties(cmp, [h] + u, k) == tail;
    }
  }

  lemma TiesCons<T>(cmp: (T, T) -> int, a: T, s: seq<T>, k: T)
    ensures Ties(cmp, [a] + s, k) == Tie(cmp, a, k) + Ties(cmp, s, k)
  {
    assert ([a] + s)[1..] == s;
  }

  /** Two elements tied with `k` cannot be strictly out of order. */
  lemma TiesAgree<T>(cmp: (T, T) -> int, dom: set<T>, x: T, y: T, k: T)
    requires PreorderOn(cmp, dom) && x in dom && y in dom && k in dom
    ensures cmp(x, k) == 0 && cmp(y, k) == 0 ==> cmp(x, y) <= 0
  {
    if cmp(x, k) == 0 && cmp(y, k) == 0 {
      assert cmp(k, y) <= 0;
    }
  }

  /** Stability: for every key `k`, the elements tied with `k` leave the sort
      in the order they entered it. */
  lemma {:induction false} SortStable<T>(cmp: (T, T) -> int, dom: set<T>, s: seq<T>, k: T)
    requires PreorderOn(cmp, dom) && Within(s, dom) && k in dom
    ensures Ties(cmp, Sort(cmp, s), k) == Ties(cmp, s, k)
    decreases |s|
  {
    if s != [] {
      var t := Sort(cmp, s[1..]);
      SortStable(cmp, dom, s[1..], k);
      forall a | a in t ensures a in dom {
        assert a in multiset(t);
        assert a in s[1..];
      }
      forall y | y in t ensures cmp(s[0], k) == 0 && cmp(y, k) == 0 ==> cmp(s[0], y) <= 0 {
        TiesAgree(cmp, dom, s[0], y, k);
      }
      InsertTies(cmp, s[0], t, k);
    }
  }

  /** A comparator that calls everything equal leaves the input as it is. */
  lemma {:induction false} SortAllTiesIsIdentity<T>(cmp: (T, T) -> int, s: seq<T>)
    requires forall a, b :: a in s && b in s ==> cmp(a, b) == 0
    ensures Sort(cmp, s) == s
    decreases |s|
  {
    if s != [] {
      assert forall a :: a in s[1..] ==> a in s;
      SortAllTiesIsIdentity(cmp, s[1..]);
      assert Sort(cmp, s) == Insert(cmp, s[0], s[1..]);
      if |s| > 1 {
        assert s[1..][0] == s[1];
        assert s[0] in s && s[1] in s;
      }
      assert Insert(cmp, s[0], s[1..]) == [s[0]] + s[1..];
      Seqs.HeadTail(s);
    }
  }
}
