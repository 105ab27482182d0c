/** The ordering machinery shared by every ranking in the program.

    A JavaScript comparator chain `(a.x - b.x) || (a.y - b.y) || ...` lets the
    first key that differs decide and falls through on 0.  Each such chain is
    modelled by a key vector (descending keys negated) compared
    lexicographically by `KeyLe`; `Array.prototype.sort` is stable, which is
    modelled by the insertion sort `SortBy`. */
module Sorting {
  import opened Common

  function Head(a: seq<real>): real { if |a| > 0 then a[0] else 0.0 }
  function Tail(a: seq<real>): seq<real> { if |a| > 0 then a[1..] else [] }

  /** `a` may come before `b`: the comparator chain on them is <= 0.
      Missing trailing keys read as 0, so keys of any length are comparable. */
  predicate KeyLe(a: seq<real>, b: seq<real>)
    decreases |a| + |b|
  {
    if |a| == 0 && |b| == 0 then true
    else if Head(a) != Head(b) then Head(a) < Head(b)
    else KeyLe(Tail(a), Tail(b))
  }

  lemma {:induction false} KeyLeReflexive(a: seq<real>)
    ensures KeyLe(a, a)
    decreases |a|
  {
    if |a| > 0 { KeyLeReflexive(Tail(a)); }
  }

  lemma {:induction false} KeyLeTotal(a: seq<real>, b: seq<real>)
    ensures KeyLe(a, b) || KeyLe(b, a)
    decreases |a| + |b|
  {
    if !(|a| == 0 && |b| == 0) && Head(a) == Head(b) {
      KeyLeTotal(Tail(a), Tail(b));
    }
  }

  lemma {:induction false} KeyLeTransitive(a: seq<real>, b: seq<real>, c: seq<real>)
    requires KeyLe(a, b) && KeyLe(b, c)
    ensures KeyLe(a, c)
    decreases |a| + |b| + |c|
  {
    if |a| == 0 && |c| == 0 {
    } else if |a| == 0 && |b| == 0 {
    } else if |b| == 0 && |c| == 0 {
    } else if Head(a) == Head(b) && Head(b) == Head(c) {
      KeyLeTransitive(Tail(a), Tail(b), Tail(c));
    }
  }

  /** Every element may come before every later one. */
  ghost predicate SortedBy<T>(s: seq<T>, key: T -> seq<real>)
  {
    forall i, j :: 0 <= i < j < |s| ==> KeyLe(key(s[i]), key(s[j]))
  }

  /** Put `x` in front of the first element it may precede. */
  function Insert<T>(x: T, t: seq<T>, key: T -> seq<real>): (r: seq<T>)
    ensures multiset(r) == multiset(t) + multiset{x}
    ensures |r| == |t| + 1
  {
    if t == [] || KeyLe(key(x), key(t[0])) then [x] + t
    else
      assert t == [t[0]] + t[1..];
      [t[0]] + Insert(x, t[1..], key)
  }

  /** The stable sort: `SortBy(s, key)` is `s.sort(cmp)` for the chain `key` models. */
  function SortBy<T>(s: seq<T>, key: T -> seq<real>): (r: seq<T>)
    ensures multiset(r) == multiset(s)
    ensures |r| == |s|
  {
    if s == [] then []
    else
      assert s == [s[0]] + s[1..];
      Insert(s[0], SortBy(s[1..], key), key)
  }

  lemma {:induction false} InsertSorted<T>(x: T, t: seq<T>, key: T -> seq<real>)
    requires SortedBy(t, key)
    ensures SortedBy(Insert(x, t, key), key)
  {
    var r := Insert(x, t, key);
    if t == [] {
    } else if KeyLe(key(x), key(t[0])) {
      forall j | 1 <= j < |r| ensures KeyLe(key(r[0]), key(r[j])) {
        if j > 1 { KeyLeTransitive(key(x), key(t[0]), key(t[j - 1])); }
      }
    } else {
      KeyLeTotal(key(x), key(t[0]));
      var rest := Insert(x, t[1..], key);
      InsertSorted(x, t[1..], key);
      forall j | 0 <= j < |rest| ensures KeyLe(key(t[0]), key(rest[j])) {
        assert rest[j] in multiset(rest);
        if rest[j] != x {
          assert rest[j] in multiset(t[1..]);
          var k :| 0 <= k < |t[1..]| && t[1..][k] == rest[j];
          assert t[k + 1] == rest[j];
        }
      }
      assert r == [t[0]] + rest;
    }
  }

  /** The sort's output is ordered by its keys. */
  lemma {:induction false} SortSorted<T>(s: seq<T>, key: T -> seq<real>)
    ensures SortedBy(SortBy(s, key), key)
  {
    if s != [] {
      SortSorted(s[1..], key);
      InsertSorted(s[0], SortBy(s[1..], key), key);
    }
  }

  /** A sequence that is already ordered comes back unchanged. */
  lemma {:induction false} SortOfSorted<T>(s: seq<T>, key: T -> seq<real>)
    requires SortedBy(s, key)
    ensures SortBy(s, key) == s
  {
    if s != [] {
      assert SortedBy(s[1..], key) by {
        forall i, j | 0 <= i < j < |s[1..]| ensures KeyLe(key(s[1..][i]), key(s[1..][j])) {
          assert s[1..][i] == s[i + 1] && s[1..][j] == s[j + 1];
        }
      }
      SortOfSorted(s[1..], key);
      if |s| > 1 { assert KeyLe(key(s[0]), key(s[1])); }
      assert [s[0]] + s[1..] == s;
    }
  }

  /** Re-running a ranking on its own output changes nothing. */
  lemma SortIdempotent<T>(s: seq<T>, key: T -> seq<real>)
    ensures SortBy(SortBy(s, key), key) == SortBy(s, key)
  {
    SortSorted(s, key);
    SortOfSorted(SortBy(s, key), key);
  }

  /** Elements that tie on every key appear in increasing `pos` order. */
  ghost predicate TiesKeepOrder<T>(r: seq<T>, key: T -> seq<real>, pos: T -> int)
  {
    forall i, j :: 0 <= i < j < |r| && KeyLe(key(r[j]), key(r[i])) ==> pos(r[i]) < pos(r[j])
  }

  lemma TiesKeepOrderTail<T>(t: seq<T>, key: T -> seq<real>, pos: T -> int)
    requires t != [] && TiesKeepOrder(t, key, pos)
    ensures TiesKeepOrder(t[1..], key, pos)
  {
    forall i, j | 0 <= i < j < |t[1..]| && KeyLe(key(t[1..][j]), key(t[1..][i]))
      ensures pos(t[1..][i]) < pos(t[1..][j])
    {
      assert t[1..][i] == t[i + 1] && t[1..][j] == t[j + 1];
    }
  }

  /** When `x` goes behind the head, whatever ties with the head after the
      insertion came after it. */
  lemma HeadBeforeTies<T>(x: T, t: seq<T>, rest: seq<T>, key: T -> seq<real>, pos: T -> int)
    requires t != [] && !KeyLe(key(x), key(t[0])) && TiesKeepOrder(t, key, pos)
    requires rest == Insert(x, t[1..], key)
    ensures forall j :: 0 <= j < |rest| && KeyLe(key(rest[j]), key(t[0])) ==> pos(t[0]) < pos(rest[j])
  {
    forall j | 0 <= j < |rest| && KeyLe(key(rest[j]), key(t[0])) ensures pos(t[0]) < pos(rest[j]) {
      assert rest[j] in multiset(rest);
      if rest[j] == x {
        assert false;
      } else {
        assert rest[j] in multiset(t[1..]);
        var k :| 0 <= k < |t[1..]| && t[1..][k] == rest[j];
        assert t[k + 1] == rest[j];
      }
    }
  }

  lemma {:induction false} InsertStable<T>(x: T, t: seq<T>, key: T -> seq<real>, pos: T -> int)
    requires forall i :: 0 <= i < |t| ==> pos(x) < pos(t[i])
    requires TiesKeepOrder(t, key, pos)
    ensures TiesKeepOrder(Insert(x, t, key), key, pos)
  {
    var r := Insert(x, t, key);
    if t == [] || KeyLe(key(x), key(t[0])) {
      assert r == [x] + t;
      forall i, j | 0 <= i < j < |r| && KeyLe(key(r[j]), key(r[i])) ensures pos(r[i]) < pos(r[j]) {
        if i > 0 { assert r[i] == t[i - 1] && r[j] == t[j - 1]; }
      }
    } else {
      var rest := Insert(x, t[1..], key);
      TiesKeepOrderTail(t, key, pos);
      InsertStable(x, t[1..], key, pos);
      assert r == [t[0]] + rest;
      HeadBeforeTies(x, t, rest, key, pos);
      forall i, j | 0 <= i < j < |r| && KeyLe(key(r[j]), key(r[i])) ensures pos(r[i]) < pos(r[j]) {
        if i > 0 {
          assert r[i] == rest[i - 1] && r[j] == rest[j - 1];
        } else {
          assert r[j] == rest[j - 1] && r[0] == t[0];
          assert 0 <= j - 1 < |rest| && KeyLe(key(rest[j - 1]), key(t[0]));
        }
      }
    }
  }

  /** Stability: when the input is in increasing `pos` order (for instance
      creation order), elements that tie on every key keep that order. */
  lemma {:induction false} SortStable<T>(s: seq<T>, key: T -> seq<real>, pos: T -> int)
    requires forall i, j :: 0 <= i < j < |s| ==> pos(s[i]) < pos(s[j])
    ensures TiesKeepOrder(SortBy(s, key), key, pos)
  {
    if s != [] {
      var t := SortBy(s[1..], key);
      SortStable(s[1..], key, pos);
      forall i | 0 <= i < |t| ensures pos(s[0]) < pos(t[i]) {
        assert t[i] in multiset(s[1..]);
        var k :| 0 <= k < |s[1..]| && s[1..][k] == t[i];
        assert s[k + 1] == t[i];
      }
      InsertStable(s[0], t, key, pos);
    }
  }

  /** `r` is a top-`k` list of `s`: min(k, |s|) of its elements, each taken
      no more often than it occurs, ordered by `key`, and nothing left out
      ranks strictly ahead of anything kept. */
  ghost predicate IsTopOf<T>(r: seq<T>, s: seq<T>, key: T -> seq<real>, k: nat)
  {
    && |r| == Min(k, |s|)
    && multiset(r) <= multiset(s)
    && SortedBy(r, key)
    && forall x, y :: x in multiset(s) - multiset(r) && y in r ==> KeyLe(key(y), key(x))
  }

  /** The first `k` elements of the stable sort: `s.sort(cmp).slice(0, k)`.
      It keeps the best `k` (nothing left out ranks strictly ahead of
      anything kept), in order. */
  function TopK<T>(s: seq<T>, key: T -> seq<real>, k: nat): (r: seq<T>)
    ensures |r| == Min(k, |s|)
    ensures multiset(r) <= multiset(s)
    ensures forall x :: x in r ==> x in s
    ensures SortedBy(r, key)
    ensures forall x, y :: x in multiset(s) - multiset(r) && y in r ==> KeyLe(key(y), key(x))
  {
    var sorted := SortBy(s, key);
    var n := Min(k, |sorted|);
    SortSorted(s, key);
    TopKFacts(sorted, key, n);
    assert forall x :: x in sorted ==> x in multiset(s);
    sorted[..n]
  }

  lemma TopKFacts<T>(sorted: seq<T>, key: T -> seq<real>, n: nat)
    requires n <= |sorted| && SortedBy(sorted, key)
    ensures multiset(sorted[..n]) <= multiset(sorted)
    ensures forall x :: x in sorted[..n] ==> x in sorted
    ensures SortedBy(sorted[..n], key)
    ensures forall x, y :: x in multiset(sorted) - multiset(sorted[..n]) && y in sorted[..n] ==> KeyLe(key(y), key(x))
  {
    assert sorted == sorted[..n] + sorted[n..];
    assert multiset(sorted) - multiset(sorted[..n]) == multiset(sorted[n..]);
    forall x, y | x in multiset(sorted) - multiset(sorted[..n]) && y in sorted[..n] ensures KeyLe(key(y), key(x)) {
      assert x in sorted[n..];
      var a :| 0 <= a < n && sorted[a] == y;
      var b :| 0 <= b < |sorted[n..]| && sorted[n..][b] == x;
      assert sorted[n + b] == x;
    }
  }

  /** A shorter top list is the head of a longer one. */
  /** The top `k` inherits the sort's stability: among the kept elements,
      those that tie on every key keep their input order. */
  lemma TopKStable<T>(s: seq<T>, key: T -> seq<real>, pos: T -> int, k: nat)
    requires forall i, j :: 0 <= i < j < |s| ==> pos(s[i]) < pos(s[j])
    ensures TiesKeepOrder(TopK(s, key, k), key, pos)
  {
    var sorted := SortBy(s, key);
    SortStable(s, key, pos);
    assert TopK(s, key, k) == sorted[..Min(k, |sorted|)];
  }

  lemma TopKPrefix<T>(s: seq<T>, key: T -> seq<real>, k: nat, m: nat)
    requires k <= m
    ensures TopK(s, key, k) == TopK(s, key, m)[..Min(k, |TopK(s, key, m)|)]
  {
  }
}
