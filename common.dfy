/** Small shared vocabulary: optional values, results, identifier ranges and
    permutations, JavaScript's `String.prototype.trim` and decimal rendering. */
module Common {

  datatype Option<T> = None | Some(value: T)

  datatype Result<T, E> = Ok(value: T) | Err(error: E)

  function Min(a: int, b: int): (r: int)
    ensures r <= a && r <= b && (r == a || r == b)
  {
    if a <= b then a else b
  }

  /** The identifiers 0, 1, ..., n-1 in creation order. */
  function Ids(n: nat): (r: seq<nat>)
    ensures |r| == n
    ensures forall i :: 0 <= i < n ==> r[i] == i
  {
    seq(n, i => i)
  }

  /** `order` lists every identifier below `n` exactly once: what a shuffle
      of `Ids(n)` produces, whatever the random comparator did. */
  ghost predicate IsPermutationOfIds(order: seq<nat>, n: nat)
  {
    |order| == n && multiset(order) == multiset(Ids(n))
  }

  predicate Distinct<T(==)>(s: seq<T>)
  {
    forall i, j :: 0 <= i < j < |s| ==> s[i] != s[j]
  }

  /** A value occurring at two positions is counted twice by the multiset. */
  lemma {:induction false} TwiceCounted<T>(s: seq<T>, a: nat, b: nat)
    requires a < b < |s| && s[a] == s[b]
    ensures multiset(s)[s[a]] >= 2
  {
    assert s == s[..b] + s[b..];
    assert s[a] in s[..b];
    assert s[b..][0] == s[b];
  }

  /** A permutation of the identifiers is made of distinct in-range ids. */
  lemma PermutationOfIdsFacts(order: seq<nat>, n: nat)
    requires IsPermutationOfIds(order, n)
    ensures Distinct(order)
    ensures forall k :: 0 <= k < |order| ==> order[k] < n
    ensures forall i :: 0 <= i < n ==> i in order
  {
    var ids := Ids(n);
    forall k | 0 <= k < |order| ensures order[k] < n {
      assert order[k] in multiset(order);
      assert order[k] in multiset(ids);
    }
    forall i | 0 <= i < n ensures i in order {
      assert ids[i] == i;
      assert i in multiset(ids);
      assert i in multiset(order);
    }
    forall a, b | 0 <= a < b < |order| ensures order[a] != order[b] {
      if order[a] == order[b] {
        TwiceCounted(order, a, b);
        IdsCountedOnce(n, order[a]);
        assert false;
      }
    }
  }

  lemma {:induction false} IdsCountedOnce(n: nat, v: nat)
    ensures multiset(Ids(n))[v] <= 1
  {
    if n > 0 {
      assert Ids(n) == Ids(n - 1) + [n - 1];
      IdsCountedOnce(n - 1, v);
      if v == n - 1 {
        assert v !in Ids(n - 1);
      }
    }
  }

  /** In a sequence without repeats every value is counted at most once. */
  lemma {:induction false} DistinctCountedOnce<T>(s: seq<T>, v: T)
    requires Distinct(s)
    ensures multiset(s)[v] <= 1
  {
    if s != [] {
      var init := s[..|s| - 1];
      assert s == init + [s[|s| - 1]];
      assert Distinct(init);
      DistinctCountedOnce(init, v);
      if v == s[|s| - 1] {
        assert v !in init;
      }
    }
  }

  /** Two sequences without repeats that hold the same elements are
      reorderings of each other. */
  lemma DistinctSameElements<T>(a: seq<T>, b: seq<T>)
    requires Distinct(a) && Distinct(b) && forall x :: x in a <==> x in b
    ensures multiset(a) == multiset(b)
  {
    forall x ensures multiset(a)[x] == multiset(b)[x] {
      DistinctCountedOnce(a, x);
      DistinctCountedOnce(b, x);
      if x in a {
        assert x in b;
      } else {
        assert x !in b;
      }
    }
  }

  /** Reordering a sequence without repeats gives one without repeats. */
  lemma DistinctByMultiset<T>(a: seq<T>, b: seq<T>)
    requires multiset(a) == multiset(b) && Distinct(b)
    ensures Distinct(a)
  {
    forall i, j | 0 <= i < j < |a| ensures a[i] != a[j] {
      if a[i] == a[j] {
        TwiceCounted(a, i, j);
        DistinctCountedOnce(b, a[i]);
        assert false;
      }
    }
  }

  /** Whitespace as JavaScript's `trim` understands it (ECMAScript
      WhiteSpace and LineTerminator code points). */
  predicate IsJsWhitespace(c: char)
  {
    var n := c as int;
    (9 <= n <= 13) || n == 0x20 || n == 0xA0 || n == 0x1680
    || (0x2000 <= n <= 0x200A) || n == 0x2028 || n == 0x2029
    || n == 0x202F || n == 0x205F || n == 0x3000 || n == 0xFEFF
  }

  /** Leading whitespace dropped. */
  function TrimStart(s: string): string
  {
    if s != [] && IsJsWhitespace(s[0]) then TrimStart(s[1..]) else s
  }

  lemma {:induction false} TrimStartFacts(s: string)
    ensures var r := TrimStart(s);
      && |r| <= |s| && r == s[|s| - |r|..]
      && (r == [] || !IsJsWhitespace(r[0]))
      && (forall k :: 0 <= k < |s| - |r| ==> IsJsWhitespace(s[k]))
  {
    if s != [] && IsJsWhitespace(s[0]) {
      TrimStartFacts(s[1..]);
      var r := TrimStart(s);
      forall k | 1 <= k < |s| - |r| ensures IsJsWhitespace(s[k]) {
        assert s[k] == s[1..][k - 1];
      }
    }
  }

  /** Trailing whitespace dropped. */
  function TrimEnd(s: string): string
  {
    if s != [] && IsJsWhitespace(s[|s| - 1]) then TrimEnd(s[..|s| - 1]) else s
  }

  lemma {:induction false} TrimEndFacts(s: string)
    ensures var r := TrimEnd(s);
      && |r| <= |s| && r == s[..|r|]
      && (r == [] || !IsJsWhitespace(r[|r| - 1]))
      && (forall k :: |r| <= k < |s| ==> IsJsWhitespace(s[k]))
  {
    if s != [] && IsJsWhitespace(s[|s| - 1]) {
      var t := s[..|s| - 1];
      TrimEndFacts(t);
      var r := TrimEnd(s);
      assert r == s[..|r|] by {
        assert t[..|r|] == s[..|r|];
      }
      forall k | |r| <= k < |s| - 1 ensures IsJsWhitespace(s[k]) {
        assert s[k] == t[k];
      }
    }
  }

  /** `s.trim()`: leading and trailing whitespace dropped. */
  function Trim(s: string): string
  {
    TrimEnd(TrimStart(s))
  }

  /** The trimmed string is an inner slice with whitespace only outside it
      and none at its own ends. */
  lemma TrimFacts(s: string)
    ensures var r := Trim(s);
      && (exists i, j ::
            && 0 <= i <= j <= |s| && r == s[i..j]
            && (forall k :: 0 <= k < i ==> IsJsWhitespace(s[k]))
            && (forall k :: j <= k < |s| ==> IsJsWhitespace(s[k])))
      && (r == [] || (!IsJsWhitespace(r[0]) && !IsJsWhitespace(r[|r| - 1])))
  {
    var t := TrimStart(s);
    TrimStartFacts(s);
    TrimEndFacts(t);
    var r := TrimEnd(t);
    var i := |s| - |t|;
    assert r == s[i..i + |r|];
    forall k | i + |r| <= k < |s| ensures IsJsWhitespace(s[k]) {
      assert s[k] == t[k - i];
    }
    if r != [] {
      assert r[0] == t[0];
    }
  }

  function DigitChar(d: nat): (c: char)
    requires d < 10
    ensures '0' <= c <= '9' && (c as int) - ('0' as int) == d
  {
    ('0' as int + d) as char
  }

  /** `String(n)` for a natural number: its decimal digits, most significant first. */
  function DecimalString(n: nat): (r: string)
    ensures r != []
    ensures forall k :: 0 <= k < |r| ==> '0' <= r[k] <= '9'
    ensures r[0] == '0' ==> n == 0
  {
    if n < 10 then [DigitChar(n)] else DecimalString(n / 10) + [DigitChar(n % 10)]
  }

  function DecimalValue(s: string): (v: nat)
    requires forall k :: 0 <= k < |s| ==> '0' <= s[k] <= '9'
  {
    if s == [] then 0 else 10 * DecimalValue(s[..|s| - 1]) + ((s[|s| - 1] as int) - ('0' as int))
  }

  /** Rendering a number in decimal loses nothing: it reads back as itself. */
  lemma {:induction false} DecimalRoundTrip(n: nat)
    ensures DecimalValue(DecimalString(n)) == n
  {
    if n >= 10 {
      var s := DecimalString(n);
      assert s[..|s| - 1] == DecimalString(n / 10);
      DecimalRoundTrip(n / 10);
    }
  }

  /** Different numbers render differently, so default names are unique. */
  lemma DecimalInjective(m: nat, n: nat)
    requires DecimalString(m) == DecimalString(n)
    ensures m == n
  {
    DecimalRoundTrip(m);
    DecimalRoundTrip(n);
  }
}
