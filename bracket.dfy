/** The elimination tournament (the `TOUR` object, app.js:858-1156): entrants
    are registered, shuffled into head-to-head matches each round (the loser
    of a regular or semi-final match drops out, an odd entrant sits out),
    four remaining entrants play the semi-finals, then the bronze match and
    the final, and the four ranked entrants are saved to the record log.
    Entrants are referred to by id, which is also their index in `players`,
    just as the source's match objects refer to the same player objects. */
module Bracket {
  import opened Common
  import opened Records

  const MinEntrants: nat := 4
  const MaxEntrants: nat := 32
  const DefaultEntrants: nat := 8
  const DefaultBank := "b1"
  /** "選手", the default name's prefix. */
  const DefaultPrefix: string := "\U{9078}\U{624B}"

  datatype Stage = Unset | Regular | Semi | Bronze | Final

  datatype Entrant = Entrant(
    id: nat,
    name: string,
    active: bool,
    totalTime: int,
    matchesCount: nat,
    finalRank: nat,
    semiWinner: bool,
    semiLoser: bool)

  datatype Match = Match(p1: nat, p2: nat)

  /** The match on screen; `None` stands for a time not yet played. */
  datatype VsData = VsData(p1: nat, p2: nat, p1Time: Option<int>, p2Time: Option<int>)

  /** How many matches a regular round pairs: `AsWritten` pairs everybody
      (the source); `KeepFour` stops where four entrants would remain. */
  datatype Pairing = AsWritten | KeepFour

  /** `adjustPlayers`: the entrant count moves by `delta`, clamped to 4..32. */
  function AdjustEntrants(current: int, delta: int): (n: int)
    ensures MinEntrants <= n <= MaxEntrants
    ensures MinEntrants <= current + delta <= MaxEntrants ==> n == current + delta
    ensures current + delta < MinEntrants ==> n == MinEntrants
    ensures current + delta > MaxEntrants ==> n == MaxEntrants
  {
    var n := current + delta;
    if n < MinEntrants then MinEntrants else if n > MaxEntrants then MaxEntrants else n
  }

  // ---------------------------------------------------------------- registration

  /** The name of seat `i`: the trimmed input, or "選手" and the seat number. */
  function EntrantName(raw: string, i: nat): (name: string)
    ensures name != ""
    ensures Trim(raw) != "" ==> name == Trim(raw)
    ensures Trim(raw) == "" ==> name == DefaultPrefix + DecimalString(i + 1)
  {
    if Trim(raw) != "" then Trim(raw) else DefaultPrefix + DecimalString(i + 1)
  }

  function NewEntrant(i: nat, name: string): Entrant
  {
    Entrant(i, name, true, 0, 0, 0, false, false)
  }

  /** The names every seat would get. */
  function SeatNames(raws: seq<string>): (names: seq<string>)
    ensures |names| == |raws| && forall i :: 0 <= i < |raws| ==> names[i] == EntrantName(raws[i], i)
  {
    seq(|raws|, i requires 0 <= i < |raws| => EntrantName(raws[i], i))
  }

  /** Seats left blank get pairwise different default names. */
  lemma DefaultNamesDiffer(raws: seq<string>, i: nat, j: nat)
    requires i < j < |raws| && Trim(raws[i]) == "" && Trim(raws[j]) == ""
    ensures EntrantName(raws[i], i) != EntrantName(raws[j], j)
  {
    var a, b := DecimalString(i + 1), DecimalString(j + 1);
    if DefaultPrefix + a == DefaultPrefix + b {
      assert a == (DefaultPrefix + a)[|DefaultPrefix|..];
      assert b == (DefaultPrefix + b)[|DefaultPrefix|..];
      DecimalInjective(i + 1, j + 1);
    }
  }

  /** A registration where nobody typed a name always goes through. */
  lemma BlankRegistrationSucceeds(raws: seq<string>)
    requires forall i :: 0 <= i < |raws| ==> Trim(raws[i]) == ""
    ensures Distinct(SeatNames(raws))
  {
    var names := SeatNames(raws);
    forall i, j | 0 <= i < j < |names| ensures names[i] != names[j] {
      DefaultNamesDiffer(raws, i, j);
    }
  }

  // ---------------------------------------------------------------- filters

  /** `r` lists, in increasing order, exactly the seats of `ps` that pass `f`. */
  ghost predicate FilterOf(r: seq<nat>, ps: seq<Entrant>, f: Entrant -> bool)
  {
    && (forall i: nat :: i in r <==> i < |ps| && f(ps[i]))
    && (forall a, b :: 0 <= a < b < |r| ==> r[a] < r[b])
    && (forall k :: 0 <= k < |r| ==> r[k] < |ps| && f(ps[r[k]]))
    && |r| <= |ps|
  }

  /** `players.filter(p => f(p))`, as ids in player order. */
  function IdsWhere(ps: seq<Entrant>, f: Entrant -> bool): (r: seq<nat>)
    ensures forall i: nat :: i in r <==> i < |ps| && f(ps[i])
    ensures forall a, b :: 0 <= a < b < |r| ==> r[a] < r[b]
    ensures forall k :: 0 <= k < |r| ==> r[k] < |ps| && f(ps[r[k]])
    ensures |r| <= |ps|
  {
    if ps == [] then []
    else
      var n := |ps| - 1;
      var init := IdsWhere(ps[..n], f);
      FilterExtend(ps, f, init);
      init + (if f(ps[n]) then [n] else [])
  }

  /** The filter of all seats but the last, extended by the last seat when it passes. */
  lemma FilterExtend(ps: seq<Entrant>, f: Entrant -> bool, init: seq<nat>)
    requires ps != [] && FilterOf(init, ps[..|ps| - 1], f)
    ensures FilterOf(init + (if f(ps[|ps| - 1]) then [|ps| - 1] else []), ps, f)
  {
    var n := |ps| - 1;
    var r := init + (if f(ps[n]) then [n] else []);
    forall k | 0 <= k < |init| ensures init[k] < n && f(ps[init[k]]) {
      assert ps[..n][init[k]] == ps[init[k]];
    }
    forall i: nat ensures i in r <==> i < |ps| && f(ps[i]) {
      if i < n {
        assert ps[..n][i] == ps[i];
      }
    }
  }

  function IsActive(e: Entrant): bool { e.active }
  function IsSemiLoser(e: Entrant): bool { e.semiLoser }
  function IsSemiWinner(e: Entrant): bool { e.semiWinner }
  function IsRanked(e: Entrant): bool { e.finalRank > 0 }

  function ActiveIds(ps: seq<Entrant>): seq<nat>
  {
    IdsWhere(ps, IsActive)
  }

  lemma IncreasingIsDistinct(r: seq<nat>)
    requires forall a, b :: 0 <= a < b < |r| ==> r[a] < r[b]
    ensures Distinct(r)
  {
  }

  /** How many entrants pass `f`. */
  function CountWhere(ps: seq<Entrant>, f: Entrant -> bool): nat
  {
    if ps == [] then 0 else CountWhere(ps[..|ps| - 1], f) + (if f(ps[|ps| - 1]) then 1 else 0)
  }

  lemma {:induction false} IdsWhereCount(ps: seq<Entrant>, f: Entrant -> bool)
    ensures |IdsWhere(ps, f)| == CountWhere(ps, f)
    decreases |ps|
  {
    if ps != [] {
      IdsWhereCount(ps[..|ps| - 1], f);
    }
  }

  /** Replacing one entrant changes a filter's count by what that entrant
      contributes before and after. */
  lemma {:induction false} CountAfterUpdate(ps: seq<Entrant>, i: nat, e: Entrant, f: Entrant -> bool)
    requires i < |ps|
    ensures CountWhere(ps[i := e], f) == CountWhere(ps, f) - (if f(ps[i]) then 1 else 0) + (if f(e) then 1 else 0)
    decreases |ps|
  {
    var qs := ps[i := e];
    var n := |ps| - 1;
    if i < n {
      assert qs[..n] == ps[..n][i := e];
      CountAfterUpdate(ps[..n], i, e, f);
    } else {
      assert qs[..n] == ps[..n];
    }
  }

  // ---------------------------------------------------------------- pairing

  /** How many matches a round of `a` active entrants pairs: everybody in
      pairs (the source's `limit`), or, under `KeepFour`, never so many in a
      regular round that fewer than four remain. */
  function MatchCount(p: Pairing, semi: bool, a: nat): (m: nat)
    ensures 2 * m <= a
    ensures a >= 2 ==> m >= 1
    ensures p == AsWritten || semi || a <= 4 ==> m == a / 2
    ensures p == KeepFour && !semi && a > 4 ==> a - m >= 4
  {
    if p == KeepFour && !semi && a > 4 then Min(a / 2, a - 4) else a / 2
  }

  /** The queue `setupRoundMatches` builds from the shuffled active list:
      entrants 2k and 2k+1 meet in match k. */
  function PairUp(order: seq<nat>, count: nat): (q: seq<Match>)
    requires 2 * count <= |order|
    ensures |q| == count
  {
    seq(count, k requires 0 <= k < count => Match(order[2 * k], order[2 * k + 1]))
  }

  /** The entrants of a queue, match by match. */
  function Seated(q: seq<Match>): seq<nat>
  {
    if q == [] then [] else [q[0].p1, q[0].p2] + Seated(q[1..])
  }

  /** The queue seats exactly the first 2·count entrants of the order. */
  lemma {:induction false} SeatedPairUp(order: seq<nat>, count: nat)
    requires 2 * count <= |order|
    ensures Seated(PairUp(order, count)) == order[..2 * count]
    decreases count
  {
    if count > 0 {
      var q := PairUp(order, count);
      var rest := order[2..];
      assert q[1..] == PairUp(rest, count - 1);
      SeatedPairUp(rest, count - 1);
      assert order[..2 * count] == [order[0], order[1]] + rest[..2 * (count - 1)];
    }
  }

  /** `order` lists every active entrant of `ps` once and nobody else: the
      active list in some shuffled order. */
  ghost predicate ActiveShuffle(ps: seq<Entrant>, order: seq<nat>)
  {
    && Distinct(order)
    && (forall k :: 0 <= k < |order| ==> order[k] < |ps| && ps[order[k]].active)
    && (forall i :: 0 <= i < |ps| && ps[i].active ==> i in order)
  }

  /** The shuffles are exactly the permutations of the active list. */
  lemma ShuffleIsActive(ps: seq<Entrant>, order: seq<nat>)
    ensures ActiveShuffle(ps, order) <==> multiset(order) == multiset(ActiveIds(ps))
  {
    var ids := ActiveIds(ps);
    IncreasingIsDistinct(ids);
    if multiset(order) == multiset(ids) {
      DistinctByMultiset(order, ids);
      forall k | 0 <= k < |order| ensures order[k] < |ps| && ps[order[k]].active {
        assert order[k] in multiset(ids);
        assert order[k] in ids;
      }
      forall i | 0 <= i < |ps| && ps[i].active ensures i in order {
        assert i in multiset(ids);
      }
    }
    if ActiveShuffle(ps, order) {
      assert forall x :: x in order <==> x in ids;
      DistinctSameElements(order, ids);
    }
  }

  /** Pairing up a shuffle of active entrants puts every match between two
      different active entrants, no entrant in two matches, and leaves
      `a - 2·count` entrants unpaired (as written: at most one). */
  lemma PairingFacts(ps: seq<Entrant>, order: seq<nat>, p: Pairing, semi: bool)
    requires ActiveShuffle(ps, order)
    ensures var q := PairUp(order, MatchCount(p, semi, |order|));
      && Distinct(Seated(q))
      && (forall x :: x in Seated(q) ==> x < |ps| && ps[x].active)
      && |Seated(q)| == 2 * |q|
      && (p == AsWritten ==> |order| - 2 * |q| <= 1)
  {
    var count := MatchCount(p, semi, |order|);
    var q := PairUp(order, count);
    SeatedPairUp(order, count);
    var prefix := order[..2 * count];
    forall i, j | 0 <= i < j < |prefix| ensures prefix[i] != prefix[j] {
      assert prefix[i] == order[i] && prefix[j] == order[j];
    }
    forall x | x in Seated(q) ensures x < |ps| && ps[x].active {
      var k :| 0 <= k < |prefix| && prefix[k] == x;
      assert order[k] == x;
    }
  }

  /** Every match of a pairing is between two different known entrants. */
  lemma PairUpValid(ps: seq<Entrant>, order: seq<nat>, p: Pairing, semi: bool)
    requires ActiveShuffle(ps, order)
    ensures var q := PairUp(order, MatchCount(p, semi, |order|));
      forall k :: 0 <= k < |q| ==> q[k].p1 < |ps| && q[k].p2 < |ps| && q[k].p1 != q[k].p2
  {
    var q := PairUp(order, MatchCount(p, semi, |order|));
    PairingFacts(ps, order, p, semi);
    SeatedFacts(q);
  }

  // ---------------------------------------------------------------- matches

  /** `e` after playing a match in `t` centiseconds. */
  function Played(e: Entrant, t: int): Entrant
  {
    e.(totalTime := e.totalTime + t, matchesCount := e.matchesCount + 1)
  }

  /** What a stage does to a match's winner (`won`) or loser. */
  function Settle(e: Entrant, won: bool, stage: Stage): Entrant
  {
    match stage
    case Regular => if won then e else e.(active := false)
    case Semi => if won then e.(semiWinner := true) else e.(active := false, semiLoser := true)
    case Bronze => e.(finalRank := if won then 3 else 4, active := false)
    case Final => e.(finalRank := if won then 1 else 2)
    case Unset => e
  }

  /** `resolveMatch`: both times are added; p1 wins only when strictly
      faster, so a tie goes to p2. */
  function Resolve(ps: seq<Entrant>, m: Match, t1: int, t2: int, stage: Stage): (qs: seq<Entrant>)
    requires m.p1 < |ps| && m.p2 < |ps| && m.p1 != m.p2
    ensures |qs| == |ps|
  {
    var p1Won := t1 < t2;
    ps[m.p1 := Settle(Played(ps[m.p1], t1), p1Won, stage)]
      [m.p2 := Settle(Played(ps[m.p2], t2), !p1Won, stage)]
  }

  function Winner(m: Match, t1: int, t2: int): nat { if t1 < t2 then m.p1 else m.p2 }
  function Loser(m: Match, t1: int, t2: int): nat { if t1 < t2 then m.p2 else m.p1 }

  /** A match changes its two entrants and nobody else; both get their time
      and one more match; in a regular or semi-final match exactly the loser
      drops out, in the semi-final the winner is marked a finalist and the
      loser a bronze contender; the bronze match ranks 3 and 4 and the final
      1 and 2. */
  lemma ResolveFacts(ps: seq<Entrant>, m: Match, t1: int, t2: int, stage: Stage)
    requires m.p1 < |ps| && m.p2 < |ps| && m.p1 != m.p2
    ensures var qs := Resolve(ps, m, t1, t2, stage); var w, l := Winner(m, t1, t2), Loser(m, t1, t2);
      && {w, l} == {m.p1, m.p2} && w != l
      && (forall i :: 0 <= i < |ps| && i != m.p1 && i != m.p2 ==> qs[i] == ps[i])
      && qs[m.p1].totalTime == ps[m.p1].totalTime + t1 && qs[m.p2].totalTime == ps[m.p2].totalTime + t2
      && qs[w].matchesCount == ps[w].matchesCount + 1 && qs[l].matchesCount == ps[l].matchesCount + 1
      && qs[w].name == ps[w].name && qs[l].name == ps[l].name && qs[w].id == ps[w].id && qs[l].id == ps[l].id
      && ((stage == Regular || stage == Semi) ==> qs[w].active == ps[w].active && !qs[l].active)
      && (stage == Semi ==> qs[w].semiWinner && qs[l].semiLoser
                            && qs[w].semiLoser == ps[w].semiLoser && qs[l].semiWinner == ps[l].semiWinner)
      && (stage == Bronze ==> qs[w].finalRank == 3 && qs[l].finalRank == 4 && !qs[w].active && !qs[l].active)
      && (stage == Final ==> qs[w].finalRank == 1 && qs[l].finalRank == 2)
      && (stage != Bronze && stage != Final ==> qs[w].finalRank == ps[w].finalRank && qs[l].finalRank == ps[l].finalRank)
  {
  }

  lemma ResolveKeepsOthers(ps: seq<Entrant>, m: Match, t1: int, t2: int, stage: Stage)
    requires m.p1 < |ps| && m.p2 < |ps| && m.p1 != m.p2
    ensures forall i :: 0 <= i < |ps| && i != m.p1 && i != m.p2 ==> Resolve(ps, m, t1, t2, stage)[i] == ps[i]
  {
  }

  /** A regular or semi-final match between two active entrants takes
      exactly one of them out. */
  lemma ResolveActiveCount(ps: seq<Entrant>, m: Match, t1: int, t2: int, stage: Stage)
    requires m.p1 < |ps| && m.p2 < |ps| && m.p1 != m.p2
    requires ps[m.p1].active && ps[m.p2].active
    requires stage == Regular || stage == Semi
    ensures |ActiveIds(Resolve(ps, m, t1, t2, stage))| == |ActiveIds(ps)| - 1
  {
    var p1Won := t1 < t2;
    var a := Settle(Played(ps[m.p1], t1), p1Won, stage);
    var mid := ps[m.p1 := a];
    CountAfterUpdate(ps, m.p1, a, IsActive);
    CountAfterUpdate(mid, m.p2, Settle(Played(ps[m.p2], t2), !p1Won, stage), IsActive);
    IdsWhereCount(ps, IsActive);
    IdsWhereCount(Resolve(ps, m, t1, t2, stage), IsActive);
  }

  /** A whole round: the queue's matches resolved in order, match k with
      times `times[k]`. */
  function PlayRound(ps: seq<Entrant>, q: seq<Match>, times: seq<(int, int)>, stage: Stage): (qs: seq<Entrant>)
    requires |times| == |q|
    requires forall k :: 0 <= k < |q| ==> q[k].p1 < |ps| && q[k].p2 < |ps| && q[k].p1 != q[k].p2
    ensures |qs| == |ps|
    decreases |q|
  {
    if q == [] then ps
    else PlayRound(Resolve(ps, q[0], times[0].0, times[0].1, stage), q[1..], times[1..], stage)
  }

  /** After a regular (or semi-final) round of disjoint matches between
      active entrants, exactly one entrant per match has dropped out. */
  lemma {:induction false} RoundActiveCount(ps: seq<Entrant>, q: seq<Match>, times: seq<(int, int)>, stage: Stage)
    requires |times| == |q| && (stage == Regular || stage == Semi)
    requires Distinct(Seated(q))
    requires forall x :: x in Seated(q) ==> x < |ps| && ps[x].active
    ensures forall k :: 0 <= k < |q| ==> q[k].p1 < |ps| && q[k].p2 < |ps| && q[k].p1 != q[k].p2
    ensures |ActiveIds(PlayRound(ps, q, times, stage))| == |ActiveIds(ps)| - |q|
    decreases |q|
  {
    SeatedFacts(q);
    if q != [] {
      var m := q[0];
      ResolveActiveCount(ps, m, times[0].0, times[0].1, stage);
      var next := Resolve(ps, m, times[0].0, times[0].1, stage);
      ResolveKeepsOthers(ps, m, times[0].0, times[0].1, stage);
      assert Seated(q) == [m.p1, m.p2] + Seated(q[1..]);
      forall x | x in Seated(q[1..]) ensures x < |next| && next[x].active {
        assert x in Seated(q);
      }
      RoundActiveCount(next, q[1..], times[1..], stage);
    }
  }

  /** Match k sits its entrants at places 2k and 2k+1. */
  lemma {:induction false} SeatedAt(q: seq<Match>)
    ensures |Seated(q)| == 2 * |q|
    ensures forall k :: 0 <= k < |q| ==> Seated(q)[2 * k] == q[k].p1 && Seated(q)[2 * k + 1] == q[k].p2
    decreases |q|
  {
    if q != [] {
      SeatedAt(q[1..]);
      var s := Seated(q);
      forall k | 1 <= k < |q| ensures s[2 * k] == q[k].p1 && s[2 * k + 1] == q[k].p2 {
        assert q[k] == q[1..][k - 1];
        assert s[2 * k] == Seated(q[1..])[2 * (k - 1)];
        assert s[2 * k + 1] == Seated(q[1..])[2 * (k - 1) + 1];
      }
    }
  }

  lemma SeatedFacts(q: seq<Match>)
    ensures |Seated(q)| == 2 * |q|
    ensures forall k :: 0 <= k < |q| ==> q[k].p1 in Seated(q) && q[k].p2 in Seated(q)
    ensures Distinct(Seated(q)) ==> forall k :: 0 <= k < |q| ==> q[k].p1 != q[k].p2
    ensures q != [] && Distinct(Seated(q)) ==>
      && Distinct(Seated(q[1..]))
      && q[0].p1 !in Seated(q[1..]) && q[0].p2 !in Seated(q[1..])
  {
    SeatedAt(q);
    var s := Seated(q);
    forall k | 0 <= k < |q| ensures q[k].p1 in s && q[k].p2 in s && (Distinct(s) ==> q[k].p1 != q[k].p2) {
      assert s[2 * k] == q[k].p1 && s[2 * k + 1] == q[k].p2;
    }
    if q != [] && Distinct(s) {
      var t := Seated(q[1..]);
      assert s == [q[0].p1, q[0].p2] + t;
      assert Distinct(t) by {
        forall a, b | 0 <= a < b < |t| ensures t[a] != t[b] {
          assert s[a + 2] == t[a] && s[b + 2] == t[b];
        }
      }
      forall x | x in t ensures x != s[0] && x != s[1] {
        var k :| 0 <= k < |t| && t[k] == x;
        assert s[k + 2] == x;
      }
    }
  }

  // ---------------------------------------------------------------- reaching the semi-final

  /** Whether regular rounds starting from `a` active entrants ever leave
      exactly four, the only count at which the semi-finals begin. */
  predicate ReachesSemi(p: Pairing, a: nat)
    decreases a
  {
    if a == 4 then true
    else if a < 2 then false
    else ReachesSemi(p, a - MatchCount(p, false, a))
  }

  /** Up to eight entrants, as written, only 4, 7 and 8 reach four. */
  lemma AsWrittenSmallCounts()
    ensures forall a :: 1 <= a <= 8 ==> (ReachesSemi(AsWritten, a) <==> a == 4 || a == 7 || a == 8)
  {
    assert !ReachesSemi(AsWritten, 1);
    assert !ReachesSemi(AsWritten, 2);
    assert !ReachesSemi(AsWritten, 3);
    assert !ReachesSemi(AsWritten, 5) && !ReachesSemi(AsWritten, 6);
    assert ReachesSemi(AsWritten, 7) && ReachesSemi(AsWritten, 8);
  }

  /** As written, the counts reach four only from 4, 7, 8, 13-16 and 25-32
      entrants; every other registration size runs down to one entrant. */
  lemma {:induction false} AsWrittenReachesSemi(n: nat)
    requires MinEntrants <= n <= MaxEntrants
    ensures ReachesSemi(AsWritten, n) <==> n == 4 || 7 <= n <= 8 || 13 <= n <= 16 || 25 <= n
    decreases n
  {
    if n <= 8 {
      AsWrittenSmallCounts();
    } else {
      var half := n - n / 2;
      assert ReachesSemi(AsWritten, n) == ReachesSemi(AsWritten, half);
      AsWrittenReachesSemi(half);
    }
  }

  /** The smallest case: five entrants play two matches (3 left), then one
      (2 left), then one (1 left), and the semi-final never starts. */
  lemma FiveEntrantsNeverReachSemi()
    ensures 5 - MatchCount(AsWritten, false, 5) == 3
    ensures 3 - MatchCount(AsWritten, false, 3) == 2
    ensures 2 - MatchCount(AsWritten, false, 2) == 1
    ensures MatchCount(AsWritten, false, 1) == 0
    ensures !ReachesSemi(AsWritten, 5)
  {
    assert !ReachesSemi(AsWritten, 1);
  }

  /** With `KeepFour`, every registration size of four or more reaches the
      semi-final. */
  lemma {:induction false} KeepFourReachesSemi(a: nat)
    requires a >= MinEntrants
    ensures ReachesSemi(KeepFour, a)
    decreases a
  {
    if a > 4 {
      var next := a - MatchCount(KeepFour, false, a);
      assert 4 <= next < a;
      KeepFourReachesSemi(next);
    }
  }

  // ---------------------------------------------------------------- registration, as the loop runs

  /** The entrants of the first `n` seats, all active and unplayed. */
  function Registered(names: seq<string>, n: nat): (ps: seq<Entrant>)
    requires n <= |names|
    ensures |ps| == n
    ensures forall i :: 0 <= i < n ==> ps[i] == NewEntrant(i, names[i])
  {
    seq(n, i requires 0 <= i < n => NewEntrant(i, names[i]))
  }

  /** The first seat whose name repeats an earlier seat's (|s| if none). */
  function FirstRepeat(s: seq<string>, from: nat): (k: nat)
    requires from <= |s| && Distinct(s[..from])
    ensures from <= k <= |s| && Distinct(s[..k])
    ensures k < |s| ==> s[k] in s[..k]
    decreases |s| - from
  {
    if from == |s| then from
    else if s[from] in s[..from] then from
    else
      assert s[..from + 1] == s[..from] + [s[from]];
      FirstRepeat(s, from + 1)
  }

  /** Registration fails exactly when two seats end up with one name. */
  lemma FirstRepeatIsDuplicate(s: seq<string>)
    ensures FirstRepeat(s, 0) == |s| <==> Distinct(s)
  {
    var k := FirstRepeat(s, 0);
    assert s[..|s|] == s;
    if k < |s| {
      var j :| 0 <= j < k && s[..k][j] == s[k];
    }
  }

  /** With every entrant active, the active list is the whole seat order. */
  lemma {:induction false} AllActive(ps: seq<Entrant>)
    requires forall i :: 0 <= i < |ps| ==> ps[i].active
    ensures ActiveIds(ps) == Ids(|ps|)
    decreases |ps|
  {
    if ps != [] {
      var n := |ps| - 1;
      AllActive(ps[..n]);
      assert Ids(|ps|) == Ids(n) + [n];
    }
  }

  /** The names the seated entrants have taken. */
  function NamesOf(ps: seq<Entrant>): (r: set<string>)
    ensures forall x :: x in r <==> exists i :: 0 <= i < |ps| && ps[i].name == x
  {
    set i | 0 <= i < |ps| :: ps[i].name
  }

  lemma NamesOfAppend(ps: seq<Entrant>, e: Entrant)
    ensures NamesOf(ps + [e]) == NamesOf(ps) + {e.name}
  {
    var qs := ps + [e];
    forall x | x in NamesOf(ps) + {e.name} ensures x in NamesOf(qs) {
      if x == e.name {
        assert qs[|ps|].name == x;
      } else {
        var i :| 0 <= i < |ps| && ps[i].name == x;
        assert qs[i].name == x;
      }
    }
    forall x | x in NamesOf(qs) ensures x in NamesOf(ps) + {e.name} {
      var i :| 0 <= i < |qs| && qs[i].name == x;
      if i < |ps| {
        assert ps[i].name == x;
      }
    }
  }

  /** Registration seat by seat, as `generateBracket` runs it over the seat
      names: the entrants seated, and the name that stopped it, if one
      repeated a name already taken. */
  function Admit(names: seq<string>): (r: (seq<Entrant>, Option<string>))
    ensures |r.0| <= |names| && (r.1.None? ==> |r.0| == |names|)
    ensures forall i :: 0 <= i < |r.0| ==> r.0[i] == NewEntrant(i, names[i])
    decreases |names|
  {
    if names == [] then ([], None)
    else
      var n := |names| - 1;
      var (ps, stop) := Admit(names[..n]);
      if stop.Some? then (ps, stop)
      else if names[n] in NamesOf(ps) then (ps, Some(names[n]))
      else (ps + [NewEntrant(n, names[n])], None)
  }

  lemma RegisteredStep(names: seq<string>, i: nat)
    requires i < |names|
    ensures Registered(names, i + 1) == Registered(names, i) + [NewEntrant(i, names[i])]
  {
  }

  /** One more seat: `Admit` on a prefix, unfolded once. */
  lemma AdmitStep(s: seq<string>, j: nat)
    requires 0 < j <= |s|
    ensures var prev := Admit(s[..j - 1]);
      Admit(s[..j]) ==
        if prev.1.Some? then prev
        else if s[j - 1] in NamesOf(prev.0) then (prev.0, Some(s[j - 1]))
        else (prev.0 + [NewEntrant(j - 1, s[j - 1])], None)
  {
    assert s[..j][..j - 1] == s[..j - 1];
    assert s[..j][j - 1] == s[j - 1];
  }

  /** The first repeated name is already taken by an earlier seat. */
  lemma RepeatIsTaken(s: seq<string>)
    requires FirstRepeat(s, 0) < |s|
    ensures var k := FirstRepeat(s, 0); s[k] in NamesOf(Registered(s, k))
  {
    var k := FirstRepeat(s, 0);
    var i :| 0 <= i < k && s[..k][i] == s[k];
    assert Registered(s, k)[i].name == s[..k][i];
  }

  /** Before the first repeat, each seat's name is still free. */
  lemma NameIsFree(s: seq<string>, n: nat)
    requires n < FirstRepeat(s, 0)
    ensures s[n] !in NamesOf(Registered(s, n))
  {
    var k := FirstRepeat(s, 0);
    var ps := Registered(s, n);
    forall i | 0 <= i < n
      ensures ps[i].name != s[n]
    {
      assert ps[i].name == s[..k][i] && s[n] == s[..k][n];
    }
  }

  /** Registration of the first `j` seats: everything up to the first
      repeated name, which stops it. */
  lemma {:induction false} AdmitPrefix(s: seq<string>, j: nat)
    requires j <= |s|
    ensures var k := FirstRepeat(s, 0);
      Admit(s[..j]) == if j <= k then (Registered(s, j), None) else (Registered(s, k), Some(s[k]))
  {
    var k := FirstRepeat(s, 0);
    if j == 0 {
      assert s[..j] == [];
    } else {
      var n := j - 1;
      AdmitPrefix(s, n);
      AdmitStep(s, j);
      if n == k {
        RepeatIsTaken(s);
      } else if n < k {
        NameIsFree(s, n);
        RegisteredStep(s, n);
      }
    }
  }

  /** Once a name has repeated, the later seats change nothing. */
  lemma {:induction false} StoppedStays(s: seq<string>, j: nat)
    requires j <= |s| && Admit(s[..j]).1.Some?
    ensures Admit(s) == Admit(s[..j])
    decreases |s|
  {
    if j == |s| {
      assert s[..j] == s;
    } else {
      var n := |s| - 1;
      assert s[..n][..j] == s[..j];
      StoppedStays(s[..n], j);
    }
  }

  /** The registration outcome: the seats before the first repeated name
      are registered; it succeeds exactly when no name repeats
      (`FirstRepeatIsDuplicate`), and otherwise reports that name. */
  lemma AdmitMeaning(s: seq<string>)
    ensures var k := FirstRepeat(s, 0);
      Admit(s) == (Registered(s, k), if k < |s| then Some(s[k]) else None)
  {
    AdmitPrefix(s, |s|);
    assert s[..|s|] == s;
  }

  /** The loop of `generateBracket`: seat by seat, name the entrant and stop
      at the first name already taken. */
  method RegisterSeats(raws: seq<string>) returns (ps: seq<Entrant>, duplicate: Option<string>)
    ensures (ps, duplicate) == Admit(SeatNames(raws))
    ensures forall i :: 0 <= i < |ps| ==> ps[i].id == i && ps[i].name != "" && ps[i].active
  {
    ghost var seats := SeatNames(raws);
    var names: set<string> := {};
    ps := [];
    duplicate := None;
    var i := 0;
    while i < |raws|
      invariant 0 <= i <= |raws|
      invariant Admit(seats[..i]) == (ps, None)
      invariant names == NamesOf(ps)
    {
      var name := EntrantName(raws[i], i);
      assert seats[..i + 1][..i] == seats[..i];
      assert seats[..i + 1][i] == name;
      if name in names {
        duplicate := Some(name);
        StoppedStays(seats, i + 1);
        break;
      }
      NamesOfAppend(ps, NewEntrant(i, name));
      names := names + {name};
      ps := ps + [NewEntrant(i, name)];
      i := i + 1;
    }
    if duplicate.None? {
      assert seats[..i] == seats;
    }
  }

  // ---------------------------------------------------------------- playoffs and podium

  /** `players.filter(flag)` as the next playoff match: its first two. */
  function PlayoffMatch(ps: seq<Entrant>, flag: Entrant -> bool): (m: Option<Match>)
    ensures m.Some? ==> m.value.p1 < m.value.p2 < |ps| && flag(ps[m.value.p1]) && flag(ps[m.value.p2])
    ensures m.Some? <==> |IdsWhere(ps, flag)| >= 2
  {
    var ids := IdsWhere(ps, flag);
    assert |ids| >= 2 ==> ids[0] in ids && ids[1] in ids;
    if |ids| >= 2 then Some(Match(ids[0], ids[1])) else None
  }

  /** The average match time, `totalTime / matchesCount` (0 before any match). */
  function AverageTime(e: Entrant): real
  {
    if e.matchesCount > 0 then e.totalTime as real / e.matchesCount as real else 0.0
  }

  /** The record `showPodium` saves for a ranked entrant (app.js:1141-1147). */
  function TourDraft(e: Entrant, school: string, bank: string, bankTitle: string): Draft
  {
    Draft(e.name, school, bank, bankTitle, Tournament, e.totalTime, AverageTime(e), e.matchesCount, e.finalRank, 0)
  }

  /** The records the podium appends: one per ranked entrant, in seat order. */
  function TourRecords(ps: seq<Entrant>, bank: string, school: string, bankTitle: string,
                       typedName: string, currentBank: string, currentMode: string, now: int): seq<Record>
  {
    if ps == [] then []
    else
      var n := |ps| - 1;
      TourRecords(ps[..n], bank, school, bankTitle, typedName, currentBank, currentMode, now)
        + (if IsRanked(ps[n]) then [Complete(TourDraft(ps[n], school, bank, bankTitle), typedName, school, currentBank, currentMode, now)] else [])
  }

  /** The record saved for entrant `e`: its own name, its rank as the
      score, its matches as rounds, its total and mean time, in the
      tournament mode and bank `bank`, stamped `now`. */
  predicate SavedAs(r: Record, e: Entrant, bank: string, now: int)
  {
    && r.player == e.name && r.mode == Tournament && r.bankId == bank
    && r.score == e.finalRank && r.score > 0 && r.rounds == e.matchesCount
    && r.time == e.totalTime && r.avgTime == AverageTime(e) && r.timestamp == now
  }

  lemma TourRecordFor(e: Entrant, bank: string, school: string, bankTitle: string,
                      typedName: string, currentBank: string, currentMode: string, now: int)
    requires bank != "" && e.name != "" && IsRanked(e)
    ensures SavedAs(Complete(TourDraft(e, school, bank, bankTitle), typedName, school, currentBank, currentMode, now), e, bank, now)
  {
  }

  /** The podium saves exactly the ranked entrants, in seat order, each under
      its own name with its rank as the score, its matches as rounds and its
      mean time, in the tournament mode and the tournament's bank. */
  lemma {:induction false} TourRecordsFacts(ps: seq<Entrant>, bank: string, school: string, bankTitle: string,
                                            typedName: string, currentBank: string, currentMode: string, now: int)
    requires bank != ""
    requires forall i :: 0 <= i < |ps| ==> ps[i].name != ""
    ensures var rs := TourRecords(ps, bank, school, bankTitle, typedName, currentBank, currentMode, now);
      var ranked := IdsWhere(ps, IsRanked);
      |rs| == |ranked| && forall k :: 0 <= k < |rs| ==> SavedAs(rs[k], ps[ranked[k]], bank, now)
    decreases |ps|
  {
    if ps != [] {
      var n := |ps| - 1;
      var init := IdsWhere(ps[..n], IsRanked);
      var rsInit := TourRecords(ps[..n], bank, school, bankTitle, typedName, currentBank, currentMode, now);
      TourRecordsFacts(ps[..n], bank, school, bankTitle, typedName, currentBank, currentMode, now);
      var rs := TourRecords(ps, bank, school, bankTitle, typedName, currentBank, currentMode, now);
      var ranked := IdsWhere(ps, IsRanked);
      assert ranked == init + (if IsRanked(ps[n]) then [n] else []);
      assert rs == rsInit + (if IsRanked(ps[n]) then [Complete(TourDraft(ps[n], school, bank, bankTitle), typedName, school, currentBank, currentMode, now)] else []);
      forall k | 0 <= k < |rs| ensures SavedAs(rs[k], ps[ranked[k]], bank, now) {
        if k < |init| {
          assert rs[k] == rsInit[k] && ranked[k] == init[k];
          assert ps[..n][init[k]] == ps[init[k]];
        } else {
          TourRecordFor(ps[n], bank, school, bankTitle, typedName, currentBank, currentMode, now);
        }
      }
    }
  }

  // ---------------------------------------------------------------- playoffs

  /** Nobody is flagged from a semi-final or ranked yet: registration
      leaves the entrants so, and regular rounds keep them so. */
  ghost predicate Unplaced(ps: seq<Entrant>)
  {
    forall i :: 0 <= i < |ps| ==> !ps[i].semiWinner && !ps[i].semiLoser && ps[i].finalRank == 0
  }

  /** A regular round flags and ranks nobody. */
  lemma {:induction false} RegularRoundKeepsUnplaced(ps: seq<Entrant>, q: seq<Match>, times: seq<(int, int)>)
    requires |times| == |q|
    requires forall k :: 0 <= k < |q| ==> q[k].p1 < |ps| && q[k].p2 < |ps| && q[k].p1 != q[k].p2
    requires Unplaced(ps)
    ensures Unplaced(PlayRound(ps, q, times, Regular))
    decreases |q|
  {
    if q != [] {
      var next := Resolve(ps, q[0], times[0].0, times[0].1, Regular);
      assert Unplaced(next);
      RegularRoundKeepsUnplaced(next, q[1..], times[1..]);
    }
  }

  /** An increasing list whose members are exactly `x` and `y` is those two. */
  lemma TwoMembers(r: seq<nat>, x: nat, y: nat)
    requires forall a, b :: 0 <= a < b < |r| ==> r[a] < r[b]
    requires x != y && forall i: nat :: i in r <==> i == x || i == y
    ensures |r| == 2 && {r[0], r[1]} == {x, y}
  {
    var t := [x, y];
    IncreasingIsDistinct(r);
    DistinctSameElements(r, t);
    assert |r| == |multiset(r)| == |multiset(t)| == 2;
    assert r[0] in r && r[1] in r;
  }

  /** One semi-final match flags its winner as a finalist and its loser as
      a bronze contender, and changes no other flag and no rank. */
  lemma SemiMatch(ps: seq<Entrant>, m: Match, t: (int, int))
    requires m.p1 < |ps| && m.p2 < |ps| && m.p1 != m.p2
    ensures var qs := Resolve(ps, m, t.0, t.1, Semi);
      var w, l := Winner(m, t.0, t.1), Loser(m, t.0, t.1);
      && (forall i :: 0 <= i < |qs| ==> qs[i].semiLoser == (ps[i].semiLoser || i == l))
      && (forall i :: 0 <= i < |qs| ==> qs[i].semiWinner == (ps[i].semiWinner || i == w))
      && (forall i :: 0 <= i < |qs| ==> qs[i].finalRank == ps[i].finalRank)
  {
  }

  /** A round of two matches plays the first, then the second. */
  lemma PlayTwo(ps: seq<Entrant>, m1: Match, m2: Match, t1: (int, int), t2: (int, int), stage: Stage)
    requires m1.p1 < |ps| && m1.p2 < |ps| && m1.p1 != m1.p2
    requires m2.p1 < |ps| && m2.p2 < |ps| && m2.p1 != m2.p2
    ensures PlayRound(ps, [m1, m2], [t1, t2], stage)
         == Resolve(Resolve(ps, m1, t1.0, t1.1, stage), m2, t2.0, t2.1, stage)
  {
    var s1 := Resolve(ps, m1, t1.0, t1.1, stage);
    assert [m1, m2][1..] == [m2] && [t1, t2][1..] == [t2];
    assert PlayRound(s1, [m2], [t2], stage) == PlayRound(Resolve(s1, m2, t2.0, t2.1, stage), [], [], stage);
  }

  /** The semi-final's queue: the first two of the shuffled four, then the last two. */
  lemma SemiQueue(order: seq<nat>)
    requires |order| == 4
    ensures PairUp(order, 2) == [Match(order[0], order[1]), Match(order[2], order[3])]
  {
  }

  /** The semi-final: the two matches of the shuffled four flag each winner
      as a finalist and each loser as a bronze contender, and rank nobody. */
  lemma SemiRound(ps: seq<Entrant>, order: seq<nat>, t1: (int, int), t2: (int, int))
    returns (s: seq<Entrant>, w1: nat, l1: nat, w2: nat, l2: nat)
    requires Unplaced(ps) && |order| == 4 && Distinct(order)
    requires forall k :: 0 <= k < 4 ==> order[k] < |ps|
    ensures s == PlayRound(ps, PairUp(order, 2), [t1, t2], Semi) && |s| == |ps|
    ensures {w1, l1} == {order[0], order[1]} && {w2, l2} == {order[2], order[3]}
    ensures forall i :: 0 <= i < |s| ==> (IsSemiLoser(s[i]) <==> i == l1 || i == l2)
    ensures forall i :: 0 <= i < |s| ==> (IsSemiWinner(s[i]) <==> i == w1 || i == w2)
    ensures forall i :: 0 <= i < |s| ==> s[i].finalRank == 0
  {
    var m1, m2 := Match(order[0], order[1]), Match(order[2], order[3]);
    w1, l1 := Winner(m1, t1.0, t1.1), Loser(m1, t1.0, t1.1);
    w2, l2 := Winner(m2, t2.0, t2.1), Loser(m2, t2.0, t2.1);
    SemiQueue(order);
    PlayTwo(ps, m1, m2, t1, t2, Semi);
    var s1 := Resolve(ps, m1, t1.0, t1.1, Semi);
    SemiMatch(ps, m1, t1);
    SemiMatch(s1, m2, t2);
    s := Resolve(s1, m2, t2.0, t2.1, Semi);
  }

  /** When exactly two entrants carry a flag, the playoff match is theirs. */
  lemma PlayoffOfTwo(ps: seq<Entrant>, flag: Entrant -> bool, x: nat, y: nat)
    requires x < |ps| && y < |ps| && x != y
    requires forall i :: 0 <= i < |ps| ==> (flag(ps[i]) <==> i == x || i == y)
    ensures PlayoffMatch(ps, flag).Some?
    ensures {PlayoffMatch(ps, flag).value.p1, PlayoffMatch(ps, flag).value.p2} == {x, y}
  {
    var r := IdsWhere(ps, flag);
    TwoMembers(r, x, y);
  }

  /** The bronze match between the two semi-final losers ranks them 3 and 4
      and leaves the finalists' flags and everybody else's rank alone. */
  lemma BronzeStep(s: seq<Entrant>, m: Match, t: (int, int), w1: nat, w2: nat, l1: nat, l2: nat)
    requires m.p1 < |s| && m.p2 < |s| && m.p1 != m.p2 && {m.p1, m.p2} == {l1, l2}
    requires forall i :: 0 <= i < |s| ==> (IsSemiWinner(s[i]) <==> i == w1 || i == w2)
    ensures var b := Resolve(s, m, t.0, t.1, Bronze);
      && (forall i :: 0 <= i < |b| ==> (IsSemiWinner(b[i]) <==> i == w1 || i == w2))
      && {b[l1].finalRank, b[l2].finalRank} == {3, 4}
      && (forall i :: 0 <= i < |b| && i != l1 && i != l2 ==> b[i].finalRank == s[i].finalRank)
  {
  }

  /** The final between the two semi-final winners ranks them 1 and 2 and
      changes no other rank. */
  lemma FinalStep(b: seq<Entrant>, m: Match, t: (int, int), w1: nat, w2: nat)
    requires m.p1 < |b| && m.p2 < |b| && m.p1 != m.p2 && {m.p1, m.p2} == {w1, w2}
    ensures var f := Resolve(b, m, t.0, t.1, Final);
      && {f[w1].finalRank, f[w2].finalRank} == {1, 2}
      && (forall i :: 0 <= i < |f| && i != w1 && i != w2 ==> f[i].finalRank == b[i].finalRank)
  {
  }

  /** Every rank from 1 to 4 is held by exactly one of the four
      semi-finalists, and nobody else is ranked. */
  ghost predicate RanksOneToFour(f: seq<Entrant>, order: seq<nat>)
  {
    && (forall i :: 0 <= i < |f| ==> f[i].finalRank <= 4)
    && (forall i :: 0 <= i < |f| && f[i].finalRank > 0 ==> i in order)
    && {1, 2, 3, 4} <= (set i | 0 <= i < |f| :: f[i].finalRank)
    && (forall i, j :: 0 <= i < j < |f| && f[i].finalRank > 0 ==> f[i].finalRank != f[j].finalRank)
  }

  /** Ranks 1 and 2 on the finalists, 3 and 4 on the other two
      semi-finalists and none elsewhere hold each rank once. */
  lemma PlacedRanks(f: seq<Entrant>, order: seq<nat>, w1: nat, w2: nat, l1: nat, l2: nat)
    requires w1 < |f| && w2 < |f| && l1 < |f| && l2 < |f|
    requires w1 in order && w2 in order && l1 in order && l2 in order
    requires {f[w1].finalRank, f[w2].finalRank} == {1, 2} && {f[l1].finalRank, f[l2].finalRank} == {3, 4}
    requires forall i :: 0 <= i < |f| && i != w1 && i != w2 && i != l1 && i != l2 ==> f[i].finalRank == 0
    ensures RanksOneToFour(f, order)
  {
    var held := set i | 0 <= i < |f| :: f[i].finalRank;
    assert f[w1].finalRank in held && f[w2].finalRank in held;
    assert f[l1].finalRank in held && f[l2].finalRank in held;
  }

  /** After a semi-final with winners w1, w2 and losers l1, l2 among the
      four, the bronze match and the final both find their two players and
      leave ranks 1 to 4 each held once, by those four only. */
  lemma BronzeThenFinal(s: seq<Entrant>, order: seq<nat>, w1: nat, l1: nat, w2: nat, l2: nat,
                        bronze: (int, int), final: (int, int))
    returns (b: seq<Entrant>, f: seq<Entrant>)
    requires w1 < |s| && l1 < |s| && w2 < |s| && l2 < |s|
    requires w1 in order && l1 in order && w2 in order && l2 in order
    requires w1 != l1 && w2 != l2 && w1 != w2 && w1 != l2 && l1 != w2 && l1 != l2
    requires forall i :: 0 <= i < |s| ==> (IsSemiLoser(s[i]) <==> i == l1 || i == l2)
    requires forall i :: 0 <= i < |s| ==> (IsSemiWinner(s[i]) <==> i == w1 || i == w2)
    requires forall i :: 0 <= i < |s| ==> s[i].finalRank == 0
    ensures PlayoffMatch(s, IsSemiLoser).Some?
    ensures b == Resolve(s, PlayoffMatch(s, IsSemiLoser).value, bronze.0, bronze.1, Bronze)
    ensures PlayoffMatch(b, IsSemiWinner).Some?
    ensures f == Resolve(b, PlayoffMatch(b, IsSemiWinner).value, final.0, final.1, Final)
    ensures RanksOneToFour(f, order)
  {
    PlayoffOfTwo(s, IsSemiLoser, l1, l2);
    var bm := PlayoffMatch(s, IsSemiLoser).value;
    b := Resolve(s, bm, bronze.0, bronze.1, Bronze);
    BronzeStep(s, bm, bronze, w1, w2, l1, l2);
    PlayoffOfTwo(b, IsSemiWinner, w1, w2);
    var fm := PlayoffMatch(b, IsSemiWinner).value;
    f := Resolve(b, fm, final.0, final.1, Final);
    FinalStep(b, fm, final, w1, w2);
    PlacedRanks(f, order, w1, w2, l1, l2);
  }

  /** From the semi-final on the tournament cannot get stuck: the bronze
      match finds its two semi-final losers, the final its two winners, and
      afterwards ranks 1 to 4 are each held once, by semi-finalists only. */
  lemma PlayoffRanksEachOnce(ps: seq<Entrant>, order: seq<nat>, t1: (int, int), t2: (int, int),
                             bronze: (int, int), final: (int, int))
    returns (s: seq<Entrant>, b: seq<Entrant>, f: seq<Entrant>)
    requires Unplaced(ps) && |order| == 4 && Distinct(order)
    requires forall k :: 0 <= k < 4 ==> order[k] < |ps|
    ensures s == PlayRound(ps, PairUp(order, 2), [t1, t2], Semi)
    ensures PlayoffMatch(s, IsSemiLoser).Some?
    ensures b == Resolve(s, PlayoffMatch(s, IsSemiLoser).value, bronze.0, bronze.1, Bronze)
    ensures PlayoffMatch(b, IsSemiWinner).Some?
    ensures f == Resolve(b, PlayoffMatch(b, IsSemiWinner).value, final.0, final.1, Final)
    ensures RanksOneToFour(f, order)
  {
    var w1, l1, w2, l2;
    s, w1, l1, w2, l2 := SemiRound(ps, order, t1, t2);
    assert w1 in order && l1 in order && w2 in order && l2 in order;
    assert w1 != l1 && w2 != l2 && w1 != w2 && w1 != l2 && l1 != w2 && l1 != l2;
    b, f := BronzeThenFinal(s, order, w1, l1, w2, l2, bronze, final);
  }

  // ---------------------------------------------------------------- engine

  /** What the screen shows after a step: a match, the podium, nothing (the
      source recurses without end: no pairs could be made), or a crash (a
      playoff match with a missing entrant). */
  datatype Step = Showing | Podium | Stalled | Broken

  /** The pairing loop of `setupRoundMatches`: entrants 2k and 2k+1 of the
      shuffled list meet in match k. */
  method PairQueue(order: seq<nat>, count: nat) returns (q: seq<Match>)
    requires 2 * count <= |order|
    ensures q == PairUp(order, count)
  {
    q := [];
    var i := 0;
    while i < 2 * count
      invariant 0 <= i <= 2 * count && i == 2 * |q|
      invariant q == PairUp(order, |q|)
    {
      q := q + [Match(order[i], order[i + 1])];
      i := i + 2;
    }
  }

  predicate MatchOk(m: Match, n: nat)
  {
    m.p1 < n && m.p2 < n && m.p1 != m.p2
  }

  /** The tournament in progress. */
  class Tour {
    const pairing: Pairing
    var numPlayers: nat
    var bankId: string
    var players: seq<Entrant>
    var matchQueue: seq<Match>
    var currentMatchIdx: nat
    var stage: Stage
    var vs: Option<VsData>

    ghost predicate Valid()
      reads this
    {
      && MinEntrants <= numPlayers <= MaxEntrants
      && bankId != ""
      && (forall i :: 0 <= i < |players| ==> players[i].id == i && players[i].name != "")
    }

    /** The queued matches and the match on screen name current entrants. */
    ghost predicate Playable()
      reads this
    {
      && (forall k :: 0 <= k < |matchQueue| ==> MatchOk(matchQueue[k], |players|))
      && (vs.Some? ==> MatchOk(Match(vs.value.p1, vs.value.p2), |players|))
    }

    /** The match `m` is on screen, neither time played yet. */
    ghost predicate Shows(m: Match)
      reads this
    {
      vs == Some(VsData(m.p1, m.p2, None, None))
    }

    /** What `setupRoundMatches` leaves: the stage turns semi-final when a
        regular round starts with four entrants; the shuffled active list is
        paired; the first match is shown, or nothing is when no pair exists. */
    ghost predicate Paired(oldStage: Stage, oldVs: Option<VsData>, order: seq<nat>, step: Step)
      reads this
    {
      var semi := |order| == 4 && oldStage == Regular;
      && stage == (if semi then Semi else oldStage)
      && matchQueue == PairUp(order, MatchCount(pairing, stage == Semi, |order|))
      && currentMatchIdx == 0
      && (matchQueue != [] ==> step == Showing && Shows(matchQueue[0]))
      && (matchQueue == [] ==> step == Stalled && vs == oldVs)
    }

    /** A one-match playoff round is loaded, or its entrants are missing. */
    ghost predicate PlayoffLoaded(m: Option<Match>, oldQueue: seq<Match>, oldIdx: nat, oldVs: Option<VsData>, step: Step)
      reads this
    {
      && (m.Some? ==> matchQueue == [m.value] && currentMatchIdx == 0 && Shows(m.value) && step == Showing)
      && (m.None? ==> step == Broken && matchQueue == oldQueue && currentMatchIdx == oldIdx && vs == oldVs)
    }

    /** What `checkNextStage` leaves: the final leads to the podium, the
        semi-final to the bronze match of its two losers, the bronze match to
        the final of the two semi-final winners, anything else to a new
        regular round. */
    ghost predicate Advanced(oldStage: Stage, oldQueue: seq<Match>, oldIdx: nat, oldVs: Option<VsData>,
                             order: seq<nat>, step: Step)
      reads this
    {
      match oldStage
      case Final => step == Podium && stage == Final && matchQueue == oldQueue && currentMatchIdx == oldIdx && vs == oldVs
      case Semi => stage == Bronze && PlayoffLoaded(PlayoffMatch(players, IsSemiLoser), oldQueue, oldIdx, oldVs, step)
      case Bronze => stage == Final && PlayoffLoaded(PlayoffMatch(players, IsSemiWinner), oldQueue, oldIdx, oldVs, step)
      case _ => Paired(oldStage, oldVs, order, step)
    }

    /** The initial `TOUR` state: eight entrants, bank "b1", nothing played. */
    constructor (policy: Pairing)
      ensures Valid() && Playable() && pairing == policy
      ensures numPlayers == DefaultEntrants && bankId == DefaultBank && players == [] && matchQueue == []
      ensures currentMatchIdx == 0 && stage == Unset && vs == None
    {
      pairing := policy;
      numPlayers := DefaultEntrants;
      bankId := DefaultBank;
      players := [];
      matchQueue := [];
      currentMatchIdx := 0;
      stage := Unset;
      vs := None;
    }

    /** `adjustPlayers`. */
    method AdjustPlayers(delta: int)
      requires Valid()
      modifies this
      ensures Valid() && numPlayers == AdjustEntrants(old(numPlayers), delta)
      ensures bankId == old(bankId) && players == old(players) && matchQueue == old(matchQueue)
      ensures currentMatchIdx == old(currentMatchIdx) && stage == old(stage) && vs == old(vs)
    {
      numPlayers := AdjustEntrants(numPlayers, delta);
    }

    /** `goToRegistration`: the bank chosen for the whole tournament. */
    method GoToRegistration(bank: string)
      requires Valid() && bank != ""
      modifies this
      ensures Valid() && bankId == bank
      ensures numPlayers == old(numPlayers) && players == old(players) && matchQueue == old(matchQueue)
      ensures currentMatchIdx == old(currentMatchIdx) && stage == old(stage) && vs == old(vs)
    {
      bankId := bank;
    }

    /** `generateBracket`: register every seat (a blank seat gets its default
        name); a repeated name stops registration with the entrants so far;
        otherwise the regular stage begins with `order` as the shuffle. */
    method GenerateBracket(raws: seq<string>, order: seq<nat>) returns (res: Result<Step, string>)
      requires Valid() && |raws| == numPlayers && IsPermutationOfIds(order, numPlayers)
      modifies this
      ensures Valid()
      ensures numPlayers == old(numPlayers) && bankId == old(bankId)
      ensures players == Admit(SeatNames(raws)).0
      ensures res.Err? <==> Admit(SeatNames(raws)).1.Some?
      ensures res.Err? ==> && Admit(SeatNames(raws)).1 == Some(res.error)
                           && matchQueue == old(matchQueue) && currentMatchIdx == old(currentMatchIdx)
                           && stage == old(stage) && vs == old(vs)
      ensures res.Ok? ==> Paired(Regular, old(vs), order, res.value) && res.value == Showing && Playable()
    {
      var ps, duplicate := RegisterSeats(raws);
      players := ps;
      if duplicate.Some? {
        return Err(duplicate.value);
      }
      stage := Regular;
      assert ActiveShuffle(players, order) by {
        PermutationOfIdsFacts(order, numPlayers);
      }
      var step := SetupRoundMatches(order);
      return Ok(step);
    }

    /** `setupRoundMatches`: pair the shuffled active list `order` two by two. */
    method SetupRoundMatches(order: seq<nat>) returns (step: Step)
      requires Valid() && ActiveShuffle(players, order)
      modifies this
      ensures Valid()
      ensures numPlayers == old(numPlayers) && bankId == old(bankId) && players == old(players)
      ensures Paired(old(stage), old(vs), order, step)
      ensures step == Stalled <==> |order| < 2
      ensures step != Stalled || old(Playable()) ==> Playable()
    {
      var semi := |order| == 4 && stage == Regular;
      var count := MatchCount(pairing, semi || stage == Semi, |order|);
      var q := PairQueue(order, count);
      assert forall k :: 0 <= k < |q| ==> MatchOk(q[k], |players|) by {
        PairUpValid(players, order, pairing, semi || stage == Semi);
      }
      if semi {
        stage := Semi;
      }
      matchQueue := q;
      currentMatchIdx := 0;
      if q != [] {
        vs := Some(VsData(q[0].p1, q[0].p2, None, None));
        step := Showing;
      } else {
        step := Stalled;
      }
    }

    /** `showNextMatchVS`: the next queued match goes on screen with neither
        time played; once the queue is used up, `checkNextStage` decides what
        comes next (`order` is the shuffle a new regular round would use). */
    method ShowNextMatchVS(order: seq<nat>, session: Session, school: string, bankTitle: string,
                           typedName: string, now: int) returns (step: Step)
      requires Valid() && ActiveShuffle(players, order)
      modifies this, session
      ensures Valid()
      ensures numPlayers == old(numPlayers) && bankId == old(bankId) && players == old(players)
      ensures old(currentMatchIdx) < |old(matchQueue)| ==>
        && step == Showing && Shows(old(matchQueue)[old(currentMatchIdx)])
        && matchQueue == old(matchQueue) && currentMatchIdx == old(currentMatchIdx) && stage == old(stage)
      ensures old(currentMatchIdx) >= |old(matchQueue)| ==>
        Advanced(old(stage), old(matchQueue), old(currentMatchIdx), old(vs), order, step)
      ensures session.history == old(session.history) +
        (if step == Podium then TourRecords(players, bankId, school, bankTitle, typedName,
                                            session.currentBankId, session.currentMode, now) else [])
      ensures session.currentBankId == old(session.currentBankId) && session.currentMode == old(session.currentMode)
      ensures old(Playable()) ==> Playable()
    {
      if currentMatchIdx >= |matchQueue| {
        step := CheckNextStage(order, session, school, bankTitle, typedName, now);
        return;
      }
      var m := matchQueue[currentMatchIdx];
      vs := Some(VsData(m.p1, m.p2, None, None));
      step := Showing;
    }

    /** `checkNextStage`: after the final the podium; after the semi-final
        the bronze match of its losers; after the bronze match the final of
        the semi-final winners; otherwise a new regular round. */
    method CheckNextStage(order: seq<nat>, session: Session, school: string, bankTitle: string,
                          typedName: string, now: int) returns (step: Step)
      requires Valid() && ActiveShuffle(players, order)
      modifies this, session
      ensures Valid()
      ensures numPlayers == old(numPlayers) && bankId == old(bankId) && players == old(players)
      ensures Advanced(old(stage), old(matchQueue), old(currentMatchIdx), old(vs), order, step)
      ensures session.history == old(session.history) +
        (if step == Podium then TourRecords(players, bankId, school, bankTitle, typedName,
                                            session.currentBankId, session.currentMode, now) else [])
      ensures session.currentBankId == old(session.currentBankId) && session.currentMode == old(session.currentMode)
      ensures old(Playable()) ==> Playable()
    {
      if stage == Final {
        ShowPodium(session, school, bankTitle, typedName, now);
        step := Podium;
      } else if stage == Semi {
        step := LoadPlayoff(Bronze, PlayoffMatch(players, IsSemiLoser));
      } else if stage == Bronze {
        step := LoadPlayoff(Final, PlayoffMatch(players, IsSemiWinner));
      } else {
        step := SetupRoundMatches(order);
      }
    }

    /** The playoff stage `next` begins with the one match `m` on screen; a
        missing entrant leaves nothing to show. */
    method LoadPlayoff(next: Stage, m: Option<Match>) returns (step: Step)
      requires Valid() && (m.Some? ==> MatchOk(m.value, |players|))
      modifies this
      ensures Valid() && stage == next
      ensures numPlayers == old(numPlayers) && bankId == old(bankId) && players == old(players)
      ensures PlayoffLoaded(m, old(matchQueue), old(currentMatchIdx), old(vs), step)
      ensures old(Playable()) ==> Playable()
    {
      stage := next;
      if m.Some? {
        matchQueue := [m.value];
        currentMatchIdx := 0;
        vs := Some(VsData(m.value.p1, m.value.p2, None, None));
        step := Showing;
      } else {
        step := Broken;
      }
    }

    /** `showPodium`: one record saved per ranked entrant, in seat order. */
    method ShowPodium(session: Session, school: string, bankTitle: string, typedName: string, now: int)
      modifies session
      ensures session.history == old(session.history) +
        TourRecords(players, bankId, school, bankTitle, typedName, session.currentBankId, session.currentMode, now)
      ensures session.currentBankId == old(session.currentBankId) && session.currentMode == old(session.currentMode)
    {
      var i := 0;
      while i < |players|
        invariant 0 <= i <= |players|
        invariant session.currentBankId == old(session.currentBankId) && session.currentMode == old(session.currentMode)
        invariant session.history == old(session.history) +
          TourRecords(players[..i], bankId, school, bankTitle, typedName, session.currentBankId, session.currentMode, now)
      {
        assert players[..i + 1][..i] == players[..i];
        if players[i].finalRank > 0 {
          session.SaveRecord(TourDraft(players[i], school, bankId, bankTitle), typedName, school, now);
        }
        i := i + 1;
      }
      assert players[..i] == players;
    }

    /** `startMatch`: the entrant whose turn it is (p1 until p1 has a time)
        plays on the tournament's bank. */
    method StartMatch(session: Session) returns (name: string)
      requires Valid() && Playable() && vs.Some?
      modifies session
      ensures name == players[if vs.value.p1Time.None? then vs.value.p1 else vs.value.p2].name
      ensures name != ""
      ensures session.currentBankId == bankId
      ensures session.history == old(session.history) && session.currentMode == old(session.currentMode)
    {
      var v := vs.value;
      name := players[if v.p1Time.None? then v.p1 else v.p2].name;
      session.currentBankId := bankId;
    }

    /** `handleGameEnd`: the first time is p1's; the second is p2's and
        resolves the match. */
    method HandleGameEnd(time: int) returns (resolved: bool)
      requires Valid() && Playable() && vs.Some?
      modifies this
      ensures Valid() && Playable()
      ensures numPlayers == old(numPlayers) && bankId == old(bankId) && matchQueue == old(matchQueue) && stage == old(stage)
      ensures resolved <==> old(vs).value.p1Time.Some?
      ensures !resolved ==> && vs == Some(old(vs).value.(p1Time := Some(time)))
                            && players == old(players) && currentMatchIdx == old(currentMatchIdx)
      ensures resolved ==> var v := old(vs).value;
        && vs == Some(v.(p2Time := Some(time)))
        && players == Resolve(old(players), Match(v.p1, v.p2), v.p1Time.value, time, stage)
        && currentMatchIdx == old(currentMatchIdx) + 1
    {
      var v := vs.value;
      if v.p1Time.None? {
        vs := Some(v.(p1Time := Some(time)));
        return false;
      }
      vs := Some(v.(p2Time := Some(time)));
      ResolveMatch();
      return true;
    }

    /** `resolveMatch`, with the timer that moves on to the next match: the
        entrants on screen play it out with their recorded times. */
    method ResolveMatch()
      requires Valid() && Playable() && vs.Some? && vs.value.p1Time.Some? && vs.value.p2Time.Some?
      modifies this
      ensures Valid() && Playable()
      ensures var v := old(vs).value;
        players == Resolve(old(players), Match(v.p1, v.p2), v.p1Time.value, v.p2Time.value, stage)
      ensures currentMatchIdx == old(currentMatchIdx) + 1
      ensures numPlayers == old(numPlayers) && bankId == old(bankId) && matchQueue == old(matchQueue)
      ensures stage == old(stage) && vs == old(vs)
    {
      var v := vs.value;
      var m := Match(v.p1, v.p2);
      ResolveFacts(players, m, v.p1Time.value, v.p2Time.value, stage);
      players := Resolve(players, m, v.p1Time.value, v.p2Time.value, stage);
      currentMatchIdx := currentMatchIdx + 1;
    }
  }
}
