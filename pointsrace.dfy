/** The F1 points race (the `F1` object, app.js:661-882): three rounds over
    N racers, every racer playing once per round, each round scored by rank
    on time plus a clean-run bonus, final standings by points then total time.
    Times are integer centiseconds. */
module PointsRace {
  import opened Common
  import opened Sorting
  import opened Records

  /** Points for ranks 0..9 (app.js:28); every later rank scores 0. */
  const Points: seq<nat> := [25, 18, 15, 12, 10, 8, 6, 4, 2, 1]
  const CleanBonus: nat := 2
  const Rounds: nat := 3
  const MaxNameLength: nat := 6
  const MinRacers: nat := 2
  const MaxRacers: nat := 30
  const F1Bank := "f1-mix"

  datatype Racer = Racer(
    id: nat,
    name: string,
    roundTimes: seq<int>,
    roundPoints: seq<int>,
    totalPoints: int,
    lastErrors: int)

  function FreshRacer(i: nat): Racer
  {
    Racer(i, "", [0, 0, 0], [0, 0, 0], 0, 0)
  }

  /** `createRace`'s racers: seats 0..n-1, unnamed, no times, no points. */
  function FreshRacers(n: nat): (ps: seq<Racer>)
    ensures |ps| == n && forall i :: 0 <= i < n ==> ps[i] == FreshRacer(i)
  {
    seq(n, i requires 0 <= i < n => FreshRacer(i))
  }

  /** `adjustPlayers`: the racer count moves by `delta`, clamped to 2..30. */
  function AdjustRacers(current: int, delta: int): (n: int)
    ensures MinRacers <= n <= MaxRacers
    ensures MinRacers <= current + delta <= MaxRacers ==> n == current + delta
    ensures current + delta < MinRacers ==> n == MinRacers
    ensures current + delta > MaxRacers ==> n == MaxRacers
  {
    var n := current + delta;
    if n < MinRacers then MinRacers else if n > MaxRacers then MaxRacers else n
  }

  /** `roundTimes.reduce((x, y) => x + y, 0)`. */
  function Sum(s: seq<int>): int
  {
    if s == [] then 0 else Sum(s[..|s| - 1]) + s[|s| - 1]
  }

  /** The base points of a rank: the table entry, or 0 from 11th place on. */
  function PointsForRank(rank: nat): nat
  {
    if rank < |Points| then Points[rank] else 0
  }

  /** What rank `rank` earns: base points plus 2 for a run without errors. */
  function Award(rank: nat, errors: int): int
  {
    PointsForRank(rank) + (if errors == 0 then CleanBonus else 0)
  }

  /** Exactly the first ten places earn base points, and no place earns
      more than the winner's 25. */
  lemma {:induction false} OnlyTopTenScore(rank: nat)
    ensures PointsForRank(rank) > 0 <==> rank < 10
    ensures PointsForRank(rank) <= PointsForRank(0) == 25
  {
    PointsNonIncreasing(0, rank);
    if rank < 10 {
      PointsNonIncreasing(rank, 9);
    }
  }

  /** A better rank never earns fewer base points. */
  lemma PointsNonIncreasing(a: nat, b: nat)
    requires a <= b
    ensures PointsForRank(a) >= PointsForRank(b)
  {
    if b < |Points| {
      var i := a;
      while i < b
        invariant a <= i <= b
        invariant PointsForRank(a) >= PointsForRank(i)
      {
        i := i + 1;
      }
    }
  }

  // ---------------------------------------------------------------- ranking

  /** The round-r comparator `a.roundTimes[r] - b.roundTimes[r]`, on ids. */
  function RoundKey(ps: seq<Racer>, r: nat): nat -> seq<real>
  {
    (i: nat) => if i < |ps| && r < |ps[i].roundTimes| then [ps[i].roundTimes[r] as real] else []
  }

  /** The round-r ranking: the player list (ids in creation order) stably
      sorted by ascending round-r time. */
  function Ranking(ps: seq<Racer>, r: nat): (order: seq<nat>)
    ensures |order| == |ps| && forall k :: 0 <= k < |order| ==> order[k] < |ps|
  {
    var order := SortBy(Ids(|ps|), RoundKey(ps, r));
    PermutationOfIdsFacts(order, |ps|);
    order
  }

  ghost predicate WellFormed(ps: seq<Racer>)
  {
    forall i :: 0 <= i < |ps| ==> ps[i].id == i && |ps[i].roundTimes| == Rounds && |ps[i].roundPoints| == Rounds
  }

  function TimeOf(ps: seq<Racer>, i: nat, r: nat): int
    requires WellFormed(ps) && i < |ps| && r < Rounds
  {
    ps[i].roundTimes[r]
  }

  lemma KeyLeSingle(x: real, y: real)
    ensures KeyLe([x], [y]) <==> x <= y
  {
    assert Tail([x]) == [] && Tail([y]) == [];
  }

  /** The ranking lists every racer once, fastest first, and equal times in
      id order (the sort is stable). */
  lemma RankingFacts(ps: seq<Racer>, r: nat)
    requires WellFormed(ps) && r < Rounds
    ensures var order := Ranking(ps, r);
      && IsPermutationOfIds(order, |ps|)
      && Distinct(order)
      && (forall i :: 0 <= i < |ps| ==> i in order)
      && (forall a, b :: 0 <= a < b < |order| ==> TimeOf(ps, order[a], r) <= TimeOf(ps, order[b], r))
      && (forall a, b :: 0 <= a < b < |order| && TimeOf(ps, order[a], r) == TimeOf(ps, order[b], r) ==> order[a] < order[b])
  {
    var order := Ranking(ps, r);
    var key := RoundKey(ps, r);
    var ids := Ids(|ps|);
    PermutationOfIdsFacts(order, |ps|);
    SortSorted(ids, key);
    var pos := (i: nat) => i as int;
    SortStable(ids, key, pos);
    forall a, b | 0 <= a < b < |order| ensures TimeOf(ps, order[a], r) <= TimeOf(ps, order[b], r) {
      assert KeyLe(key(order[a]), key(order[b]));
      KeyLeSingle(TimeOf(ps, order[a], r) as real, TimeOf(ps, order[b], r) as real);
    }
    forall a, b | 0 <= a < b < |order| && TimeOf(ps, order[a], r) == TimeOf(ps, order[b], r)
      ensures order[a] < order[b]
    {
      KeyLeSingle(TimeOf(ps, order[b], r) as real, TimeOf(ps, order[a], r) as real);
      assert KeyLe(key(order[b]), key(order[a]));
      assert pos(order[a]) < pos(order[b]);
    }
  }

  /** A strictly faster racer ranks ahead and earns at least as many base points. */
  lemma FasterEarnsNoLess(ps: seq<Racer>, r: nat, a: nat, b: nat)
    requires WellFormed(ps) && r < Rounds
    requires a < |ps| && b < |ps| && TimeOf(ps, a, r) < TimeOf(ps, b, r)
    ensures RankOf(Ranking(ps, r), a) < RankOf(Ranking(ps, r), b)
    ensures PointsForRank(RankOf(Ranking(ps, r), a)) >= PointsForRank(RankOf(Ranking(ps, r), b))
  {
    var order := Ranking(ps, r);
    RankingFacts(ps, r);
    var ra, rb := RankOf(order, a), RankOf(order, b);
    if rb <= ra {
      assert false;
    }
    PointsNonIncreasing(ra, rb);
  }

  /** Where `i` stands in `order` (|order| when absent). */
  function RankOf(order: seq<nat>, i: nat): (k: nat)
    ensures k <= |order|
    ensures i in order ==> k < |order| && order[k] == i
    ensures forall j :: 0 <= j < k ==> order[j] != i
  {
    if order == [] then 0 else if order[0] == i then 0 else 1 + RankOf(order[1..], i)
  }

  lemma RankOfDistinct(order: seq<nat>, k: nat)
    requires Distinct(order) && k < |order|
    ensures RankOf(order, order[k]) == k
  {
    var j := RankOf(order, order[k]);
    assert order[k] in order;
    assert order[j] == order[k];
  }

  // ---------------------------------------------------------------- scoring

  /** `p` after earning `points` in round `r`. */
  function Scored(p: Racer, r: nat, points: int): Racer
    requires r < |p.roundPoints|
  {
    p.(roundPoints := p.roundPoints[r := points], totalPoints := p.totalPoints + points)
  }

  /** Every racer after round `r` is scored: rank k of the round-r ranking
      earns `Award(k, lastErrors)` into `roundPoints[r]` and `totalPoints`. */
  function ScoreRound(ps: seq<Racer>, r: nat): (qs: seq<Racer>)
    requires WellFormed(ps) && r < Rounds
    ensures |qs| == |ps|
  {
    var order := Ranking(ps, r);
    seq(|ps|, i requires 0 <= i < |ps| => Scored(ps[i], r, Award(RankOf(order, i), ps[i].lastErrors)))
  }

  /** Round scoring, read by rank: the racer at rank k gets `Points[k]`
      (0 past 10th) plus the bonus; its times, name and other rounds' points
      are untouched, and it stays well formed. */
  lemma ScoreRoundAtRank(ps: seq<Racer>, r: nat, k: nat)
    requires WellFormed(ps) && r < Rounds && k < |ps|
    ensures var order := Ranking(ps, r); var i := order[k]; var q := ScoreRound(ps, r)[i];
      && i < |ps|
      && q.roundPoints[r] == PointsForRank(k) + (if ps[i].lastErrors == 0 then CleanBonus else 0)
      && q.totalPoints == ps[i].totalPoints + q.roundPoints[r]
      && q.roundTimes == ps[i].roundTimes && q.name == ps[i].name && q.id == ps[i].id
      && q.lastErrors == ps[i].lastErrors
      && (forall s :: 0 <= s < Rounds && s != r ==> q.roundPoints[s] == ps[i].roundPoints[s])
  {
    RankingFacts(ps, r);
    RankOfDistinct(Ranking(ps, r), k);
  }

  lemma ScoreRoundWellFormed(ps: seq<Racer>, r: nat)
    requires WellFormed(ps) && r < Rounds
    ensures WellFormed(ScoreRound(ps, r))
  {
  }

  /** The four racers of the worked example: times 10.00, 10.00, 10.10 and
      10.20 seconds, the second with one error. */
  function ExampleRacers(): (ps: seq<Racer>)
    ensures WellFormed(ps)
  {
    [Racer(0, "A", [1000, 0, 0], [0, 0, 0], 0, 0),
     Racer(1, "B", [1000, 0, 0], [0, 0, 0], 0, 1),
     Racer(2, "C", [1010, 0, 0], [0, 0, 0], 0, 0),
     Racer(3, "D", [1020, 0, 0], [0, 0, 0], 0, 0)]
  }

  /** The worked example ranks in seat order (the tie stays in seat order)
      and scores 27, 18, 17 and 14. */
  /** The example's round-0 times are already in order, so the stable sort
      leaves the seats as they are. */
  lemma ExampleRanking()
    ensures Ranking(ExampleRacers(), 0) == [0, 1, 2, 3]
  {
    var ps := ExampleRacers();
    var key := RoundKey(ps, 0);
    var ids := Ids(4);
    assert ids == [0, 1, 2, 3];
    forall i, j | 0 <= i < j < 4 ensures KeyLe(key(ids[i]), key(ids[j])) {
      KeyLeSingle(ps[i].roundTimes[0] as real, ps[j].roundTimes[0] as real);
    }
    SortOfSorted(ids, key);
  }

  /** In the example every racer keeps its seat as its rank, so seat `k`
      earns the table entry of place `k` plus the clean-run bonus. */
  lemma ExampleScore(k: nat)
    requires k < 4
    ensures var ps := ExampleRacers();
      ScoreRound(ps, 0)[k].totalPoints == PointsForRank(k) + (if ps[k].lastErrors == 0 then CleanBonus else 0)
  {
    ExampleRanking();
    ScoreRoundAtRank(ExampleRacers(), 0, k);
  }

  lemma ExampleFrontTotals()
    ensures ScoreRound(ExampleRacers(), 0)[0].totalPoints == 27
    ensures ScoreRound(ExampleRacers(), 0)[1].totalPoints == 18
  {
    ExampleScore(0);
    ExampleScore(1);
  }

  lemma ExampleBackTotals()
    ensures ScoreRound(ExampleRacers(), 0)[2].totalPoints == 17
    ensures ScoreRound(ExampleRacers(), 0)[3].totalPoints == 14
  {
    ExampleScore(2);
    ExampleScore(3);
  }

  lemma FourRacerExample()
    ensures Ranking(ExampleRacers(), 0) == [0, 1, 2, 3]
    ensures ScoreRound(ExampleRacers(), 0)[0].totalPoints == 27
    ensures ScoreRound(ExampleRacers(), 0)[1].totalPoints == 18
    ensures ScoreRound(ExampleRacers(), 0)[2].totalPoints == 17
    ensures ScoreRound(ExampleRacers(), 0)[3].totalPoints == 14
  {
    ExampleRanking();
    ExampleFrontTotals();
    ExampleBackTotals();
  }

  // ---------------------------------------------------------------- standings

  /** The podium comparator: more total points first, then the smaller sum
      of round times (app.js:805-809; the round-result screen after rounds
      2 and 3 uses the same chain, app.js:780). */
  function StandingKey(ps: seq<Racer>): nat -> seq<real>
  {
    (i: nat) => if i < |ps| then [-(ps[i].totalPoints as real), Sum(ps[i].roundTimes) as real] else []
  }

  function FinalStandings(ps: seq<Racer>): (order: seq<nat>)
    ensures |order| == |ps| && forall k :: 0 <= k < |order| ==> order[k] < |ps|
  {
    var order := SortBy(Ids(|ps|), StandingKey(ps));
    PermutationOfIdsFacts(order, |ps|);
    order
  }

  lemma KeyLePair(a: real, b: real, c: real, d: real)
    ensures KeyLe([a, b], [c, d]) <==> a < c || (a == c && b <= d)
  {
    assert Tail([a, b]) == [b] && Tail([c, d]) == [d];
    KeyLeSingle(b, d);
  }

  /** Final standings list every racer once, by points descending, then by
      total time ascending, full ties in id order. */
  lemma FinalStandingsFacts(ps: seq<Racer>)
    ensures var order := FinalStandings(ps);
      && IsPermutationOfIds(order, |ps|)
      && (forall k :: 0 <= k < |order| ==> order[k] < |ps|)
      && (forall a, b :: 0 <= a < b < |order| ==>
            var x, y := ps[order[a]], ps[order[b]];
            x.totalPoints > y.totalPoints
            || (x.totalPoints == y.totalPoints && Sum(x.roundTimes) <= Sum(y.roundTimes)))
      && (forall a, b :: 0 <= a < b < |order| ==>
            var x, y := ps[order[a]], ps[order[b]];
            x.totalPoints == y.totalPoints && Sum(x.roundTimes) == Sum(y.roundTimes) ==> order[a] < order[b])
  {
    var order := FinalStandings(ps);
    var key := StandingKey(ps);
    var ids := Ids(|ps|);
    PermutationOfIdsFacts(order, |ps|);
    SortSorted(ids, key);
    var pos := (i: nat) => i as int;
    SortStable(ids, key, pos);
    forall a, b | 0 <= a < b < |order|
      ensures var x, y := ps[order[a]], ps[order[b]];
        x.totalPoints > y.totalPoints
        || (x.totalPoints == y.totalPoints && Sum(x.roundTimes) <= Sum(y.roundTimes))
    {
      var x, y := ps[order[a]], ps[order[b]];
      assert KeyLe(key(order[a]), key(order[b]));
      KeyLePair(-(x.totalPoints as real), Sum(x.roundTimes) as real, -(y.totalPoints as real), Sum(y.roundTimes) as real);
    }
    forall a, b | 0 <= a < b < |order| &&
        ps[order[a]].totalPoints == ps[order[b]].totalPoints && Sum(ps[order[a]].roundTimes) == Sum(ps[order[b]].roundTimes)
      ensures order[a] < order[b]
    {
      var x, y := ps[order[a]], ps[order[b]];
      KeyLePair(-(y.totalPoints as real), Sum(y.roundTimes) as real, -(x.totalPoints as real), Sum(x.roundTimes) as real);
      assert KeyLe(key(order[b]), key(order[a]));
      assert pos(order[a]) < pos(order[b]);
    }
  }

  /** The round-result screen after round 1 lists racers by their round-1
      time; after rounds 2 and 3 by the standings comparator, whose time key
      sums all three rounds, unplayed ones still 0 (app.js:778-783). */
  function RoundDisplayOrder(ps: seq<Racer>, r: nat): seq<nat>
    requires WellFormed(ps) && r < Rounds
  {
    if r > 0 then FinalStandings(ps) else Ranking(ps, 0)
  }

  /** Because unplayed rounds still read 0, the display's sum of all three
      times is the cumulative time of the rounds played so far. */
  lemma {:induction false} SumOfPlayedRounds(times: seq<int>, r: nat)
    requires r < |times|
    requires forall q :: r < q < |times| ==> times[q] == 0
    ensures Sum(times) == Sum(times[..r + 1])
    decreases |times|
  {
    if |times| > r + 1 {
      var init := times[..|times| - 1];
      assert init[..r + 1] == times[..r + 1];
      SumOfPlayedRounds(init, r);
    } else {
      assert times[..r + 1] == times;
    }
  }

  /** The record the podium saves for a racer (app.js:812-815). */
  function RaceDraft(p: Racer, school: string): Draft
  {
    Draft(p.name, school, F1Bank, "", F1, Sum(p.roundTimes), 0.0, 0, p.totalPoints, 0)
  }

  /** The records the podium appends: one per racer, in standings order. */
  function PodiumRecords(ps: seq<Racer>, order: seq<nat>, school: string, typedName: string,
                         bank: string, mode: string, now: int): (rs: seq<Record>)
    requires forall k :: 0 <= k < |order| ==> order[k] < |ps|
    ensures |rs| == |order|
    ensures forall k :: 0 <= k < |order| ==>
      rs[k].mode == F1 && rs[k].bankId == F1Bank && rs[k].score == ps[order[k]].totalPoints
      && rs[k].time == Sum(ps[order[k]].roundTimes) && rs[k].timestamp == now
    ensures forall k :: 0 <= k < |order| ==>
      rs[k].player == OrElse(ps[order[k]].name, typedName) && rs[k].school == school
      && rs[k].errors == 0 && rs[k].bankTitle == "" && rs[k].rounds == 0
  {
    seq(|order|, k requires 0 <= k < |order| => Complete(RaceDraft(ps[order[k]], school), typedName, school, bank, mode, now))
  }

  /** Once every racer is named, the podium saves exactly one record per
      racer: each racer's name heads one record carrying its points, and no
      name heads two. */
  lemma PodiumOnePerRacer(ps: seq<Racer>, school: string, typedName: string, bank: string, mode: string, now: int)
    requires WellFormed(ps) && NamesDistinct(ps)
    requires forall i :: 0 <= i < |ps| ==> ps[i].name != ""
    ensures var rs := PodiumRecords(ps, FinalStandings(ps), school, typedName, bank, mode, now);
      && |rs| == |ps|
      && (forall i :: 0 <= i < |ps| ==>
            exists k :: 0 <= k < |rs| && rs[k].player == ps[i].name && rs[k].score == ps[i].totalPoints)
      && (forall a, b :: 0 <= a < b < |rs| ==> rs[a].player != rs[b].player)
  {
    var order := FinalStandings(ps);
    FinalStandingsFacts(ps);
    PermutationOfIdsFacts(order, |ps|);
    var rs := PodiumRecords(ps, order, school, typedName, bank, mode, now);
    forall i | 0 <= i < |ps|
      ensures exists k :: 0 <= k < |rs| && rs[k].player == ps[i].name && rs[k].score == ps[i].totalPoints
    {
      assert i in order;
      var k :| 0 <= k < |order| && order[k] == i;
      assert rs[k].player == ps[i].name;
    }
    forall a, b | 0 <= a < b < |rs| ensures rs[a].player != rs[b].player {
      assert order[a] != order[b];
      assert rs[a].player == ps[order[a]].name && rs[b].player == ps[order[b]].name;
    }
  }

  // ---------------------------------------------------------------- names

  datatype NameError = EmptyName | NameTooLong | DuplicateName

  /** Round-1 name entry (app.js:719-727): the trimmed name must be
      non-empty, at most 6 characters and not another racer's name. */
  function CheckRaceName(ps: seq<Racer>, seat: nat, raw: string): (res: Result<string, NameError>)
    ensures res.Ok? <==>
      && Trim(raw) != "" && |Trim(raw)| <= MaxNameLength
      && (forall i :: 0 <= i < |ps| && ps[i].id != seat ==> ps[i].name != Trim(raw))
    ensures res.Ok? ==> res.value == Trim(raw)
    ensures res == Err(EmptyName) <==> Trim(raw) == ""
    ensures res == Err(NameTooLong) <==> Trim(raw) != "" && |Trim(raw)| > MaxNameLength
  {
    var name := Trim(raw);
    if name == "" then Err(EmptyName)
    else if |name| > MaxNameLength then Err(NameTooLong)
    else if exists i :: 0 <= i < |ps| && ps[i].id != seat && ps[i].name == name then Err(DuplicateName)
    else Ok(name)
  }

  // ---------------------------------------------------------------- engine

  /** No two racers carry the same (non-empty) name. */
  ghost predicate NamesDistinct(ps: seq<Racer>)
  {
    forall i, j :: 0 <= i < |ps| && 0 <= j < |ps| && i != j && ps[i].name != "" ==> ps[i].name != ps[j].name
  }

  /** Rounds after `r` have not been played: their times still read 0. */
  ghost predicate LaterRoundsUnplayed(ps: seq<Racer>, r: nat)
    requires WellFormed(ps)
  {
    forall i, q :: 0 <= i < |ps| && r < q < Rounds ==> ps[i].roundTimes[q] == 0
  }

  /** A finished turn: the racer's time for round `r` and its error count
      are recorded. */
  function RecordTurn(ps: seq<Racer>, seat: nat, r: nat, time: int, errors: int): (qs: seq<Racer>)
    requires seat < |ps| && r < |ps[seat].roundTimes|
    ensures |qs| == |ps| && qs[seat].lastErrors == errors
    ensures forall i :: 0 <= i < |ps| && i != seat ==> qs[i] == ps[i]
  {
    ps[seat := ps[seat].(roundTimes := ps[seat].roundTimes[r := time], lastErrors := errors)]
  }

  /** Recording a turn of the current round keeps the racers well formed,
      their names distinct and the later rounds unplayed; the racer's time
      for that round is the one given. */
  lemma RecordTurnKeepsState(ps: seq<Racer>, seat: nat, r: nat, time: int, errors: int)
    requires WellFormed(ps) && seat < |ps| && r < Rounds
    ensures var qs := RecordTurn(ps, seat, r, time, errors);
      && WellFormed(qs) && TimeOf(qs, seat, r) == time
      && (forall q :: 0 <= q < Rounds && q != r ==> TimeOf(qs, seat, q) == TimeOf(ps, seat, q))
      && (NamesDistinct(ps) ==> NamesDistinct(qs))
      && (LaterRoundsUnplayed(ps, r) ==> LaterRoundsUnplayed(qs, r))
  {
  }

  /** An accepted name keeps the racers' names distinct. */
  lemma AcceptedNameKeepsNamesDistinct(ps: seq<Racer>, seat: nat, raw: string)
    requires WellFormed(ps) && NamesDistinct(ps) && seat < |ps| && CheckRaceName(ps, seat, raw).Ok?
    ensures NamesDistinct(ps[seat := ps[seat].(name := Trim(raw))])
  {
    var qs := ps[seat := ps[seat].(name := Trim(raw))];
    forall i, j | 0 <= i < |qs| && 0 <= j < |qs| && i != j && qs[i].name != "" ensures qs[i].name != qs[j].name {
      if i == seat {
        assert ps[j].id != seat;
      } else if j == seat {
        assert ps[i].id != seat;
      }
    }
  }

  /** Scoring touches points only: seats, names and times are as before. */
  lemma ScoreRoundKeepsTimesAndNames(ps: seq<Racer>, r: nat, played: nat)
    requires WellFormed(ps) && r < Rounds
    ensures forall i :: 0 <= i < |ps| ==>
      var q := ScoreRound(ps, r)[i];
      q.id == ps[i].id && q.name == ps[i].name && q.roundTimes == ps[i].roundTimes
      && |q.roundPoints| == Rounds && q.lastErrors == ps[i].lastErrors
    ensures WellFormed(ScoreRound(ps, r))
    ensures NamesDistinct(ps) ==> NamesDistinct(ScoreRound(ps, r))
    ensures LaterRoundsUnplayed(ps, played) ==> LaterRoundsUnplayed(ScoreRound(ps, r), played)
  {
  }

  /** Scoring every rank of the ranking, one at a time, is `ScoreRound`. */
  lemma {:induction false} ScoredByRank(ps: seq<Racer>, r: nat, qs: seq<Racer>)
    requires WellFormed(ps) && r < Rounds && |qs| == |ps|
    requires forall k :: 0 <= k < |ps| ==>
      var i := Ranking(ps, r)[k]; qs[i] == Scored(ps[i], r, Award(k, ps[i].lastErrors))
    ensures qs == ScoreRound(ps, r)
  {
    var order := Ranking(ps, r);
    RankingFacts(ps, r);
    forall i | 0 <= i < |ps| ensures qs[i] == ScoreRound(ps, r)[i] {
      var k := RankOf(order, i);
      RankOfDistinct(order, k);
    }
  }

  /** The loop of `calcRoundResult`: walk the round ranking and give the
      racer at each rank its award. */
  method AwardRound(ps: seq<Racer>, r: nat) returns (qs: seq<Racer>)
    requires WellFormed(ps) && r < Rounds
    ensures qs == ScoreRound(ps, r)
  {
    qs := ps;
    var order := Ranking(ps, r);
    assert Distinct(order) by {
      RankingFacts(ps, r);
    }
    var k := 0;
    while k < |order|
      invariant 0 <= k <= |order| == |ps| == |qs|
      invariant forall j :: 0 <= j < k ==>
        qs[order[j]] == Scored(ps[order[j]], r, Award(j, ps[order[j]].lastErrors))
      invariant forall j :: k <= j < |order| ==> qs[order[j]] == ps[order[j]]
    {
      var id := order[k];
      var p := qs[id];
      var points := if k < |Points| then Points[k] else 0;
      if p.lastErrors == 0 {
        points := points + CleanBonus;
      }
      assert p == ps[id] && points == Award(k, p.lastErrors);
      assert forall j :: 0 <= j < |order| && j != k ==> order[j] != id;
      qs := qs[id := p.(roundPoints := p.roundPoints[r := points], totalPoints := p.totalPoints + points)];
      k := k + 1;
    }
    ScoredByRank(ps, r, qs);
  }

  datatype TurnOutcome = NextTurn | RoundScored | RaceOver

  /** The race in progress: racers, the three banks, the round, the turn
      queue and the turn index into it. */
  class Race {
    var players: seq<Racer>
    var banks: seq<string>
    var roundIdx: nat
    var turnQueue: seq<nat>
    var turnPtr: nat

    ghost predicate Valid()
      reads this
    {
      && WellFormed(players)
      && |banks| == Rounds
      && roundIdx < Rounds
      && IsPermutationOfIds(turnQueue, |players|)
      && (forall k :: 0 <= k < |turnQueue| ==> turnQueue[k] < |players|)
      && turnPtr <= |turnQueue|
      && LaterRoundsUnplayed(players, roundIdx)
      && NamesDistinct(players)
    }

    /** `createRace` followed by `startRound(0)`: fresh racers, round 0,
        the queue in seat order. */
    constructor CreateRace(num: nat, roundBanks: seq<string>)
      requires MinRacers <= num <= MaxRacers && |roundBanks| == Rounds
      ensures Valid()
      ensures players == FreshRacers(num) && banks == roundBanks
      ensures roundIdx == 0 && turnQueue == Ids(num) && turnPtr == 0
    {
      players := FreshRacers(num);
      banks := roundBanks;
      roundIdx := 0;
      turnQueue := Ids(num);
      turnPtr := 0;
    }

    /** `nextRound`: while a round remains, start it with the shuffled
        queue `shuffled` (any permutation of the ids) and the turn index at 0. */
    method NextRound(shuffled: seq<nat>)
      requires Valid()
      requires roundIdx < Rounds - 1 ==> IsPermutationOfIds(shuffled, |players|)
      modifies this
      ensures Valid()
      ensures players == old(players) && banks == old(banks)
      ensures old(roundIdx) < Rounds - 1 ==> roundIdx == old(roundIdx) + 1 && turnQueue == shuffled && turnPtr == 0
      ensures old(roundIdx) >= Rounds - 1 ==> roundIdx == old(roundIdx) && turnQueue == old(turnQueue) && turnPtr == old(turnPtr)
    {
      if roundIdx < Rounds - 1 {
        PermutationOfIdsFacts(shuffled, |players|);
        roundIdx := roundIdx + 1;
        turnQueue := shuffled;
        turnPtr := 0;
      }
    }

    /** `goPlay`: in round 0 the seat's name is validated and stored, a
        rejected name changes nothing; then the round's bank is selected. */
    method GoPlay(raw: string, session: Session) returns (res: Result<string, NameError>)
      requires Valid() && turnPtr < |turnQueue|
      modifies this, session
      ensures Valid()
      ensures banks == old(banks) && roundIdx == old(roundIdx) && turnQueue == old(turnQueue) && turnPtr == old(turnPtr)
      ensures session.history == old(session.history) && session.currentMode == old(session.currentMode)
      ensures roundIdx == 0 && CheckRaceName(old(players), turnQueue[turnPtr], raw).Err? ==>
        && res == Err(CheckRaceName(old(players), turnQueue[turnPtr], raw).error)
        && players == old(players) && session.currentBankId == old(session.currentBankId)
      ensures roundIdx == 0 && CheckRaceName(old(players), turnQueue[turnPtr], raw).Ok? ==>
        players == old(players)[turnQueue[turnPtr] := old(players)[turnQueue[turnPtr]].(name := Trim(raw))]
      ensures roundIdx != 0 ==> players == old(players)
      ensures res.Ok? <==> roundIdx != 0 || CheckRaceName(old(players), turnQueue[turnPtr], raw).Ok?
      ensures res.Ok? ==> res.value == banks[roundIdx] && session.currentBankId == banks[roundIdx]
    {
      var seat := turnQueue[turnPtr];
      if roundIdx == 0 {
        var check := CheckRaceName(players, seat, raw);
        if check.Err? {
          return Err(check.error);
        }
        AcceptedNameKeepsNamesDistinct(players, seat, raw);
        players := players[seat := players[seat].(name := check.value)];
      }
      session.currentBankId := banks[roundIdx];
      res := Ok(banks[roundIdx]);
    }

    /** `handleGameEnd`: the racer whose turn it is gets this round's time
        and error count, the turn index moves on; after the last turn the round
        is scored, and after round 3 the podium records are saved. */
    method HandleGameEnd(time: int, errors: int, school: string, typedName: string, now: int, session: Session)
      returns (outcome: TurnOutcome)
      requires Valid() && turnPtr < |turnQueue|
      modifies this, session
      ensures Valid()
      ensures banks == old(banks) && roundIdx == old(roundIdx) && turnQueue == old(turnQueue)
      ensures turnPtr == old(turnPtr) + 1
      ensures var played := RecordTurn(old(players), old(turnQueue[turnPtr]), roundIdx, time, errors);
        && (turnPtr < |players| ==> outcome == NextTurn && players == played)
        && (turnPtr == |players| ==> players == ScoreRound(played, roundIdx))
        && (turnPtr == |players| && roundIdx < Rounds - 1 ==> outcome == RoundScored)
        && (turnPtr == |players| && roundIdx == Rounds - 1 ==> outcome == RaceOver)
      ensures outcome != RaceOver ==> session.history == old(session.history)
      ensures outcome == RaceOver ==>
        session.history == old(session.history)
          + PodiumRecords(players, FinalStandings(players), school, typedName,
                          old(session.currentBankId), old(session.currentMode), now)
      ensures session.currentBankId == old(session.currentBankId) && session.currentMode == old(session.currentMode)
    {
      var seat := turnQueue[turnPtr];
      RecordTurnKeepsState(players, seat, roundIdx, time, errors);
      players := RecordTurn(players, seat, roundIdx, time, errors);
      turnPtr := turnPtr + 1;
      if turnPtr >= |players| {
        CalcRoundResult();
        if roundIdx == Rounds - 1 {
          ShowPodium(school, typedName, now, session);
          outcome := RaceOver;
        } else {
          outcome := RoundScored;
        }
      } else {
        outcome := NextTurn;
      }
    }

    /** `calcRoundResult`: award the round by its ranking. */
    method CalcRoundResult()
      requires Valid()
      modifies this
      ensures Valid()
      ensures banks == old(banks) && roundIdx == old(roundIdx) && turnQueue == old(turnQueue) && turnPtr == old(turnPtr)
      ensures players == ScoreRound(old(players), roundIdx)
    {
      var scored := AwardRound(players, roundIdx);
      ScoreRoundKeepsTimesAndNames(players, roundIdx, roundIdx);
      players := scored;
    }

    /** `showPodium`: one f1 record per racer, in standings order. */
    method ShowPodium(school: string, typedName: string, now: int, session: Session)
      modifies session
      ensures session.history == old(session.history)
        + PodiumRecords(players, FinalStandings(players), school, typedName,
                        old(session.currentBankId), old(session.currentMode), now)
      ensures session.currentBankId == old(session.currentBankId) && session.currentMode == old(session.currentMode)
    {
      var standings := FinalStandings(players);
      ghost var records := PodiumRecords(players, standings, school, typedName,
                                         session.currentBankId, session.currentMode, now);
      var k := 0;
      while k < |standings|
        invariant 0 <= k <= |standings|
        invariant session.history == old(session.history) + records[..k]
        invariant session.currentBankId == old(session.currentBankId) && session.currentMode == old(session.currentMode)
      {
        var p := players[standings[k]];
        session.SaveRecord(RaceDraft(p, school), typedName, school, now);
        assert records[k] == Complete(RaceDraft(p, school), typedName, school,
                                      session.currentBankId, session.currentMode, now);
        assert records[..k + 1] == records[..k] + [records[k]];
        k := k + 1;
      }
      assert records[..|standings|] == records;
    }
  }
}
