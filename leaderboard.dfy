/** The read side of the record log: the four lobby tiles
    (`APP.updateLeaderboardV11`, app.js:314-409) and the history page
    (`APP.renderHistory`, app.js:469-504).  Each is filter, stable multi-key
    sort, truncate; rendering the rows is not modelled. */
module Leaderboard {
  import opened Common
  import opened Sorting
  import opened Records

  const TileSize: nat := 5
  const HistoryCap: nat := 100
  const DefaultTab := "b1"

  /** The comparator chains of app.js, one per ranking. */
  datatype Policy =
    | FastestFirst     // (a.time - b.time) || (a.timestamp - b.timestamp)
    | LongestFirst     // (b.time - a.time) || (a.timestamp - b.timestamp)
    | PointsFirst      // (b.score - a.score) || (a.time - b.time) || (a.timestamp - b.timestamp)
    | MostRoundsFirst  // (b.rounds - a.rounds) || (a.avgTime - b.avgTime) || (a.timestamp - b.timestamp)
    | BestRankFirst    // (a.score - b.score) || (b.rounds - a.rounds) || (a.avgTime - b.avgTime)
    | NewestFirst      // b.timestamp - a.timestamp

  function FastestKey(x: Record): seq<real> { [x.time as real, x.timestamp as real] }
  function LongestKey(x: Record): seq<real> { [-(x.time as real), x.timestamp as real] }
  function PointsKey(x: Record): seq<real> { [-(x.score as real), x.time as real, x.timestamp as real] }
  function RoundsKey(x: Record): seq<real> { [-(x.rounds as real), x.avgTime, x.timestamp as real] }
  function RankKey(x: Record): seq<real> { [x.score as real, -(x.rounds as real), x.avgTime] }
  function NewestKey(x: Record): seq<real> { [-(x.timestamp as real)] }

  function KeyOf(p: Policy): Record -> seq<real>
  {
    match p
    case FastestFirst => FastestKey
    case LongestFirst => LongestKey
    case PointsFirst => PointsKey
    case MostRoundsFirst => RoundsKey
    case BestRankFirst => RankKey
    case NewestFirst => NewestKey
  }

  /** Which records a view keeps: one mode, optionally one bank, optionally
      champions (score 1) only. */
  datatype Criterion = Criterion(mode: string, bank: Option<string>, championsOnly: bool)

  predicate Selects(c: Criterion, x: Record)
  {
    && x.mode == c.mode
    && (c.bank.Some? ==> x.bankId == c.bank.value)
    && (c.championsOnly ==> x.score == 1)
  }

  /** `log.filter(...)`: every selected record as often as the log holds
      it, no other; `SelectAppend` states that log order is kept. */
  function Select(log: seq<Record>, c: Criterion): (r: seq<Record>)
    ensures forall x :: x in r <==> x in log && Selects(c, x)
    ensures forall x :: multiset(r)[x] == if Selects(c, x) then multiset(log)[x] else 0
    ensures multiset(r) <= multiset(log)
  {
    if log == [] then []
    else
      assert log == [log[0]] + log[1..];
      assert multiset(log) == multiset([log[0]]) + multiset(log[1..]);
      (if Selects(c, log[0]) then [log[0]] else []) + Select(log[1..], c)
  }

  /** Filtering a log in two parts and joining the results is filtering the
      whole log: the selected records keep their log order. */
  lemma {:induction false} SelectAppend(a: seq<Record>, b: seq<Record>, c: Criterion)
    ensures Select(a + b, c) == Select(a, c) + Select(b, c)
  {
    if a == [] {
      assert a + b == b;
    } else {
      var x, t := a[0], a[1..];
      var head := if Selects(c, x) then [x] else [];
      assert a == [x] + t && a + b == [x] + (t + b);
      calc {
        Select(a + b, c);
      == { SelectCons(x, t + b, c); }
        head + Select(t + b, c);
      == { SelectAppend(t, b, c); }
        head + (Select(t, c) + Select(b, c));
      == { ConcatAssociates(head, Select(t, c), Select(b, c)); }
        (head + Select(t, c)) + Select(b, c);
      == { SelectCons(x, t, c); }
        Select(a, c) + Select(b, c);
      }
    }
  }

  lemma ConcatAssociates<T>(p: seq<T>, q: seq<T>, r: seq<T>)
    ensures p + (q + r) == (p + q) + r
  {
  }

  lemma SelectCons(x: Record, t: seq<Record>, c: Criterion)
    ensures Select([x] + t, c) == (if Selects(c, x) then [x] else []) + Select(t, c)
  {
    assert ([x] + t)[1..] == t;
  }

  /** The criterion of a standard or survival tile. */
  function BankCriterion(mode: string, bank: string): Criterion
  {
    Criterion(mode, Some(bank), false)
  }

  /** The ranking of a standard or survival tile. */
  function BankPolicy(mode: string): Policy
  {
    if mode == Survival then LongestFirst else FastestFirst
  }

  /** The standard or survival tile of one bank: survival ranks the longest
      survival first, standard the fastest; equal times go to the older record. */
  function BankTile(log: seq<Record>, mode: string, bank: string): (r: seq<Record>)
    ensures forall x :: x in r ==> x in log && x.mode == mode && x.bankId == bank
    ensures IsTopOf(r, Select(log, BankCriterion(mode, bank)), KeyOf(BankPolicy(mode)), TileSize)
  {
    TopK(Select(log, BankCriterion(mode, bank)), KeyOf(BankPolicy(mode)), TileSize)
  }

  /** The F1 tile: every bank, most points first, then the faster total. */
  function F1Tile(log: seq<Record>): (r: seq<Record>)
    ensures forall x :: x in r ==> x in log && x.mode == F1
    ensures IsTopOf(r, Select(log, Criterion(F1, None, false)), KeyOf(PointsFirst), TileSize)
  {
    TopK(Select(log, Criterion(F1, None, false)), KeyOf(PointsFirst), TileSize)
  }

  /** The tournament tile: champions only, most matches played first, then
      the lower average time. */
  function TournamentTile(log: seq<Record>): (r: seq<Record>)
    ensures forall x :: x in r ==> x in log && x.mode == Tournament && x.score == 1
    ensures IsTopOf(r, Select(log, Criterion(Tournament, None, true)), KeyOf(MostRoundsFirst), TileSize)
  {
    TopK(Select(log, Criterion(Tournament, None, true)), KeyOf(MostRoundsFirst), TileSize)
  }

  datatype Tiles = Tiles(standard: seq<Record>, survival: seq<Record>, f1: seq<Record>, tournament: seq<Record>)

  /** The bank tab a tile shows: `leaderboardTabs[id] || 'b1'`. */
  function TabOf(tabs: map<string, string>, mode: string): (bank: string)
    ensures bank != ""
    ensures mode in tabs && tabs[mode] != "" ==> bank == tabs[mode]
  {
    if mode in tabs && tabs[mode] != "" then tabs[mode] else DefaultTab
  }

  /** The whole lobby leaderboard. */
  function Lobby(log: seq<Record>, tabs: map<string, string>): Tiles
  {
    Tiles(BankTile(log, Standard, TabOf(tabs, Standard)),
          BankTile(log, Survival, TabOf(tabs, Survival)),
          F1Tile(log), TournamentTile(log))
  }

  /** The filter string a tile's click opens the history page with. */
  function HistoryLink(mode: string, tabs: map<string, string>): string
  {
    if mode == F1 || mode == Tournament then mode else mode + ":" + TabOf(tabs, mode)
  }

  /** Position of the first `c` in `s`, or `|s|` when there is none. */
  function IndexOf(s: string, c: char): (i: nat)
    ensures i <= |s|
    ensures i < |s| ==> s[i] == c
    ensures forall k :: 0 <= k < i ==> s[k] != c
  {
    if s == [] then 0 else if s[0] == c then 0 else 1 + IndexOf(s[1..], c)
  }

  /** A parsed filter string; "" stands for JavaScript's `null`. */
  datatype View = View(mode: string, bank: string)

  /** `renderHistory`'s reading of its filter string: "f1" and "tournament"
      name a mode, "mode:bank" a mode and bank (`split(':')`, first two
      parts), anything else (including "") the unfiltered log. */
  function ParseFilter(f: string): (v: View)
    ensures f == F1 ==> v == View(F1, "")
    ensures f == Tournament ==> v == View(Tournament, "")
    ensures f != F1 && f != Tournament && ':' !in f ==> v == View("", "")
    ensures ':' !in v.mode && ':' !in v.bank
  {
    if f == F1 || f == Tournament then View(f, "")
    else
      var i := IndexOf(f, ':');
      if i == |f| then View("", "")
      else
        var rest := f[i + 1..];
        View(f[..i], rest[..IndexOf(rest, ':')])
  }

  /** The ordering of the history page once its mode is known. */
  function HistoryPolicy(mode: string): Policy
  {
    if mode == F1 then PointsFirst
    else if mode == Survival then LongestFirst
    else if mode == Tournament then BestRankFirst
    else FastestFirst
  }

  /** The records a history page draws from: the view's mode, and its bank
      when one is given. */
  function HistoryCriterion(v: View): Criterion
  {
    Criterion(v.mode, if v.bank != "" then Some(v.bank) else None, false)
  }

  /** The history page for a parsed filter: with a mode, the best 100 of
      that mode's records (and bank's, when one is given) ranked by the
      mode's policy; without one, the newest 100 of the whole log. */
  function HistoryOf(log: seq<Record>, v: View): (r: seq<Record>)
    ensures forall x :: x in r ==> x in log
    ensures v.mode != "" ==> forall x :: x in r ==> x.mode == v.mode
    ensures v.mode != "" && v.bank != "" ==> forall x :: x in r ==> x.bankId == v.bank
    ensures v.mode != "" ==> IsTopOf(r, Select(log, HistoryCriterion(v)), KeyOf(HistoryPolicy(v.mode)), HistoryCap)
    ensures v.mode == "" ==> IsTopOf(r, log, KeyOf(NewestFirst), HistoryCap)
  {
    if v.mode != "" then
      TopK(Select(log, HistoryCriterion(v)), KeyOf(HistoryPolicy(v.mode)), HistoryCap)
    else
      TopK(log, KeyOf(NewestFirst), HistoryCap)
  }

  /** `pos` increases along `r`. */
  ghost predicate IncreasingBy(r: seq<Record>, pos: Record -> int)
  {
    forall i, j :: 0 <= i < j < |r| ==> pos(r[i]) < pos(r[j])
  }

  lemma PrependKeepsIncreasing(x: Record, r: seq<Record>, pos: Record -> int)
    requires IncreasingBy(r, pos) && forall y :: y in r ==> pos(x) < pos(y)
    ensures IncreasingBy([x] + r, pos)
  {
    forall i, j | 0 <= i < j < |[x] + r| ensures pos(([x] + r)[i]) < pos(([x] + r)[j]) {
      assert ([x] + r)[j] == r[j - 1];
      if i > 0 {
        assert ([x] + r)[i] == r[i - 1];
      }
    }
  }

  lemma TailAfterHead(log: seq<Record>, pos: Record -> int)
    requires log != [] && IncreasingBy(log, pos)
    ensures IncreasingBy(log[1..], pos)
    ensures forall y :: y in log[1..] ==> pos(log[0]) < pos(y)
  {
    var t := log[1..];
    forall i, j | 0 <= i < j < |t| ensures pos(t[i]) < pos(t[j]) {
      assert t[i] == log[i + 1] && t[j] == log[j + 1];
    }
    forall y | y in t ensures pos(log[0]) < pos(y) {
      var k :| 0 <= k < |t| && t[k] == y;
      assert log[k + 1] == y;
    }
  }

  /** Filtering keeps log order: positions that increase along the log
      still increase along the selection. */
  lemma {:induction false} SelectKeepsOrder(log: seq<Record>, c: Criterion, pos: Record -> int)
    requires IncreasingBy(log, pos)
    ensures IncreasingBy(Select(log, c), pos)
  {
    if log != [] {
      var x, t := log[0], log[1..];
      assert log == [x] + t;
      TailAfterHead(log, pos);
      SelectCons(x, t, c);
      SelectKeepsOrder(t, c, pos);
      var rt := Select(t, c);
      if Selects(c, x) {
        PrependKeepsIncreasing(x, rt, pos);
      } else {
        assert [] + rt == rt;
      }
    }
  }

  /** On a history page, records that tie on the whole chain keep their
      log order (for a position `pos` that increases along the log). This
      matters for the tournament chain, which has no timestamp fallback. */
  lemma HistoryTiesKeepLogOrder(log: seq<Record>, v: View, pos: Record -> int)
    requires IncreasingBy(log, pos)
    ensures v.mode != "" ==> TiesKeepOrder(HistoryOf(log, v), KeyOf(HistoryPolicy(v.mode)), pos)
    ensures v.mode == "" ==> TiesKeepOrder(HistoryOf(log, v), KeyOf(NewestFirst), pos)
  {
    if v.mode != "" {
      SelectKeepsOrder(log, HistoryCriterion(v), pos);
      TopKStable(Select(log, HistoryCriterion(v)), KeyOf(HistoryPolicy(v.mode)), pos, HistoryCap);
    } else {
      TopKStable(log, KeyOf(NewestFirst), pos, HistoryCap);
    }
  }

  /** `renderHistory(filterStr)`. */
  function HistoryView(log: seq<Record>, f: string): seq<Record>
  {
    HistoryOf(log, ParseFilter(f))
  }

  /** The link a tile builds reads back as the tile's own mode and bank. */
  lemma {:induction false} LinkRoundTrip(mode: string, bank: string)
    requires mode != "" && ':' !in mode && ':' !in bank
    ensures ParseFilter(mode + ":" + bank) == View(mode, bank)
  {
    var f := mode + ":" + bank;
    assert f[|mode|] == ':';
    assert forall k :: 0 <= k < |mode| ==> f[k] == mode[k];
    IndexOfFirst(f, ':', |mode|);
    var rest := f[|mode| + 1..];
    assert rest == bank;
    IndexOfFirst(rest, ':', |rest|);
    assert f[..|mode|] == mode;
  }

  lemma IndexOfFirst(s: string, c: char, i: nat)
    requires i <= |s| && (i < |s| ==> s[i] == c) && forall k :: 0 <= k < i ==> s[k] != c
    ensures IndexOf(s, c) == i
  {
  }

  /** Each bank tile is exactly the top of the history page it links to. */
  lemma BankTileTopsHistory(log: seq<Record>, mode: string, tabs: map<string, string>)
    requires mode == Standard || mode == Survival
    requires ':' !in TabOf(tabs, mode)
    ensures var h := HistoryView(log, HistoryLink(mode, tabs));
      BankTile(log, mode, TabOf(tabs, mode)) == h[..Min(TileSize, |h|)]
  {
    var bank := TabOf(tabs, mode);
    LinkRoundTrip(mode, bank);
    var sel := Select(log, BankCriterion(mode, bank));
    var key := KeyOf(HistoryPolicy(mode));
    assert HistoryView(log, HistoryLink(mode, tabs)) == TopK(sel, key, HistoryCap);
    TopKPrefix(sel, key, TileSize, HistoryCap);
  }

  /** The F1 tile is exactly the top of the F1 history page. */
  lemma F1TileTopsHistory(log: seq<Record>)
    ensures var h := HistoryView(log, F1); F1Tile(log) == h[..Min(TileSize, |h|)]
  {
    var sel := Select(log, Criterion(F1, None, false));
    assert HistoryView(log, F1) == TopK(sel, KeyOf(PointsFirst), HistoryCap);
    TopKPrefix(sel, KeyOf(PointsFirst), TileSize, HistoryCap);
  }

  /** Re-ranking a history page under its own policy changes nothing:
      the order is deterministic. */
  lemma HistoryViewIdempotent(log: seq<Record>, f: string)
    ensures var v := ParseFilter(f);
      var p := if v.mode != "" then HistoryPolicy(v.mode) else NewestFirst;
      SortBy(HistoryView(log, f), KeyOf(p)) == HistoryView(log, f)
  {
    var v := ParseFilter(f);
    var p := if v.mode != "" then HistoryPolicy(v.mode) else NewestFirst;
    SortOfSorted(HistoryView(log, f), KeyOf(p));
  }
}
