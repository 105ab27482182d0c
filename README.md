# Matching-game tournaments, modelled in Dafny

The application is a card-matching quiz game (`app.js`). A player turns cards
two at a time to match each question with its answer, against the clock. Around
that game sit three engines that share one record log:

- **F1 points race** (`F1`): a points race of 2..30 racers over three rounds. Each
  round ranks the racers by time and pays 25, 18, 15, 12, 10, 8, 6, 4, 2, 1
  points, plus 2 for a run without errors. Final standings go by points, then by
  total time, and one record is saved per racer.
- **Elimination tournament** (`TOUR`): 4..32 entrants are registered, then
  shuffled into head-to-head matches each round. The slower player drops out;
  a tie goes to the second player. Four survivors play semi-finals, then a
  bronze match and a final, and the four ranked entrants are saved.
- **Leaderboard and history** (`APP.updateLeaderboardV11`, `APP.renderHistory`,
  `APP.saveRecord`): the log filtered by mode and bank, sorted by the mode's
  comparator chain, cut to 5 (lobby tiles) or 100 (history page) rows. Records
  enter the log only by appending.

The game itself (`GAME`) is modelled too: dealing a grid of at most six pairs,
the click handler with its mismatch penalties, pause and resume of the timer,
and the end of an attempt.

Modules:

| module | file | models |
|---|---|---|
| `Common` | common.dfy | options, results, permutations of ids, JavaScript `trim`, decimal numerals |
| `Sorting` | sorting.dfy | comparator chains as key vectors (`KeyLe`), the stable sort `SortBy`, `TopK` |
| `Records` | records.dfy | `Record`, `Draft`, the session class with `SaveRecord` |
| `Leaderboard` | leaderboard.dfy | lobby tiles, filter-string parsing, the history page |
| `PointsRace` | pointsrace.dfy | the `F1` object as class `Race`, with round scoring and standings as functions |
| `Bracket` | bracket.dfy | the `TOUR` object as class `Tour`, with registration, pairing and resolution as functions |
| `Game` | game.dfy | the `GAME` object as class `Attempt`, with dealing and the clock as functions |

Modelling conventions:

- **Times.** Times are integers: centiseconds in records, because the game
  hands over a two-decimal number of seconds, and milliseconds inside `Game`.
- **Comparator chains.** A chain such as `(b.x - a.x) || (a.y - b.y)` is a key
  vector (`[-x, y]`) compared lexicographically.
- **Sorting.** `Array.prototype.sort` is stable, so `SortBy` is a stable
  insertion sort. `SortStable` proves that ties keep their input order.
- **Randomness.** Every `sort(() => Math.random() - 0.5)` shuffle becomes a
  parameter that is an arbitrary permutation of ids.
- **Entrants.** Racers and entrants are referred to by id, which is also their
  index in `players`.

## Model

| member | source | states |
|---|---|---|
| `Sorting.SortSorted` | app.js:766 | the stable sort's output is ordered by its comparator chain |
| `Sorting.SortStable` | app.js:765-766 | records that tie on every key keep their input order |
| `Sorting.SortIdempotent` | app.js:780 | sorting a sorted list again changes nothing |
| `Sorting.TopK` | app.js:389 | `sort(cmp).slice(0, k)` keeps min(k, n) elements of the input, ordered, and nothing left out ranks strictly ahead of anything kept |
| `Sorting.TopKPrefix` | app.js:504 | the top 5 is the head of the top 100 |
| `Sorting.TopKStable` | app.js:503-504 | the kept elements that tie on every key stay in their input order |
| `Sorting.KeyLeTotal` | app.js:384 | every two key vectors are comparable, so each chain is a total preorder |
| `Sorting.KeyLeTransitive` | app.js:397 | the chain comparison is transitive |
| `Records.OrElse` | app.js:551-558 | `s \|\| fallback` on strings: `s` unless it is empty |
| `Records.Session.SaveRecord` | app.js:550-569 | the log grows by exactly the completed record at its end; bank and mode are unchanged |
| `Records.Session.constructor` | app.js:88-94 | the state starts from the saved log, bank "b1", standard mode |
| `Leaderboard.Select` | app.js:381 | `filter` keeps, in log order, every record meeting the criterion exactly as often as the log holds it, and no other record |
| `Leaderboard.SelectAppend` | app.js:381 | filtering a log made of two parts is filtering each part and joining the results: order is kept |
| `Leaderboard.SelectKeepsOrder` | app.js:487-488 | `filter` keeps log order: a position increasing along the log increases along the selection |
| `Leaderboard.BankTile` | app.js:381-389 | standard/survival tile: the best min(5, matches) records of that mode and bank, ordered fastest first (survival: longest first), older first on ties; every matching record left out ranks no better than every one shown |
| `Leaderboard.F1Tile` | app.js:396-398 | F1 tile: the best min(5, matches) f1 records, most points first, then the lower time; no f1 record left out ranks ahead of one shown |
| `Leaderboard.TournamentTile` | app.js:405-407 | tournament tile: the best min(5, matches) champion (score 1) records, most matches first, then the lower average; no champion left out ranks ahead of one shown |
| `Leaderboard.TabOf` | app.js:361 | the tab shown is the stored one, or "b1" when unset or empty |
| `Leaderboard.IndexOf` | app.js:475-478 | the first position of the separator, or the length when absent |
| `Leaderboard.ParseFilter` | app.js:469-485 | "f1" and "tournament" name a mode; a string without ':' means no filter; parsed parts never contain ':' |
| `Leaderboard.HistoryOf` | app.js:487-504 | history page: the best min(100, matches) records of the chosen mode (and bank), ordered by the mode's chain, none left out ranking ahead; unfiltered it is the newest min(100, all) records |
| `Leaderboard.HistoryTiesKeepLogOrder` | app.js:490-504 | on a history page, records that tie on the whole chain (possible under the tournament chain, which has no timestamp fallback) keep their log order |
| `Leaderboard.LinkRoundTrip` | app.js:343-352 | the "mode:bank" link a tile builds parses back to that mode and bank |
| `Leaderboard.BankTileTopsHistory` | app.js:343-389 | a bank tile is exactly the first rows of the history page it links to |
| `Leaderboard.F1TileTopsHistory` | app.js:396-398 | the F1 tile is exactly the first rows of the F1 history page |
| `Leaderboard.HistoryViewIdempotent` | app.js:491-502 | re-sorting a history page by its own chain changes nothing |
| `PointsRace.FreshRacers` | app.js:677-680 | seats 0..n-1, unnamed, with no times and no points |
| `PointsRace.AdjustRacers` | app.js:661-667 | the racer count moves by delta, clamped to 2..30 |
| `PointsRace.OnlyTopTenScore` | app.js:769-770 | a place earns base points exactly when it is among the first ten, and never more than the winner's 25 |
| `PointsRace.PointsNonIncreasing` | app.js:28 | a better rank never pays fewer base points |
| `PointsRace.RankingFacts` | app.js:765-766 | the round ranking is a permutation of all racers, by ascending round time, with ties in id order |
| `PointsRace.FasterEarnsNoLess` | app.js:766-770 | a strictly faster racer ranks ahead and gets at least as many base points |
| `PointsRace.RankOf` | app.js:768 | the index of a racer in the ranking |
| `PointsRace.ScoreRoundAtRank` | app.js:768-774 | rank k earns table points (0 past 10th) plus 2 for no errors, written to that round's points and added to the total; times, name and other rounds are unchanged |
| `PointsRace.ScoreRoundKeepsTimesAndNames` | app.js:768-774 | scoring changes no time, name or id, and keeps names distinct and later rounds unplayed |
| `PointsRace.FourRacerExample` | app.js:765-774 | four racers, one with no errors: totals 27, 18, 17, 14 |
| `PointsRace.FinalStandingsFacts` | app.js:805-809 | the standings are a permutation, by points descending then total time ascending, ties in id order |
| `PointsRace.SumOfPlayedRounds` | app.js:778-789 | with later rounds still 0, the all-round sum is the sum of the rounds played |
| `PointsRace.PodiumRecords` | app.js:811-817 | one f1 record per racer in standings order: that racer's name (or the typed name when empty), the school, score = points, time = sum of round times, 0 errors, bank "f1-mix" |
| `PointsRace.PodiumOnePerRacer` | app.js:805-817 | with distinct non-empty names, the podium saves every racer exactly once, each with its own points |
| `PointsRace.CheckRaceName` | app.js:719-727 | the trimmed name is accepted exactly when non-empty, at most 6 characters and not held by another seat; each rejection is named |
| `PointsRace.RecordTurnKeepsState` | app.js:744-746 | a turn sets only that racer's time for the round and its error count |
| `PointsRace.AcceptedNameKeepsNamesDistinct` | app.js:724-727 | an accepted name keeps all given names distinct |
| `PointsRace.ScoredByRank` | app.js:768-774 | giving each ranked racer its award is the round's scoring |
| `PointsRace.AwardRound` | app.js:765-774 | the `forEach` over the ranking computes the round's scoring |
| `PointsRace.Race.CreateRace` | app.js:669-690 | n fresh racers; round 0 with queue 0..n-1 in order, turn index 0 |
| `PointsRace.Race.NextRound` | app.js:799-801 | before the last round: `startRound` of the next round, its queue a permutation of all ids, turn index 0; after it: nothing changes |
| `PointsRace.Race.GoPlay` | app.js:714-741 | round 0: an invalid name is refused with nothing changed, a valid one is stored; the bank becomes the round's bank |
| `PointsRace.Race.HandleGameEnd` | app.js:743-759 | records the turn and advances the turn index; the last turn scores the round, and after round 3 the podium records are saved |
| `PointsRace.Race.CalcRoundResult` | app.js:761-774 | the racers become the round's scoring |
| `PointsRace.Race.ShowPodium` | app.js:803-817 | appends exactly the podium records in standings order |
| `Bracket.AdjustEntrants` | app.js:921-927 | the entrant count moves by delta, clamped to 4..32 |
| `Bracket.EntrantName` | app.js:952-953 | the trimmed name, or "選手" followed by the seat number when blank; never empty |
| `Bracket.DefaultNamesDiffer` | app.js:953 | two blank seats get different default names |
| `Bracket.BlankRegistrationSucceeds` | app.js:951-959 | with every seat blank, no name repeats |
| `Bracket.FirstRepeatIsDuplicate` | app.js:955-958 | the first repeated name exists exactly when the names are not distinct |
| `Bracket.AdmitMeaning` | app.js:949-966 | registration keeps the seats before the first repeated name and reports that name; it succeeds exactly when none repeats |
| `Bracket.AdmitPrefix` | app.js:951-966 | seat by seat: before the first repeat every seat is added, after it nothing changes |
| `Bracket.RegisterSeats` | app.js:949-966 | the loop computes the registration outcome; every entrant is active, named and seated at its id |
| `Bracket.IdsWhere` | app.js:973 | `filter` keeps exactly the seats passing the test, in seat order |
| `Bracket.IdsWhereCount` | app.js:973 | the filter's length is the count of passing seats |
| `Bracket.CountAfterUpdate` | app.js:1076-1082 | changing one entrant changes a count only by that entrant |
| `Bracket.MatchCount` | app.js:983 | as written, floor(A/2) matches; the corrected policy leaves at least four entrants |
| `Bracket.SeatedPairUp` | app.js:983-986 | the queue seats exactly the first 2·count entrants of the shuffled list, consecutively |
| `Bracket.ShuffleIsActive` | app.js:973-979 | the shuffled list is a permutation of the active entrants exactly when it holds each active entrant once |
| `Bracket.PairingFacts` | app.js:983-986 | no entrant is seated twice, all are active, every match seats two, and at most one sits out |
| `Bracket.PairUpValid` | app.js:983-986 | every match is between two different current entrants |
| `Bracket.ResolveFacts` | app.js:1062-1085 | both get their time and one more match; the tie goes to p2; regular and semi: the loser drops out; semi marks winner and loser; bronze ranks 3/4 and retires both; final ranks 1/2; nobody else changes |
| `Bracket.ResolveActiveCount` | app.js:1076-1077 | a regular or semi-final match takes exactly one entrant out |
| `Bracket.RoundActiveCount` | app.js:984-986 | a round of q matches takes exactly q entrants out |
| `Bracket.SeatedFacts` | app.js:985 | each match's entrants are in the seating; distinct seating means different opponents |
| `Bracket.AsWrittenSmallCounts` | app.js:975-986 | from 1..8 entrants, the semi-final is reached only from 4, 7 and 8 |
| `Bracket.AsWrittenReachesSemi` | app.js:975-986 | as written, the semi-final is reached exactly for 4, 7, 8, 13..16 or 25..32 entrants |
| `Bracket.FiveEntrantsNeverReachSemi` | app.js:975-995 | five entrants go 5, 3, 2, 1 and then no match can be paired |
| `Bracket.KeepFourReachesSemi` | app.js:975-986 | with the corrected pairing, every allowed entrant count reaches the semi-final |
| `Bracket.PlayoffMatch` | app.js:1108-1118 | the playoff match is the first two flagged entrants, present exactly when two are flagged |
| `Bracket.TourRecordFor` | app.js:1143-1153 | a ranked entrant's record: its name, rank as score, matches as rounds, total and mean time, tournament mode, the tournament's bank |
| `Bracket.TourRecordsFacts` | app.js:1143-1153 | the podium saves exactly the ranked entrants, in seat order, each as above |
| `Bracket.RegularRoundKeepsUnplaced` | app.js:1076-1079 | a regular round marks nobody as a semi-final winner or loser and ranks nobody |
| `Bracket.SemiRound` | app.js:1076-1079 | a semi-final of four distinct unplaced entrants makes exactly one winner and one loser of each pair, the two winners semi-final winners, the two losers semi-final losers, and ranks nobody |
| `Bracket.PlayoffOfTwo` | app.js:1108-1118 | when exactly two entrants carry the flag, the bronze/final match is between those two |
| `Bracket.BronzeStep` | app.js:1080-1082 | the bronze match gives its two players ranks 3 and 4 and changes no other rank or semi-final mark |
| `Bracket.FinalStep` | app.js:1083-1084 | the final gives its two players ranks 1 and 2 and changes no other rank |
| `Bracket.BronzeThenFinal` | app.js:1100-1118 | once the semi-final has marked exactly two winners and two losers, the bronze match and the final both find their players and leave ranks 1 to 4 each held once, by those four only |
| `Bracket.PlayoffRanksEachOnce` | app.js:1076-1125 | from a semi-final of four, the bronze and final matches always exist, and afterwards ranks 1 to 4 are each held by exactly one of the four and nobody else is ranked |
| `Bracket.PairQueue` | app.js:981-986 | the loop builds the pairing of consecutive entrants |
| `Bracket.Tour.constructor` | app.js:858-865 | eight entrants, bank "b1", nothing registered or played |
| `Bracket.Tour.AdjustPlayers` | app.js:921-927 | only the entrant count changes, clamped |
| `Bracket.Tour.GoToRegistration` | app.js:929-945 | only the bank changes |
| `Bracket.Tour.GenerateBracket` | app.js:947-970 | the entrants are the registration outcome (partial on a duplicate, which is reported with nothing else changed); otherwise a regular round is paired and its first match shown |
| `Bracket.Tour.SetupRoundMatches` | app.js:972-990 | the stage becomes semi iff regular with 4 active; floor(A/2) matches from the shuffle, index 0, the first match shown; no match at all (one active) stalls |
| `Bracket.Tour.ShowNextMatchVS` | app.js:992-1018 | a queued match is shown with no times; an exhausted queue advances the stage |
| `Bracket.Tour.CheckNextStage` | app.js:1100-1125 | final leads to podium; semi to bronze between the semi losers; bronze to final between the semi winners; otherwise a new round |
| `Bracket.Tour.LoadPlayoff` | app.js:1107-1111 | the playoff stage starts with its one match shown |
| `Bracket.Tour.ShowPodium` | app.js:1127-1155 | the log grows by exactly the ranked entrants' records |
| `Bracket.Tour.StartMatch` | app.js:1020-1039 | p1 plays first, p2 once p1 has a time; the bank becomes the tournament's |
| `Bracket.Tour.HandleGameEnd` | app.js:1041-1052 | the first time is p1's; the second is p2's and resolves the match |
| `Bracket.Tour.ResolveMatch` | app.js:1054-1098 | the match is resolved and the queue index moves on |
| `Game.SelectPairsFacts` | app.js:1257-1260 | min(6, n) pairs, each a different entry of the bank; a bank of at most six is dealt whole |
| `Game.DeckFacts` | app.js:1262-1266 | pair m's question card is pushed at 2m and its answer at 2m+1, both with matchId m |
| `Game.DealCards` | app.js:1262-1266 | the `forEach` pushes exactly that deck |
| `Game.GridPairs` | app.js:1258-1267 | after the shuffle each pair lies on the grid as one question and one answer sharing its matchId, and no matchId is on two cards of the same kind |
| `Game.CountFacesBound` | app.js:1374-1377 | a face count is at most the number of cards, all or none exactly when every card shows or lacks it |
| `Game.CountFacesUpdate` | app.js:1388-1392 | turning one card changes a count only by that card |
| `Game.PauseIsNotCounted` | app.js:1316-1334 | pause then resume leaves the clock running and excludes the paused span from the elapsed time |
| `Game.PauseIdempotent` | app.js:1317 | a second pause is a no-op |
| `Game.ResumeRunningIsNoop` | app.js:1325 | resuming a running clock changes nothing |
| `Game.Attempt.constructor` | app.js:1217-1222 | no cards, full health, the clock at 0 and running |
| `Game.Attempt.Pause` | app.js:1316-1322 | the clock pauses at now and the grid locks, unless already paused |
| `Game.Attempt.Resume` | app.js:1324-1334 | the start moves forward by the pause and the grid unlocks, unless running |
| `Game.Attempt.Deal` | app.js:1255-1293 | a fresh grid, all face down, every pair to find, unlocked |
| `Game.Attempt.InitGrid` | app.js:1255-1306 | the grid is dealt; a new attempt also zeroes errors, restores health and restarts the clock |
| `Game.Attempt.Flip` | app.js:1381-1383 | the first card of a try is turned |
| `Game.Attempt.TakePair` | app.js:1387-1392 | both cards are taken and one pair fewer is left |
| `Game.Attempt.Penalize` | app.js:1408-1418 | a mismatch costs 8 health in survival, 1 s in standard/tournament, 2 s in f1 |
| `Game.Attempt.Miss` | app.js:1403-1425 | one more error, the penalty, both cards back down |
| `Game.Attempt.ClearedGridIsAllMatched` | app.js:1393 | when no pair is left, every card is taken |
| `Game.Attempt.TurnedCardMeansPairLeft` | app.js:1384-1388 | while a card is turned, a pair is left, so the decrement never underflows |
| `Game.Attempt.HandleCardClick` | app.js:1374-1428 | a locked grid or turned/taken card changes nothing; a first card turns face up and is remembered; a matching second card marks both taken and removes one pair; exactly when that pair was the last one, the attempt is won, or in survival health grows by 15 up to 100 and a face-down grid is redealt; a mismatch turns the first card back down, counts an error and applies the penalty; the cards are unchanged except on a redeal, and the pause state and frame time are never touched |
| `Game.Attempt.EndGame` | app.js:1432-1455 | for the session's current mode: reports that the f1 or tournament engine takes over (and saves nothing); survival saves score 0, a won standard attempt score 6, a lost one nothing |
| `Common.TrimFacts` | app.js:720 | `trim` removes exactly the leading and trailing whitespace |
| `Common.DecimalRoundTrip` | app.js:953 | the seat number in a default name reads back as that number |
| `Common.DistinctSameElements` | app.js:979 | two duplicate-free lists with the same elements are permutations of each other |

## Left out

- I/O is not modelled: the DOM, audio, navigation, `localStorage`, the service worker, `fetch('./data.json')` and the admin tools. The record log is the in-memory sequence.
- `Math.random` shuffles are not modelled. Each shuffle is a parameter constrained to be a permutation.
- Clocks are not modelled. `performance.now()` and `Date` are the parameter `now`. `saveRecord` reads `new Date().getTime()` on each call (app.js:566), so the records of one podium can carry different timestamps in the source. `PointsRace.Race.ShowPodium` and `Bracket.Tour.ShowPodium` give all of them the one `now`.
- `setTimeout` delays happen at once: the 4 s before the next tournament match, and the 200 ms and 500 ms steps of the click handler.
- The survival health drain of the animation loop (`health -= 4 * deltaTime`, app.js:1336-1372) is not modelled. It is frame-driven floating point, so health is an integer that moves only in the ±8 and +15 steps.
- The conversion of the timer's milliseconds into the two-decimal seconds handed to the engines (app.js:1435-1436) is not modelled. `EndGame` and the engines receive that time as a parameter.
- The bank title that `APP_DATA.banks.find(...)` supplies is a parameter. A bank id with no bank crashes the source; the model does not reach that case.
- `Game.Attempt.InitGrid` takes the bank's pairs as a parameter, so the early return when no bank data is loaded (app.js:1256) is not modelled.
- Calls from one part of the app into another are returned to the caller instead of made: `PointsRace.Race.GoPlay` and `Bracket.Tour.StartMatch` end with `GAME.initGrid(false)` in the source (app.js:739, app.js:1037), which the caller runs as `Game.Attempt.InitGrid` with `isContinuation` false (zeroed errors, full health, restarted clock); `Game.Attempt.HandleCardClick` returns `Cleared` where the source calls `GAME.endGame(true)` (app.js:1397), and the caller runs `Game.Attempt.EndGame`; `Game.Attempt.EndGame` returns `handOff` where the source calls `F1.handleGameEnd` or `TOUR.handleGameEnd` (app.js:1438-1439), and the caller runs `PointsRace.Race.HandleGameEnd` or `Bracket.Tour.HandleGameEnd` with the time and error count. The animation loop's `GAME.endGame(false)` when survival health reaches 0 (app.js:1367) is not modelled, since the drain that leads to it is not.
- `Bracket.Tour.ResolveMatch`: the source moves on with `showNextMatchVS` from a four-second `setTimeout` (app.js:1094-1097); the model advances the index and leaves the delayed call to the caller, which runs `Bracket.Tour.ShowNextMatchVS` as the next step.
- The survival redeal of `Game.Attempt.HandleCardClick` is told the new shuffles by its caller, like every other shuffle.
- The mock podium that `TOUR.showPodium` draws for zero entrants (app.js:1130-1137) is not modelled. It is a display fixture; the model saves nothing in that case, as the source does.
- `Bracket.Tour.LoadPlayoff`: when fewer than two entrants carry the semi-final flag, the source shows a match with `undefined` entrants and then fails. The model sets the new stage, leaves the queue unchanged and reports `Broken`.
- `Bracket.Tour.SetupRoundMatches`: when no pair can be made, the source calls `showNextMatchVS`, `checkNextStage` and `setupRoundMatches` again without end. The model reports one `Stalled` step instead of looping.
- Lengths count UTF-16 code units in the source and characters in the model. They differ only for characters outside the Basic Multilingual Plane.
- The debug simulators and the podium rendering order are not modelled: `simRound`, `simStage`, `showDebugPodium` and `renderPodium`.
- The display-only part of `calcRoundResult` (app.js:778-796) is modelled only as its sort order, `RoundDisplayOrder`; the table it renders is not.
- `startRound` is not a method of its own. It is part of `Race.CreateRace` (round 0) and `Race.NextRound`.

## Findings

| source | as written | input that shows it | evidently intended | confidence | as-written member | corrected member |
|---|---|---|---|---|---|---|
| app.js:975-986 | every regular round pairs all active entrants, and the semi-final starts only when exactly 4 are active | 5 entrants: 5 → 3 → 2 → 1 active; one entrant cannot be paired, and `setupRoundMatches` → `showNextMatchVS` → `checkNextStage` → `setupRoundMatches` recurses without end. The same happens for 5, 6, 9..12 and 17..24 entrants | stop pairing when four entrants would remain, so every allowed count reaches the semi-final | high (proved; not executed) | `Bracket.FiveEntrantsNeverReachSemi` | `Bracket.KeepFourReachesSemi` |
