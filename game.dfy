/** One attempt at the matching game (the `GAME` object, app.js:1217-1457):
    a grid dealt from a question bank, cards turned two at a time, a penalty
    for every mismatch, a timer that can be paused, and the record saved at
    the end.  Times are integer milliseconds read from a clock passed in as
    `now`; the `setTimeout` delays of the click handler are taken as
    immediate. */
module Game {
  import opened Common
  import opened Records

  /** `allPairs.slice(0, 6)`: a grid holds at most six pairs. */
  const MaxPairs: nat := 6
  const FullHealth: int := 100
  const MismatchDamage: int := 8
  const ClearBonus: int := 15
  /** Timer penalty of a mismatch in standard and tournament mode (ms). */
  const StandardPenalty: int := 1000
  /** Timer penalty of a mismatch in f1 mode (ms). */
  const F1Penalty: int := 2000
  /** The score of a won standard attempt. */
  const WinScore: int := 6

  /** An entry of a bank: a question and its answer. */
  datatype QA = QA(q: string, a: string)

  /** A card of the grid: `{id, content, type, matchId}`. */
  datatype Card = Card(id: nat, content: string, kind: string, matchId: nat)

  /** A card on screen: face down, turned (`active`), or taken (`matched`). */
  datatype Face = Down | Up | Matched

  // ---------------------------------------------------------------- dealing

  function QuestionCard(p: QA, m: nat): Card { Card(m, p.q, "q", m) }
  function AnswerCard(p: QA, m: nat): Card { Card(m, p.a, "a", m) }

  /** The pairs of a grid: the bank reordered by the shuffle `pick`, cut to six. */
  function SelectPairs(pairs: seq<QA>, pick: seq<nat>): (sel: seq<QA>)
    requires IsPermutationOfIds(pick, |pairs|)
  {
    PermutationOfIdsFacts(pick, |pairs|);
    seq(Min(MaxPairs, |pairs|), m requires 0 <= m < Min(MaxPairs, |pairs|) => pairs[pick[m]])
  }

  /** A grid has as many pairs as the bank up to six, each a different entry
      of the bank, and a bank of six pairs or fewer is dealt whole. */
  lemma SelectPairsFacts(pairs: seq<QA>, pick: seq<nat>)
    requires IsPermutationOfIds(pick, |pairs|)
    ensures var sel := SelectPairs(pairs, pick);
      && |sel| == Min(MaxPairs, |pairs|)
      && (forall m :: 0 <= m < |sel| ==> pick[m] < |pairs| && sel[m] == pairs[pick[m]])
      && (forall m, m' :: 0 <= m < m' < |sel| ==> pick[m] != pick[m'])
      && (|pairs| <= MaxPairs ==> forall j :: 0 <= j < |pairs| ==> j in pick[..|sel|])
  {
    PermutationOfIdsFacts(pick, |pairs|);
    var sel := SelectPairs(pairs, pick);
    if |pairs| <= MaxPairs {
      assert pick[..|sel|] == pick;
    }
  }

  /** The cards in the order they are pushed: question then answer, pair by pair. */
  function Deck(sel: seq<QA>): seq<Card>
  {
    if sel == [] then []
    else
      var n := |sel| - 1;
      Deck(sel[..n]) + [QuestionCard(sel[n], n), AnswerCard(sel[n], n)]
  }

  /** The card pushed k-th: even places hold questions, odd ones answers. */
  function DeckCard(sel: seq<QA>, k: nat): Card
    requires k < 2 * |sel|
  {
    if k % 2 == 0 then QuestionCard(sel[k / 2], k / 2) else AnswerCard(sel[k / 2], k / 2)
  }

  /** Place 2m holds pair m's question and place 2m+1 its answer. */
  lemma {:induction false} DeckFacts(sel: seq<QA>)
    ensures |Deck(sel)| == 2 * |sel|
    ensures forall k :: 0 <= k < 2 * |sel| ==> Deck(sel)[k] == DeckCard(sel, k)
    decreases |sel|
  {
    if sel != [] {
      var n := |sel| - 1;
      DeckFacts(sel[..n]);
      forall k | 0 <= k < 2 * n ensures Deck(sel)[k] == DeckCard(sel, k) {
        assert Deck(sel)[k] == Deck(sel[..n])[k] == DeckCard(sel[..n], k);
        assert sel[..n][k / 2] == sel[k / 2];
      }
    }
  }

  /** The loop of `initGrid` that pushes two cards per selected pair. */
  method DealCards(sel: seq<QA>) returns (cards: seq<Card>)
    ensures cards == Deck(sel)
  {
    cards := [];
    var idx := 0;
    while idx < |sel|
      invariant 0 <= idx <= |sel|
      invariant cards == Deck(sel[..idx])
    {
      assert sel[..idx + 1][..idx] == sel[..idx];
      cards := cards + [QuestionCard(sel[idx], idx), AnswerCard(sel[idx], idx)];
      idx := idx + 1;
    }
    assert sel[..idx] == sel;
  }

  /** The deck laid out by the shuffle `order`: place i gets card `order[i]`. */
  function Arrange(deck: seq<Card>, order: seq<nat>): (cards: seq<Card>)
    requires forall k :: 0 <= k < |order| ==> order[k] < |deck|
  {
    seq(|order|, i requires 0 <= i < |order| => deck[order[i]])
  }

  /** The grid `initGrid` lays out. */
  function Grid(pairs: seq<QA>, pick: seq<nat>, order: seq<nat>): seq<Card>
    requires IsPermutationOfIds(pick, |pairs|)
    requires IsPermutationOfIds(order, 2 * Min(MaxPairs, |pairs|))
  {
    var sel := SelectPairs(pairs, pick);
    DeckFacts(sel);
    PermutationOfIdsFacts(order, 2 * |sel|);
    Arrange(Deck(sel), order)
  }

  /** Every selected pair lies on the grid as exactly one question card and
      one answer card sharing its `matchId`, and nothing else does: two
      different places with the same `matchId` hold a question and an answer. */
  lemma GridPairs(pairs: seq<QA>, pick: seq<nat>, order: seq<nat>)
    requires IsPermutationOfIds(pick, |pairs|)
    requires IsPermutationOfIds(order, 2 * Min(MaxPairs, |pairs|))
    ensures var sel := SelectPairs(pairs, pick);
      var cards := Grid(pairs, pick, order);
      |cards| == 2 * |sel| && PairedUp(sel, cards)
  {
    var sel := SelectPairs(pairs, pick);
    var cards := Grid(pairs, pick, order);
    DeckFacts(sel);
    PermutationOfIdsFacts(order, 2 * |sel|);
    GridCards(sel, order, cards);
    PairsOnGrid(sel, order, cards);
  }

  /** Each card is the question or the answer of the pair its `matchId`
      names; each pair has its question and its answer on the grid; and two
      places sharing a `matchId` hold one question and one answer. */
  ghost predicate PairedUp(sel: seq<QA>, cards: seq<Card>)
  {
    CardsBelong(sel, cards) && EveryPairDealt(sel, cards) && TwoPerPair(cards)
  }

  ghost predicate CardsBelong(sel: seq<QA>, cards: seq<Card>)
  {
    forall i :: 0 <= i < |cards| ==>
      && cards[i].matchId < |sel|
      && (cards[i] == QuestionCard(sel[cards[i].matchId], cards[i].matchId)
          || cards[i] == AnswerCard(sel[cards[i].matchId], cards[i].matchId))
  }

  ghost predicate EveryPairDealt(sel: seq<QA>, cards: seq<Card>)
  {
    forall m :: 0 <= m < |sel| ==>
      exists i, j :: 0 <= i < |cards| && 0 <= j < |cards| && cards[i] == QuestionCard(sel[m], m) && cards[j] == AnswerCard(sel[m], m)
  }

  ghost predicate TwoPerPair(cards: seq<Card>)
  {
    forall i, j :: 0 <= i < j < |cards| && cards[i].matchId == cards[j].matchId ==> cards[i].kind != cards[j].kind
  }

  /** Place i of the grid holds the `order[i]`-th card pushed. */
  lemma GridCards(sel: seq<QA>, order: seq<nat>, cards: seq<Card>)
    requires |Deck(sel)| == 2 * |sel| && forall k :: 0 <= k < 2 * |sel| ==> Deck(sel)[k] == DeckCard(sel, k)
    requires forall k :: 0 <= k < |order| ==> order[k] < 2 * |sel|
    requires cards == Arrange(Deck(sel), order)
    ensures |cards| == |order|
    ensures forall i :: 0 <= i < |cards| ==> cards[i] == DeckCard(sel, order[i])
  {
  }

  lemma PairsOnGrid(sel: seq<QA>, order: seq<nat>, cards: seq<Card>)
    requires Distinct(order) && |order| == 2 * |sel|
    requires forall k :: 0 <= k < |order| ==> order[k] < 2 * |sel|
    requires forall k :: 0 <= k < 2 * |sel| ==> k in order
    requires |cards| == |order| && forall i :: 0 <= i < |cards| ==> cards[i] == DeckCard(sel, order[i])
    ensures PairedUp(sel, cards)
  {
    forall i | 0 <= i < |cards|
      ensures cards[i].matchId < |sel|
      ensures cards[i] == QuestionCard(sel[cards[i].matchId], cards[i].matchId)
           || cards[i] == AnswerCard(sel[cards[i].matchId], cards[i].matchId)
    {
      assert cards[i] == DeckCard(sel, order[i]);
    }
    forall m | 0 <= m < |sel|
      ensures exists i, j :: 0 <= i < |cards| && 0 <= j < |cards| && cards[i] == QuestionCard(sel[m], m) && cards[j] == AnswerCard(sel[m], m)
    {
      var i, j := PairPlaces(sel, order, cards, m);
    }
    forall i, j | 0 <= i < j < |cards| && cards[i].matchId == cards[j].matchId
      ensures cards[i].kind != cards[j].kind
    {
      assert cards[i] == DeckCard(sel, order[i]) && cards[j] == DeckCard(sel, order[j]);
      assert order[i] != order[j];
      assert "q" != "a" by { assert "q"[0] != "a"[0]; }
    }
  }

  /** Where pair m's question and answer landed. */
  lemma PairPlaces(sel: seq<QA>, order: seq<nat>, cards: seq<Card>, m: nat) returns (i: nat, j: nat)
    requires m < |sel| && |order| == 2 * |sel|
    requires forall k :: 0 <= k < |order| ==> order[k] < 2 * |sel|
    requires 2 * m in order && 2 * m + 1 in order
    requires |cards| == |order| && forall i :: 0 <= i < |cards| ==> cards[i] == DeckCard(sel, order[i])
    ensures i < |cards| && j < |cards| && cards[i] == QuestionCard(sel[m], m) && cards[j] == AnswerCard(sel[m], m)
  {
    i :| 0 <= i < |order| && order[i] == 2 * m;
    j :| 0 <= j < |order| && order[j] == 2 * m + 1;
    assert cards[i] == DeckCard(sel, 2 * m) && cards[j] == DeckCard(sel, 2 * m + 1);
  }

  // ---------------------------------------------------------------- faces

  /** How many cards show face `v`. */
  function CountFaces(s: seq<Face>, v: Face): nat
  {
    if s == [] then 0 else CountFaces(s[..|s| - 1], v) + (if s[|s| - 1] == v then 1 else 0)
  }

  lemma {:induction false} CountFacesBound(s: seq<Face>, v: Face)
    ensures CountFaces(s, v) <= |s|
    ensures CountFaces(s, v) == |s| <==> forall i :: 0 <= i < |s| ==> s[i] == v
    ensures CountFaces(s, v) == 0 <==> forall i :: 0 <= i < |s| ==> s[i] != v
    decreases |s|
  {
    if s != [] {
      var n := |s| - 1;
      CountFacesBound(s[..n], v);
      assert forall i :: 0 <= i < n ==> s[..n][i] == s[i];
    }
  }

  /** Turning one card changes the count of a face by what that card shows
      before and after. */
  lemma {:induction false} CountFacesUpdate(s: seq<Face>, i: nat, w: Face, v: Face)
    requires i < |s|
    ensures CountFaces(s[i := w], v) == CountFaces(s, v) - (if s[i] == v then 1 else 0) + (if w == v then 1 else 0)
    decreases |s|
  {
    var n := |s| - 1;
    if i < n {
      assert s[i := w][..n] == s[..n][i := w];
      CountFacesUpdate(s[..n], i, w, v);
    } else {
      assert s[i := w][..n] == s[..n];
    }
  }

  function AllDown(n: nat): (s: seq<Face>)
    ensures |s| == n && forall i :: 0 <= i < n ==> s[i] == Down
  {
    seq(n, _ => Down)
  }

  // ---------------------------------------------------------------- clock

  /** The timer's state: the shown time is `now - startTime`. */
  datatype Clock = Clock(startTime: int, pauseStartTime: int, isPaused: bool)

  function Elapsed(c: Clock, now: int): int { now - c.startTime }

  /** `pause`: a no-op when already paused, otherwise remember when. */
  function Paused(c: Clock, now: int): Clock
  {
    if c.isPaused then c else c.(isPaused := true, pauseStartTime := now)
  }

  /** `resume`: a no-op when running, otherwise push the start forward by
      the time spent paused. */
  function Resumed(c: Clock, now: int): Clock
  {
    if !c.isPaused then c else c.(startTime := c.startTime + (now - c.pauseStartTime), isPaused := false)
  }

  /** The time spent between a pause and the following resume is not counted. */
  lemma PauseIsNotCounted(c: Clock, t1: int, t2: int, now: int)
    requires !c.isPaused
    ensures !Resumed(Paused(c, t1), t2).isPaused
    ensures Elapsed(Resumed(Paused(c, t1), t2), now) == Elapsed(c, now) - (t2 - t1)
  {
  }

  /** Pausing twice is pausing once: the second call keeps the first moment. */
  lemma PauseIdempotent(c: Clock, t1: int, t2: int)
    ensures Paused(Paused(c, t1), t2) == Paused(c, t1)
  {
  }

  /** Resuming a running clock changes nothing. */
  lemma ResumeRunningIsNoop(c: Clock, now: int)
    requires !c.isPaused
    ensures Resumed(c, now) == c
  {
  }

  /** How far a mismatch moves the start back, by mode. */
  function TimePenalty(mode: string): int
  {
    if mode == Standard || mode == Tournament then StandardPenalty
    else if mode == F1 then F1Penalty
    else 0
  }

  /** How much health a mismatch costs, by mode. */
  function HealthPenalty(mode: string): int
  {
    if mode == Survival then MismatchDamage else 0
  }

  datatype Click = Ignored | Flipped | Paired | Missed | Cleared | Redealt

  // ---------------------------------------------------------------- the game

  class Attempt {
    var startTime: int
    var pauseStartTime: int
    var lastFrameTime: int
    var isPaused: bool
    var isLocked: bool
    var errors: nat
    var health: int
    var cards: seq<Card>
    var faces: seq<Face>
    var firstCard: Option<nat>
    var pairsLeft: nat

    /** Every card not yet taken belongs to a pair still to find, and the
        only turned card is `firstCard`. */
    ghost predicate Valid()
      reads this
    {
      && |faces| == |cards|
      && 2 * pairsLeft + CountFaces(faces, Matched) == |cards|
      && (firstCard.Some? ==> firstCard.value < |faces|)
      && (forall i :: 0 <= i < |faces| ==> (faces[i] == Up <==> firstCard == Some(i)))
    }

    function ClockOf(): Clock
      reads this
    {
      Clock(startTime, pauseStartTime, isPaused)
    }

    /** The `GAME` object before any attempt: no cards, full health. */
    constructor ()
      ensures startTime == 0 && pauseStartTime == 0 && lastFrameTime == 0
      ensures !isPaused && !isLocked && errors == 0 && health == FullHealth
      ensures cards == [] && faces == [] && firstCard.None? && pairsLeft == 0
      ensures Valid()
    {
      startTime, pauseStartTime, lastFrameTime := 0, 0, 0;
      isPaused, isLocked := false, false;
      errors, health := 0, FullHealth;
      cards, faces, firstCard, pairsLeft := [], [], None, 0;
    }

    /** `pause`: a no-op when already paused; otherwise stop the clock at
        `now` and lock the grid. */
    method Pause(now: int)
      modifies this
      ensures ClockOf() == Paused(old(ClockOf()), now)
      ensures isLocked == (if old(isPaused) then old(isLocked) else true)
      ensures lastFrameTime == old(lastFrameTime) && errors == old(errors) && health == old(health)
      ensures cards == old(cards) && faces == old(faces) && firstCard == old(firstCard) && pairsLeft == old(pairsLeft)
    {
      if isPaused {
        return;
      }
      isPaused := true;
      isLocked := true;
      pauseStartTime := now;
    }

    /** `resume`: a no-op when running; otherwise move the start forward by
        the pause and unlock the grid. */
    method Resume(now: int)
      modifies this
      ensures ClockOf() == Resumed(old(ClockOf()), now)
      ensures old(isPaused) ==> !isLocked && lastFrameTime == now
      ensures !old(isPaused) ==> isLocked == old(isLocked) && lastFrameTime == old(lastFrameTime)
      ensures errors == old(errors) && health == old(health)
      ensures cards == old(cards) && faces == old(faces) && firstCard == old(firstCard) && pairsLeft == old(pairsLeft)
    {
      if !isPaused {
        return;
      }
      var pausedDuration := now - pauseStartTime;
      startTime := startTime + pausedDuration;
      lastFrameTime := now;
      isPaused := false;
      isLocked := false;
    }

    /** The part of `initGrid` every call runs: lay out a fresh grid, all
        cards face down, every pair still to find, the grid unlocked. */
    method Deal(pairs: seq<QA>, pick: seq<nat>, order: seq<nat>)
      requires IsPermutationOfIds(pick, |pairs|)
      requires IsPermutationOfIds(order, 2 * Min(MaxPairs, |pairs|))
      modifies this
      ensures cards == Grid(pairs, pick, order) && faces == AllDown(|cards|)
      ensures pairsLeft == Min(MaxPairs, |pairs|) && firstCard.None? && !isLocked
      ensures errors == old(errors) && health == old(health) && ClockOf() == old(ClockOf())
      ensures lastFrameTime == old(lastFrameTime)
      ensures Valid()
    {
      var sel := SelectPairs(pairs, pick);
      SelectPairsFacts(pairs, pick);
      var deck := DealCards(sel);
      DeckFacts(sel);
      PermutationOfIdsFacts(order, 2 * |sel|);
      cards := Arrange(deck, order);
      faces := AllDown(|cards|);
      CountFacesBound(faces, Matched);
      pairsLeft := |sel|;
      firstCard := None;
      isLocked := false;
    }

    /** `initGrid`: deal a fresh grid from the bank's pairs; a new attempt
        (not a survival continuation) also resets errors, health and the clock. */
    method InitGrid(pairs: seq<QA>, pick: seq<nat>, order: seq<nat>, isContinuation: bool, now: int)
      requires IsPermutationOfIds(pick, |pairs|)
      requires IsPermutationOfIds(order, 2 * Min(MaxPairs, |pairs|))
      modifies this
      ensures cards == Grid(pairs, pick, order) && faces == AllDown(|cards|)
      ensures pairsLeft == Min(MaxPairs, |pairs|) && firstCard.None? && !isLocked
      ensures isContinuation ==> errors == old(errors) && health == old(health) && ClockOf() == old(ClockOf())
                                 && lastFrameTime == old(lastFrameTime)
      ensures !isContinuation ==> errors == 0 && health == FullHealth && !isPaused && startTime == now
                                  && lastFrameTime == now && pauseStartTime == old(pauseStartTime)
      ensures Valid()
    {
      Deal(pairs, pick, order);
      if !isContinuation {
        errors := 0;
        health := FullHealth;
        isPaused := false;
        startTime := now;
        lastFrameTime := now;
      }
    }

    /** Turn the first card of a try. */
    method Flip(i: nat)
      requires Valid() && i < |faces| && faces[i] == Down && firstCard.None?
      modifies this
      ensures faces == old(faces)[i := Up] && firstCard == Some(i)
      ensures cards == old(cards) && pairsLeft == old(pairsLeft) && isLocked == old(isLocked)
      ensures errors == old(errors) && health == old(health) && ClockOf() == old(ClockOf())
      ensures lastFrameTime == old(lastFrameTime)
      ensures Valid()
    {
      CountFacesUpdate(faces, i, Up, Matched);
      faces := faces[i := Up];
      firstCard := Some(i);
    }

    /** Take the turned card and card `i` as a found pair: one pair fewer
        to find, which is why one was left. */
    method TakePair(i: nat)
      requires Valid() && i < |faces| && faces[i] == Down && firstCard.Some?
      modifies this
      ensures faces == old(faces)[old(firstCard).value := Matched][i := Matched]
      ensures pairsLeft == old(pairsLeft) - 1 && firstCard.None? && !isLocked
      ensures cards == old(cards) && errors == old(errors) && health == old(health) && ClockOf() == old(ClockOf())
      ensures lastFrameTime == old(lastFrameTime)
      ensures Valid()
    {
      var first := firstCard.value;
      var turned := faces[first := Matched];
      CountFacesUpdate(faces, first, Matched, Matched);
      CountFacesUpdate(turned, i, Matched, Matched);
      CountFacesBound(turned[i := Matched], Matched);
      pairsLeft := pairsLeft - 1;
      faces := turned[i := Matched];
      firstCard := None;
      isLocked := false;
    }

    /** The mismatch penalty: survival loses health, standard and
        tournament move the start back one second, f1 two seconds. */
    method Penalize(mode: string)
      modifies this
      ensures startTime == old(startTime) - TimePenalty(mode) && health == old(health) - HealthPenalty(mode)
      ensures mode == Survival ==> startTime == old(startTime) && health == old(health) - MismatchDamage
      ensures mode != Survival ==> health == old(health) && startTime <= old(startTime)
      ensures errors == old(errors) && faces == old(faces) && firstCard == old(firstCard) && isLocked == old(isLocked)
      ensures cards == old(cards) && pairsLeft == old(pairsLeft)
      ensures isPaused == old(isPaused) && pauseStartTime == old(pauseStartTime) && lastFrameTime == old(lastFrameTime)
    {
      if mode == Survival {
        health := health - MismatchDamage;
      } else if mode == Standard || mode == Tournament {
        startTime := startTime - StandardPenalty;
      } else if mode == F1 {
        startTime := startTime - F1Penalty;
      }
    }

    /** Once every pair is found, every card is taken. */
    lemma ClearedGridIsAllMatched()
      requires Valid() && pairsLeft == 0
      ensures forall i :: 0 <= i < |faces| ==> faces[i] == Matched
    {
      CountFacesBound(faces, Matched);
    }

    /** While a card is turned, at least one pair is still to find. */
    lemma TurnedCardMeansPairLeft()
      requires Valid() && firstCard.Some?
      ensures pairsLeft >= 1
    {
      var f := firstCard.value;
      CountFacesUpdate(faces, f, Matched, Matched);
      CountFacesBound(faces[f := Matched], Matched);
    }

    /** A mismatch: one more error, the mode's penalty, the turned card back down. */
    method Miss(mode: string)
      requires Valid() && firstCard.Some?
      modifies this
      ensures faces == old(faces)[old(firstCard).value := Down] && firstCard.None? && !isLocked
      ensures errors == old(errors) + 1
      ensures startTime == old(startTime) - TimePenalty(mode) && health == old(health) - HealthPenalty(mode)
      ensures cards == old(cards) && pairsLeft == old(pairsLeft)
      ensures isPaused == old(isPaused) && pauseStartTime == old(pauseStartTime) && lastFrameTime == old(lastFrameTime)
      ensures Valid()
    {
      errors := errors + 1;
      Penalize(mode);
      var first := firstCard.value;
      CountFacesUpdate(faces, first, Down, Matched);
      faces := faces[first := Down];
      firstCard := None;
      isLocked := false;
    }

    /** `handleCardClick` on the card at place `i`, with the delayed steps
        run at once.  A locked grid or a card already turned or taken ignores
        the click; a first card is turned; a second card either takes the
        pair or costs a penalty and turns both back.  Taking the last pair
        wins the attempt, except in survival mode, where health grows and a
        new grid is dealt by `pick` and `order`. */
    method HandleCardClick(i: nat, mode: string, pairs: seq<QA>, pick: seq<nat>, order: seq<nat>) returns (click: Click)
      requires Valid() && i < |cards|
      requires IsPermutationOfIds(pick, |pairs|)
      requires IsPermutationOfIds(order, 2 * Min(MaxPairs, |pairs|))
      modifies this
      ensures Valid()
      ensures click == Ignored <==> old(isLocked) || old(faces[i]) != Down
      ensures click == Ignored ==> unchanged(this)
      ensures click == Flipped <==> !old(isLocked) && old(faces[i]) == Down && old(firstCard).None?
      ensures click in {Paired, Cleared, Redealt} <==>
        && !old(isLocked) && old(faces[i]) == Down && old(firstCard).Some?
        && old(cards[firstCard.value].matchId) == old(cards[i].matchId)
      ensures click in {Cleared, Redealt} <==> click in {Paired, Cleared, Redealt} && old(pairsLeft) == 1
      ensures click == Redealt <==> click in {Cleared, Redealt} && mode == Survival
      ensures click != Ignored ==> lastFrameTime == old(lastFrameTime)
      ensures click == Flipped ==>
        && faces == old(faces)[i := Up] && firstCard == Some(i)
        && cards == old(cards) && pairsLeft == old(pairsLeft) && !isLocked
        && errors == old(errors) && health == old(health) && ClockOf() == old(ClockOf())
      ensures click in {Paired, Cleared} ==>
        && old(firstCard).Some?
        && faces == old(faces)[old(firstCard).value := Matched][i := Matched]
        && pairsLeft == old(pairsLeft) - 1 && firstCard.None? && !isLocked
        && cards == old(cards) && errors == old(errors) && health == old(health) && ClockOf() == old(ClockOf())
      ensures click == Paired ==> pairsLeft > 0
      ensures click == Cleared ==> pairsLeft == 0 && mode != Survival
      ensures click == Redealt ==> mode == Survival && health == Min(FullHealth, old(health) + ClearBonus)
                                   && cards == Grid(pairs, pick, order) && pairsLeft == Min(MaxPairs, |pairs|)
                                   && faces == AllDown(|cards|)
                                   && firstCard.None? && !isLocked
                                   && errors == old(errors) && ClockOf() == old(ClockOf())
      ensures click == Missed ==>
        && old(firstCard).Some?
        && faces == old(faces)[old(firstCard).value := Down] && firstCard.None? && !isLocked
        && errors == old(errors) + 1 && startTime == old(startTime) - TimePenalty(mode)
        && health == old(health) - HealthPenalty(mode)
        && cards == old(cards) && pairsLeft == old(pairsLeft)
        && isPaused == old(isPaused) && pauseStartTime == old(pauseStartTime)
    {
      if isLocked || faces[i] != Down {
        return Ignored;
      }
      if firstCard.None? {
        Flip(i);
        return Flipped;
      }
      if cards[firstCard.value].matchId == cards[i].matchId {
        TakePair(i);
        if pairsLeft == 0 {
          if mode == Survival {
            health := Min(FullHealth, health + ClearBonus);
            InitGrid(pairs, pick, order, true, 0);
            return Redealt;
          }
          return Cleared;
        }
        return Paired;
      }
      Miss(mode);
      return Missed;
    }

    /** `endGame` with the time the timer showed: f1 and tournament hand the
        time and the error count to their engine (the result is true then);
        survival always saves its time with score 0; a won standard attempt
        saves its time with score 6; a lost one saves nothing. */
    method EndGame(isWin: bool, mode: string, time: int, session: Session,
                   typedName: string, typedSchool: string, now: int) returns (handOff: bool)
      requires mode == session.currentMode
      modifies session
      ensures handOff <==> mode == F1 || mode == Tournament
      ensures session.currentBankId == old(session.currentBankId) && session.currentMode == old(session.currentMode)
      ensures session.history == old(session.history) +
        (if handOff || (mode != Survival && !isWin) then []
         else [Complete(Draft("", "", "", "", "", time, 0.0, 0, if mode == Survival then 0 else WinScore, errors),
                        typedName, typedSchool, session.currentBankId, session.currentMode, now)])
    {
      if mode == F1 || mode == Tournament {
        return true;
      }
      if mode == Survival {
        session.SaveRecord(Draft("", "", "", "", "", time, 0.0, 0, 0, errors), typedName, typedSchool, now);
      } else if isWin {
        session.SaveRecord(Draft("", "", "", "", "", time, 0.0, 0, WinScore, errors), typedName, typedSchool, now);
      }
      return false;
    }
  }
}
