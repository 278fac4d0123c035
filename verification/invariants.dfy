/**
 * What holds of every state the game reaches from `NewGame`, and the
 * properties of whole event sequences that follow from it: at most two
 * unresolved tiles, the lock exactly while a mismatch waits, two matched
 * tiles per counted pair, monotone counters, and a win that happens once
 * and freezes the board and the timer.
 */
module GameInvariants {
  import opened Wrappers
  import opened Seqs
  import opened Shuffling
  import opened Contacts
  import opened Deck
  import opened Game

  function CardIdSet(deck: seq<Card>): set<nat> {
    set c | c in deck :: c.cardId
  }

  /** Ids of the cards held as first and second pick. */
  function PickedIds(g: GameState): set<nat> {
    (if g.firstPick.Some? then {g.firstPick.value.cardId} else {})
      + (if g.secondPick.Some? then {g.secondPick.value.cardId} else {})
  }

  /**
   * The reachable-state invariant. The face-up tiles that are not matched
   * are exactly the picks; a second pick only exists during a mismatch, and
   * the board is locked exactly then.
   */
  predicate Inv(g: GameState) {
    && |g.deck| <= 2 * MaxPairs
    && Distinct(CardIds(g.deck))
    && g.matched <= g.flipped
    && g.matched <= CardIdSet(g.deck)
    && |g.matched| == 2 * g.matchedPairs
    && g.flipped - g.matched == PickedIds(g)
    && (g.secondPick.Some? ==> g.firstPick.Some?)
    && g.lockBoard == g.secondPick.Some?
    && (g.firstPick.Some? ==> g.firstPick.value in g.deck && g.timerRunning)
    && (g.secondPick.Some? ==>
          && g.secondPick.value in g.deck
          && g.firstPick.value.cardId != g.secondPick.value.cardId
          && g.firstPick.value.pairId != g.secondPick.value.pairId)
    && (g.matchedPairs == WinningPairs ==> !g.timerRunning)
    && (g.currentCtaUrl.Some? ==> g.currentCtaUrl.value != "")
  }

  lemma NewGameInv(g: GameState, ads: AdsData, draws: seq<nat>)
    requires ValidDraws(draws, DeckSize(ads.items))
    ensures Inv(NewGame(g, ads, draws))
  {
  }

  lemma SubsetSize(a: set<nat>, b: set<nat>)
    requires a <= b
    ensures |a| <= |b|
  {
    assert b == a + (b - a);
  }

  lemma {:induction false} CardIdSetSize(deck: seq<Card>)
    ensures |CardIdSet(deck)| <= |deck|
    decreases |deck|
  {
    if |deck| > 0 {
      CardIdSetSize(deck[1..]);
      var rest := CardIdSet(deck[1..]);
      assert CardIdSet(deck) <= rest + {deck[0].cardId} by {
        forall c | c in deck ensures c.cardId in rest + {deck[0].cardId} {
          if c != deck[0] {
            assert c in deck[1..];
          }
        }
      }
      SubsetSize(CardIdSet(deck), rest + {deck[0].cardId});
    }
  }

  /** A subset at least as large as its superset is the whole superset. */
  lemma SubsetFills(a: set<nat>, b: set<nat>)
    requires a <= b && |b| <= |a|
    ensures a == b
  {
    var rest := b - a;
    assert b == a + rest;
    assert |rest| == 0;
  }

  /** Counted pairs never exceed half the deck. */
  lemma MatchedPairsBound(g: GameState)
    requires Inv(g)
    ensures 2 * g.matchedPairs <= |g.deck|
  {
    CardIdSetSize(g.deck);
    SubsetSize(g.matched, CardIdSet(g.deck));
  }

  /** With fewer than eight items taken, the literal-8 win check can never fire. */
  lemma NoWinWithFewItems(g: GameState)
    requires Inv(g) && |g.deck| < 2 * WinningPairs
    ensures g.matchedPairs < WinningPairs
  {
    MatchedPairsBound(g);
  }

  /** After the win every card of the deck is matched. */
  lemma WonBoardAllMatched(g: GameState, id: nat)
    requires Inv(g) && g.matchedPairs == WinningPairs
    requires FindCard(g.deck, id).Some?
    ensures id in g.matched
  {
    CardIdSetSize(g.deck);
    SubsetFills(g.matched, CardIdSet(g.deck));
    assert FindCard(g.deck, id).value in g.deck;
  }

  /** Re-clicking the first pick is rejected, so the second pick is always a different card. */
  lemma FirstPickNotAcceptedAgain(g: GameState, ads: AdsData, draw: nat)
    requires Inv(g) && g.firstPick.Some?
    requires ValidDraw(draw, |ads.items|)
    ensures !Accepts(g, g.firstPick.value.cardId)
    ensures Click(g, ads, g.firstPick.value.cardId, draw) == g
  {
    assert g.firstPick.value.cardId in PickedIds(g);
  }

  /** A click accepted while a first pick is held is on another card and leaves the board locked or resolved. */
  lemma SecondPickDiffers(g: GameState, id: nat)
    requires Inv(g) && g.firstPick.Some? && Accepts(g, id)
    ensures id != g.firstPick.value.cardId
    ensures g.secondPick.None?
  {
    assert g.firstPick.value.cardId in PickedIds(g);
  }

  lemma ClickInv(g: GameState, ads: AdsData, id: nat, draw: nat)
    requires Inv(g) && ValidDraw(draw, |ads.items|)
    ensures Inv(Click(g, ads, id, draw))
  {
    if Accepts(g, id) {
      if g.matchedPairs == WinningPairs {
        WonBoardAllMatched(g, id);
        assert false;
      }
      if g.firstPick.None? {
        FirstPickInv(g, ads, id, draw);
      } else if g.firstPick.value.pairId == FindCard(g.deck, id).value.pairId {
        MatchInv(g, ads, id, draw);
      } else {
        MismatchInv(g, ads, id, draw);
      }
    }
  }

  lemma FirstPickInv(g: GameState, ads: AdsData, id: nat, draw: nat)
    requires Inv(g) && ValidDraw(draw, |ads.items|)
    requires Accepts(g, id) && g.firstPick.None? && g.matchedPairs != WinningPairs
    ensures Inv(Click(g, ads, id, draw))
  {
    var r := Click(g, ads, id, draw);
    assert PickedIds(g) == {};
    assert PickedIds(r) == {id};
    assert r.flipped - r.matched == {id};
  }

  lemma MatchInv(g: GameState, ads: AdsData, id: nat, draw: nat)
    requires Inv(g) && ValidDraw(draw, |ads.items|)
    requires Accepts(g, id) && g.firstPick.Some?
    requires g.firstPick.value.pairId == FindCard(g.deck, id).value.pairId
    ensures Inv(Click(g, ads, id, draw))
  {
    var r := Click(g, ads, id, draw);
    var a := g.firstPick.value;
    SecondPickDiffers(g, id);
    assert g.flipped - g.matched == {a.cardId};
    MatchedTwoMore(g.flipped, g.matched, a.cardId, id);
    assert PickedIds(r) == {};
    assert FindCard(g.deck, id).value in g.deck;
  }

  /** Matching the held pick and a fresh card adds two matched tiles and leaves no unresolved one. */
  lemma MatchedTwoMore(flipped: set<nat>, matched: set<nat>, held: nat, id: nat)
    requires matched <= flipped && flipped - matched == {held}
    requires id !in flipped
    ensures held != id && held !in matched && id !in matched
    ensures |matched + {held, id}| == |matched| + 2
    ensures (flipped + {id}) - (matched + {held, id}) == {}
    ensures matched + {held, id} <= flipped + {id}
  {
    assert held in flipped - matched;
    assert matched + {held, id} == (matched + {held}) + {id};
  }

  lemma MismatchInv(g: GameState, ads: AdsData, id: nat, draw: nat)
    requires Inv(g) && ValidDraw(draw, |ads.items|)
    requires Accepts(g, id) && g.firstPick.Some?
    requires g.firstPick.value.pairId != FindCard(g.deck, id).value.pairId
    ensures Inv(Click(g, ads, id, draw))
  {
    var r := Click(g, ads, id, draw);
    var a := g.firstPick.value;
    SecondPickDiffers(g, id);
    assert g.flipped - g.matched == {a.cardId};
    FlippedOneMore(g.flipped, g.matched, a.cardId, id);
    assert PickedIds(r) == {a.cardId, id};
  }

  /** Flipping a fresh card next to the held pick leaves exactly those two unresolved. */
  lemma FlippedOneMore(flipped: set<nat>, matched: set<nat>, held: nat, id: nat)
    requires matched <= flipped && flipped - matched == {held} && id !in flipped
    ensures (flipped + {id}) - matched == {held, id}
  {
    assert id !in matched;
  }

  lemma ResolveMismatchInv(g: GameState)
    requires Inv(g)
    ensures Inv(ResolveMismatch(g))
  {
    if g.firstPick.Some? && g.secondPick.Some? {
      var r := ResolveMismatch(g);
      assert PickedIds(g) == {g.firstPick.value.cardId, g.secondPick.value.cardId};
      assert r.flipped - r.matched == {};
    }
  }

  lemma StepInv(g: GameState, ads: AdsData, e: Event)
    requires Inv(g) && ValidEvent(ads, e)
    ensures Inv(Step(g, ads, e))
  {
    match e
    case CardClicked(id, draw) => ClickInv(g, ads, id, draw);
    case MismatchDelayElapsed => ResolveMismatchInv(g);
    case NewGamePressed(draws) => NewGameInv(g, ads, draws);
    case _ =>
  }

  lemma ValidEventsTail(ads: AdsData, events: seq<Event>)
    requires |events| > 0 && ValidEvents(ads, events)
    ensures ValidEvent(ads, events[0]) && ValidEvents(ads, events[1..])
  {
    forall i | 0 <= i < |events[1..]| ensures ValidEvent(ads, events[1..][i]) {
      assert events[1..][i] == events[i + 1];
    }
  }

  lemma InGameTail(events: seq<Event>)
    requires |events| > 0 && InGame(events)
    ensures !events[0].NewGamePressed? && InGame(events[1..])
  {
    forall i | 0 <= i < |events[1..]| ensures !events[1..][i].NewGamePressed? {
      assert events[1..][i] == events[i + 1];
    }
  }

  /** Every state reached by handling events one at a time keeps the invariant. */
  lemma {:induction false} RunInv(g: GameState, ads: AdsData, events: seq<Event>)
    requires Inv(g) && ValidEvents(ads, events)
    ensures Inv(Run(g, ads, events))
    decreases |events|
  {
    if |events| > 0 {
      var next := Step(g, ads, events[0]);
      StepInv(g, ads, events[0]);
      ValidEventsTail(ads, events);
      RunInv(next, ads, events[1..]);
    }
  }

  /** None of the four counters goes down. */
  predicate CountersGrow(g: GameState, r: GameState) {
    && g.moves <= r.moves
    && g.matchedPairs <= r.matchedPairs
    && g.impressions <= r.impressions
    && g.clicks <= r.clicks
  }

  /** Within a game no event lowers a counter; the "new game" button sets them all back to zero. */
  lemma StepGrows(g: GameState, ads: AdsData, e: Event)
    requires ValidEvent(ads, e)
    ensures !e.NewGamePressed? ==> CountersGrow(g, Step(g, ads, e))
    ensures e.NewGamePressed? ==> var r := Step(g, ads, e);
      r.moves == 0 && r.matchedPairs == 0 && r.impressions == 0 && r.clicks == 0
  {
    match e
    case CardClicked(id, draw) =>
      assert Step(g, ads, e) == Click(g, ads, id, draw);
    case MismatchDelayElapsed =>
    case TimerTicked =>
    case CtaPressed =>
    case EndAdPressed(draw) =>
    case NewGamePressed(draws) =>
  }

  /** Over the events of one game the four counters never decrease. */
  lemma {:induction false} RunGrows(g: GameState, ads: AdsData, events: seq<Event>)
    requires ValidEvents(ads, events)
    ensures InGame(events) ==> CountersGrow(g, Run(g, ads, events))
    decreases |events|
  {
    if |events| > 0 && InGame(events) {
      ValidEventsTail(ads, events);
      InGameTail(events);
      StepGrows(g, ads, events[0]);
      RunGrows(Step(g, ads, events[0]), ads, events[1..]);
    }
  }

  /** Whether handling `e` is the click on a second card, the one that counts a move. */
  predicate IsSecondPick(g: GameState, e: Event) {
    e.CardClicked? && Accepts(g, e.cardId) && g.firstPick.Some?
  }

  /** How many of `events` are accepted second picks, replayed from `g`. */
  function SecondPicks(g: GameState, ads: AdsData, events: seq<Event>): nat
    requires ValidEvents(ads, events)
    decreases |events|
  {
    if |events| == 0 then 0
    else
      (if IsSecondPick(g, events[0]) then 1 else 0)
        + SecondPicks(Step(g, ads, events[0]), ads, events[1..])
  }

  /** Within one game, moves count every completed turn exactly once and nothing else. */
  lemma {:induction false} MovesCountTurns(g: GameState, ads: AdsData, events: seq<Event>)
    requires ValidEvents(ads, events)
    ensures InGame(events) ==> Run(g, ads, events).moves == g.moves + SecondPicks(g, ads, events)
    decreases |events|
  {
    if |events| > 0 && InGame(events) {
      ValidEventsTail(ads, events);
      InGameTail(events);
      StepMoves(g, ads, events[0]);
      MovesCountTurns(Step(g, ads, events[0]), ads, events[1..]);
    }
  }

  /** Within a game, an event adds a move exactly when it is an accepted second pick. */
  lemma StepMoves(g: GameState, ads: AdsData, e: Event)
    requires ValidEvent(ads, e) && !e.NewGamePressed?
    ensures Step(g, ads, e).moves == g.moves + (if IsSecondPick(g, e) then 1 else 0)
  {
    match e
    case CardClicked(id, draw) =>
      assert Step(g, ads, e) == Click(g, ads, id, draw);
    case MismatchDelayElapsed =>
    case TimerTicked =>
    case CtaPressed =>
    case EndAdPressed(draw) =>
  }

  /** Whether handling `e` brings the pair count up to the winning number. */
  predicate IsWinStep(g: GameState, ads: AdsData, e: Event)
    requires ValidEvent(ads, e)
  {
    g.matchedPairs < WinningPairs && Step(g, ads, e).matchedPairs == WinningPairs
  }

  function WinSteps(g: GameState, ads: AdsData, events: seq<Event>): nat
    requires ValidEvents(ads, events)
    decreases |events|
  {
    if |events| == 0 then 0
    else
      (if IsWinStep(g, ads, events[0]) then 1 else 0)
        + WinSteps(Step(g, ads, events[0]), ads, events[1..])
  }

  /** Within one game the win fires at most once, and never again once the pair count has reached it. */
  lemma {:induction false} WinOnce(g: GameState, ads: AdsData, events: seq<Event>)
    requires ValidEvents(ads, events)
    ensures InGame(events) ==> WinSteps(g, ads, events) <= if g.matchedPairs < WinningPairs then 1 else 0
    decreases |events|
  {
    if |events| > 0 && InGame(events) {
      ValidEventsTail(ads, events);
      InGameTail(events);
      var next := Step(g, ads, events[0]);
      StepGrows(g, ads, events[0]);
      WinOnce(next, ads, events[1..]);
    }
  }

  /**
   * Once won, only the "new game" button moves the game: for every other
   * event the board, the pair and move counts and the stopped timer stay.
   */
  lemma WonIsFinal(g: GameState, ads: AdsData, e: Event)
    requires Inv(g) && g.matchedPairs == WinningPairs && ValidEvent(ads, e)
    ensures !e.NewGamePressed? ==> var r := Step(g, ads, e);
      && r.flipped == g.flipped && r.matched == g.matched
      && r.moves == g.moves && r.matchedPairs == g.matchedPairs
      && !r.timerRunning && r.seconds == g.seconds
  {
    match e
    case CardClicked(id, draw) =>
      if FindCard(g.deck, id).Some? {
        WonBoardAllMatched(g, id);
      }
      assert Step(g, ads, e) == Click(g, ads, id, draw);
    case MismatchDelayElapsed =>
    case TimerTicked =>
    case CtaPressed =>
    case EndAdPressed(draw) =>
    case NewGamePressed(draws) =>
  }

  /** A locked board ignores every card click. */
  lemma LockedBoardIgnoresClicks(g: GameState, ads: AdsData, id: nat, draw: nat)
    requires g.lockBoard && ValidDraw(draw, |ads.items|)
    ensures Step(g, ads, CardClicked(id, draw)) == g
  {
  }
}
