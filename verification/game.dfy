/**
 * The game and ad state machine of app.js with the DOM replaced by data.
 * Every handler becomes a pure transition on `GameState`; the `flipped` and
 * `matched` CSS classes of the tiles become two sets of card ids; the 700 ms
 * mismatch timeout and the one-second timer interval become events; the
 * random draws are parameters.
 */
module Game {
  import opened Wrappers
  import opened Seqs
  import opened Shuffling
  import opened Contacts
  import opened Deck

  /** The loaded sponsor content: the item list and the contact directory. */
  datatype AdsData = AdsData(items: seq<AdItem>, contacts: Option<map<string, string>>)

  datatype GameState = GameState(
    deck: seq<Card>,
    flipped: set<nat>,              // ids of the cards whose tile has the `flipped` class
    matched: set<nat>,              // ids of the cards whose tile has the `matched` class
    firstPick: Option<Card>,
    secondPick: Option<Card>,
    lockBoard: bool,
    moves: nat,
    matchedPairs: nat,
    impressions: nat,
    clicks: nat,
    timerRunning: bool,             // `timerId` is not null
    seconds: nat,
    currentCtaUrl: Option<string>)

  /** The win check compares with this literal, not with the deck's pair count. */
  const WinningPairs: nat := 8

  /** `Math.floor(Math.random() * n)` for a draw in [0, 1): below n, or 0 when n is 0. */
  predicate ValidDraw(draw: nat, n: nat) {
    draw < n || draw == 0
  }

  /** The contact key an item is resolved under; a missing `ctaLinkKey` is looked up as the property "undefined". */
  function LinkKey(item: AdItem): string {
    match item.ctaLinkKey
    case Some(key) => key
    case None => "undefined"
  }

  /** The first card of the deck with the given id (`deck.find`). */
  function FindCard(deck: seq<Card>, id: nat): (r: Option<Card>)
    ensures r.Some? <==> exists c :: c in deck && c.cardId == id
    ensures r.Some? ==> r.value in deck && r.value.cardId == id
  {
    if |deck| == 0 then None
    else if deck[0].cardId == id then Some(deck[0])
    else FindCard(deck[1..], id)
  }

  /** `showAd`: a present item adds one impression and replaces the CTA destination; an absent one changes nothing. */
  function ShowAd(g: GameState, contacts: Option<map<string, string>>, item: Option<AdItem>): (r: GameState)
    ensures item.None? ==> r == g
    ensures item.Some? ==>
      && r.impressions == g.impressions + 1
      && r.currentCtaUrl == ResolveContactUrl(contacts, LinkKey(item.value))
      && r == g.(impressions := r.impressions, currentCtaUrl := r.currentCtaUrl)
  {
    match item
    case None => g
    case Some(it) => g.(impressions := g.impressions + 1, currentCtaUrl := ResolveContactUrl(contacts, LinkKey(it)))
  }

  /** `startTimer`: elapsed seconds restart from zero and the interval runs. */
  function StartTimer(g: GameState): (r: GameState)
    ensures r.timerRunning && r.seconds == 0
    ensures r == g.(timerRunning := r.timerRunning, seconds := r.seconds)
  {
    g.(timerRunning := true, seconds := 0)
  }

  /** `stopTimer`: the interval is cleared; the elapsed seconds stay on display. */
  function StopTimer(g: GameState): (r: GameState)
    ensures !r.timerRunning
    ensures r == g.(timerRunning := r.timerRunning)
  {
    g.(timerRunning := false)
  }

  /** One firing of the one-second interval. */
  function Tick(g: GameState): (r: GameState)
    ensures g.timerRunning ==> r.seconds == g.seconds + 1 && r == g.(seconds := r.seconds)
    ensures !g.timerRunning ==> r == g
  {
    if g.timerRunning then g.(seconds := g.seconds + 1) else g
  }

  /** `resetPicks`: no picks and the board unlocked; nothing else changes. */
  function ResetPicks(g: GameState): (r: GameState)
    ensures r.firstPick.None? && r.secondPick.None? && !r.lockBoard
    ensures r == g.(firstPick := r.firstPick, secondPick := r.secondPick, lockBoard := r.lockBoard)
  {
    g.(firstPick := None, secondPick := None, lockBoard := false)
  }

  /** The item of the final offer: `items[floor(random * length)]`, absent for an empty list. */
  function EndAdItem(items: seq<AdItem>, draw: nat): (r: Option<AdItem>)
    requires ValidDraw(draw, |items|)
    ensures r.Some? <==> |items| > 0
    ensures r.Some? ==> r.value in items
  {
    if draw < |items| then Some(items[draw]) else None
  }

  /**
   * `onWin`: the timer stops and one more ad is shown, chosen from the full
   * item list; its contact becomes the CTA destination.
   */
  function OnWin(g: GameState, ads: AdsData, draw: nat): (r: GameState)
    requires ValidDraw(draw, |ads.items|)
    ensures !r.timerRunning
    ensures r.impressions == g.impressions + (if |ads.items| > 0 then 1 else 0)
    ensures r.moves == g.moves && r.matchedPairs == g.matchedPairs && r.clicks == g.clicks
    ensures r.deck == g.deck && r.flipped == g.flipped && r.matched == g.matched
    ensures r.firstPick == g.firstPick && r.secondPick == g.secondPick && r.lockBoard == g.lockBoard
    ensures r.seconds == g.seconds
    ensures r.currentCtaUrl ==
      if |ads.items| > 0 then ResolveContactUrl(ads.contacts, LinkKey(ads.items[draw])) else g.currentCtaUrl
  {
    ShowAd(StopTimer(g), ads.contacts, EndAdItem(ads.items, draw))
  }

  /**
   * `checkMatch`, run with both picks set. Equal pairing keys: both cards
   * are matched, one pair and one impression are counted, the picks are
   * cleared and the board unlocked, and the eighth pair wins. Different
   * keys: the board only locks, waiting for the mismatch delay.
   */
  function CheckMatch(g: GameState, ads: AdsData, draw: nat): (r: GameState)
    requires ValidDraw(draw, |ads.items|)
    ensures r.deck == g.deck && r.moves == g.moves && r.clicks == g.clicks
    ensures (g.firstPick.None? || g.secondPick.None?) ==> r == g
    ensures g.firstPick.Some? && g.secondPick.Some? && g.firstPick.value.pairId != g.secondPick.value.pairId ==>
      r == g.(lockBoard := true)
    ensures g.firstPick.Some? && g.secondPick.Some? && g.firstPick.value.pairId == g.secondPick.value.pairId ==>
      var won := g.matchedPairs + 1 == WinningPairs;
      && r.matched == g.matched + {g.firstPick.value.cardId, g.secondPick.value.cardId}
      && r.flipped == g.flipped
      && r.matchedPairs == g.matchedPairs + 1
      && r.impressions == g.impressions + 1 + (if won && |ads.items| > 0 then 1 else 0)
      && r.firstPick.None? && r.secondPick.None? && !r.lockBoard
      && r.timerRunning == (g.timerRunning && !won)
      && r.seconds == g.seconds
      && r.currentCtaUrl == PairCtaUrl(ads, g.firstPick.value.adItem, won, draw)
  {
    match (g.firstPick, g.secondPick)
    case (Some(a), Some(b)) =>
      var locked := g.(lockBoard := true);
      if a.pairId == b.pairId then
        var counted := locked.(matched := locked.matched + {a.cardId, b.cardId}, matchedPairs := locked.matchedPairs + 1);
        var shown := ResetPicks(ShowAd(counted, ads.contacts, Some(a.adItem)));
        if shown.matchedPairs == WinningPairs then OnWin(shown, ads, draw) else shown
      else locked
    case _ => g
  }

  /**
   * The CTA destination after the pair of `item` is matched: that item's
   * contact, replaced by the final offer's when the pair wins the game.
   */
  function PairCtaUrl(ads: AdsData, item: AdItem, won: bool, draw: nat): Option<string>
    requires ValidDraw(draw, |ads.items|)
  {
    if won && |ads.items| > 0 then ResolveContactUrl(ads.contacts, LinkKey(ads.items[draw]))
    else ResolveContactUrl(ads.contacts, LinkKey(item))
  }

  /** Whether `onCardClick` acts on a click: the board is unlocked and the card is in the deck, neither matched nor flipped. */
  predicate Accepts(g: GameState, id: nat) {
    && !g.lockBoard
    && FindCard(g.deck, id).Some?
    && id !in g.matched
    && id !in g.flipped
  }

  /**
   * `onCardClick`. A click the guards reject changes nothing at all. An
   * accepted click starts the timer if it is stopped and flips the card; as
   * the first pick it is only remembered, as the second it counts one move
   * and goes to `CheckMatch`.
   */
  function Click(g: GameState, ads: AdsData, id: nat, draw: nat): (r: GameState)
    requires ValidDraw(draw, |ads.items|)
    ensures g.lockBoard ==> r == g
    ensures FindCard(g.deck, id).None? ==> r == g
    ensures id in g.matched || id in g.flipped ==> r == g
    ensures r.deck == g.deck && r.clicks == g.clicks
    ensures r.moves == if Accepts(g, id) && g.firstPick.Some? then g.moves + 1 else g.moves
    ensures Accepts(g, id) ==> r.seconds == if g.timerRunning then g.seconds else 0
    ensures Accepts(g, id) && g.firstPick.None? ==>
      && r.flipped == g.flipped + {id}
      && r.firstPick == FindCard(g.deck, id)
      && r.timerRunning
      && r.matched == g.matched && r.secondPick == g.secondPick && r.lockBoard == g.lockBoard
      && r.matchedPairs == g.matchedPairs && r.impressions == g.impressions
      && r.currentCtaUrl == g.currentCtaUrl
    ensures Accepts(g, id) && g.firstPick.Some? && g.firstPick.value.pairId != FindCard(g.deck, id).value.pairId ==>
      && r.flipped == g.flipped + {id}
      && r.firstPick == g.firstPick && r.secondPick == FindCard(g.deck, id)
      && r.lockBoard && r.timerRunning
      && r.matched == g.matched && r.matchedPairs == g.matchedPairs && r.impressions == g.impressions
      && r.currentCtaUrl == g.currentCtaUrl
    ensures Accepts(g, id) && g.firstPick.Some? && g.firstPick.value.pairId == FindCard(g.deck, id).value.pairId ==>
      var won := g.matchedPairs + 1 == WinningPairs;
      && r.flipped == g.flipped + {id}
      && r.matched == g.matched + {g.firstPick.value.cardId, id}
      && r.matchedPairs == g.matchedPairs + 1
      && r.impressions == g.impressions + 1 + (if won && |ads.items| > 0 then 1 else 0)
      && r.firstPick.None? && r.secondPick.None? && !r.lockBoard
      && r.timerRunning == !won
      && r.currentCtaUrl == PairCtaUrl(ads, g.firstPick.value.adItem, won, draw)
  {
    if g.lockBoard then g
    else
      match FindCard(g.deck, id)
      case None => g
      case Some(card) =>
        if id in g.matched || id in g.flipped then g
        else
          var timed := if !g.timerRunning then StartTimer(g) else g;
          var shown := timed.(flipped := timed.flipped + {id});
          if shown.firstPick.None? then shown.(firstPick := Some(card))
          else CheckMatch(shown.(secondPick := Some(card), moves := shown.moves + 1), ads, draw)
  }

  /**
   * The mismatch timeout firing: both picked cards turn back face down, the
   * picks clear and the board unlocks. With no pair of picks outstanding the
   * event is stale and changes nothing.
   */
  function ResolveMismatch(g: GameState): (r: GameState)
    ensures g.firstPick.Some? && g.secondPick.Some? ==>
      && r.flipped == g.flipped - {g.firstPick.value.cardId, g.secondPick.value.cardId}
      && r.firstPick.None? && r.secondPick.None? && !r.lockBoard
      && r == g.(flipped := r.flipped, firstPick := None, secondPick := None, lockBoard := false)
    ensures g.firstPick.None? || g.secondPick.None? ==> r == g
  {
    match (g.firstPick, g.secondPick)
    case (Some(a), Some(b)) => ResetPicks(g.(flipped := g.flipped - {a.cardId, b.cardId}))
    case _ => g
  }

  /**
   * The CTA button: with no destination nothing happens; otherwise one click
   * is counted and the destination is handed out to be opened.
   */
  function CtaClick(g: GameState): (r: (GameState, Option<string>))
    ensures g.currentCtaUrl.None? || g.currentCtaUrl == Some("") ==> r.0 == g && r.1.None?
    ensures g.currentCtaUrl.Some? && g.currentCtaUrl != Some("") ==>
      r.0 == g.(clicks := g.clicks + 1) && r.1 == g.currentCtaUrl
  {
    match g.currentCtaUrl
    case None => (g, None)
    case Some(url) => if url == "" then (g, None) else (g.(clicks := g.clicks + 1), Some(url))
  }

  /** `resetGameState`: picks, lock, all four counters and the CTA destination cleared together; the board and timer are untouched. */
  function ResetGameState(g: GameState): (r: GameState)
    ensures r.firstPick.None? && r.secondPick.None? && !r.lockBoard
    ensures r.moves == 0 && r.matchedPairs == 0 && r.impressions == 0 && r.clicks == 0
    ensures r.currentCtaUrl.None?
    ensures r.deck == g.deck && r.flipped == g.flipped && r.matched == g.matched
    ensures r.timerRunning == g.timerRunning && r.seconds == g.seconds
  {
    g.(firstPick := None, secondPick := None, lockBoard := false,
       moves := 0, matchedPairs := 0, impressions := 0, clicks := 0,
       currentCtaUrl := None)
  }

  /**
   * `newGame` once the content is loaded: reset, stop the timer, build a new
   * deck and render it with every tile face down. The seconds counter is
   * left as it was; only the next `startTimer` zeroes it.
   */
  function NewGame(g: GameState, ads: AdsData, draws: seq<nat>): (r: GameState)
    requires ValidDraws(draws, DeckSize(ads.items))
    ensures r.deck == BuildDeck(ads.items, draws)
    ensures r.flipped == {} && r.matched == {}
    ensures r.firstPick.None? && r.secondPick.None? && !r.lockBoard
    ensures r.moves == 0 && r.matchedPairs == 0 && r.impressions == 0 && r.clicks == 0
    ensures !r.timerRunning && r.currentCtaUrl.None? && r.seconds == g.seconds
  {
    StopTimer(ResetGameState(g)).(deck := BuildDeck(ads.items, draws), flipped := {}, matched := {})
  }

  /** The events the page delivers to the game, one at a time. */
  datatype Event =
    | CardClicked(cardId: nat, draw: nat)   // draw: the random index onWin would use
    | MismatchDelayElapsed
    | TimerTicked
    | CtaPressed
    | EndAdPressed(draw: nat)                // the "show end ad" button
    | NewGamePressed(draws: seq<nat>)        // the "new game" button; draws: the shuffle's random indices

  predicate ValidEvent(ads: AdsData, e: Event) {
    match e
    case CardClicked(_, draw) => ValidDraw(draw, |ads.items|)
    case EndAdPressed(draw) => ValidDraw(draw, |ads.items|)
    case NewGamePressed(draws) => ValidDraws(draws, DeckSize(ads.items))
    case _ => true
  }

  /**
   * Handling one event. Only the "new game" button replaces the deck, and it
   * starts over with every tile face down and every counter at zero.
   */
  function Step(g: GameState, ads: AdsData, e: Event): (r: GameState)
    requires ValidEvent(ads, e)
    ensures !e.NewGamePressed? ==> r.deck == g.deck
    ensures e.NewGamePressed? ==>
      && r.deck == BuildDeck(ads.items, e.draws) && r.flipped == {} && r.matched == {}
      && r.moves == 0 && r.matchedPairs == 0 && r.impressions == 0 && r.clicks == 0
  {
    match e
    case CardClicked(id, draw) => Click(g, ads, id, draw)
    case MismatchDelayElapsed => ResolveMismatch(g)
    case TimerTicked => Tick(g)
    case CtaPressed => CtaClick(g).0
    case EndAdPressed(draw) => ShowAd(g, ads.contacts, EndAdItem(ads.items, draw))
    case NewGamePressed(draws) => NewGame(g, ads, draws)
  }

  predicate ValidEvents(ads: AdsData, events: seq<Event>) {
    forall i :: 0 <= i < |events| ==> ValidEvent(ads, events[i])
  }

  /** Events of a single game: the "new game" button is not pressed. */
  predicate InGame(events: seq<Event>) {
    forall i :: 0 <= i < |events| ==> !events[i].NewGamePressed?
  }

  /**
   * The state after handling `events` in order. Within one game the deck
   * stays; after a "new game" press the counters start again from zero.
   */
  function Run(g: GameState, ads: AdsData, events: seq<Event>): (r: GameState)
    requires ValidEvents(ads, events)
    ensures InGame(events) ==> r.deck == g.deck
    ensures |events| > 0 && events[|events| - 1].NewGamePressed? ==>
      r.moves == 0 && r.matchedPairs == 0 && r.impressions == 0 && r.clicks == 0 && !r.timerRunning
    decreases |events|
  {
    if |events| == 0 then g
    else
      var next := Step(g, ads, events[0]);
      assert ValidEvents(ads, events[1..]) by {
        forall i | 0 <= i < |events| - 1 ensures ValidEvent(ads, events[1..][i]) {
          assert events[1..][i] == events[i + 1];
        }
      }
      assert InGame(events) ==> InGame(events[1..]) by {
        if InGame(events) {
          forall i | 0 <= i < |events| - 1 ensures !events[1..][i].NewGamePressed? {
            assert events[1..][i] == events[i + 1];
          }
        }
      }
      assert |events| > 1 ==> events[1..][|events[1..]| - 1] == events[|events| - 1];
      Run(next, ads, events[1..])
  }
}
