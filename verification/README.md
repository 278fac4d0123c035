# MOSASA Memory Ad — a Dafny model of the game and ad state machine

The program is a 4×4 memory game that carries sponsored content. Up to eight
sponsor items each become a pair of cards, and the deck is shuffled. The player
turns over two cards per turn. A matched pair shows that item's promotional
message, which counts as one **impression**, and the game is won at the eighth
pair. A final message is then shown. Pressing the call-to-action (CTA) button
counts a **click** and opens the contact destination of the last message shown.

The model keeps the program's state and logic and drops the page around it:

- `Game.GameState` is an immutable record of the program's globals: the deck,
  `firstPick`, `secondPick`, `lockBoard`, `moves`, `matchedPairs`,
  `impressions`, `clicks`, the timer (`timerId` set or not, and `seconds`) and
  `currentCtaUrl`. The `flipped` and `matched` CSS classes of the tiles become
  two sets of card ids.
- Every handler is a pure transition function: `Click`, `CheckMatch`,
  `ResolveMismatch`, `OnWin`, `ShowAd`, `CtaClick`, `ResetGameState`,
  `NewGame`, `StartTimer`, `StopTimer` and `Tick`.
- `Game.Step` and `Game.Run` replay a sequence of page events, handled one at
  a time. The events are card clicks, the mismatch delay, timer ticks, and
  the CTA, "show end ad" and "new game" buttons. `Game.InGame` marks the
  sequences that stay within one game, that is, without "new game".
- The 700 ms mismatch timeout is the event `MismatchDelayElapsed`. The
  one-second interval is the event `TimerTicked`.
- Every `Math.random()` draw is a parameter. `Shuffling.ValidDraws` and
  `Game.ValidDraw` state the ranges the draws can take.
- `GameInvariants.Inv` is the invariant that holds in every state reachable
  from `NewGame`:
  - the face-up cards that are not matched are exactly the held picks;
  - a second pick exists only while a mismatch waits, and the board is locked
    exactly then;
  - each counted pair has two matched cards;
  - the timer is stopped once the game is won;
  - a CTA destination, when set, is never empty.

Modules: `Wrappers` (Option), `Seqs` (sequence helpers), `Shuffling`,
`TimeFormat`, `Contacts` (contact resolution), `Deck`, `Game`,
`GameInvariants`, and `Scenarios` (a two-item game played through).

### Program behaviour worth knowing

- A list of fewer than eight items gives a smaller deck and raises no error.
  The win check compares `matchedPairs` with the literal 8, so such a game can
  never be won (`GameInvariants.NoWinWithFewItems`).
- A click on an id that is not in the deck is ignored.
- `newGame` does not reset `seconds`. Only `startTimer`, on the next accepted
  click, sets it back to zero.
- Matched cards keep the `flipped` class.
- A phone value made only of whitespace is not empty. It therefore resolves to
  the bare `tel:` (`Contacts.BlankPhoneGivesBareScheme`).
- Item ids are not checked for uniqueness. `Deck.BuildDeck` counts each pairing
  key twice per taken item that carries it. "Exactly two cards per key" is
  proved under distinct ids (`Deck.EachPairIdTwice`).

## Model

| member | source | states |
|---|---|---|
| TimeFormat.DecimalString | app.js:49-50 | `String(n)` of a non-negative integer is at least one decimal digit, at most two below 100, with no leading zero (it starts with '0' exactly for 0) |
| TimeFormat.PadStart2 | app.js:49-50 | `padStart(2, "0")` makes a string at least two long and keeps it all digits |
| TimeFormat.PadStart2Shape | app.js:49-50 | padding puts at most two characters, all of them '0', in front of the string, which stays intact as the suffix |
| TimeFormat.FormatTime | app.js:48-52 | the display is at least five characters: digits, then a colon third from the end, then two digits; a display longer than five has no leading zero |
| TimeFormat.ParseDecimalString | app.js:49-50 | reading back the decimal digits of n gives n |
| TimeFormat.ParsePadStart2 | app.js:49-50 | zero-padding does not change the value read back |
| TimeFormat.FormatTimeRoundTrip | app.js:48-52 | every "mm:ss" display reads back as the number of seconds it came from, and its seconds field is below 60 |
| Shuffling.Swap | app.js:73 | the destructuring swap exchanges positions i and j, leaves every other position alone and keeps the multiset |
| Shuffling.ShuffleSteps | app.js:71-74 | any prefix of the Fisher–Yates steps keeps the length and the multiset of the elements |
| Shuffling.FisherYates | app.js:69-76 | the shuffle returns a permutation of its input for every choice of draws j ≤ i; empty and one-element inputs come back unchanged |
| Shuffling.Shuffle | app.js:69-76 | the downward loop computes exactly the Fisher–Yates pass, so its result is a permutation of the input |
| Shuffling.FisherYatesMap | app.js:69-76 | the shuffle only moves elements: projecting each element before or after shuffling gives the same sequence |
| Shuffling.FisherYatesDistinct | app.js:69-76 | a sequence without repeats stays without repeats |
| Shuffling.ShuffleStepsStay | app.js:71-74 | draws that always pick the current position leave the sequence as it was |
| Contacts.StripWhitespace | app.js:86 | `replace(/\s+/g, "")` is no longer than its input and contains no ECMAScript whitespace |
| Contacts.StripCounts | app.js:86 | stripping removes every whitespace character and keeps each other character as often as it occurred |
| Contacts.StripConcat | app.js:86 | stripping works piece by piece, so the kept characters stay in their original order |
| Contacts.StripFixpoint | app.js:86 | a string is unchanged by stripping exactly when it has no whitespace |
| Contacts.StripIdempotent | app.js:86 | stripping twice is the same as stripping once |
| Contacts.ResolveContactUrl | app.js:79-90 | no destination when the directory is missing or the value is absent or empty; for `phone`, `tel:` followed by the value without whitespace; for any other key, the raw value; never the empty string |
| Contacts.PhoneSpacingIrrelevant | app.js:85-88 | two non-empty phone values that differ only in whitespace resolve to the same destination |
| Contacts.BlankPhoneGivesBareScheme | app.js:82-88 | a phone value of one space passes the emptiness test and resolves to the bare `tel:` |
| Contacts.PhoneGroupsJoined | app.js:85-88 | a number written as digit groups separated by spaces, such as "061 234 567", dials the digits joined together |
| Deck.TakenItems | app.js:125 | `slice(0, 8)` is the prefix of the items, min(8, length) long |
| Deck.OrderedDeck | app.js:128-135 | before shuffling, the deck is the taken items twice over; card k carries id k and its item's id as pairing key |
| Deck.BuildDeck | app.js:123-136 | the deck has 2·min(8, n) cards; the card ids are a permutation of 0..2N−1; each pairing key occurs twice as often as the taken items carry it; each card's key is its own item's id |
| Deck.EachPairIdTwice | app.js:123-136 | when item ids are distinct, every taken item's id labels exactly two cards |
| Game.StartTimer | app.js:54-62 | the timer runs and the elapsed seconds restart from zero; nothing else changes |
| Game.StopTimer | app.js:64-67 | the timer is stopped; the elapsed seconds and everything else stay |
| Game.FindCard | app.js:191 | `deck.find` finds a card exactly when some card has that id, and the card it returns is from the deck and has that id |
| Game.ShowAd | app.js:92-112 | a present item adds exactly one impression and overwrites the CTA destination with the resolved contact; nothing else changes; an absent item changes nothing |
| Game.Tick | app.js:58-61 | while the timer runs, a tick adds one second and changes nothing else; a stopped timer ignores ticks |
| Game.ResetPicks | app.js:252-256 | both picks are cleared and the board unlocked; nothing else changes |
| Game.EndAdItem | app.js:263 | the final item exists exactly when the item list is non-empty, and it comes from the full list |
| Game.OnWin | app.js:258-265 | the timer stops and exactly one impression is added (none for an empty list); the CTA destination becomes the drawn final item's contact (kept for an empty list); board, picks, seconds and the other counters stay |
| Game.CheckMatch | app.js:215-250 | equal keys mark both cards matched and add one pair and one impression (a second one at the eighth pair); the CTA destination is the first pick's item's contact, or the final item's when the pair wins; picks are cleared, the board is unlocked and the win stops the timer; different keys only lock the board |
| Game.Click | app.js:188-213 | a click while locked, on an unknown id, or on a matched or flipped card changes nothing; moves rise by one exactly on an accepted second pick; an accepted click zeroes the seconds only when the timer was stopped, and keeps them when it runs; the first pick only flips the card and starts the timer; a mismatch locks the board with the timer running; a match sets the CTA destination as in checkMatch |
| Game.ResolveMismatch | app.js:244-256 | the delayed step turns exactly the two picked cards face down, clears the picks and unlocks; the counters stay; without a pair of picks it changes nothing |
| Game.CtaClick | app.js:294-302 | with no destination nothing happens; otherwise exactly one click is counted and the destination is handed out to be opened |
| Game.ResetGameState | app.js:165-186 | picks, lock, all four counters and the CTA destination are cleared together; the board and the timer are untouched |
| Game.NewGame | app.js:274-285 | a new game holds a freshly built deck with every card face down, a stopped timer, zero counters and no picks or destination |
| Game.Step | app.js:287-302 | only the "new game" button replaces the deck, and it leaves every tile face down and every counter at zero; every other event keeps the deck |
| Game.Run | app.js:287-302 | within one game the deck stays; a sequence that ends with "new game" ends with zero counters and a stopped timer |
| GameInvariants.NewGameInv | app.js:274-285 | every new game satisfies the invariant |
| GameInvariants.ClickInv | app.js:188-250 | a card click keeps the invariant |
| GameInvariants.ResolveMismatchInv | app.js:244-256 | the mismatch delay keeps the invariant |
| GameInvariants.StepInv | app.js:188-302 | every page event keeps the invariant |
| GameInvariants.RunInv | app.js:188-302 | every state reached by handling events one at a time keeps the invariant |
| GameInvariants.MatchedPairsBound | app.js:229 | counted pairs never exceed half the deck |
| GameInvariants.NoWinWithFewItems | app.js:240 | with fewer than 16 cards the literal-8 win check can never fire |
| GameInvariants.WonBoardAllMatched | app.js:240 | once eight pairs are counted, every card of the deck is matched |
| GameInvariants.FirstPickNotAcceptedAgain | app.js:196 | clicking the held first pick again is rejected and changes nothing |
| GameInvariants.SecondPickDiffers | app.js:196-208 | an accepted click while a first pick is held is on a different card, and no second pick is held at that moment |
| GameInvariants.StepGrows | app.js:165-186 | within a game no event decreases moves, pairs, impressions or clicks; "new game" sets all four back to zero |
| GameInvariants.RunGrows | app.js:188-302 | over the events of one game the four counters never decrease |
| GameInvariants.StepMoves | app.js:203-209 | within a game an event adds one move exactly when it is an accepted second pick, and none otherwise |
| GameInvariants.MovesCountTurns | app.js:203-209 | over the events of one game, moves grow by exactly the number of accepted second picks |
| GameInvariants.WinOnce | app.js:240 | within one game the win fires at most once, and not at all once eight pairs are already counted |
| GameInvariants.WonIsFinal | app.js:258-259 | after the win no event except "new game" changes the board, the move or pair counts, or the stopped timer and its seconds |
| GameInvariants.LockedBoardIgnoresClicks | app.js:189 | a locked board ignores every card click |
| Scenarios.InOrderDeck | app.js:123-136 | with draws that keep the order, two items A and B give the deck A, B, A, B numbered 0 to 3 |
| Scenarios.MatchScenario | app.js:188-241 | picking both A cards of a fresh game gives one move, one pair, one impression and the CTA destination of A |
| Scenarios.MismatchScenario | app.js:188-256 | picking an A card and then a B card gives one move, no pair and no impression; the delay turns both back face down |
| Scenarios.CtaBeforeAnyAd | app.js:294-295 | pressing the CTA before any ad is shown counts no click |

## Left out

- Rendering is presentation only and is not modelled: `renderBoard`, `getCardEl`, `toast`, the `innerHTML` templates, button labels and enabled states, `ctaInfo` texts, and the title and image copied onto each card.
- `loadAds` and the fetch in `newGame` are network I/O. The loaded content is an input value (`Game.AdsData`), and the failure path is not modelled: `loadAds` throws when the response is not ok (app.js:270), and `newGame` then does not run.
- Real time is not modelled. `setInterval` and `setTimeout` become the events `TimerTicked` and `MismatchDelayElapsed`.
- `Math.random` is an oracle. The shuffle's swap indices and the end-ad index are parameters. Their preconditions state the range `floor(random * n)` takes for a draw in [0, 1).
- `window.open` is a foreign side effect. `Game.CtaClick` returns the destination it would open.
- The "show end ad" button (app.js:289-292) is the event `EndAdPressed`, which calls `ShowAd` with a drawn item. The button's disabled state is not modelled, so the model also allows presses the page would not deliver.
- Game.ResolveMismatch: when a stale timeout fires after a new game has already taken a first pick, the source turns that card face down and then throws on the missing second pick. The model treats any timeout without two picks as a no-op. This race comes from the asynchronous scheduler.
- Contacts.ResolveContactUrl: only string contact values are modelled. Non-string JSON values and property names inherited from `Object.prototype` are not covered. A missing `ctaLinkKey` is looked up under the name "undefined", as JavaScript's property-key conversion does (`Game.LinkKey`).
- TimeFormat.FormatTime: only non-negative whole seconds are modelled. JavaScript's exponent notation for numbers of 10^21 and above is not.
- Deck.AdItem: item ids are strings. The source pairs cards by JavaScript `===` on `item.id` (app.js:129, 220), so items without an id, or with ids of different types such as `1` and `"1"`, would pair differently; those cases are not covered.
- Counters are unbounded integers. JavaScript numbers count exactly up to 2^53, far beyond any game.
