/**
 * A two-item game played through by hand. With swap draws 0, 1, 2, 3 the
 * numbered deck stays in order: the cards of the first item sit at
 * positions 0 and 2, those of the second at 1 and 3.
 */
module Scenarios {
  import opened Wrappers
  import opened Seqs
  import opened Shuffling
  import opened Contacts
  import opened Deck
  import opened Game

  const InOrder: seq<nat> := [0, 1, 2, 3]

  function FourCards(a: AdItem, b: AdItem): seq<Card> {
    [Card(a.id, 0, a), Card(b.id, 1, b), Card(a.id, 2, a), Card(b.id, 3, b)]
  }

  function Blank(): GameState {
    GameState([], {}, {}, None, None, false, 0, 0, 0, 0, false, 0, None)
  }

  lemma InOrderDeck(a: AdItem, b: AdItem)
    ensures BuildDeck([a, b], InOrder) == FourCards(a, b)
  {
    var ordered := OrderedDeck([a, b]);
    assert ordered == FourCards(a, b);
    ShuffleStepsStay(ordered, InOrder, 4);
  }

  /** A fresh game over the two items. */
  function Started(ads: AdsData): GameState
    requires |ads.items| == 2
  {
    NewGame(Blank(), ads, InOrder)
  }

  lemma StartedBoard(ads: AdsData)
    requires |ads.items| == 2
    ensures Started(ads) == Blank().(deck := FourCards(ads.items[0], ads.items[1]))
  {
    assert ads.items == [ads.items[0], ads.items[1]];
    InOrderDeck(ads.items[0], ads.items[1]);
  }

  lemma FindInFour(a: AdItem, b: AdItem, k: nat)
    requires k < 4
    ensures FindCard(FourCards(a, b), k) == Some(FourCards(a, b)[k])
  {
    var d := FourCards(a, b);
    assert d[1..] == [d[1], d[2], d[3]];
    assert d[1..][1..] == [d[2], d[3]];
    assert d[1..][1..][1..] == [d[3]];
  }

  /** The state after clicking card 0 of a fresh game. */
  function AfterFirstPick(a: AdItem, b: AdItem): GameState {
    Blank().(deck := FourCards(a, b), flipped := {0}, firstPick := Some(Card(a.id, 0, a)), timerRunning := true)
  }

  lemma FirstPickScenario(ads: AdsData)
    requires |ads.items| == 2
    ensures Click(Started(ads), ads, 0, 0) == AfterFirstPick(ads.items[0], ads.items[1])
  {
    StartedBoard(ads);
    FindInFour(ads.items[0], ads.items[1], 0);
  }

  lemma SecondPickA(ads: AdsData)
    requires |ads.items| == 2
    ensures var g := Click(AfterFirstPick(ads.items[0], ads.items[1]), ads, 2, 0);
      && g.moves == 1 && g.matchedPairs == 1 && g.impressions == 1
      && g.matched == {0, 2}
      && g.currentCtaUrl == ResolveContactUrl(ads.contacts, LinkKey(ads.items[0]))
      && !g.lockBoard
  {
    FindInFour(ads.items[0], ads.items[1], 2);
    assert Accepts(AfterFirstPick(ads.items[0], ads.items[1]), 2);
  }

  /**
   * Picking both cards of the first item: one move, one pair, one
   * impression, and the CTA pointing at that item's contact.
   */
  lemma MatchScenario(ads: AdsData)
    requires |ads.items| == 2
    ensures var g := Click(Click(Started(ads), ads, 0, 0), ads, 2, 0);
      && g.moves == 1 && g.matchedPairs == 1 && g.impressions == 1
      && g.matched == {0, 2}
      && g.currentCtaUrl == ResolveContactUrl(ads.contacts, LinkKey(ads.items[0]))
      && !g.lockBoard
  {
    FirstPickScenario(ads);
    SecondPickA(ads);
  }

  lemma SecondPickB(ads: AdsData)
    requires |ads.items| == 2 && ads.items[0].id != ads.items[1].id
    ensures var g := Click(AfterFirstPick(ads.items[0], ads.items[1]), ads, 1, 0);
      && g.moves == 1 && g.matchedPairs == 0 && g.impressions == 0 && g.lockBoard
      && g.flipped == {0, 1}
      && var h := ResolveMismatch(g);
      && h.flipped == {} && !h.lockBoard && h.impressions == 0 && h.moves == 1
  {
    FindInFour(ads.items[0], ads.items[1], 1);
    assert Accepts(AfterFirstPick(ads.items[0], ads.items[1]), 1);
  }

  /**
   * Picking one card of each item: one move, no pair and no impression;
   * the delay turns both cards back and unlocks the board.
   */
  lemma MismatchScenario(ads: AdsData)
    requires |ads.items| == 2 && ads.items[0].id != ads.items[1].id
    ensures var g := Click(Click(Started(ads), ads, 0, 0), ads, 1, 0);
      && g.moves == 1 && g.matchedPairs == 0 && g.impressions == 0 && g.lockBoard
      && g.flipped == {0, 1}
      && var h := ResolveMismatch(g);
      && h.flipped == {} && !h.lockBoard && h.impressions == 0 && h.moves == 1
  {
    FirstPickScenario(ads);
    SecondPickB(ads);
  }

  /** Pressing the CTA before any ad was shown counts nothing. */
  lemma CtaBeforeAnyAd(ads: AdsData)
    requires |ads.items| == 2
    ensures CtaClick(Started(ads)).0.clicks == 0 && CtaClick(Started(ads)).1.None?
  {
  }
}
