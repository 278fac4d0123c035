/**
 * `buildDeckFromAds` (app.js): the first (at most) eight ad items each
 * become two cards sharing the item's id as pairing key; the cards are
 * numbered 0, 1, ... in that order and then shuffled.
 */
module Deck {
  import opened Wrappers
  import opened Seqs
  import opened Shuffling

  /** One entry of the sponsor content's `items` list. */
  datatype AdItem = AdItem(
    id: string,
    title: string,
    text: string,
    image: Option<string>,
    ctaLinkKey: Option<string>,
    ctaText: Option<string>)

  /** A card on the board: the pairing key, its own identity and the item it advertises. */
  datatype Card = Card(pairId: string, cardId: nat, adItem: AdItem)

  /** At most this many items become pairs (`items.slice(0, 8)`). */
  const MaxPairs: nat := 8

  function ItemId(item: AdItem): string {
    item.id
  }

  function PairIdOf(card: Card): string {
    card.pairId
  }

  function CardIdOf(card: Card): nat {
    card.cardId
  }

  function PairIds(deck: seq<Card>): seq<string> {
    Map(PairIdOf, deck)
  }

  function CardIds(deck: seq<Card>): seq<nat> {
    Map(CardIdOf, deck)
  }

  /** The items that become pairs: a prefix of the list, at most `MaxPairs` long. */
  function TakenItems(items: seq<AdItem>): (taken: seq<AdItem>)
    ensures |taken| == if |items| < MaxPairs then |items| else MaxPairs
    ensures taken == items[..|taken|]
  {
    if |items| <= MaxPairs then items else items[..MaxPairs]
  }

  /** The deck before shuffling: the taken items twice over, card k numbered k. */
  function OrderedDeck(taken: seq<AdItem>): (deck: seq<Card>)
    ensures |deck| == 2 * |taken|
    ensures CardIds(deck) == Iota(|deck|)
    ensures PairIds(deck) == Map(ItemId, taken) + Map(ItemId, taken)
    ensures forall c :: c in deck ==> c.adItem in taken && c.pairId == c.adItem.id
  {
    var both := taken + taken;
    var deck := seq(|both|, k requires 0 <= k < |both| => Card(both[k].id, k, both[k]));
    assert forall k :: 0 <= k < |both| ==> both[k] in taken;
    deck
  }

  /** The number of cards a deck built from `items` has. */
  function DeckSize(items: seq<AdItem>): nat {
    2 * |TakenItems(items)|
  }

  /**
   * The shuffled deck: twice as many cards as taken items, card ids a
   * permutation of 0 .. size - 1, and each pairing key exactly twice as
   * often as the taken items carry it.
   */
  function BuildDeck(items: seq<AdItem>, draws: seq<nat>): (deck: seq<Card>)
    requires ValidDraws(draws, DeckSize(items))
    ensures |deck| == DeckSize(items) <= 2 * MaxPairs
    ensures multiset(CardIds(deck)) == multiset(Iota(|deck|))
    ensures Distinct(CardIds(deck))
    ensures multiset(PairIds(deck)) == multiset(Map(ItemId, TakenItems(items))) + multiset(Map(ItemId, TakenItems(items)))
    ensures forall c :: c in deck ==> c.adItem in TakenItems(items) && c.pairId == c.adItem.id
  {
    var ordered := OrderedDeck(TakenItems(items));
    var deck := FisherYates(ordered, draws);
    FisherYatesMap(CardIdOf, ordered, draws);
    FisherYatesMap(PairIdOf, ordered, draws);
    FisherYatesDistinct(CardIds(ordered), draws);
    assert forall c :: c in deck ==> c in multiset(ordered);
    deck
  }

  /** With distinct item ids, every taken item's id labels exactly two cards. */
  lemma EachPairIdTwice(items: seq<AdItem>, draws: seq<nat>, item: AdItem)
    requires ValidDraws(draws, DeckSize(items))
    requires Distinct(Map(ItemId, TakenItems(items)))
    requires item in TakenItems(items)
    ensures multiset(PairIds(BuildDeck(items, draws)))[item.id] == 2
  {
    var ids := Map(ItemId, TakenItems(items));
    var k :| 0 <= k < |TakenItems(items)| && TakenItems(items)[k] == item;
    assert ids[k] == item.id;
    DistinctOccursOnce(ids, item.id);
  }
}
