/**
 * The saved-cards list of the billing page: the sample cards it starts
 * with and `setDefaultCard`, which marks one card as the default.
 */
module PaymentMethods {

  datatype Card = Card(id: int, cardType: string, last4: string, expiry: string, isDefault: bool, holderName: string)

  /** `mockCards`, the list the page starts with. */
  const MockCards := [
    Card(1, "visa", "4242", "08/25", true, "John Doe"),
    Card(2, "mastercard", "5555", "11/24", false, "John Doe")
  ]

  predicate IdsDistinct(cards: seq<Card>)
  {
    forall i, j :: 0 <= i < j < |cards| ==> cards[i].id != cards[j].id
  }

  /** `setDefaultCard(cardId)`: every card is rewritten with `isDefault` set to whether its id is `cardId`. */
  function WithDefault(cards: seq<Card>, cardId: int): (r: seq<Card>)
    ensures |r| == |cards|
    ensures forall i :: 0 <= i < |cards| ==> r[i] == cards[i].(isDefault := cards[i].id == cardId)
  {
    seq(|cards|, i requires 0 <= i < |cards| => cards[i].(isDefault := cards[i].id == cardId))
  }

  /** With distinct ids, after choosing an existing card exactly that card is the default. */
  lemma ExactlyChosenCardIsDefault(cards: seq<Card>, k: nat)
    requires IdsDistinct(cards) && k < |cards|
    ensures forall i :: 0 <= i < |cards| ==> (WithDefault(cards, cards[k].id)[i].isDefault <==> i == k)
  {
    forall i | 0 <= i < |cards| ensures WithDefault(cards, cards[k].id)[i].isDefault <==> i == k {
      if i < k {
        assert cards[i].id != cards[k].id;
      } else if k < i {
        assert cards[k].id != cards[i].id;
      }
    }
  }

  /** Choosing an id no card has leaves no card marked as the default. */
  lemma AbsentIdLeavesNoDefault(cards: seq<Card>, cardId: int)
    requires forall i :: 0 <= i < |cards| ==> cards[i].id != cardId
    ensures forall i :: 0 <= i < |cards| ==> !WithDefault(cards, cardId)[i].isDefault
  {
  }

  /** Only the default flag changes: every other field, the order and the length stay as they were. */
  lemma OnlyDefaultFlagChanges(cards: seq<Card>, cardId: int)
    ensures |WithDefault(cards, cardId)| == |cards|
    ensures forall i :: 0 <= i < |cards| ==> WithDefault(cards, cardId)[i].(isDefault := cards[i].isDefault) == cards[i]
  {
  }

  /** Choosing the same card twice is choosing it once. */
  lemma WithDefaultIdempotent(cards: seq<Card>, cardId: int)
    ensures WithDefault(WithDefault(cards, cardId), cardId) == WithDefault(cards, cardId)
  {
  }

  /** The sample list has distinct ids and exactly one default card, the first. */
  lemma MockCardsHaveOneDefault()
    ensures IdsDistinct(MockCards)
    ensures forall i :: 0 <= i < |MockCards| ==> (MockCards[i].isDefault <==> i == 0)
  {
  }

  /** The "Set as default" button is rendered for a card exactly when it is not the default. */
  predicate OffersSetDefault(card: Card)
  {
    !card.isDefault
  }

  /**
   * Clicking "Set as default" on a card that offers it moves the default
   * to that card: it was not the default before and is the only one after.
   */
  lemma SetDefaultButtonMovesDefault(cards: seq<Card>, k: nat)
    requires IdsDistinct(cards) && k < |cards| && OffersSetDefault(cards[k])
    ensures !cards[k].isDefault
    ensures WithDefault(cards, cards[k].id)[k].isDefault
    ensures forall i :: 0 <= i < |cards| && i != k ==> !WithDefault(cards, cards[k].id)[i].isDefault
  {
    ExactlyChosenCardIsDefault(cards, k);
  }
}
