/** The `cards` table (backend/src/models/Card.js): one single-use secret of one good each. */
module CardModel {
  import opened Wrappers
  import Query

  /** There are exactly three states; nothing like "reserved" exists. */
  datatype CardStatus = Unused | Used | Expired

  function CardStatusName(s: CardStatus): string {
    match s
    case Unused => "unused"
    case Used => "used"
    case Expired => "expired"
  }

  function ParseCardStatus(s: string): (r: Option<CardStatus>)
    ensures r.Some? ==> CardStatusName(r.value) == s
  {
    if s == "unused" then Some(Unused)
    else if s == "used" then Some(Used)
    else if s == "expired" then Some(Expired)
    else None
  }

  lemma CardStatusRoundTrip(s: CardStatus)
    ensures ParseCardStatus(CardStatusName(s)) == Some(s)
  {
  }

  /** `goodId` is a plain number, never null: every card belongs to exactly one good. */
  datatype Card = Card(
    id: nat,
    goodId: nat,
    cardInfo: string,        // the secret, never null
    status: CardStatus,
    usedAt: Option<nat>,
    orderId: Option<nat>,
    createdAt: nat)

  /** A card as imported: unused, sold to nobody, never used. */
  function NewCard(id: nat, goodId: nat, cardInfo: string, createdAt: nat): (c: Card)
    ensures c.status == Unused && c.orderId.None? && c.usedAt.None?
    ensures c.goodId == goodId && c.cardInfo == cardInfo
  {
    Card(id, goodId, cardInfo, Unused, None, None, createdAt)
  }

  predicate IsAvailableFor(goodId: nat, c: Card) {
    c.goodId == goodId && c.status == Unused
  }

  /** `Card.count({ where: { good_id, status: 'unused' } })`. */
  function UnusedCount(cards: seq<Card>, goodId: nat): (n: nat)
    ensures n <= |cards|
  {
    Query.Count(cards, c => IsAvailableFor(goodId, c))
  }

  /** The count is exact: it rises by one for each unused card of the good and for nothing else. */
  lemma {:induction false} UnusedCountSnoc(cards: seq<Card>, c: Card, goodId: nat)
    ensures UnusedCount(cards + [c], goodId) == UnusedCount(cards, goodId) + (if IsAvailableFor(goodId, c) then 1 else 0)
  {
    Query.CountAppend(cards, [c], c => IsAvailableFor(goodId, c));
    assert Query.Filter([c], c' => IsAvailableFor(goodId, c')) == if IsAvailableFor(goodId, c) then [c] else [];
  }

  /** Cards of other goods, and cards that are used or expired, never count. */
  lemma {:induction false} UnusedCountZero(cards: seq<Card>, goodId: nat)
    requires forall i :: 0 <= i < |cards| ==> !IsAvailableFor(goodId, cards[i])
    ensures UnusedCount(cards, goodId) == 0
  {
    if cards != [] {
      UnusedCountZero(cards[1..], goodId);
    }
  }
}
