/** The card store: held cards, the selected card, the transactions of one
    card, and the loading/error pair, with its getters and actions. */
module CardStore {
  import opened Wrappers
  import opened SeqOps
  import opened Fetching
  import opened CardModel

  datatype CardState = CardState(
    cards: seq<Card>,
    currentCard: Option<Card>,
    cardTransactions: seq<CardTransaction>,
    loading: bool,
    error: Option<string>)

  const Initial := CardState([], None, [], false, None)

  const FetchCardsFailed := "Failed to fetch cards"
  const FetchCardTransactionsFailed := "Failed to fetch card transactions"

  function CardId(c: Card): string { c.id }

  predicate IsActiveCard(c: Card) { c.status == Active }
  predicate IsBlockedCard(c: Card) { c.status == Blocked }
  predicate IsCreditCard(c: Card) { c.cardType == Credit }
  predicate IsDebitCard(c: Card) { c.cardType == Debit }

  function CreditLimitOrZero(c: Card): int { c.creditLimit.GetOr(0) }
  function AvailableCreditOrZero(c: Card): int { c.availableCredit.GetOr(0) }

  /** What a card adds to `totalCreditLimit`: its limit (0 when missing) if
      it is a credit card, nothing otherwise. */
  function CreditLimitShare(c: Card): int {
    if c.cardType == Credit then c.creditLimit.GetOr(0) else 0
  }

  /** What a card adds to `totalAvailableCredit`. */
  function AvailableCreditShare(c: Card): int {
    if c.cardType == Credit then c.availableCredit.GetOr(0) else 0
  }

  /* Getters */

  function ActiveCards(s: CardState): (r: seq<Card>)
    ensures Filtered(s.cards, r, IsActiveCard)
  {
    FilterFiltered(s.cards, IsActiveCard);
    Filter(s.cards, IsActiveCard)
  }

  function BlockedCards(s: CardState): (r: seq<Card>)
    ensures Filtered(s.cards, r, IsBlockedCard)
  {
    FilterFiltered(s.cards, IsBlockedCard);
    Filter(s.cards, IsBlockedCard)
  }

  function CreditCards(s: CardState): (r: seq<Card>)
    ensures Filtered(s.cards, r, IsCreditCard)
  {
    FilterFiltered(s.cards, IsCreditCard);
    Filter(s.cards, IsCreditCard)
  }

  function DebitCards(s: CardState): (r: seq<Card>)
    ensures Filtered(s.cards, r, IsDebitCard)
  {
    FilterFiltered(s.cards, IsDebitCard);
    Filter(s.cards, IsDebitCard)
  }

  /** Sum of the credit cards' limits, a missing limit counting as 0. */
  function TotalCreditLimit(s: CardState): (r: int)
    ensures r == Sum(s.cards, CreditLimitShare)
  {
    SumFilterMasked(s.cards, IsCreditCard, CreditLimitOrZero, CreditLimitShare);
    Reduce(Filter(s.cards, IsCreditCard), CreditLimitOrZero, 0)
  }

  /** Sum of the credit cards' available credit, a missing value counting as 0. */
  function TotalAvailableCredit(s: CardState): (r: int)
    ensures r == Sum(s.cards, AvailableCreditShare)
  {
    SumFilterMasked(s.cards, IsCreditCard, AvailableCreditOrZero, AvailableCreditShare);
    Reduce(Filter(s.cards, IsCreditCard), AvailableCreditOrZero, 0)
  }

  /* Actions */

  function FetchCards(s: CardState, o: Outcome<seq<Card>>): (s': CardState)
    ensures !s'.loading
    ensures o.Ok? ==> s'.cards == o.value && s'.error == None
    ensures o.Err? ==> s'.cards == s.cards && s'.error == Some("Failed to fetch cards")
    ensures s'.currentCard == s.currentCard && s'.cardTransactions == s.cardTransactions
  {
    var f := Guarded(s.cards, o, FetchCardsFailed);
    s.(cards := f.value, loading := f.loading, error := f.error)
  }

  /** `fetchCardTransactions(cardId)`; the card id only goes to the service. */
  function FetchCardTransactions(s: CardState, o: Outcome<seq<CardTransaction>>): (s': CardState)
    ensures !s'.loading
    ensures o.Ok? ==> s'.cardTransactions == o.value && s'.error == None
    ensures o.Err? ==> s'.cardTransactions == s.cardTransactions && s'.error == Some("Failed to fetch card transactions")
    ensures s'.cards == s.cards && s'.currentCard == s.currentCard
  {
    var f := Guarded(s.cardTransactions, o, FetchCardTransactionsFailed);
    s.(cardTransactions := f.value, loading := f.loading, error := f.error)
  }

  /** How every card status action settles: on success the service's card
      replaces the first held card with the requested id, in place, and is
      returned even when no held card matched; on failure the rejection is
      re-thrown and nothing changes. `loading`, `error`, the transactions and
      the selected card are never touched. */
  ghost predicate StatusChangeSettled(s: CardState, id: string, o: Outcome<Card>, r: Step<CardState, Card>) {
    && (o.Err? ==> r == Step(s, Rethrown))
    && (o.Ok? ==> && r.reply == Returned(o.value)
                  && ReplacedFirst(s.cards, r.state.cards, CardId, id, o.value)
                  && r.state == s.(cards := r.state.cards))
  }

  function ReplaceCard(s: CardState, id: string, o: Outcome<Card>): Step<CardState, Card> {
    match o
    case Ok(c) => Step(s.(cards := ReplaceFirstById(s.cards, CardId, id, c)), Returned(c))
    case Err => Step(s, Rethrown)
  }

  /** `blockCard(id, reason)`; the reason only goes to the service. */
  function BlockCard(s: CardState, id: string, o: Outcome<Card>): (r: Step<CardState, Card>)
    ensures StatusChangeSettled(s, id, o, r)
  {
    ReplaceCard(s, id, o)
  }

  function UnblockCard(s: CardState, id: string, o: Outcome<Card>): (r: Step<CardState, Card>)
    ensures StatusChangeSettled(s, id, o, r)
  {
    ReplaceCard(s, id, o)
  }

  function ReportLost(s: CardState, id: string, o: Outcome<Card>): (r: Step<CardState, Card>)
    ensures StatusChangeSettled(s, id, o, r)
  {
    ReplaceCard(s, id, o)
  }

  function ReportStolen(s: CardState, id: string, o: Outcome<Card>): (r: Step<CardState, Card>)
    ensures StatusChangeSettled(s, id, o, r)
  {
    ReplaceCard(s, id, o)
  }

  function SetCurrentCard(s: CardState, card: Option<Card>): (s': CardState)
    ensures s'.currentCard == card
    ensures s'.cards == s.cards && s'.cardTransactions == s.cardTransactions
    ensures s'.loading == s.loading && s'.error == s.error
  {
    s.(currentCard := card)
  }

  /* Properties */

  /** No card is both active and blocked. */
  lemma ActiveAndBlockedDisjoint(s: CardState)
    ensures forall c | c in ActiveCards(s) :: c !in BlockedCards(s)
  {
  }

  /** Blocking a held card whose server answer says `blocked`: that card now
      shows as blocked at its old position, the list keeps its length, and
      every other position is untouched. */
  lemma BlockHeldCard(s: CardState, i: int, answer: Card)
    requires 0 <= i < |s.cards|
    requires forall j | 0 <= j < i :: s.cards[j].id != s.cards[i].id
    requires answer.id == s.cards[i].id && answer.status == Blocked
    ensures var r := BlockCard(s, s.cards[i].id, Ok(answer));
      && r.reply == Returned(answer)
      && |r.state.cards| == |s.cards|
      && r.state.cards[i] == answer
      && (forall j | 0 <= j < |s.cards| && j != i :: r.state.cards[j] == s.cards[j])
      && answer in BlockedCards(r.state)
  {
    var r := BlockCard(s, s.cards[i].id, Ok(answer));
    assert IsFirstMatch(s.cards, CardId, s.cards[i].id, i);
    assert r.state.cards[i] == answer;
  }

  /** The status actions overwrite the list slot and never write
      `currentCard`, so it keeps the card it was set to. */
  lemma CurrentCardIsSnapshot(s: CardState, c: Card, o: Outcome<Card>)
    ensures BlockCard(SetCurrentCard(s, Some(c)), c.id, o).state.currentCard == Some(c)
  {
  }

  /** Debit and prepaid cards never change the credit totals: adding one to
      the list leaves both totals as they were. */
  lemma NonCreditCardsAddNothing(s: CardState, c: Card)
    requires c.cardType != Credit
    ensures TotalCreditLimit(s.(cards := s.cards + [c])) == TotalCreditLimit(s)
    ensures TotalAvailableCredit(s.(cards := s.cards + [c])) == TotalAvailableCredit(s)
  {
    SumAppend(s.cards, [c], CreditLimitShare);
    SumAppend(s.cards, [c], AvailableCreditShare);
  }

  /** Fetching the cards twice against an unchanged backend leaves the store
      exactly as fetching once. */
  lemma FetchCardsIdempotent(s: CardState, o: Outcome<seq<Card>>)
    ensures FetchCards(FetchCards(s, o), o) == FetchCards(s, o)
  {
    GuardedIdempotent(s.cards, o, FetchCardsFailed);
  }

  /** A fresh store is idle, holds no error and no selection, and every
      view of it is empty and every total 0. */
  lemma FreshStoreIsEmpty()
    ensures !Initial.loading && Initial.error.None? && Initial.currentCard.None? && Initial.cardTransactions == []
    ensures ActiveCards(Initial) == [] && BlockedCards(Initial) == [] && CreditCards(Initial) == [] && DebitCards(Initial) == []
    ensures TotalCreditLimit(Initial) == 0 && TotalAvailableCredit(Initial) == 0
  {
  }
}
