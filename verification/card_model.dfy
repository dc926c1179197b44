/** Card and card transaction entities. */
module CardModel {
  import opened Wrappers

  datatype CardType = Debit | Credit | Prepaid
  datatype CardStatus = Active | Blocked | Expired | Lost | Stolen
  datatype CardBrand = Visa | Mastercard | Amex | Discover

  datatype Card = Card(
    id: string,
    cardNumber: string,
    cardType: CardType,
    cardName: string,
    accountId: string,
    holderName: string,
    expiryDate: int,
    cvv: Option<string>,
    status: CardStatus,
    issuedDate: int,
    creditLimit: Option<int>,
    availableCredit: Option<int>,
    outstandingBalance: Option<int>,
    minimumPayment: Option<int>,
    dueDate: Option<int>,
    rewardsPoints: Option<int>,
    cardBrand: CardBrand)

  datatype CardTransactionStatus = Posted | PendingPost | Declined

  datatype CardTransaction = CardTransaction(
    id: string,
    cardId: string,
    merchant: string,
    amount: int,
    currency: string,
    date: int,
    category: string,
    status: CardTransactionStatus,
    location: Option<string>,
    description: Option<string>)
}
