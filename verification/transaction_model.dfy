/** Account transaction entities and the transaction filter. */
module TransactionModel {
  import opened Wrappers

  datatype TransactionType = Debit | Credit
  datatype TransactionCategory = TransferCategory | PaymentCategory | Deposit | Withdrawal | Fee | Interest
  datatype TransactionStatus = Completed | Pending | Failed

  datatype Transaction = Transaction(
    id: string,
    accountId: string,
    transactionType: TransactionType,
    category: TransactionCategory,
    amount: int,
    currency: string,
    description: string,
    date: int,
    status: TransactionStatus,
    balance: int,
    reference: Option<string>,
    merchant: Option<string>,
    location: Option<string>)

  /** The query a transaction fetch was issued with; `transactionType` and
      `category` are free strings in the filter, unlike in `Transaction`. */
  datatype TransactionFilter = TransactionFilter(
    accountId: Option<string>,
    startDate: Option<int>,
    endDate: Option<int>,
    transactionType: Option<string>,
    category: Option<string>,
    minAmount: Option<int>,
    maxAmount: Option<int>)
}
