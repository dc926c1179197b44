/** Transfer entities and the reply of transfer validation. */
module TransferModel {
  import opened Wrappers

  datatype TransferStatus = Pending | Processing | Completed | Failed | Cancelled
  datatype TransferType = Internal | External | International
  datatype TransferFrequency = Daily | Weekly | Monthly | Yearly

  datatype Transfer = Transfer(
    id: string,
    fromAccountId: string,
    toAccountId: string,
    fromAccountNumber: string,
    toAccountNumber: string,
    amount: int,
    currency: string,
    description: string,
    date: int,
    status: TransferStatus,
    transferType: TransferType,
    fee: Option<int>,
    exchangeRate: Option<int>,
    scheduledDate: Option<int>,
    recurring: Option<bool>,
    frequency: Option<TransferFrequency>)

  /** `{ valid: boolean; message?: string }` as returned by validation. */
  datatype Validation = Validation(valid: bool, message: Option<string>)
}
