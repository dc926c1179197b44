/** Account entities (`Account`, `AccountSummary`). Amounts are integer minor
    units and dates integer timestamps. */
module AccountModel {
  import opened Wrappers

  datatype AccountType = Checking | Savings | Business | Investment
  datatype AccountStatus = Active | Inactive | Frozen

  datatype Account = Account(
    id: string,
    accountNumber: string,
    accountType: AccountType,
    accountName: string,
    balance: int,
    currency: string,
    status: AccountStatus,
    openedDate: int,
    lastTransaction: Option<int>,
    interestRate: Option<int>,
    overdraftLimit: Option<int>)

  datatype AccountSummary = AccountSummary(
    totalAccounts: int,
    totalBalance: int,
    activeAccounts: int,
    inactiveAccounts: int)
}
