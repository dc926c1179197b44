# Banking client stores, modelled in Dafny

This project models the client-side store layer of a Vue/Pinia banking
front end. Nine stores (accounts, beneficiaries, bill payments, budgets,
cards, investments, loans, transactions and transfers) each hold a record
made of:

- a `loading` flag;
- an `error` message;
- one or more entity lists;
- an optional "current" entity.

Each store also has getters, which are filters and sums over its lists, and
actions, which call a REST service and then edit the lists.

Every action is a pure function from the store state and the service's
answer to the new state. The service's answer is an abstract
`Outcome<T> = Ok(value) | Err`. Actions that can re-throw also return a
`Reply<T> = Returned(value) | Rethrown`, wrapped in a `Step(state, reply)`.
Fetch actions always resolve, so they return only the new state.

Actions with a nested re-fetch take two outcomes, one per awaited call:
`makePayment` re-fetches the loans, and `buyInvestment`/`sellInvestment`
re-fetch the portfolio. Arguments that only go to the service are not
parameters of the model: a block reason, a request payload, a search query,
the account, card, loan or investment id of a fetch. The ids that `findIndex` and `filter` compare
against are parameters.

Layout:

- `wrappers.dfy` (`Wrappers`): `Option`, `Outcome`, `Reply`, `Step`.
- `seq_ops.dfy` (`SeqOps`): the list edits all stores share. These are
  find-first-by-id, replace-first-by-id, remove-all-by-id, prepend, append,
  filter, sum and the left-fold `reduce`. Each has a declarative description (`ReplacedFirst`,
  `RemovedAll`, `Prepended`, `Appended`, `Filtered`, `IsSubseq`) and lemmas
  relating them, proved once.
- `fetching.dfy` (`Fetching`): the two fetch shapes. A guarded fetch does
  the loading/error bookkeeping and keeps the stale value on failure. A
  quiet fetch only logs a failure.
- `*_model.dfy`: the entities of each domain. Closed string unions become
  datatypes. Optional fields become `Option`. Numbers become `int`: the model
  represents amounts in minor units and rates and percentages as integers
  in some fixed scale. Dates become integer timestamps.
- `*_store.dfy`: one module per store, holding its state record, its
  initial value, its fixed error messages, its getters, its actions and the
  lemmas about them.

Two behaviours worth stating directly:

- Delete actions remove every element carrying the id
  (`filter(x => x.id !== id)`), not only the first.
- Create actions in the bill-payment, transfer and loan stores prepend
  (`unshift`). The budget, account and beneficiary stores append.

## Model

| member | source | states |
|---|---|---|
| SeqOps.FindIndex | src/stores/cardStore.ts:65 | -1 exactly when no element has the id; otherwise the index of the first element that has it |
| SeqOps.ReplaceFirstById | src/stores/cardStore.ts:65-68 | the first element with the id is overwritten in place, length and every other position kept; an absent id leaves the list unchanged |
| SeqOps.RemoveAllById | src/stores/budgetStore.ts:102 | result is an order-preserving subsequence with no element of that id, every other element kept as often as before, and the list itself when the id is absent |
| SeqOps.Prepend | src/stores/billPaymentStore.ts:79 | new element at index 0, old elements shifted one place right, length plus one |
| SeqOps.Append | src/stores/budgetStore.ts:74 | new element at the old length, old positions unchanged, length plus one |
| SeqOps.FilterFiltered | src/stores/cardStore.ts:23 | `filter` keeps exactly the passing elements, in order, with their multiplicities |
| SeqOps.FilterPartition | src/stores/transactionStore.ts:23-24 | two complementary filters together hold every element exactly as often as the list, and their lengths add up to its length |
| SeqOps.Reduce | src/stores/accountStore.ts:24 | the left fold `reduce((sum, x) => sum + f(x), acc)` yields `acc` plus the sum of `f` over the list |
| SeqOps.SumFilterMasked | src/stores/cardStore.ts:27-29 | summing over a filter equals summing over the whole list with 0 for the elements that fail it |
| SeqOps.SumFilterPartition | src/stores/transactionStore.ts:27-32 | the sums over two complementary filters add up to the sum over the whole list |
| SeqOps.ReplaceFirstIdempotent | src/stores/transferStore.ts:89-92 | replacing by id twice with the same answer, carrying that id, equals replacing once |
| SeqOps.RemoveAllIdempotent | src/stores/beneficiaryStore.ts:73 | removing by id twice equals removing once |
| SeqOps.AppendThenRemove | src/stores/budgetStore.ts:74-102 | removing the id of a just-appended element whose id was new gives back the old list |
| Fetching.GuardedIdempotent | src/stores/cardStore.ts:36-47 | a guarded fetch repeated against an unchanged backend settles exactly as one fetch |
| Fetching.GuardedStaleOnlyOnFailure | src/stores/accountStore.ts:30-41 | a successful fetch does not depend on the previously held value; a failed one keeps it |
| CardStore.ActiveCards | src/stores/cardStore.ts:23 | exactly the active cards, in order |
| CardStore.BlockedCards | src/stores/cardStore.ts:24 | exactly the blocked cards, in order |
| CardStore.CreditCards | src/stores/cardStore.ts:25 | exactly the credit cards, in order |
| CardStore.DebitCards | src/stores/cardStore.ts:26 | exactly the debit cards, in order |
| CardStore.TotalCreditLimit | src/stores/cardStore.ts:27-29 | the sum over all cards of the credit limit for credit cards (missing counts 0) and 0 for debit and prepaid cards |
| CardStore.TotalAvailableCredit | src/stores/cardStore.ts:30-32 | the same sum over available credit |
| CardStore.FreshStoreIsEmpty | src/stores/cardStore.ts:14-20 | a fresh store is idle with no error, no selection and no card transactions; every card view is empty and both credit totals are 0 |
| CardStore.FetchCardsIdempotent | src/stores/cardStore.ts:36-47 | fetching the cards twice against an unchanged backend leaves the store exactly as fetching once |
| CardStore.FetchCards | src/stores/cardStore.ts:36-47 | success: cards replaced and error cleared; failure: cards kept and error "Failed to fetch cards"; loading false after both; other fields unchanged |
| CardStore.FetchCardTransactions | src/stores/cardStore.ts:49-60 | writes only the card transactions, loading and error; the cards are untouched |
| CardStore.BlockCard | src/stores/cardStore.ts:62-74 | success: answer replaces the first card with the id in place, nothing else changes, answer returned even for an absent id; failure: re-thrown, state unchanged |
| CardStore.UnblockCard | src/stores/cardStore.ts:76-88 | same settlement as blocking |
| CardStore.ReportLost | src/stores/cardStore.ts:90-102 | same settlement as blocking |
| CardStore.ReportStolen | src/stores/cardStore.ts:104-116 | same settlement as blocking |
| CardStore.SetCurrentCard | src/stores/cardStore.ts:118-120 | only the current card changes |
| CardStore.ActiveAndBlockedDisjoint | src/stores/cardStore.ts:23-24 | no card is in both the active and the blocked view |
| CardStore.BlockHeldCard | src/stores/cardStore.ts:62-74 | blocking a held card puts the blocked answer at its old index, keeps every other position and makes it show among the blocked cards |
| CardStore.CurrentCardIsSnapshot | src/stores/cardStore.ts:62-120 | the status actions overwrite the list slot and never write `currentCard`, so it keeps the card it was set to |
| CardStore.NonCreditCardsAddNothing | src/stores/cardStore.ts:27-32 | adding a debit or prepaid card changes neither credit total |
| BillPaymentStore.FreshStoreIsEmpty | src/stores/billPaymentStore.ts:15-22 | a fresh store is idle with no error, no selection, no billers and no scheduled payments; every payment view is empty |
| BillPaymentStore.PaidBills | src/stores/billPaymentStore.ts:25 | exactly the paid payments, in order |
| BillPaymentStore.OverdueBills | src/stores/billPaymentStore.ts:26 | exactly the overdue payments, in order |
| BillPaymentStore.UpcomingBills | src/stores/billPaymentStore.ts:27 | exactly the scheduled payments, in order |
| BillPaymentStore.RecurringPayments | src/stores/billPaymentStore.ts:28 | exactly the payments with `recurring` set, in order |
| BillPaymentStore.FetchBillers | src/stores/billPaymentStore.ts:32-43 | success replaces the billers; failure keeps them with "Failed to fetch billers"; loading false; nothing else changes |
| BillPaymentStore.SearchBillers | src/stores/billPaymentStore.ts:45-51 | success overwrites only the billers; failure changes nothing, loading and error included |
| BillPaymentStore.FetchPayments | src/stores/billPaymentStore.ts:53-64 | success replaces the payments; failure keeps them with "Failed to fetch payments"; loading false |
| BillPaymentStore.FetchScheduledPayments | src/stores/billPaymentStore.ts:66-72 | success overwrites only the scheduled payments; failure changes nothing |
| BillPaymentStore.CreatePayment | src/stores/billPaymentStore.ts:74-88 | success puts the returned payment at index 0 and shifts the rest; failure keeps the payments, sets "Failed to create payment" and re-throws; loading false |
| BillPaymentStore.CancelPayment | src/stores/billPaymentStore.ts:90-102 | in-place replacement by id, no-op for an absent id; failure re-throws with state unchanged; loading and error never touched |
| BillPaymentStore.UpdateAutoPay | src/stores/billPaymentStore.ts:104-116 | same settlement as cancelling |
| BillPaymentStore.StatusViewsDisjoint | src/stores/billPaymentStore.ts:25-27 | paid, overdue and upcoming views are pairwise disjoint and never hold a cancelled payment |
| BillPaymentStore.CreateThenCancel | src/stores/billPaymentStore.ts:74-102 | cancelling a just-created payment rewrites the front entry and leaves the older payments in place |
| BudgetStore.FreshStoreIsEmpty | src/stores/budgetStore.ts:15-22 | a fresh store is idle with no error, no selection, no analytics and no categories; every budget view is empty at any time and both totals are 0 |
| BudgetStore.ActiveBudgets | src/stores/budgetStore.ts:25-27 | exactly the budgets whose end date is at or after `now`, in order |
| BudgetStore.ExceededBudgets | src/stores/budgetStore.ts:28 | exactly the exceeded budgets, in order |
| BudgetStore.WarningBudgets | src/stores/budgetStore.ts:29 | exactly the budgets in warning, in order |
| BudgetStore.TotalBudgeted | src/stores/budgetStore.ts:30 | the sum of the budgeted amounts of every budget, whatever its status |
| BudgetStore.TotalSpent | src/stores/budgetStore.ts:31 | the sum of the spent amounts of every budget, whatever its status |
| BudgetStore.FetchBudgets | src/stores/budgetStore.ts:35-46 | success replaces the budgets; failure keeps them with "Failed to fetch budgets"; loading false |
| BudgetStore.FetchCategories | src/stores/budgetStore.ts:48-54 | success overwrites only the categories; failure leaves categories, loading and error unchanged |
| BudgetStore.FetchAnalytics | src/stores/budgetStore.ts:56-67 | success stores the analytics; failure keeps them with "Failed to fetch analytics"; loading false |
| BudgetStore.CreateBudget | src/stores/budgetStore.ts:69-83 | success appends the returned budget and returns it; failure keeps the list, sets "Failed to create budget" and re-throws |
| BudgetStore.UpdateBudget | src/stores/budgetStore.ts:85-97 | in-place replacement by id, no-op for an absent id; loading and error never touched; failure re-throws unchanged |
| BudgetStore.DeleteBudget | src/stores/budgetStore.ts:99-107 | success removes every budget with the id, keeping the rest in order, and is the identity for an absent id; failure re-throws with the list unchanged |
| BudgetStore.ExceededAndWarningDisjoint | src/stores/budgetStore.ts:28-29 | no budget is both exceeded and in warning |
| BudgetStore.CreateRaisesTotals | src/stores/budgetStore.ts:30-31 | totals count every budget whatever its status: a created budget raises them by its own amounts |
| BudgetStore.UpdateShiftsTotal | src/stores/budgetStore.ts:30 | replacing a held budget moves the budgeted total by the new amount minus the old |
| BudgetStore.CreateThenDelete | src/stores/budgetStore.ts:69-107 | deleting a just-created budget under a new id gives back the old budgets |
| BudgetStore.DeleteIdempotent | src/stores/budgetStore.ts:99-107 | deleting the same id twice equals deleting once |
| TransferStore.FreshStoreIsEmpty | src/stores/transferStore.ts:15-22 | a fresh store is idle with no error, no selection and no scheduled or recurring transfers; every transfer view is empty |
| TransferStore.CompletedTransfers | src/stores/transferStore.ts:25 | exactly the completed transfers, in order |
| TransferStore.PendingTransfers | src/stores/transferStore.ts:26 | exactly the pending transfers, in order |
| TransferStore.InternalTransfers | src/stores/transferStore.ts:27 | exactly the internal transfers, in order |
| TransferStore.ExternalTransfers | src/stores/transferStore.ts:28 | exactly the external transfers, in order |
| TransferStore.FetchTransfers | src/stores/transferStore.ts:32-43 | success replaces the transfers; failure keeps them with "Failed to fetch transfers"; loading false |
| TransferStore.FetchScheduledTransfers | src/stores/transferStore.ts:45-51 | success writes only the scheduled list; failure changes nothing |
| TransferStore.FetchRecurringTransfers | src/stores/transferStore.ts:53-59 | success writes only the recurring list; failure changes nothing |
| TransferStore.CreateTransfer | src/stores/transferStore.ts:61-75 | success prepends the returned transfer; failure keeps the list, sets "Failed to create transfer" and re-throws |
| TransferStore.ValidateTransfer | src/stores/transferStore.ts:77-84 | no state field changes on either outcome; the verdict is returned or the failure re-thrown |
| TransferStore.CancelTransfer | src/stores/transferStore.ts:86-98 | in-place replacement by id, no-op for an absent id; failure re-throws unchanged |
| TransferStore.TypeViewsDisjoint | src/stores/transferStore.ts:27-28 | internal and external views are disjoint and hold no international transfer |
| TransferStore.CancelIdempotent | src/stores/transferStore.ts:86-98 | cancelling twice with the same answer equals cancelling once |
| AccountStore.FreshStoreIsEmpty | src/stores/accountStore.ts:14-20 | a fresh store is idle with no error, no selection and no summary; every account view is empty and the total balance is 0 |
| AccountStore.ActiveAccounts | src/stores/accountStore.ts:23 | exactly the active accounts, in order |
| AccountStore.TotalBalance | src/stores/accountStore.ts:24 | the sum of the balances of every account, whatever its status |
| AccountStore.CheckingAccounts | src/stores/accountStore.ts:25 | exactly the checking accounts, in order |
| AccountStore.SavingsAccounts | src/stores/accountStore.ts:26 | exactly the savings accounts, in order |
| AccountStore.FetchAccounts | src/stores/accountStore.ts:30-41 | success replaces the accounts; failure keeps them with "Failed to fetch accounts"; loading false |
| AccountStore.FetchAccountById | src/stores/accountStore.ts:43-54 | writes only the current account (and flags), never the list; failure keeps it with "Failed to fetch account details" |
| AccountStore.FetchSummary | src/stores/accountStore.ts:56-62 | success overwrites only the summary; failure changes nothing, loading and error included |
| AccountStore.CreateAccount | src/stores/accountStore.ts:64-78 | success appends the returned account; failure keeps the list, sets "Failed to create account" and re-throws |
| AccountStore.UpdateAccount | src/stores/accountStore.ts:80-97 | with loading/error bookkeeping: success replaces in place by id; failure keeps the list, sets "Failed to update account" and re-throws |
| AccountStore.SetCurrentAccount | src/stores/accountStore.ts:99-101 | only the current account changes |
| AccountStore.CheckingAndSavingsDisjoint | src/stores/accountStore.ts:25-26 | no account is in both the checking and the savings view |
| AccountStore.TotalBalanceCountsEveryStatus | src/stores/accountStore.ts:24 | the total balance is the active accounts' balances plus those of every other status |
| AccountStore.TwoAccountScenario | src/stores/accountStore.ts:23-41 | fetching a1 (100, active) and a2 (50, frozen) shows [a1] as active and 150 as the total |
| LoanStore.FreshStoreIsEmpty | src/stores/loanStore.ts:15-22 | a fresh store is idle with no error, no selection and no loan payments; both views are empty and both totals are 0 |
| LoanStore.ActiveLoans | src/stores/loanStore.ts:25 | exactly the active loans, in order |
| LoanStore.TotalOutstanding | src/stores/loanStore.ts:26 | the sum of the outstanding balances of every loan, whatever its status |
| LoanStore.TotalMonthlyPayment | src/stores/loanStore.ts:27-29 | the sum over all loans of the instalment of active loans and 0 for the rest |
| LoanStore.PendingApplications | src/stores/loanStore.ts:30-32 | exactly the applications submitted or under review, in order; none without a status |
| LoanStore.FetchLoans | src/stores/loanStore.ts:36-47 | success replaces the loans; failure keeps them with "Failed to fetch loans"; loading false |
| LoanStore.FetchLoanApplications | src/stores/loanStore.ts:49-55 | success writes only the applications; failure changes nothing |
| LoanStore.ApplyForLoan | src/stores/loanStore.ts:57-71 | success prepends the application and leaves the loans alone; failure sets "Failed to submit loan application" and re-throws |
| LoanStore.FetchLoanPayments | src/stores/loanStore.ts:73-84 | success replaces the loan payments; failure keeps them with "Failed to fetch loan payments" |
| LoanStore.MakePayment | src/stores/loanStore.ts:86-96 | success prepends the payment and re-fetches the loans; the payment is returned even if that re-fetch fails (loans kept, "Failed to fetch loans"); a failed payment re-throws with state unchanged |
| LoanStore.SetCurrentLoan | src/stores/loanStore.ts:98-100 | only the current loan changes |
| LoanStore.InactiveLoanCountsOnlyAsOutstanding | src/stores/loanStore.ts:26-29 | a non-active loan adds nothing to the monthly total and its balance to the outstanding total |
| LoanStore.StatuslessApplicationNotPending | src/stores/loanStore.ts:30-32 | an application without a status is never pending |
| InvestmentStore.FreshStoreIsEmpty | src/stores/investmentStore.ts:15-22 | a fresh store is idle with no error, no selection and no transactions; both gain views are empty and the three portfolio figures are 0 |
| InvestmentStore.TotalValue | src/stores/investmentStore.ts:25 | 0 with no portfolio, otherwise the portfolio's total value |
| InvestmentStore.TotalGainLoss | src/stores/investmentStore.ts:26 | 0 with no portfolio, otherwise the portfolio's total gain or loss |
| InvestmentStore.PercentageReturn | src/stores/investmentStore.ts:27 | 0 with no portfolio, otherwise the portfolio's percentage return |
| InvestmentStore.ProfitableInvestments | src/stores/investmentStore.ts:28 | exactly the investments with positive gain, in order |
| InvestmentStore.LosingInvestments | src/stores/investmentStore.ts:29 | exactly the investments with negative gain, in order |
| InvestmentStore.FetchPortfolio | src/stores/investmentStore.ts:33-45 | success sets the portfolio and the investments to the response's list; failure keeps both with "Failed to fetch portfolio" |
| InvestmentStore.FetchInvestmentTransactions | src/stores/investmentStore.ts:47-58 | writes only the transactions (and flags) |
| InvestmentStore.BuyInvestment | src/stores/investmentStore.ts:60-75 | with a successful refresh the list is the refreshed one; with a failed refresh it is the old list plus the bought investment and the error is "Failed to fetch portfolio"; a failed buy keeps the list, sets "Failed to buy investment" and re-throws |
| InvestmentStore.SellInvestment | src/stores/investmentStore.ts:77-86 | no local list edit: the state changes only as the portfolio refresh dictates; a failed sale re-throws with state unchanged |
| InvestmentStore.SetCurrentInvestment | src/stores/investmentStore.ts:88-90 | only the current investment changes |
| InvestmentStore.GainViewsDisjoint | src/stores/investmentStore.ts:28-29 | profitable and losing views are disjoint and hold no zero-gain investment |
| InvestmentStore.FiguresWithoutPortfolio | src/stores/investmentStore.ts:25-27 | with no portfolio, total value, total gain and percentage return read 0 |
| InvestmentStore.FiguresFollowFetchedPortfolio | src/stores/investmentStore.ts:25-38 | after a successful portfolio fetch the three figures are the fetched portfolio's |
| InvestmentStore.BuyThenRefreshIsFetch | src/stores/investmentStore.ts:60-67 | a buy whose refresh succeeds ends in the same state as a plain portfolio fetch: the pushed entry is overwritten |
| BeneficiaryStore.FreshStoreIsEmpty | src/stores/beneficiaryStore.ts:13-18 | a fresh store is idle with no error and no selection; every beneficiary view is empty |
| BeneficiaryStore.VerifiedBeneficiaries | src/stores/beneficiaryStore.ts:21 | exactly the verified beneficiaries, in order |
| BeneficiaryStore.PersonalBeneficiaries | src/stores/beneficiaryStore.ts:22 | exactly the personal beneficiaries, in order |
| BeneficiaryStore.BusinessBeneficiaries | src/stores/beneficiaryStore.ts:23 | exactly the business beneficiaries, in order |
| BeneficiaryStore.FetchBeneficiaries | src/stores/beneficiaryStore.ts:27-38 | success replaces the list; failure keeps it with "Failed to fetch beneficiaries"; loading false |
| BeneficiaryStore.AddBeneficiary | src/stores/beneficiaryStore.ts:40-54 | success appends; failure keeps the list, sets "Failed to add beneficiary" and re-throws |
| BeneficiaryStore.UpdateBeneficiary | src/stores/beneficiaryStore.ts:56-68 | in-place replacement by id, no-op for an absent id; loading and error never touched |
| BeneficiaryStore.DeleteBeneficiary | src/stores/beneficiaryStore.ts:70-78 | success removes every entry with the id, keeping the order of the rest; failure re-throws unchanged |
| BeneficiaryStore.SearchBeneficiaries | src/stores/beneficiaryStore.ts:80-86 | success overwrites the whole list; failure changes nothing, loading and error included |
| BeneficiaryStore.TypeViewsPartition | src/stores/beneficiaryStore.ts:22-23 | personal and business views split the list exactly, since the type is personal or business |
| BeneficiaryStore.AddThenDelete | src/stores/beneficiaryStore.ts:40-78 | deleting a just-added beneficiary under a new id gives back the old list |
| TransactionStore.FreshStoreIsEmpty | src/stores/transactionStore.ts:14-20 | a fresh store is idle with no error, no selection and no filter; every view, the recent list included, is empty and both totals are 0 |
| TransactionStore.DebitTransactions | src/stores/transactionStore.ts:23 | exactly the debits, in order |
| TransactionStore.CreditTransactions | src/stores/transactionStore.ts:24 | exactly the credits, in order |
| TransactionStore.PendingTransactions | src/stores/transactionStore.ts:25 | exactly the pending transactions, in order |
| TransactionStore.RecentTransactions | src/stores/transactionStore.ts:26 | a prefix of length min(10, number of transactions) |
| TransactionStore.TotalDebit | src/stores/transactionStore.ts:27-29 | the sum over all transactions of the amount of each debit and 0 for each credit |
| TransactionStore.TotalCredit | src/stores/transactionStore.ts:30-32 | the sum over all transactions of the amount of each credit and 0 for each debit |
| TransactionStore.FetchTransactions | src/stores/transactionStore.ts:36-48 | the filter becomes the given one (or none) whatever the outcome; success replaces the list; failure keeps it with "Failed to fetch transactions" |
| TransactionStore.FetchAccountTransactions | src/stores/transactionStore.ts:50-61 | overwrites the same list with its own failure message "Failed to fetch account transactions"; the filter is unchanged |
| TransactionStore.SearchTransactions | src/stores/transactionStore.ts:63-74 | overwrites the same list with its own failure message "Failed to search transactions"; the filter is unchanged |
| TransactionStore.ClearFilter | src/stores/transactionStore.ts:76-78 | the filter becomes none and nothing else changes |
| TransactionStore.DebitCreditPartition | src/stores/transactionStore.ts:23-24 | debits and credits split the list exactly |
| TransactionStore.TotalsCoverEveryAmount | src/stores/transactionStore.ts:27-32 | total debit plus total credit is the sum of every amount |

## Left out

- The service modules (`src/services/*.ts`) are left out. Each maps a method onto an HTTP verb and path of an API client that is not part of this model. A service call becomes the `Outcome` parameter of the action that awaits it. This also drops the query-string building and the raw file downloads for statements and transaction exports.
- The router (`src/router/index.ts`) is left out. It is route configuration only.
- The statement model (`src/models/Statement.ts`) is left out. No store holds statements.
- Overlapping in-flight requests are not modelled, so last-response-wins races are out of scope. Each action is atomic given its outcomes. The transient `loading = true` between the call and its settlement is therefore not observable; only the settled flags are modelled.
- `console.error` logging and the discarded error objects are left out.
- JavaScript number semantics are not modelled. Amounts are exact integers, so sums do not round. The `|| 0` coercions are modelled as an absent optional value reading 0; `NaN` is not modelled.
- The wall clock and `Date` parsing in `activeBudgets` are not modelled. The current time is the `now` parameter, and dates are integer timestamps.
- Array aliasing is not modelled. After a portfolio fetch, the JavaScript store's `investments` and `portfolio.investments` are the same array. A later `push` in `buyInvestment` therefore also grows the portfolio's list, whereas the value-semantics model keeps `portfolio` unchanged.
- Object aliasing between a selection and a list element is not modelled. `currentCard`, `currentAccount`, `currentLoan` and `currentInvestment` may be the same JavaScript object as a list element. An in-place edit of such an object would show in both places. The model has only values, so it cannot express that sharing. The store actions replace list slots and never edit an object in place.
- Pinia reactivity and the store factory (`defineStore`) are not modelled. Getters are plain functions of the state, recomputed on each call.
- Fractional values are not modelled. Rates, percentages and quantities are `number` in the source. Examples are `interestRate`, `exchangeRate`, `percentageReturn`, `alertThreshold`, and the `quantity` of an investment or investment transaction, which is fractional for fund and crypto holdings. The model keeps them as integers in a fixed scale, so it cannot represent a value between two steps of that scale. No getter or action does arithmetic on them. `percentageReturn` is only read back by its getter, and `quantity` is never read.
