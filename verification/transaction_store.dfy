/** The transaction store: transactions, the selected transaction, the filter
    of the last filtered fetch and the loading/error pair. */
module TransactionStore {
  import opened Wrappers
  import opened SeqOps
  import opened Fetching
  import opened TransactionModel

  datatype TransactionState = TransactionState(
    transactions: seq<Transaction>,
    currentTransaction: Option<Transaction>,
    filter: Option<TransactionFilter>,
    loading: bool,
    error: Option<string>)

  const Initial := TransactionState([], None, None, false, None)

  /** How many transactions `recentTransactions` shows. */
  const RecentCount := 10

  const FetchTransactionsFailed := "Failed to fetch transactions"
  const FetchAccountTransactionsFailed := "Failed to fetch account transactions"
  const SearchTransactionsFailed := "Failed to search transactions"

  function Amount(t: Transaction): int { t.amount }

  /** What a transaction adds to `totalDebit`: its amount if a debit, nothing otherwise. */
  function DebitShare(t: Transaction): int {
    if t.transactionType == Debit then t.amount else 0
  }

  /** What a transaction adds to `totalCredit`: its amount if a credit, nothing otherwise. */
  function CreditShare(t: Transaction): int {
    if t.transactionType == Credit then t.amount else 0
  }

  predicate IsDebit(t: Transaction) { t.transactionType == Debit }
  predicate IsCredit(t: Transaction) { t.transactionType == Credit }
  predicate IsPending(t: Transaction) { t.status == Pending }

  /* Getters */

  function DebitTransactions(s: TransactionState): (r: seq<Transaction>)
    ensures Filtered(s.transactions, r, IsDebit)
  {
    FilterFiltered(s.transactions, IsDebit);
    Filter(s.transactions, IsDebit)
  }

  function CreditTransactions(s: TransactionState): (r: seq<Transaction>)
    ensures Filtered(s.transactions, r, IsCredit)
  {
    FilterFiltered(s.transactions, IsCredit);
    Filter(s.transactions, IsCredit)
  }

  function PendingTransactions(s: TransactionState): (r: seq<Transaction>)
    ensures Filtered(s.transactions, r, IsPending)
  {
    FilterFiltered(s.transactions, IsPending);
    Filter(s.transactions, IsPending)
  }

  /** `transactions.slice(0, 10)`: the first ten, or all when there are fewer. */
  function RecentTransactions(s: TransactionState): (r: seq<Transaction>)
    ensures |r| == if |s.transactions| < RecentCount then |s.transactions| else RecentCount
    ensures r <= s.transactions
  {
    if |s.transactions| < RecentCount then s.transactions else s.transactions[..RecentCount]
  }

  /** Sum of the debits' amounts. */
  function TotalDebit(s: TransactionState): (r: int)
    ensures r == Sum(s.transactions, DebitShare)
  {
    SumFilterMasked(s.transactions, IsDebit, Amount, DebitShare);
    Reduce(Filter(s.transactions, IsDebit), Amount, 0)
  }

  /** Sum of the credits' amounts. */
  function TotalCredit(s: TransactionState): (r: int)
    ensures r == Sum(s.transactions, CreditShare)
  {
    SumFilterMasked(s.transactions, IsCredit, Amount, CreditShare);
    Reduce(Filter(s.transactions, IsCredit), Amount, 0)
  }

  /* Actions */

  /** `fetchTransactions(filter?)`: the filter is recorded before the call,
      so it changes whatever the outcome. */
  function FetchTransactions(s: TransactionState, filter: Option<TransactionFilter>, o: Outcome<seq<Transaction>>): (s': TransactionState)
    ensures !s'.loading
    ensures s'.filter == filter
    ensures o.Ok? ==> s'.transactions == o.value && s'.error == None
    ensures o.Err? ==> s'.transactions == s.transactions && s'.error == Some("Failed to fetch transactions")
    ensures s'.currentTransaction == s.currentTransaction
  {
    var f := Guarded(s.transactions, o, FetchTransactionsFailed);
    s.(filter := filter, transactions := f.value, loading := f.loading, error := f.error)
  }

  /** `fetchAccountTransactions(accountId)`; the account id only goes to the service. */
  function FetchAccountTransactions(s: TransactionState, o: Outcome<seq<Transaction>>): (s': TransactionState)
    ensures !s'.loading
    ensures o.Ok? ==> s'.transactions == o.value && s'.error == None
    ensures o.Err? ==> s'.transactions == s.transactions && s'.error == Some("Failed to fetch account transactions")
    ensures s' == s.(transactions := s'.transactions, loading := s'.loading, error := s'.error)
  {
    var f := Guarded(s.transactions, o, FetchAccountTransactionsFailed);
    s.(transactions := f.value, loading := f.loading, error := f.error)
  }

  /** `searchTransactions(query)`; the query only goes to the service. */
  function SearchTransactions(s: TransactionState, o: Outcome<seq<Transaction>>): (s': TransactionState)
    ensures !s'.loading
    ensures o.Ok? ==> s'.transactions == o.value && s'.error == None
    ensures o.Err? ==> s'.transactions == s.transactions && s'.error == Some("Failed to search transactions")
    ensures s' == s.(transactions := s'.transactions, loading := s'.loading, error := s'.error)
  {
    var f := Guarded(s.transactions, o, SearchTransactionsFailed);
    s.(transactions := f.value, loading := f.loading, error := f.error)
  }

  function ClearFilter(s: TransactionState): (s': TransactionState)
    ensures s'.filter.None?
    ensures s'.transactions == s.transactions && s'.currentTransaction == s.currentTransaction
    ensures s'.loading == s.loading && s'.error == s.error
  {
    s.(filter := None)
  }

  /* Properties */

  /** Every transaction is a debit or a credit, so the two views split the list. */
  lemma DebitCreditPartition(s: TransactionState)
    ensures multiset(DebitTransactions(s)) + multiset(CreditTransactions(s)) == multiset(s.transactions)
    ensures |DebitTransactions(s)| + |CreditTransactions(s)| == |s.transactions|
  {
    FilterPartition(s.transactions, IsDebit, IsCredit);
  }

  /** The debit and credit totals add up to the sum of every amount. */
  lemma TotalsCoverEveryAmount(s: TransactionState)
    ensures TotalDebit(s) + TotalCredit(s) == Sum(s.transactions, Amount)
  {
    SumFilterPartition(s.transactions, IsDebit, IsCredit, Amount);
  }

  /** A fresh store is idle, holds no error and no selection, and every
      view of it is empty and every total 0. */
  lemma FreshStoreIsEmpty()
    ensures !Initial.loading && Initial.error.None? && Initial.currentTransaction.None? && Initial.filter.None?
    ensures DebitTransactions(Initial) == [] && CreditTransactions(Initial) == []
    ensures PendingTransactions(Initial) == [] && RecentTransactions(Initial) == []
    ensures TotalDebit(Initial) == 0 && TotalCredit(Initial) == 0
  {
  }
}
