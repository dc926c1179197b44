/** The account store: accounts, the selected account, the account summary
    and the loading/error pair. */
module AccountStore {
  import opened Wrappers
  import opened SeqOps
  import opened Fetching
  import opened AccountModel

  datatype AccountState = AccountState(
    accounts: seq<Account>,
    currentAccount: Option<Account>,
    summary: Option<AccountSummary>,
    loading: bool,
    error: Option<string>)

  const Initial := AccountState([], None, None, false, None)

  const FetchAccountsFailed := "Failed to fetch accounts"
  const FetchAccountFailed := "Failed to fetch account details"
  const CreateAccountFailed := "Failed to create account"
  const UpdateAccountFailed := "Failed to update account"

  function AccountId(a: Account): string { a.id }
  function Balance(a: Account): int { a.balance }

  predicate IsActiveAccount(a: Account) { a.status == Active }
  predicate IsNotActiveAccount(a: Account) { a.status != Active }
  predicate IsChecking(a: Account) { a.accountType == Checking }
  predicate IsSavings(a: Account) { a.accountType == Savings }

  /* Getters */

  function ActiveAccounts(s: AccountState): (r: seq<Account>)
    ensures Filtered(s.accounts, r, IsActiveAccount)
  {
    FilterFiltered(s.accounts, IsActiveAccount);
    Filter(s.accounts, IsActiveAccount)
  }

  /** Sum of the balances of every account, whatever its status. */
  function TotalBalance(s: AccountState): (r: int)
    ensures r == Sum(s.accounts, Balance)
  {
    Reduce(s.accounts, Balance, 0)
  }

  function CheckingAccounts(s: AccountState): (r: seq<Account>)
    ensures Filtered(s.accounts, r, IsChecking)
  {
    FilterFiltered(s.accounts, IsChecking);
    Filter(s.accounts, IsChecking)
  }

  function SavingsAccounts(s: AccountState): (r: seq<Account>)
    ensures Filtered(s.accounts, r, IsSavings)
  {
    FilterFiltered(s.accounts, IsSavings);
    Filter(s.accounts, IsSavings)
  }

  /* Actions */

  function FetchAccounts(s: AccountState, o: Outcome<seq<Account>>): (s': AccountState)
    ensures !s'.loading
    ensures o.Ok? ==> s'.accounts == o.value && s'.error == None
    ensures o.Err? ==> s'.accounts == s.accounts && s'.error == Some("Failed to fetch accounts")
    ensures s' == s.(accounts := s'.accounts, loading := s'.loading, error := s'.error)
  {
    var f := Guarded(s.accounts, o, FetchAccountsFailed);
    s.(accounts := f.value, loading := f.loading, error := f.error)
  }

  /** `fetchAccountById(id)`: fills the selected account only; the held list
      is never consulted or changed, and the id only goes to the service. */
  function FetchAccountById(s: AccountState, o: Outcome<Account>): (s': AccountState)
    ensures !s'.loading
    ensures o.Ok? ==> s'.currentAccount == Some(o.value) && s'.error == None
    ensures o.Err? ==> s'.currentAccount == s.currentAccount && s'.error == Some("Failed to fetch account details")
    ensures s' == s.(currentAccount := s'.currentAccount, loading := s'.loading, error := s'.error)
  {
    var answer := match o case Ok(a) => Ok(Some(a)) case Err => Err;
    var f := Guarded(s.currentAccount, answer, FetchAccountFailed);
    s.(currentAccount := f.value, loading := f.loading, error := f.error)
  }

  /** `fetchSummary`: overwrites the summary on success, only logs a failure. */
  function FetchSummary(s: AccountState, o: Outcome<AccountSummary>): (s': AccountState)
    ensures o.Ok? ==> s' == s.(summary := Some(o.value))
    ensures o.Err? ==> s' == s
  {
    var answer := match o case Ok(a) => Ok(Some(a)) case Err => Err;
    s.(summary := Quiet(s.summary, answer))
  }

  /** `createAccount(partial)`: the new account goes to the end. */
  function CreateAccount(s: AccountState, o: Outcome<Account>): (r: Step<AccountState, Account>)
    ensures !r.state.loading
    ensures o.Ok? ==> && r.reply == Returned(o.value)
                      && Appended(s.accounts, r.state.accounts, o.value)
                      && r.state.error == None
    ensures o.Err? ==> && r.reply == Rethrown
                       && r.state.accounts == s.accounts
                       && r.state.error == Some("Failed to create account")
    ensures r.state == s.(accounts := r.state.accounts, loading := r.state.loading, error := r.state.error)
  {
    match o
    case Ok(a) => Step(s.(accounts := Append(s.accounts, a), loading := false, error := None), Returned(a))
    case Err => Step(s.(loading := false, error := Some(CreateAccountFailed)), Rethrown)
  }

  /** `updateAccount(id, partial)`: unlike the other stores' updates it runs
      the loading/error bookkeeping around the in-place replacement. */
  function UpdateAccount(s: AccountState, id: string, o: Outcome<Account>): (r: Step<AccountState, Account>)
    ensures !r.state.loading
    ensures o.Ok? ==> && r.reply == Returned(o.value)
                      && ReplacedFirst(s.accounts, r.state.accounts, AccountId, id, o.value)
                      && r.state.error == None
    ensures o.Err? ==> && r.reply == Rethrown
                       && r.state.accounts == s.accounts
                       && r.state.error == Some("Failed to update account")
    ensures r.state == s.(accounts := r.state.accounts, loading := r.state.loading, error := r.state.error)
  {
    match o
    case Ok(a) =>
      Step(s.(accounts := ReplaceFirstById(s.accounts, AccountId, id, a), loading := false, error := None), Returned(a))
    case Err => Step(s.(loading := false, error := Some(UpdateAccountFailed)), Rethrown)
  }

  function SetCurrentAccount(s: AccountState, account: Option<Account>): (s': AccountState)
    ensures s'.currentAccount == account
    ensures s'.accounts == s.accounts && s'.summary == s.summary
    ensures s'.loading == s.loading && s'.error == s.error
  {
    s.(currentAccount := account)
  }

  /* Properties */

  lemma CheckingAndSavingsDisjoint(s: AccountState)
    ensures forall a | a in CheckingAccounts(s) :: a !in SavingsAccounts(s)
  {
  }

  /** `totalBalance` counts every account, frozen and inactive ones included:
      it is the active accounts' balances plus all the others'. */
  lemma TotalBalanceCountsEveryStatus(s: AccountState)
    ensures TotalBalance(s) == Sum(ActiveAccounts(s), Balance) + Sum(Filter(s.accounts, IsNotActiveAccount), Balance)
  {
    SumFilterPartition(s.accounts, IsActiveAccount, IsNotActiveAccount, Balance);
  }

  /** Fetching `[a1: 100, active; a2: 50, frozen]` into a fresh store shows
      `[a1]` as the active accounts and 150 as the total balance. */
  lemma TwoAccountScenario(a1: Account, a2: Account)
    requires a1.id == "a1" && a1.balance == 100 && a1.status == Active
    requires a2.id == "a2" && a2.balance == 50 && a2.status == Frozen
    ensures var s := FetchAccounts(Initial, Ok([a1, a2]));
      ActiveAccounts(s) == [a1] && TotalBalance(s) == 150
  {
    var xs := [a1, a2];
    assert xs[1..] == [a2] && [a2][1..] == [];
    assert Filter([a2], IsActiveAccount) == [];
    assert Filter(xs, IsActiveAccount) == [a1];
    assert Sum([a2], Balance) == 50;
  }

  /** A fresh store is idle, holds no error and no selection, and every
      view of it is empty and every total 0. */
  lemma FreshStoreIsEmpty()
    ensures !Initial.loading && Initial.error.None? && Initial.currentAccount.None? && Initial.summary.None?
    ensures ActiveAccounts(Initial) == [] && CheckingAccounts(Initial) == [] && SavingsAccounts(Initial) == []
    ensures TotalBalance(Initial) == 0
  {
  }
}
