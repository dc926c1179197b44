/** The budget store: budgets, budget categories, spending analytics, the
    selected budget and the loading/error pair. */
module BudgetStore {
  import opened Wrappers
  import opened SeqOps
  import opened Fetching
  import opened BudgetModel

  datatype BudgetState = BudgetState(
    budgets: seq<Budget>,
    categories: seq<BudgetCategory>,
    analytics: Option<SpendingAnalytics>,
    currentBudget: Option<Budget>,
    loading: bool,
    error: Option<string>)

  const Initial := BudgetState([], [], None, None, false, None)

  const FetchBudgetsFailed := "Failed to fetch budgets"
  const FetchAnalyticsFailed := "Failed to fetch analytics"
  const CreateBudgetFailed := "Failed to create budget"

  function BudgetId(b: Budget): string { b.id }
  function BudgetAmount(b: Budget): int { b.budgetAmount }
  function SpentAmount(b: Budget): int { b.spentAmount }

  predicate IsExceeded(b: Budget) { b.status == Exceeded }
  predicate IsWarning(b: Budget) { b.status == Warning }

  /* Getters */

  /** `activeBudgets`: the budgets whose end date is not before `now`, the
      wall-clock time the getter reads. */
  function ActiveBudgets(s: BudgetState, now: int): (r: seq<Budget>)
    ensures Filtered(s.budgets, r, (b: Budget) => b.endDate >= now)
  {
    var live := (b: Budget) => b.endDate >= now;
    FilterFiltered(s.budgets, live);
    Filter(s.budgets, live)
  }

  function ExceededBudgets(s: BudgetState): (r: seq<Budget>)
    ensures Filtered(s.budgets, r, IsExceeded)
  {
    FilterFiltered(s.budgets, IsExceeded);
    Filter(s.budgets, IsExceeded)
  }

  function WarningBudgets(s: BudgetState): (r: seq<Budget>)
    ensures Filtered(s.budgets, r, IsWarning)
  {
    FilterFiltered(s.budgets, IsWarning);
    Filter(s.budgets, IsWarning)
  }

  /** Sum of the budgeted amounts of every budget, whatever its status. */
  function TotalBudgeted(s: BudgetState): (r: int)
    ensures r == Sum(s.budgets, BudgetAmount)
  {
    Reduce(s.budgets, BudgetAmount, 0)
  }

  /** Sum of the spent amounts of every budget, whatever its status. */
  function TotalSpent(s: BudgetState): (r: int)
    ensures r == Sum(s.budgets, SpentAmount)
  {
    Reduce(s.budgets, SpentAmount, 0)
  }

  /* Actions */

  function FetchBudgets(s: BudgetState, o: Outcome<seq<Budget>>): (s': BudgetState)
    ensures !s'.loading
    ensures o.Ok? ==> s'.budgets == o.value && s'.error == None
    ensures o.Err? ==> s'.budgets == s.budgets && s'.error == Some("Failed to fetch budgets")
    ensures s' == s.(budgets := s'.budgets, loading := s'.loading, error := s'.error)
  {
    var f := Guarded(s.budgets, o, FetchBudgetsFailed);
    s.(budgets := f.value, loading := f.loading, error := f.error)
  }

  /** `fetchCategories`: overwrites the categories on success, only logs a failure. */
  function FetchCategories(s: BudgetState, o: Outcome<seq<BudgetCategory>>): (s': BudgetState)
    ensures o.Ok? ==> s' == s.(categories := o.value)
    ensures o.Err? ==> s' == s
  {
    s.(categories := Quiet(s.categories, o))
  }

  /** `fetchAnalytics(accountId)`; the account id only goes to the service. */
  function FetchAnalytics(s: BudgetState, o: Outcome<SpendingAnalytics>): (s': BudgetState)
    ensures !s'.loading
    ensures o.Ok? ==> s'.analytics == Some(o.value) && s'.error == None
    ensures o.Err? ==> s'.analytics == s.analytics && s'.error == Some("Failed to fetch analytics")
    ensures s' == s.(analytics := s'.analytics, loading := s'.loading, error := s'.error)
  {
    var answer := match o case Ok(a) => Ok(Some(a)) case Err => Err;
    var f := Guarded(s.analytics, answer, FetchAnalyticsFailed);
    s.(analytics := f.value, loading := f.loading, error := f.error)
  }

  /** `createBudget(partial)`: the new budget goes to the end. */
  function CreateBudget(s: BudgetState, o: Outcome<Budget>): (r: Step<BudgetState, Budget>)
    ensures !r.state.loading
    ensures o.Ok? ==> && r.reply == Returned(o.value)
                      && Appended(s.budgets, r.state.budgets, o.value)
                      && r.state.error == None
    ensures o.Err? ==> && r.reply == Rethrown
                       && r.state.budgets == s.budgets
                       && r.state.error == Some("Failed to create budget")
    ensures r.state == s.(budgets := r.state.budgets, loading := r.state.loading, error := r.state.error)
  {
    match o
    case Ok(b) => Step(s.(budgets := Append(s.budgets, b), loading := false, error := None), Returned(b))
    case Err => Step(s.(loading := false, error := Some(CreateBudgetFailed)), Rethrown)
  }

  /** `updateBudget(id, partial)`: in-place replacement by id, no bookkeeping. */
  function UpdateBudget(s: BudgetState, id: string, o: Outcome<Budget>): (r: Step<BudgetState, Budget>)
    ensures o.Err? ==> r == Step(s, Rethrown)
    ensures o.Ok? ==> && r.reply == Returned(o.value)
                      && ReplacedFirst(s.budgets, r.state.budgets, BudgetId, id, o.value)
                      && r.state == s.(budgets := r.state.budgets)
  {
    match o
    case Ok(b) => Step(s.(budgets := ReplaceFirstById(s.budgets, BudgetId, id, b)), Returned(b))
    case Err => Step(s, Rethrown)
  }

  /** `deleteBudget(id)`: every budget with that id goes; the promise resolves
      with no value. */
  function DeleteBudget(s: BudgetState, id: string, o: Outcome<()>): (r: Step<BudgetState, ()>)
    ensures o.Err? ==> r == Step(s, Rethrown)
    ensures o.Ok? ==> && r.reply == Returned(())
                      && RemovedAll(s.budgets, r.state.budgets, BudgetId, id)
                      && r.state == s.(budgets := r.state.budgets)
  {
    match o
    case Ok(_) => Step(s.(budgets := RemoveAllById(s.budgets, BudgetId, id)), Returned(()))
    case Err => Step(s, Rethrown)
  }

  /* Properties */

  /** No budget is both exceeded and in warning. */
  lemma ExceededAndWarningDisjoint(s: BudgetState)
    ensures forall b | b in ExceededBudgets(s) :: b !in WarningBudgets(s)
  {
  }

  /** The totals count every budget whatever its status: a created budget
      raises them by exactly its own amounts. */
  lemma CreateRaisesTotals(s: BudgetState, b: Budget)
    ensures TotalBudgeted(CreateBudget(s, Ok(b)).state) == TotalBudgeted(s) + b.budgetAmount
    ensures TotalSpent(CreateBudget(s, Ok(b)).state) == TotalSpent(s) + b.spentAmount
  {
    SumAppend(s.budgets, [b], BudgetAmount);
    SumAppend(s.budgets, [b], SpentAmount);
  }

  /** An update that replaces a held budget moves `totalBudgeted` by the
      difference between the new and the old amount. */
  lemma UpdateShiftsTotal(s: BudgetState, i: int, b: Budget)
    requires IsFirstMatch(s.budgets, BudgetId, b.id, i)
    ensures TotalBudgeted(UpdateBudget(s, b.id, Ok(b)).state)
         == TotalBudgeted(s) - s.budgets[i].budgetAmount + b.budgetAmount
  {
    SumUpdate(s.budgets, i, b, BudgetAmount);
  }

  /** Deleting a budget the store just created, under an id no older budget
      had, gives back the budgets held before the create. */
  lemma CreateThenDelete(s: BudgetState, b: Budget)
    requires Absent(s.budgets, BudgetId, b.id)
    ensures DeleteBudget(CreateBudget(s, Ok(b)).state, b.id, Ok(())).state.budgets == s.budgets
  {
    AppendThenRemove(s.budgets, BudgetId, b);
  }

  /** Deleting twice is the same as deleting once. */
  lemma DeleteIdempotent(s: BudgetState, id: string)
    ensures var once := DeleteBudget(s, id, Ok(())).state;
      DeleteBudget(once, id, Ok(())).state == once
  {
    RemoveAllIdempotent(s.budgets, BudgetId, id);
  }

  /** A fresh store is idle, holds no error and no selection, and every
      view of it is empty and every total 0. */
  lemma FreshStoreIsEmpty(now: int)
    ensures !Initial.loading && Initial.error.None? && Initial.currentBudget.None? && Initial.analytics.None?
    ensures Initial.categories == []
    ensures ActiveBudgets(Initial, now) == [] && ExceededBudgets(Initial) == [] && WarningBudgets(Initial) == []
    ensures TotalBudgeted(Initial) == 0 && TotalSpent(Initial) == 0
  {
  }
}
