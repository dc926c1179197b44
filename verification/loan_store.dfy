/** The loan store: loans, loan applications, the selected loan, the
    payments of one loan and the loading/error pair. */
module LoanStore {
  import opened Wrappers
  import opened SeqOps
  import opened Fetching
  import opened LoanModel

  datatype LoanState = LoanState(
    loans: seq<Loan>,
    applications: seq<LoanApplication>,
    currentLoan: Option<Loan>,
    loanPayments: seq<LoanPayment>,
    loading: bool,
    error: Option<string>)

  const Initial := LoanState([], [], None, [], false, None)

  const FetchLoansFailed := "Failed to fetch loans"
  const ApplyForLoanFailed := "Failed to submit loan application"
  const FetchLoanPaymentsFailed := "Failed to fetch loan payments"

  function OutstandingBalance(l: Loan): int { l.outstandingBalance }
  function MonthlyPayment(l: Loan): int { l.monthlyPayment }

  /** What a loan adds to `totalMonthlyPayment`: its instalment if active, nothing otherwise. */
  function MonthlyPaymentShare(l: Loan): int {
    if l.status == Active then l.monthlyPayment else 0
  }

  predicate IsActiveLoan(l: Loan) { l.status == Active }

  predicate IsPendingApplication(a: LoanApplication) {
    a.status == Some(Submitted) || a.status == Some(UnderReview)
  }

  /* Getters */

  function ActiveLoans(s: LoanState): (r: seq<Loan>)
    ensures Filtered(s.loans, r, IsActiveLoan)
  {
    FilterFiltered(s.loans, IsActiveLoan);
    Filter(s.loans, IsActiveLoan)
  }

  /** Sum of the outstanding balances of every loan, whatever its status. */
  function TotalOutstanding(s: LoanState): (r: int)
    ensures r == Sum(s.loans, OutstandingBalance)
  {
    Reduce(s.loans, OutstandingBalance, 0)
  }

  /** Sum of the monthly instalments of the active loans only. */
  function TotalMonthlyPayment(s: LoanState): (r: int)
    ensures r == Sum(s.loans, MonthlyPaymentShare)
  {
    SumFilterMasked(s.loans, IsActiveLoan, MonthlyPayment, MonthlyPaymentShare);
    Reduce(Filter(s.loans, IsActiveLoan), MonthlyPayment, 0)
  }

  /** The applications submitted or under review; one without a status is not pending. */
  function PendingApplications(s: LoanState): (r: seq<LoanApplication>)
    ensures Filtered(s.applications, r, IsPendingApplication)
    ensures forall a | a in r :: a.status.Some?
  {
    FilterFiltered(s.applications, IsPendingApplication);
    Filter(s.applications, IsPendingApplication)
  }

  /* Actions */

  function FetchLoans(s: LoanState, o: Outcome<seq<Loan>>): (s': LoanState)
    ensures !s'.loading
    ensures o.Ok? ==> s'.loans == o.value && s'.error == None
    ensures o.Err? ==> s'.loans == s.loans && s'.error == Some("Failed to fetch loans")
    ensures s' == s.(loans := s'.loans, loading := s'.loading, error := s'.error)
  {
    var f := Guarded(s.loans, o, FetchLoansFailed);
    s.(loans := f.value, loading := f.loading, error := f.error)
  }

  function FetchLoanApplications(s: LoanState, o: Outcome<seq<LoanApplication>>): (s': LoanState)
    ensures o.Ok? ==> s' == s.(applications := o.value)
    ensures o.Err? ==> s' == s
  {
    s.(applications := Quiet(s.applications, o))
  }

  /** `applyForLoan(application)`: the stored application goes to the front
      of the applications; the loans are not touched. */
  function ApplyForLoan(s: LoanState, o: Outcome<LoanApplication>): (r: Step<LoanState, LoanApplication>)
    ensures !r.state.loading
    ensures o.Ok? ==> && r.reply == Returned(o.value)
                      && Prepended(s.applications, r.state.applications, o.value)
                      && r.state.error == None
    ensures o.Err? ==> && r.reply == Rethrown
                       && r.state.applications == s.applications
                       && r.state.error == Some("Failed to submit loan application")
    ensures r.state == s.(applications := r.state.applications, loading := r.state.loading, error := r.state.error)
  {
    match o
    case Ok(a) => Step(s.(applications := Prepend(s.applications, a), loading := false, error := None), Returned(a))
    case Err => Step(s.(loading := false, error := Some(ApplyForLoanFailed)), Rethrown)
  }

  /** `fetchLoanPayments(loanId)`; the loan id only goes to the service. */
  function FetchLoanPayments(s: LoanState, o: Outcome<seq<LoanPayment>>): (s': LoanState)
    ensures !s'.loading
    ensures o.Ok? ==> s'.loanPayments == o.value && s'.error == None
    ensures o.Err? ==> s'.loanPayments == s.loanPayments && s'.error == Some("Failed to fetch loan payments")
    ensures s' == s.(loanPayments := s'.loanPayments, loading := s'.loading, error := s'.error)
  {
    var f := Guarded(s.loanPayments, o, FetchLoanPaymentsFailed);
    s.(loanPayments := f.value, loading := f.loading, error := f.error)
  }

  /** `makePayment(loanId, amount)`: `o` is the payment service's answer and
      `refresh` the answer of the loan re-fetch that follows a success. The
      re-fetch never throws, so a recorded payment is returned even when the
      re-fetch fails; a failed payment changes nothing and is re-thrown. */
  function MakePayment(s: LoanState, o: Outcome<LoanPayment>, refresh: Outcome<seq<Loan>>): (r: Step<LoanState, LoanPayment>)
    ensures o.Err? ==> r == Step(s, Rethrown)
    ensures o.Ok? ==> && r.reply == Returned(o.value)
                      && Prepended(s.loanPayments, r.state.loanPayments, o.value)
                      && !r.state.loading
    ensures o.Ok? && refresh.Ok? ==> r.state.loans == refresh.value && r.state.error == None
    ensures o.Ok? && refresh.Err? ==> r.state.loans == s.loans && r.state.error == Some("Failed to fetch loans")
    ensures r.state.applications == s.applications && r.state.currentLoan == s.currentLoan
  {
    match o
    case Ok(p) => Step(FetchLoans(s.(loanPayments := Prepend(s.loanPayments, p)), refresh), Returned(p))
    case Err => Step(s, Rethrown)
  }

  function SetCurrentLoan(s: LoanState, loan: Option<Loan>): (s': LoanState)
    ensures s'.currentLoan == loan
    ensures s'.loans == s.loans && s'.applications == s.applications && s'.loanPayments == s.loanPayments
    ensures s'.loading == s.loading && s'.error == s.error
  {
    s.(currentLoan := loan)
  }

  /* Properties */

  /** The monthly total and the outstanding total differ in scope: only the
      active loans pay instalments, but every loan's balance is outstanding.
      Adding a loan that is not active leaves the monthly total unchanged and
      raises the outstanding total by its balance. */
  lemma InactiveLoanCountsOnlyAsOutstanding(s: LoanState, l: Loan)
    requires l.status != Active
    ensures TotalMonthlyPayment(s.(loans := s.loans + [l])) == TotalMonthlyPayment(s)
    ensures TotalOutstanding(s.(loans := s.loans + [l])) == TotalOutstanding(s) + l.outstandingBalance
  {
    SumAppend(s.loans, [l], MonthlyPaymentShare);
    SumAppend(s.loans, [l], OutstandingBalance);
  }

  /** An application with no status is never pending. */
  lemma StatuslessApplicationNotPending(s: LoanState, a: LoanApplication)
    requires a.status.None?
    ensures a !in PendingApplications(s)
  {
  }

  /** A fresh store is idle, holds no error and no selection, and every
      view of it is empty and every total 0. */
  lemma FreshStoreIsEmpty()
    ensures !Initial.loading && Initial.error.None? && Initial.currentLoan.None? && Initial.loanPayments == []
    ensures ActiveLoans(Initial) == [] && PendingApplications(Initial) == []
    ensures TotalOutstanding(Initial) == 0 && TotalMonthlyPayment(Initial) == 0
  {
  }
}
