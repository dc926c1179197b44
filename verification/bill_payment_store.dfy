/** The bill payment store: billers, payments, scheduled payments, the
    selected payment and the loading/error pair. */
module BillPaymentStore {
  import opened Wrappers
  import opened SeqOps
  import opened Fetching
  import opened BillPaymentModel

  datatype BillPaymentState = BillPaymentState(
    billers: seq<Biller>,
    payments: seq<BillPayment>,
    scheduledPayments: seq<BillPayment>,
    currentPayment: Option<BillPayment>,
    loading: bool,
    error: Option<string>)

  const Initial := BillPaymentState([], [], [], None, false, None)

  const FetchBillersFailed := "Failed to fetch billers"
  const FetchPaymentsFailed := "Failed to fetch payments"
  const CreatePaymentFailed := "Failed to create payment"

  function PaymentId(p: BillPayment): string { p.id }

  predicate IsPaid(p: BillPayment) { p.status == Paid }
  predicate IsOverdue(p: BillPayment) { p.status == Overdue }
  predicate IsUpcoming(p: BillPayment) { p.status == Scheduled }
  predicate IsRecurring(p: BillPayment) { p.recurring }

  /* Getters */

  function PaidBills(s: BillPaymentState): (r: seq<BillPayment>)
    ensures Filtered(s.payments, r, IsPaid)
  {
    FilterFiltered(s.payments, IsPaid);
    Filter(s.payments, IsPaid)
  }

  function OverdueBills(s: BillPaymentState): (r: seq<BillPayment>)
    ensures Filtered(s.payments, r, IsOverdue)
  {
    FilterFiltered(s.payments, IsOverdue);
    Filter(s.payments, IsOverdue)
  }

  function UpcomingBills(s: BillPaymentState): (r: seq<BillPayment>)
    ensures Filtered(s.payments, r, IsUpcoming)
  {
    FilterFiltered(s.payments, IsUpcoming);
    Filter(s.payments, IsUpcoming)
  }

  function RecurringPayments(s: BillPaymentState): (r: seq<BillPayment>)
    ensures Filtered(s.payments, r, IsRecurring)
  {
    FilterFiltered(s.payments, IsRecurring);
    Filter(s.payments, IsRecurring)
  }

  /* Actions */

  function FetchBillers(s: BillPaymentState, o: Outcome<seq<Biller>>): (s': BillPaymentState)
    ensures !s'.loading
    ensures o.Ok? ==> s'.billers == o.value && s'.error == None
    ensures o.Err? ==> s'.billers == s.billers && s'.error == Some("Failed to fetch billers")
    ensures s' == s.(billers := s'.billers, loading := s'.loading, error := s'.error)
  {
    var f := Guarded(s.billers, o, FetchBillersFailed);
    s.(billers := f.value, loading := f.loading, error := f.error)
  }

  /** `searchBillers(query)`: overwrites the billers on success, only logs a failure. */
  function SearchBillers(s: BillPaymentState, o: Outcome<seq<Biller>>): (s': BillPaymentState)
    ensures o.Ok? ==> s' == s.(billers := o.value)
    ensures o.Err? ==> s' == s
  {
    s.(billers := Quiet(s.billers, o))
  }

  function FetchPayments(s: BillPaymentState, o: Outcome<seq<BillPayment>>): (s': BillPaymentState)
    ensures !s'.loading
    ensures o.Ok? ==> s'.payments == o.value && s'.error == None
    ensures o.Err? ==> s'.payments == s.payments && s'.error == Some("Failed to fetch payments")
    ensures s' == s.(payments := s'.payments, loading := s'.loading, error := s'.error)
  {
    var f := Guarded(s.payments, o, FetchPaymentsFailed);
    s.(payments := f.value, loading := f.loading, error := f.error)
  }

  function FetchScheduledPayments(s: BillPaymentState, o: Outcome<seq<BillPayment>>): (s': BillPaymentState)
    ensures o.Ok? ==> s' == s.(scheduledPayments := o.value)
    ensures o.Err? ==> s' == s
  {
    s.(scheduledPayments := Quiet(s.scheduledPayments, o))
  }

  /** `createPayment(request)`: the new payment goes to the front. */
  function CreatePayment(s: BillPaymentState, o: Outcome<BillPayment>): (r: Step<BillPaymentState, BillPayment>)
    ensures !r.state.loading
    ensures o.Ok? ==> && r.reply == Returned(o.value)
                      && Prepended(s.payments, r.state.payments, o.value)
                      && r.state.error == None
    ensures o.Err? ==> && r.reply == Rethrown
                       && r.state.payments == s.payments
                       && r.state.error == Some("Failed to create payment")
    ensures r.state == s.(payments := r.state.payments, loading := r.state.loading, error := r.state.error)
  {
    match o
    case Ok(p) => Step(s.(payments := Prepend(s.payments, p), loading := false, error := None), Returned(p))
    case Err => Step(s.(loading := false, error := Some(CreatePaymentFailed)), Rethrown)
  }

  /** How both payment update actions settle: the service's payment replaces
      the first held payment with that id in place (nothing changes for an
      absent id) and is returned; a failure is re-thrown with the state as it
      was. `loading` and `error` are never touched. */
  ghost predicate PaymentUpdateSettled(s: BillPaymentState, id: string, o: Outcome<BillPayment>, r: Step<BillPaymentState, BillPayment>) {
    && (o.Err? ==> r == Step(s, Rethrown))
    && (o.Ok? ==> && r.reply == Returned(o.value)
                  && ReplacedFirst(s.payments, r.state.payments, PaymentId, id, o.value)
                  && r.state == s.(payments := r.state.payments))
  }

  function ReplacePayment(s: BillPaymentState, id: string, o: Outcome<BillPayment>): Step<BillPaymentState, BillPayment> {
    match o
    case Ok(p) => Step(s.(payments := ReplaceFirstById(s.payments, PaymentId, id, p)), Returned(p))
    case Err => Step(s, Rethrown)
  }

  function CancelPayment(s: BillPaymentState, id: string, o: Outcome<BillPayment>): (r: Step<BillPaymentState, BillPayment>)
    ensures PaymentUpdateSettled(s, id, o, r)
  {
    ReplacePayment(s, id, o)
  }

  /** `updateAutoPay(id, enabled)`; the flag only goes to the service. */
  function UpdateAutoPay(s: BillPaymentState, id: string, o: Outcome<BillPayment>): (r: Step<BillPaymentState, BillPayment>)
    ensures PaymentUpdateSettled(s, id, o, r)
  {
    ReplacePayment(s, id, o)
  }

  /* Properties */

  /** Paid, overdue and upcoming bills are pairwise disjoint, and a cancelled
      payment is in none of them. */
  lemma StatusViewsDisjoint(s: BillPaymentState)
    ensures forall p | p in PaidBills(s) :: p !in OverdueBills(s) && p !in UpcomingBills(s)
    ensures forall p | p in OverdueBills(s) :: p !in UpcomingBills(s)
    ensures forall p | p in s.payments && p.status == Cancelled ::
      p !in PaidBills(s) && p !in OverdueBills(s) && p !in UpcomingBills(s)
  {
  }

  /** Cancelling a payment right after creating it rewrites the front entry
      and leaves the older payments where they were: the created payment is
      the first match for its id, whether or not an older payment shares it. */
  lemma CreateThenCancel(s: BillPaymentState, created: BillPayment, cancelled: BillPayment)
    ensures var after := CancelPayment(CreatePayment(s, Ok(created)).state, created.id, Ok(cancelled)).state;
      after.payments == [cancelled] + s.payments
  {
    var ps := CreatePayment(s, Ok(created)).state.payments;
    assert IsFirstMatch(ps, PaymentId, created.id, 0);
    assert ps[0 := cancelled] == [cancelled] + s.payments;
  }

  /** A fresh store is idle, holds no error and no selection, and every
      view of it is empty and every total 0. */
  lemma FreshStoreIsEmpty()
    ensures !Initial.loading && Initial.error.None? && Initial.currentPayment.None?
    ensures Initial.billers == [] && Initial.scheduledPayments == []
    ensures PaidBills(Initial) == [] && OverdueBills(Initial) == [] && UpcomingBills(Initial) == [] && RecurringPayments(Initial) == []
  {
  }
}
