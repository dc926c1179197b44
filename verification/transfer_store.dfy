/** The transfer store: transfers, scheduled and recurring transfers, the
    selected transfer and the loading/error pair. */
module TransferStore {
  import opened Wrappers
  import opened SeqOps
  import opened Fetching
  import opened TransferModel

  datatype TransferState = TransferState(
    transfers: seq<Transfer>,
    scheduledTransfers: seq<Transfer>,
    recurringTransfers: seq<Transfer>,
    currentTransfer: Option<Transfer>,
    loading: bool,
    error: Option<string>)

  const Initial := TransferState([], [], [], None, false, None)

  const FetchTransfersFailed := "Failed to fetch transfers"
  const CreateTransferFailed := "Failed to create transfer"

  function TransferId(t: Transfer): string { t.id }

  predicate IsCompleted(t: Transfer) { t.status == Completed }
  predicate IsPending(t: Transfer) { t.status == Pending }
  predicate IsInternal(t: Transfer) { t.transferType == Internal }
  predicate IsExternal(t: Transfer) { t.transferType == External }

  /* Getters */

  function CompletedTransfers(s: TransferState): (r: seq<Transfer>)
    ensures Filtered(s.transfers, r, IsCompleted)
  {
    FilterFiltered(s.transfers, IsCompleted);
    Filter(s.transfers, IsCompleted)
  }

  function PendingTransfers(s: TransferState): (r: seq<Transfer>)
    ensures Filtered(s.transfers, r, IsPending)
  {
    FilterFiltered(s.transfers, IsPending);
    Filter(s.transfers, IsPending)
  }

  function InternalTransfers(s: TransferState): (r: seq<Transfer>)
    ensures Filtered(s.transfers, r, IsInternal)
  {
    FilterFiltered(s.transfers, IsInternal);
    Filter(s.transfers, IsInternal)
  }

  function ExternalTransfers(s: TransferState): (r: seq<Transfer>)
    ensures Filtered(s.transfers, r, IsExternal)
  {
    FilterFiltered(s.transfers, IsExternal);
    Filter(s.transfers, IsExternal)
  }

  /* Actions */

  function FetchTransfers(s: TransferState, o: Outcome<seq<Transfer>>): (s': TransferState)
    ensures !s'.loading
    ensures o.Ok? ==> s'.transfers == o.value && s'.error == None
    ensures o.Err? ==> s'.transfers == s.transfers && s'.error == Some("Failed to fetch transfers")
    ensures s' == s.(transfers := s'.transfers, loading := s'.loading, error := s'.error)
  {
    var f := Guarded(s.transfers, o, FetchTransfersFailed);
    s.(transfers := f.value, loading := f.loading, error := f.error)
  }

  function FetchScheduledTransfers(s: TransferState, o: Outcome<seq<Transfer>>): (s': TransferState)
    ensures o.Ok? ==> s' == s.(scheduledTransfers := o.value)
    ensures o.Err? ==> s' == s
  {
    s.(scheduledTransfers := Quiet(s.scheduledTransfers, o))
  }

  function FetchRecurringTransfers(s: TransferState, o: Outcome<seq<Transfer>>): (s': TransferState)
    ensures o.Ok? ==> s' == s.(recurringTransfers := o.value)
    ensures o.Err? ==> s' == s
  {
    s.(recurringTransfers := Quiet(s.recurringTransfers, o))
  }

  /** `createTransfer(request)`: the new transfer goes to the front. */
  function CreateTransfer(s: TransferState, o: Outcome<Transfer>): (r: Step<TransferState, Transfer>)
    ensures !r.state.loading
    ensures o.Ok? ==> && r.reply == Returned(o.value)
                      && Prepended(s.transfers, r.state.transfers, o.value)
                      && r.state.error == None
    ensures o.Err? ==> && r.reply == Rethrown
                       && r.state.transfers == s.transfers
                       && r.state.error == Some("Failed to create transfer")
    ensures r.state == s.(transfers := r.state.transfers, loading := r.state.loading, error := r.state.error)
  {
    match o
    case Ok(t) => Step(s.(transfers := Prepend(s.transfers, t), loading := false, error := None), Returned(t))
    case Err => Step(s.(loading := false, error := Some(CreateTransferFailed)), Rethrown)
  }

  /** `validateTransfer(request)`: passes the service's verdict through and
      touches no state on either outcome. */
  function ValidateTransfer(s: TransferState, o: Outcome<Validation>): (r: Step<TransferState, Validation>)
    ensures r.state == s
    ensures o.Ok? <==> r.reply.Returned?
    ensures o.Ok? ==> r.reply.value == o.value
  {
    match o
    case Ok(v) => Step(s, Returned(v))
    case Err => Step(s, Rethrown)
  }

  /** `cancelTransfer(id)`: in-place replacement by id, no bookkeeping. */
  function CancelTransfer(s: TransferState, id: string, o: Outcome<Transfer>): (r: Step<TransferState, Transfer>)
    ensures o.Err? ==> r == Step(s, Rethrown)
    ensures o.Ok? ==> && r.reply == Returned(o.value)
                      && ReplacedFirst(s.transfers, r.state.transfers, TransferId, id, o.value)
                      && r.state == s.(transfers := r.state.transfers)
  {
    match o
    case Ok(t) => Step(s.(transfers := ReplaceFirstById(s.transfers, TransferId, id, t)), Returned(t))
    case Err => Step(s, Rethrown)
  }

  /* Properties */

  /** Internal and external transfers are disjoint, and an international
      transfer is in neither view. */
  lemma TypeViewsDisjoint(s: TransferState)
    ensures forall t | t in InternalTransfers(s) :: t !in ExternalTransfers(s)
    ensures forall t | t in s.transfers && t.transferType == International ::
      t !in InternalTransfers(s) && t !in ExternalTransfers(s)
  {
  }

  /** Cancelling twice with the same server answer is the same as cancelling once. */
  lemma CancelIdempotent(s: TransferState, t: Transfer)
    ensures var once := CancelTransfer(s, t.id, Ok(t)).state;
      CancelTransfer(once, t.id, Ok(t)).state == once
  {
    ReplaceFirstIdempotent(s.transfers, TransferId, t.id, t);
  }

  /** A fresh store is idle, holds no error and no selection, and every
      view of it is empty and every total 0. */
  lemma FreshStoreIsEmpty()
    ensures !Initial.loading && Initial.error.None? && Initial.currentTransfer.None?
    ensures Initial.scheduledTransfers == [] && Initial.recurringTransfers == []
    ensures CompletedTransfers(Initial) == [] && PendingTransfers(Initial) == []
    ensures InternalTransfers(Initial) == [] && ExternalTransfers(Initial) == []
  {
  }
}
