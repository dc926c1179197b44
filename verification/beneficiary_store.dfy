/** The beneficiary store: beneficiaries, the selected beneficiary and the
    loading/error pair. */
module BeneficiaryStore {
  import opened Wrappers
  import opened SeqOps
  import opened Fetching
  import opened BeneficiaryModel

  datatype BeneficiaryState = BeneficiaryState(
    beneficiaries: seq<Beneficiary>,
    currentBeneficiary: Option<Beneficiary>,
    loading: bool,
    error: Option<string>)

  const Initial := BeneficiaryState([], None, false, None)

  const FetchBeneficiariesFailed := "Failed to fetch beneficiaries"
  const AddBeneficiaryFailed := "Failed to add beneficiary"

  function BeneficiaryId(b: Beneficiary): string { b.id }

  predicate IsVerified(b: Beneficiary) { b.isVerified }
  predicate IsPersonal(b: Beneficiary) { b.beneficiaryType == Personal }
  predicate IsBusiness(b: Beneficiary) { b.beneficiaryType == Business }

  /* Getters */

  function VerifiedBeneficiaries(s: BeneficiaryState): (r: seq<Beneficiary>)
    ensures Filtered(s.beneficiaries, r, IsVerified)
  {
    FilterFiltered(s.beneficiaries, IsVerified);
    Filter(s.beneficiaries, IsVerified)
  }

  function PersonalBeneficiaries(s: BeneficiaryState): (r: seq<Beneficiary>)
    ensures Filtered(s.beneficiaries, r, IsPersonal)
  {
    FilterFiltered(s.beneficiaries, IsPersonal);
    Filter(s.beneficiaries, IsPersonal)
  }

  function BusinessBeneficiaries(s: BeneficiaryState): (r: seq<Beneficiary>)
    ensures Filtered(s.beneficiaries, r, IsBusiness)
  {
    FilterFiltered(s.beneficiaries, IsBusiness);
    Filter(s.beneficiaries, IsBusiness)
  }

  /* Actions */

  function FetchBeneficiaries(s: BeneficiaryState, o: Outcome<seq<Beneficiary>>): (s': BeneficiaryState)
    ensures !s'.loading
    ensures o.Ok? ==> s'.beneficiaries == o.value && s'.error == None
    ensures o.Err? ==> s'.beneficiaries == s.beneficiaries && s'.error == Some("Failed to fetch beneficiaries")
    ensures s'.currentBeneficiary == s.currentBeneficiary
  {
    var f := Guarded(s.beneficiaries, o, FetchBeneficiariesFailed);
    s.(beneficiaries := f.value, loading := f.loading, error := f.error)
  }

  /** `addBeneficiary(request)`: the new beneficiary goes to the end. */
  function AddBeneficiary(s: BeneficiaryState, o: Outcome<Beneficiary>): (r: Step<BeneficiaryState, Beneficiary>)
    ensures !r.state.loading
    ensures o.Ok? ==> && r.reply == Returned(o.value)
                      && Appended(s.beneficiaries, r.state.beneficiaries, o.value)
                      && r.state.error == None
    ensures o.Err? ==> && r.reply == Rethrown
                       && r.state.beneficiaries == s.beneficiaries
                       && r.state.error == Some("Failed to add beneficiary")
    ensures r.state.currentBeneficiary == s.currentBeneficiary
  {
    match o
    case Ok(b) => Step(s.(beneficiaries := Append(s.beneficiaries, b), loading := false, error := None), Returned(b))
    case Err => Step(s.(loading := false, error := Some(AddBeneficiaryFailed)), Rethrown)
  }

  /** `updateBeneficiary(id, partial)`: in-place replacement by id, no bookkeeping. */
  function UpdateBeneficiary(s: BeneficiaryState, id: string, o: Outcome<Beneficiary>): (r: Step<BeneficiaryState, Beneficiary>)
    ensures o.Err? ==> r == Step(s, Rethrown)
    ensures o.Ok? ==> && r.reply == Returned(o.value)
                      && ReplacedFirst(s.beneficiaries, r.state.beneficiaries, BeneficiaryId, id, o.value)
                      && r.state == s.(beneficiaries := r.state.beneficiaries)
  {
    match o
    case Ok(b) => Step(s.(beneficiaries := ReplaceFirstById(s.beneficiaries, BeneficiaryId, id, b)), Returned(b))
    case Err => Step(s, Rethrown)
  }

  /** `deleteBeneficiary(id)`: every beneficiary with that id goes. */
  function DeleteBeneficiary(s: BeneficiaryState, id: string, o: Outcome<()>): (r: Step<BeneficiaryState, ()>)
    ensures o.Err? ==> r == Step(s, Rethrown)
    ensures o.Ok? ==> && r.reply == Returned(())
                      && RemovedAll(s.beneficiaries, r.state.beneficiaries, BeneficiaryId, id)
                      && r.state == s.(beneficiaries := r.state.beneficiaries)
  {
    match o
    case Ok(_) => Step(s.(beneficiaries := RemoveAllById(s.beneficiaries, BeneficiaryId, id)), Returned(()))
    case Err => Step(s, Rethrown)
  }

  /** `searchBeneficiaries(query)`: the results overwrite the whole list; a
      failure is only logged and changes nothing. */
  function SearchBeneficiaries(s: BeneficiaryState, o: Outcome<seq<Beneficiary>>): (s': BeneficiaryState)
    ensures o.Ok? ==> s' == s.(beneficiaries := o.value)
    ensures o.Err? ==> s' == s
  {
    s.(beneficiaries := Quiet(s.beneficiaries, o))
  }

  /* Properties */

  /** Every beneficiary is personal or business, so the two views split the
      list: together they hold each entry exactly as often as the list does. */
  lemma TypeViewsPartition(s: BeneficiaryState)
    ensures multiset(PersonalBeneficiaries(s)) + multiset(BusinessBeneficiaries(s)) == multiset(s.beneficiaries)
    ensures |PersonalBeneficiaries(s)| + |BusinessBeneficiaries(s)| == |s.beneficiaries|
  {
    FilterPartition(s.beneficiaries, IsPersonal, IsBusiness);
  }

  /** Deleting a beneficiary just added, under an id no older entry had,
      gives back the list held before the add. */
  lemma AddThenDelete(s: BeneficiaryState, b: Beneficiary)
    requires Absent(s.beneficiaries, BeneficiaryId, b.id)
    ensures DeleteBeneficiary(AddBeneficiary(s, Ok(b)).state, b.id, Ok(())).state.beneficiaries == s.beneficiaries
  {
    AppendThenRemove(s.beneficiaries, BeneficiaryId, b);
  }

  /** A fresh store is idle, holds no error and no selection, and every
      view of it is empty and every total 0. */
  lemma FreshStoreIsEmpty()
    ensures !Initial.loading && Initial.error.None? && Initial.currentBeneficiary.None?
    ensures VerifiedBeneficiaries(Initial) == [] && PersonalBeneficiaries(Initial) == [] && BusinessBeneficiaries(Initial) == []
  {
  }
}
