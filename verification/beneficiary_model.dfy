/** Beneficiary entities. Only the stored record is modelled; the request
    payload goes to the service alone. */
module BeneficiaryModel {
  import opened Wrappers

  datatype BeneficiaryType = Personal | Business

  datatype Beneficiary = Beneficiary(
    id: string,
    name: string,
    accountNumber: string,
    bankName: string,
    bankCode: Option<string>,
    swiftCode: Option<string>,
    iban: Option<string>,
    email: Option<string>,
    phone: Option<string>,
    beneficiaryType: BeneficiaryType,
    country: string,
    currency: string,
    isVerified: bool,
    addedDate: int,
    lastUsed: Option<int>,
    nickname: Option<string>)
}
