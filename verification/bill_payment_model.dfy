/** Biller and bill payment entities. */
module BillPaymentModel {
  import opened Wrappers

  datatype BillerCategory = Utilities | Telecom | Insurance | LoanBiller | CreditCard | Subscription | Other

  datatype Biller = Biller(
    id: string,
    name: string,
    category: BillerCategory,
    accountNumber: string,
    logo: Option<string>,
    minAmount: Option<int>,
    maxAmount: Option<int>)

  datatype PaymentStatus = Scheduled | Paid | Overdue | Cancelled
  datatype PaymentFrequency = Weekly | Monthly | Quarterly | Yearly

  datatype BillPayment = BillPayment(
    id: string,
    billerId: string,
    billerName: string,
    accountId: string,
    amount: int,
    dueDate: int,
    paymentDate: Option<int>,
    status: PaymentStatus,
    recurring: bool,
    frequency: Option<PaymentFrequency>,
    autoPayEnabled: bool,
    reference: Option<string>)
}
