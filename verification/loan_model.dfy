/** Loan, loan application and loan payment entities. */
module LoanModel {
  import opened Wrappers

  datatype LoanType = Personal | Home | Auto | Business | Student
  datatype LoanStatus = Active | PaidOff | Defaulted | PendingApproval

  datatype Loan = Loan(
    id: string,
    loanType: LoanType,
    accountId: string,
    principalAmount: int,
    outstandingBalance: int,
    interestRate: int,
    term: int,
    monthlyPayment: int,
    startDate: int,
    endDate: int,
    nextPaymentDate: int,
    status: LoanStatus,
    totalPaid: int,
    totalInterestPaid: int,
    remainingPayments: int)

  datatype ApplicationStatus = Draft | Submitted | UnderReview | Approved | Rejected

  datatype LoanApplication = LoanApplication(
    id: Option<string>,
    loanType: LoanType,
    requestedAmount: int,
    term: int,
    purpose: string,
    employmentStatus: string,
    annualIncome: int,
    status: Option<ApplicationStatus>,
    applicationDate: Option<int>)

  datatype LoanPayment = LoanPayment(
    id: string,
    loanId: string,
    amount: int,
    paymentDate: int,
    principalPaid: int,
    interestPaid: int,
    remainingBalance: int)
}
