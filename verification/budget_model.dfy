/** Budget entities, budget categories and spending analytics. The model
    represents percentages and thresholds as integers in a fixed scale. */
module BudgetModel {
  import opened Wrappers

  datatype BudgetPeriod = Weekly | Monthly | Quarterly | Yearly
  datatype BudgetStatus = OnTrack | Warning | Exceeded

  datatype Budget = Budget(
    id: string,
    accountId: string,
    category: string,
    budgetAmount: int,
    spentAmount: int,
    period: BudgetPeriod,
    startDate: int,
    endDate: int,
    alertThreshold: int,
    status: BudgetStatus)

  datatype BudgetCategory = BudgetCategory(
    name: string,
    icon: string,
    color: string,
    defaultAmount: Option<int>)

  datatype CategoryShare = CategoryShare(category: string, amount: int, percentage: int)
  datatype MonthlyAmount = MonthlyAmount(month: string, amount: int)
  datatype MerchantTotal = MerchantTotal(name: string, amount: int, count: int)

  datatype SpendingAnalytics = SpendingAnalytics(
    totalSpending: int,
    categoryBreakdown: seq<CategoryShare>,
    monthlyComparison: seq<MonthlyAmount>,
    topMerchants: seq<MerchantTotal>)
}
