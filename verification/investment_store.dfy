/** The investment store: the portfolio, the held investments, the selected
    investment, the trades of one investment and the loading/error pair. */
module InvestmentStore {
  import opened Wrappers
  import opened SeqOps
  import opened Fetching
  import opened InvestmentModel

  datatype InvestmentState = InvestmentState(
    portfolio: Option<Portfolio>,
    investments: seq<Investment>,
    currentInvestment: Option<Investment>,
    transactions: seq<InvestmentTransaction>,
    loading: bool,
    error: Option<string>)

  const Initial := InvestmentState(None, [], None, [], false, None)

  const FetchPortfolioFailed := "Failed to fetch portfolio"
  const FetchTransactionsFailed := "Failed to fetch investment transactions"
  const BuyInvestmentFailed := "Failed to buy investment"

  predicate IsProfitable(i: Investment) { i.totalGainLoss > 0 }
  predicate IsLosing(i: Investment) { i.totalGainLoss < 0 }

  /* Getters */

  /** `portfolio?.totalValue || 0`. */
  function TotalValue(s: InvestmentState): (r: int)
    ensures s.portfolio.None? ==> r == 0
    ensures s.portfolio.Some? ==> r == s.portfolio.value.totalValue
  {
    match s.portfolio
    case Some(p) => p.totalValue
    case None => 0
  }

  /** `portfolio?.totalGainLoss || 0`. */
  function TotalGainLoss(s: InvestmentState): (r: int)
    ensures s.portfolio.None? ==> r == 0
    ensures s.portfolio.Some? ==> r == s.portfolio.value.totalGainLoss
  {
    match s.portfolio
    case Some(p) => p.totalGainLoss
    case None => 0
  }

  /** `portfolio?.percentageReturn || 0`. */
  function PercentageReturn(s: InvestmentState): (r: int)
    ensures s.portfolio.None? ==> r == 0
    ensures s.portfolio.Some? ==> r == s.portfolio.value.percentageReturn
  {
    match s.portfolio
    case Some(p) => p.percentageReturn
    case None => 0
  }

  function ProfitableInvestments(s: InvestmentState): (r: seq<Investment>)
    ensures Filtered(s.investments, r, IsProfitable)
  {
    FilterFiltered(s.investments, IsProfitable);
    Filter(s.investments, IsProfitable)
  }

  function LosingInvestments(s: InvestmentState): (r: seq<Investment>)
    ensures Filtered(s.investments, r, IsLosing)
  {
    FilterFiltered(s.investments, IsLosing);
    Filter(s.investments, IsLosing)
  }

  /* Actions */

  /** `fetchPortfolio`: on success both the portfolio and the investment list
      come from the response. */
  function FetchPortfolio(s: InvestmentState, o: Outcome<Portfolio>): (s': InvestmentState)
    ensures !s'.loading
    ensures o.Ok? ==> s'.portfolio == Some(o.value) && s'.investments == o.value.investments && s'.error == None
    ensures o.Err? ==> && s'.portfolio == s.portfolio && s'.investments == s.investments
                       && s'.error == Some("Failed to fetch portfolio")
    ensures s'.currentInvestment == s.currentInvestment && s'.transactions == s.transactions
  {
    match o
    case Ok(p) => s.(portfolio := Some(p), investments := p.investments, loading := false, error := None)
    case Err => s.(loading := false, error := Some(FetchPortfolioFailed))
  }

  /** `fetchInvestmentTransactions(id)`; the id only goes to the service. */
  function FetchInvestmentTransactions(s: InvestmentState, o: Outcome<seq<InvestmentTransaction>>): (s': InvestmentState)
    ensures !s'.loading
    ensures o.Ok? ==> s'.transactions == o.value && s'.error == None
    ensures o.Err? ==> s'.transactions == s.transactions && s'.error == Some("Failed to fetch investment transactions")
    ensures s' == s.(transactions := s'.transactions, loading := s'.loading, error := s'.error)
  {
    var f := Guarded(s.transactions, o, FetchTransactionsFailed);
    s.(transactions := f.value, loading := f.loading, error := f.error)
  }

  /** `buyInvestment(symbol, quantity, accountId)`: `o` is the purchase's
      answer, `refresh` the answer of the portfolio re-fetch that follows a
      success. The bought investment is pushed onto the list, then the
      re-fetch either overwrites the list or leaves the pushed entry in place. */
  function BuyInvestment(s: InvestmentState, o: Outcome<Investment>, refresh: Outcome<Portfolio>): (r: Step<InvestmentState, Investment>)
    ensures !r.state.loading
    ensures o.Err? ==> && r.reply == Rethrown
                       && r.state == s.(loading := false, error := Some("Failed to buy investment"))
    ensures o.Ok? ==> r.reply == Returned(o.value)
    ensures o.Ok? && refresh.Ok? ==> && r.state.investments == refresh.value.investments
                                     && r.state.portfolio == Some(refresh.value)
                                     && r.state.error == None
    ensures o.Ok? && refresh.Err? ==> && Appended(s.investments, r.state.investments, o.value)
                                      && r.state.portfolio == s.portfolio
                                      && r.state.error == Some("Failed to fetch portfolio")
    ensures r.state.currentInvestment == s.currentInvestment && r.state.transactions == s.transactions
  {
    match o
    case Ok(i) =>
      var pushed := s.(investments := Append(s.investments, i), loading := true, error := None);
      Step(FetchPortfolio(pushed, refresh).(loading := false), Returned(i))
    case Err => Step(s.(loading := false, error := Some(BuyInvestmentFailed)), Rethrown)
  }

  /** `sellInvestment(id, quantity)`: no local edit of the list; the state
      changes only through the portfolio re-fetch after a successful sale. */
  function SellInvestment(s: InvestmentState, o: Outcome<InvestmentTransaction>, refresh: Outcome<Portfolio>): (r: Step<InvestmentState, InvestmentTransaction>)
    ensures o.Err? ==> r == Step(s, Rethrown)
    ensures o.Ok? ==> r.reply == Returned(o.value) && !r.state.loading
    ensures o.Ok? && refresh.Ok? ==> && r.state.investments == refresh.value.investments
                                     && r.state.portfolio == Some(refresh.value)
                                     && r.state.error == None
    ensures o.Ok? && refresh.Err? ==> && r.state.investments == s.investments
                                      && r.state.portfolio == s.portfolio
                                      && r.state.error == Some("Failed to fetch portfolio")
    ensures r.state.currentInvestment == s.currentInvestment && r.state.transactions == s.transactions
  {
    match o
    case Ok(t) => Step(FetchPortfolio(s, refresh), Returned(t))
    case Err => Step(s, Rethrown)
  }

  function SetCurrentInvestment(s: InvestmentState, investment: Option<Investment>): (s': InvestmentState)
    ensures s'.currentInvestment == investment
    ensures s'.portfolio == s.portfolio && s'.investments == s.investments && s'.transactions == s.transactions
    ensures s'.loading == s.loading && s'.error == s.error
  {
    s.(currentInvestment := investment)
  }

  /* Properties */

  /** Profitable and losing investments are disjoint, and an investment with
      zero gain is in neither view. */
  lemma GainViewsDisjoint(s: InvestmentState)
    ensures forall i | i in ProfitableInvestments(s) :: i !in LosingInvestments(s)
    ensures forall i | i in s.investments && i.totalGainLoss == 0 ::
      i !in ProfitableInvestments(s) && i !in LosingInvestments(s)
  {
  }

  /** Before any portfolio has been fetched the three portfolio figures read 0. */
  lemma FiguresWithoutPortfolio(s: InvestmentState)
    requires s.portfolio.None?
    ensures TotalValue(s) == 0 && TotalGainLoss(s) == 0 && PercentageReturn(s) == 0
  {
  }

  /** After a successful portfolio fetch the three figures are the fetched
      portfolio's own, whatever was held before. */
  lemma FiguresFollowFetchedPortfolio(s: InvestmentState, p: Portfolio)
    ensures var s' := FetchPortfolio(s, Ok(p));
      && TotalValue(s') == p.totalValue
      && TotalGainLoss(s') == p.totalGainLoss
      && PercentageReturn(s') == p.percentageReturn
  {
  }

  /** A purchase whose refresh succeeds leaves no trace of the locally pushed
      entry: the result is the same as fetching the portfolio directly. */
  lemma BuyThenRefreshIsFetch(s: InvestmentState, i: Investment, p: Portfolio)
    ensures BuyInvestment(s, Ok(i), Ok(p)).state == FetchPortfolio(s, Ok(p))
  {
  }

  /** A fresh store is idle, holds no error and no selection, and every
      view of it is empty and every total 0. */
  lemma FreshStoreIsEmpty()
    ensures !Initial.loading && Initial.error.None? && Initial.currentInvestment.None? && Initial.transactions == []
    ensures ProfitableInvestments(Initial) == [] && LosingInvestments(Initial) == []
    ensures TotalValue(Initial) == 0 && TotalGainLoss(Initial) == 0 && PercentageReturn(Initial) == 0
  {
  }
}
