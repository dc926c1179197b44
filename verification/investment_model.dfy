/** Investment, portfolio and investment transaction entities. */
module InvestmentModel {

  datatype InvestmentType = Stock | Bond | MutualFund | Etf | Crypto

  datatype Investment = Investment(
    id: string,
    accountId: string,
    symbol: string,
    name: string,
    investmentType: InvestmentType,
    quantity: int,
    purchasePrice: int,
    currentPrice: int,
    purchaseDate: int,
    currentValue: int,
    totalGainLoss: int,
    percentageChange: int)

  datatype Diversification = Diversification(
    stocks: int,
    bonds: int,
    mutualFunds: int,
    etfs: int,
    crypto: int)

  datatype Portfolio = Portfolio(
    totalValue: int,
    totalInvested: int,
    totalGainLoss: int,
    percentageReturn: int,
    investments: seq<Investment>,
    diversification: Diversification)

  datatype TradeType = Buy | Sell

  datatype InvestmentTransaction = InvestmentTransaction(
    id: string,
    investmentId: string,
    tradeType: TradeType,
    quantity: int,
    pricePerUnit: int,
    totalAmount: int,
    fees: int,
    date: int)
}
