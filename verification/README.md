# Investment simulator ledger, in Dafny

A model of the in-memory trading ledger of `investment_simulator.py`: a fixed
price table of two assets (LKOH at 5896, SBER at 250), a portfolio that holds
cash and a quantity of each asset, and a trader whose `buy` and `sell` either
reject the call with `NotEnoughFundsError` / `InsufficientStocksError` and
leave the portfolio alone, or move cash and one holding together.

The model is functional. A portfolio is an immutable value
(`Portfolios.Portfolio`: `cash: real`, `holdings: map<Asset, int>`), and
`Trading.Buy` / `Trading.Sell` return a `Step`: the portfolio after the call
and an `Outcome`, either `Ok` or `Err` carrying the error kind. Because the
step carries the portfolio after a rejected call too, "a rejected call changes
nothing" is a stated property, not a consequence of the encoding. `Sessions.Run`
strings calls together as one trader working on one portfolio.

Modules, the first three in the order of the source:

- `Assets` (`assets.dfy`): the `AssetPrice` enumeration as `Asset` with `Price`, and its iteration order `AllAssets`.
- `Portfolios` (`portfolio.dfy`): `Portfolio`, its constructor `NewPortfolio`, and `Balance`, the cash plus the sum of price times quantity over the holdings.
- `Trading` (`trader.dfy`): `Buy`, `Sell`, the two error kinds, and the laws of one call.
- `Sessions` (`session.dfy`): not in the source; a caller issuing successive calls on one trader and continuing after a rejection, and the laws that carry over to such a sequence.

Decimal amounts are Dafny `real`, which is exact; quantities are `int`, which
is unbounded like a Python `int`. The trader object holds nothing but its
portfolio, so it is modelled by passing the portfolio to each call.

The code does not check some inputs; the model does what the code does:

- The code does not check that a quantity is positive. A negative buy succeeds whenever the cash is non-negative, and lowers the holding; a negative sell succeeds whenever the holding is not negative, and pays out cash, which can drive the cash below zero. `NegativeBuyGoesShort` and `NegativeSellSpendsCash` state this behaviour. The non-negativity laws carry `quantity >= 0` instead.
- The opening cash is not checked to be non-negative. `NewPortfolio` accepts any amount. `NewPortfolioSound` assumes a non-negative one.

The error kinds are named after the two exception classes, `NotEnoughFundsError` and `InsufficientStocksError` (investment_simulator.py:5-10).

## Model

| member | source | states |
|---|---|---|
| Assets.Price | investment_simulator.py:13-15 | every asset's unit price is strictly positive |
| Assets.AllAssets | investment_simulator.py:13-15 | iterating the enumeration yields every asset, each exactly once |
| Portfolios.NewPortfolio | investment_simulator.py:19-21 | a new portfolio has an entry for every asset, each quantity 0, and exactly the given cash |
| Portfolios.NewPortfolioBalance | investment_simulator.py:19-27 | the balance of a new portfolio equals the cash it was opened with |
| Portfolios.NewPortfolioSound | investment_simulator.py:19-21 | a new portfolio opened with non-negative cash has no debt and no short position |
| Portfolios.ValueOfUpdate | investment_simulator.py:25-27 | changing one holding changes the summed market value by its price times the change, if that asset is summed, and not at all otherwise |
| Portfolios.Revalue | investment_simulator.py:24-27 | setting one holding to a new quantity changes the balance by exactly the market value of the change |
| Portfolios.Balance | investment_simulator.py:23-27 | the balance of a portfolio with an entry for every asset is its cash + 5896 * LKOH quantity + 250 * SBER quantity |
| Trading.Buy | investment_simulator.py:34-42 | a buy succeeds exactly when the cost is at most the cash; a rejection is NotEnoughFunds naming asset and quantity, with the portfolio unchanged; the set of assets with an entry never changes |
| Trading.Sell | investment_simulator.py:44-54 | a sell succeeds exactly when the asset has an entry holding at least the quantity; a rejection is InsufficientStocks naming the asset, with the portfolio unchanged; the set of assets with an entry never changes |
| Trading.BuyEffect | investment_simulator.py:34-42 | a successful buy lowers the cash by exactly price times quantity, raises that asset's holding by exactly the quantity, and leaves every other holding as it was |
| Trading.BuyKeepsCashNonNegative | investment_simulator.py:36-41 | cash is non-negative after any successful buy |
| Trading.SellEffect | investment_simulator.py:44-54 | a successful sell raises the cash by exactly price times quantity, lowers that holding by exactly the quantity to a non-negative value, and leaves every other holding as it was |
| Trading.TradesMoveHoldingsOneWay | investment_simulator.py:41-54 | with a non-negative quantity, a buy never lowers the holding and a sell never raises it |
| Trading.BuyConservesBalance | investment_simulator.py:24-42 | the balance after a buy, accepted or rejected, equals the balance before |
| Trading.SellConservesBalance | investment_simulator.py:44-54 | the balance (cash plus price times quantity summed over holdings, lines 24-27) after a sell, accepted or rejected, equals the balance before |
| Trading.TradesPreserveSound | investment_simulator.py:34-54 | with a non-negative quantity, buy and sell keep cash and every holding non-negative and every asset present |
| Trading.BuyThenSell | investment_simulator.py:34-54 | after a successful buy, selling the same quantity of the same asset always succeeds and restores the original portfolio exactly, if that holding was not negative |
| Trading.SellThenBuy | investment_simulator.py:34-54 | after a successful sell, buying the same quantity back always succeeds and restores the original portfolio exactly, if the cash was not negative |
| Trading.NegativeBuyGoesShort | investment_simulator.py:34-42 | the quantity is not validated: a negative buy by a portfolio with non-negative cash always succeeds, lowers the holding and raises the cash |
| Trading.NegativeSellSpendsCash | investment_simulator.py:44-54 | a negative sell of an asset not held short always succeeds, raises the holding and lowers the cash |
| Trading.ZeroSellAlwaysSucceeds | investment_simulator.py:45-54 | selling zero shares of an asset not held short is accepted and changes nothing |
| Sessions.Execute | investment_simulator.py:30-54 | one trader call keeps an entry for every asset |
| Sessions.Run | investment_simulator.py:30-54 | a session yields one outcome per call, keeps every asset present, and leaves the portfolio untouched if every call was rejected |
| Sessions.RunConservesBalance | investment_simulator.py:24-54 | the balance at the end of any session equals the balance at its start |
| Sessions.RunPreservesSound | investment_simulator.py:34-54 | a session of non-negative orders on a portfolio with no debt and no short position ends with none either |
| Sessions.ExampleSession | investment_simulator.py:19-54 | opening with 100000, buying 10 SBER and selling 5 SBER succeed, leaving cash 98750 and 5 SBER; buying 20 LKOH (cost 117920) is then rejected with NotEnoughFunds; the balance stays 100000 |

## Left out

- Decimal rounding: Python's `Decimal` rounds results to 28 significant digits under its default context. The model's `real` arithmetic is exact, so the round-trip and conservation laws can fail in the source for amounts beyond that precision.
- Error message text: the two errors are result variants that carry the asset, and the quantity for a buy. The formatted strings are not modelled.
- Trading.Buy: requires the asset to have an entry in the holdings. On a portfolio without one, when the cost is at most the cash, the source lowers the cash (line 41) and then fails with a KeyError at line 42; otherwise it raises NotEnoughFundsError as usual. Every portfolio built by the constructor has an entry for every asset, and no call removes one.
- The Enum and Decimal machinery of Python itself: prices are a total function over a two-constructor datatype.
- Aliasing and shared mutation of the portfolio object, and concurrency: the source is single-threaded, and the model passes portfolios by value.
