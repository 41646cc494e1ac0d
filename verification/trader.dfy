/** The trader: the two guarded mutations of a portfolio. Each call either is
    rejected and leaves the portfolio as it was, or moves cash and one holding
    together. */
module Trading {
  import opened Assets
  import opened Portfolios

  /** The two ways a call can be rejected. Each carries what the error
      message names. */
  datatype TradeError =
    | NotEnoughFunds(asset: Asset, quantity: int)
    | InsufficientStocks(asset: Asset)

  datatype Outcome = Ok | Err(error: TradeError)

  /** The portfolio after a call, and how the call ended. */
  datatype Step = Step(after: Portfolio, outcome: Outcome)

  /** What `quantity` shares of `a` cost at the fixed price. */
  function Cost(a: Asset, quantity: int): real
  {
    Price(a) * quantity as real
  }

  /** The buyer has the cash to pay for the order. */
  predicate CanAfford(p: Portfolio, a: Asset, quantity: int)
  {
    Cost(a, quantity) <= p.cash
  }

  /** The seller holds at least `quantity` shares of `a`. */
  predicate Holds(p: Portfolio, a: Asset, quantity: int)
  {
    a in p.holdings && p.holdings[a] >= quantity
  }

  /** Buying: rejected with NotEnoughFunds when the cost exceeds the cash;
      otherwise pay the cost and add the shares. */
  function Buy(p: Portfolio, a: Asset, quantity: int): (r: Step)
    requires a in p.holdings
    ensures r.outcome.Ok? <==> CanAfford(p, a, quantity)
    ensures r.outcome.Err? ==> r == Step(p, Err(NotEnoughFunds(a, quantity)))
    ensures r.after.holdings.Keys == p.holdings.Keys
  {
    var cost := Cost(a, quantity);
    if cost > p.cash then
      Step(p, Err(NotEnoughFunds(a, quantity)))
    else
      Step(Portfolio(p.cash - cost, p.holdings[a := p.holdings[a] + quantity]), Ok)
  }

  /** Selling: rejected with InsufficientStocks when the asset has no entry or
      fewer shares are held than asked for; otherwise receive the proceeds and
      remove the shares. */
  function Sell(p: Portfolio, a: Asset, quantity: int): (r: Step)
    ensures r.outcome.Ok? <==> Holds(p, a, quantity)
    ensures r.outcome.Err? ==> r == Step(p, Err(InsufficientStocks(a)))
    ensures r.after.holdings.Keys == p.holdings.Keys
  {
    if a !in p.holdings || p.holdings[a] < quantity then
      Step(p, Err(InsufficientStocks(a)))
    else
      Step(Portfolio(p.cash + Cost(a, quantity), p.holdings[a := p.holdings[a] - quantity]), Ok)
  }

  /** A successful buy pays exactly the cost, adds exactly the quantity to
      that asset, and touches no other holding. */
  lemma BuyEffect(p: Portfolio, a: Asset, quantity: int)
    requires a in p.holdings
    requires Buy(p, a, quantity).outcome.Ok?
    ensures Buy(p, a, quantity).after.cash == p.cash - Cost(a, quantity)
    ensures Buy(p, a, quantity).after.holdings[a] == p.holdings[a] + quantity
    ensures forall b :: b in p.holdings && b != a ==> Buy(p, a, quantity).after.holdings[b] == p.holdings[b]
  {
  }

  /** Cash is never negative after a successful buy: the guard admits only
      costs up to the cash on hand. */
  lemma BuyKeepsCashNonNegative(p: Portfolio, a: Asset, quantity: int)
    requires a in p.holdings
    requires Buy(p, a, quantity).outcome.Ok?
    ensures Buy(p, a, quantity).after.cash >= 0.0
  {
  }

  /** A successful sell receives exactly the proceeds, removes exactly the
      quantity from that asset without making it negative, and touches no
      other holding. */
  lemma SellEffect(p: Portfolio, a: Asset, quantity: int)
    requires Sell(p, a, quantity).outcome.Ok?
    ensures a in p.holdings
    ensures Sell(p, a, quantity).after.cash == p.cash + Cost(a, quantity)
    ensures Sell(p, a, quantity).after.holdings[a] == p.holdings[a] - quantity >= 0
    ensures forall b :: b in p.holdings && b != a ==> Sell(p, a, quantity).after.holdings[b] == p.holdings[b]
  {
  }

  /** Buying more never lowers a holding and selling never raises one, for
      non-negative quantities. */
  lemma TradesMoveHoldingsOneWay(p: Portfolio, a: Asset, quantity: int)
    requires a in p.holdings
    requires quantity >= 0
    ensures Buy(p, a, quantity).after.holdings[a] >= p.holdings[a]
    ensures Sell(p, a, quantity).after.holdings[a] <= p.holdings[a]
  {
  }

  /** A buy, successful or not, leaves the balance where it was. */
  lemma BuyConservesBalance(p: Portfolio, a: Asset, quantity: int)
    requires a in p.holdings
    ensures Balance(Buy(p, a, quantity).after) == Balance(p)
  {
    if Buy(p, a, quantity).outcome.Ok? {
      Revalue(p, a, p.holdings[a] + quantity);
    }
  }

  /** A sell, successful or not, leaves the balance where it was. */
  lemma SellConservesBalance(p: Portfolio, a: Asset, quantity: int)
    ensures Balance(Sell(p, a, quantity).after) == Balance(p)
  {
    if Sell(p, a, quantity).outcome.Ok? {
      Revalue(p, a, p.holdings[a] - quantity);
    }
  }

  /** With a non-negative quantity, both operations keep the invariant:
      no debt and no short position. */
  lemma TradesPreserveSound(p: Portfolio, a: Asset, quantity: int)
    requires Sound(p)
    requires quantity >= 0
    ensures Sound(Buy(p, a, quantity).after)
    ensures Sound(Sell(p, a, quantity).after)
  {
  }

  /** Buying and then selling the same shares always succeeds and restores
      the portfolio exactly, when the asset is not held short. */
  lemma BuyThenSell(p: Portfolio, a: Asset, quantity: int)
    requires a in p.holdings && p.holdings[a] >= 0
    requires Buy(p, a, quantity).outcome.Ok?
    ensures Sell(Buy(p, a, quantity).after, a, quantity).outcome.Ok?
    ensures Sell(Buy(p, a, quantity).after, a, quantity).after == p
  {
  }

  /** Selling and then buying back the same shares always succeeds and
      restores the portfolio exactly, when there is no debt. */
  lemma SellThenBuy(p: Portfolio, a: Asset, quantity: int)
    requires p.cash >= 0.0
    requires Sell(p, a, quantity).outcome.Ok?
    ensures Buy(Sell(p, a, quantity).after, a, quantity).outcome.Ok?
    ensures Buy(Sell(p, a, quantity).after, a, quantity).after == p
  {
  }

  /** The quantity is not validated: a negative buy by a solvent portfolio
      always goes through, lowering the holding and raising the cash. */
  lemma NegativeBuyGoesShort(p: Portfolio, a: Asset, quantity: int)
    requires a in p.holdings
    requires p.cash >= 0.0
    requires quantity < 0
    ensures Buy(p, a, quantity).outcome.Ok?
    ensures Buy(p, a, quantity).after.holdings[a] < p.holdings[a]
    ensures Buy(p, a, quantity).after.cash > p.cash
  {
  }

  /** Likewise a negative sell always goes through for an asset not held
      short, and pays out cash: enough of it drives the cash below zero. */
  lemma NegativeSellSpendsCash(p: Portfolio, a: Asset, quantity: int)
    requires a in p.holdings && p.holdings[a] >= 0
    requires quantity < 0
    ensures Sell(p, a, quantity).outcome.Ok?
    ensures Sell(p, a, quantity).after.holdings[a] > p.holdings[a]
    ensures Sell(p, a, quantity).after.cash < p.cash
  {
  }

  /** Selling zero shares of an asset not held short is never rejected and
      changes nothing. */
  lemma ZeroSellAlwaysSucceeds(p: Portfolio, a: Asset)
    requires a in p.holdings && p.holdings[a] >= 0
    ensures Sell(p, a, 0) == Step(p, Ok)
  {
  }
}
