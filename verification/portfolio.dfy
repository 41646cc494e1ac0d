/** A portfolio: an amount of cash and a quantity held of each asset, with the
    derived `balance` (cash plus the market value of every holding). */
module Portfolios {
  import opened Assets

  /** Cash is an exact decimal amount; quantities are unbounded integers. */
  datatype Portfolio = Portfolio(cash: real, holdings: map<Asset, int>)

  /** Every asset has an entry in the holdings map. A new portfolio has this
      shape, and trading keeps it. */
  predicate Total(p: Portfolio)
  {
    forall a: Asset :: a in p.holdings
  }

  /** The intended invariant of a portfolio: total, no debt, no short position. */
  predicate Sound(p: Portfolio)
  {
    && Total(p)
    && p.cash >= 0.0
    && forall a: Asset :: p.holdings[a] >= 0
  }

  /** A fresh portfolio: the given cash and a zero entry for every asset. */
  function NewPortfolio(cash: real): (p: Portfolio)
    ensures Total(p)
    ensures p.cash == cash
    ensures forall a: Asset :: p.holdings[a] == 0
  {
    Portfolio(cash, map a | a in AllAssets() :: 0)
  }

  /** Market value of the quantity held of `a`; an asset without an entry
      is worth nothing. */
  function Worth(a: Asset, holdings: map<Asset, int>): real
  {
    if a in holdings then Price(a) * holdings[a] as real else 0.0
  }

  /** Sum of the market values of the listed assets. */
  function ValueOf(assets: seq<Asset>, holdings: map<Asset, int>): real
  {
    if assets == [] then 0.0
    else Worth(assets[0], holdings) + ValueOf(assets[1..], holdings)
  }

  /** Cash plus the market value of every holding, computed on demand. For a
      total portfolio that is the cash plus 5896 per LKOH share plus 250 per
      SBER share. */
  function Balance(p: Portfolio): (r: real)
    ensures Total(p) ==> r == p.cash + 5896.0 * p.holdings[LKOH] as real + 250.0 * p.holdings[SBER] as real
  {
    var s := AllAssets();
    assert s[1..] == [SBER] && s[1..][1..] == [];
    assert ValueOf(s[1..][1..], p.holdings) == 0.0;
    assert ValueOf(s[1..], p.holdings) == Worth(SBER, p.holdings);
    assert ValueOf(s, p.holdings) == Worth(LKOH, p.holdings) + Worth(SBER, p.holdings);
    p.cash + ValueOf(s, p.holdings)
  }

  /** A fresh portfolio is worth exactly the cash it was opened with. */
  lemma NewPortfolioBalance(cash: real)
    ensures Balance(NewPortfolio(cash)) == cash
  {
  }

  /** A fresh portfolio opened with non-negative cash satisfies the invariant. */
  lemma NewPortfolioSound(cash: real)
    requires cash >= 0.0
    ensures Sound(NewPortfolio(cash))
  {
  }

  /** Changing one entry of the holdings changes the value of a list of
      distinct assets by that asset's price times the change, if it is listed,
      and not at all otherwise. */
  lemma {:induction false} ValueOfUpdate(assets: seq<Asset>, holdings: map<Asset, int>, a: Asset, v: int)
    requires a in holdings
    requires Distinct(assets)
    ensures ValueOf(assets, holdings[a := v])
         == ValueOf(assets, holdings) + (if a in assets then Price(a) * (v - holdings[a]) as real else 0.0)
  {
    if assets != [] {
      assert Distinct(assets[1..]);
      ValueOfUpdate(assets[1..], holdings, a, v);
      assert a in assets <==> assets[0] == a || a in assets[1..];
      if assets[0] == a {
        assert a !in assets[1..];
      }
    }
  }

  /** Setting the quantity of `a` to `v` changes the balance by the market
      value of the change. */
  lemma Revalue(p: Portfolio, a: Asset, v: int)
    requires a in p.holdings
    ensures Balance(p.(holdings := p.holdings[a := v]))
         == Balance(p) + Price(a) * (v - p.holdings[a]) as real
  {
    ValueOfUpdate(AllAssets(), p.holdings, a, v);
  }
}
