/** A trading session: one trader bound to one portfolio, issuing a sequence
    of buy and sell calls. A rejected call raises to the caller and leaves the
    portfolio as it was; the session goes on with the next call. */
module Sessions {
  import opened Assets
  import opened Portfolios
  import opened Trading

  datatype Order =
    | BuyOrder(asset: Asset, quantity: int)
    | SellOrder(asset: Asset, quantity: int)

  /** The portfolio at the end of a session and the outcome of each call, in order. */
  datatype Session = Session(final: Portfolio, outcomes: seq<Outcome>)

  /** One call of the trader. */
  function Execute(p: Portfolio, o: Order): (r: Step)
    requires Total(p)
    ensures Total(r.after)
  {
    match o
    case BuyOrder(a, q) => Buy(p, a, q)
    case SellOrder(a, q) => Sell(p, a, q)
  }

  /** The calls of a session, one after another, on the same portfolio. */
  function Run(p: Portfolio, orders: seq<Order>): (r: Session)
    requires Total(p)
    ensures Total(r.final)
    ensures |r.outcomes| == |orders|
    ensures (forall i :: 0 <= i < |r.outcomes| ==> r.outcomes[i].Err?) ==> r.final == p
    decreases |orders|
  {
    if orders == [] then
      Session(p, [])
    else
      var s := Execute(p, orders[0]);
      var rest := Run(s.after, orders[1..]);
      var outcomes := [s.outcome] + rest.outcomes;
      assert outcomes[0] == s.outcome;
      assert forall i :: 0 <= i < |rest.outcomes| ==> outcomes[i + 1] == rest.outcomes[i];
      Session(rest.final, outcomes)
  }

  /** Every order of the session asks for a non-negative number of shares. */
  predicate NonNegativeOrders(orders: seq<Order>)
  {
    forall i :: 0 <= i < |orders| ==> orders[i].quantity >= 0
  }

  /** However the calls of a session end, the balance at the end equals the
      balance at the start. */
  lemma {:induction false} RunConservesBalance(p: Portfolio, orders: seq<Order>)
    requires Total(p)
    ensures Balance(Run(p, orders).final) == Balance(p)
    decreases |orders|
  {
    if orders != [] {
      var s := Execute(p, orders[0]);
      match orders[0] {
        case BuyOrder(a, q) => BuyConservesBalance(p, a, q);
        case SellOrder(a, q) => SellConservesBalance(p, a, q);
      }
      RunConservesBalance(s.after, orders[1..]);
    }
  }

  /** A session of non-negative orders on a sound portfolio ends sound:
      cash and every holding stay non-negative throughout. */
  lemma {:induction false} RunPreservesSound(p: Portfolio, orders: seq<Order>)
    requires Sound(p)
    requires NonNegativeOrders(orders)
    ensures Sound(Run(p, orders).final)
    decreases |orders|
  {
    if orders != [] {
      var s := Execute(p, orders[0]);
      TradesPreserveSound(p, orders[0].asset, orders[0].quantity);
      assert NonNegativeOrders(orders[1..]) by {
        forall i | 0 <= i < |orders[1..]| ensures orders[1..][i].quantity >= 0 {
          assert orders[1..][i] == orders[i + 1];
        }
      }
      RunPreservesSound(s.after, orders[1..]);
    }
  }

  /** A worked example: open with 100000, buy 10 SBER, sell 5 SBER, then
      try to buy 20 LKOH, which costs 117920 and is rejected. */
  lemma ExampleSession()
    ensures
      var p := NewPortfolio(100000.0);
      var r := Run(p, [BuyOrder(SBER, 10), SellOrder(SBER, 5), BuyOrder(LKOH, 20)]);
      && r.outcomes == [Ok, Ok, Err(NotEnoughFunds(LKOH, 20))]
      && r.final.cash == 98750.0
      && r.final.holdings[SBER] == 5
      && r.final.holdings[LKOH] == 0
      && Balance(r.final) == 100000.0
  {
  }
}
