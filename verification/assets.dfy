/** The fixed price table: a closed enumeration of tradeable assets, each bound
    to a constant, strictly positive unit price. */
module Assets {

  /** The two instruments the ledger knows about. */
  datatype Asset = LKOH | SBER

  /** Unit price of an asset. It never changes during a session. */
  function Price(a: Asset): (r: real)
    ensures r > 0.0
  {
    match a
    case LKOH => 5896.0
    case SBER => 250.0
  }

  /** The enumeration in declaration order: every asset appears, and exactly once. */
  function AllAssets(): (s: seq<Asset>)
    ensures forall a: Asset :: a in s
    ensures Distinct(s)
  {
    var s := [LKOH, SBER];
    assert forall a: Asset :: a in s by {
      forall a: Asset ensures a in s {
        if a.LKOH? { assert s[0] == a; } else { assert s[1] == a; }
      }
    }
    s
  }

  /** True iff no asset is listed twice. */
  predicate Distinct(s: seq<Asset>)
  {
    forall i, j :: 0 <= i < j < |s| ==> s[i] != s[j]
  }
}
