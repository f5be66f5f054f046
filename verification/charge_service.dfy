/** Buying points: each charge package adds a fixed number of points. */
module ChargeService {
  import opened ShopItems
  import opened Accounts
  import ItemService

  datatype ChargeType = Coin100 | Coin500 | Coin1000 | Coin3000

  /** Points a package adds. */
  function Points(t: ChargeType): int {
    match t
    case Coin100 => 100
    case Coin500 => 500
    case Coin1000 => 1000
    case Coin3000 => 3000
  }

  datatype ChargeReceipt = ChargeReceipt(chargedPoints: int, newTotalPoints: int)

  /** Adds the package's points to the balance and changes nothing else. */
  function ChargePoints(a: Account, t: ChargeType): (r: (Account, ChargeReceipt))
    ensures r.0.point == a.point + Points(t)
    ensures r.0.point > a.point
    ensures r.0.(point := a.point) == a
    ensures r.1.chargedPoints == r.0.point - a.point
    ensures r.1.newTotalPoints == r.0.point
  {
    var total := a.point + Points(t);
    (a.(point := total), ChargeReceipt(Points(t), total))
  }

  /** The package sizes are 100, 500, 1000 and 3000 points, all positive. */
  lemma PackagesPositive(t: ChargeType)
    ensures Points(t) in {100, 500, 1000, 3000}
    ensures Points(t) > 0
  {
  }

  /** A charge adds exactly the package's points to what the account is
      worth: the holdings keep their shop value. */
  lemma ChargeAddsToWorth(a: Account, t: ChargeType)
    ensures ItemService.Worth(ChargePoints(a, t).0) == ItemService.Worth(a) + Points(t)
  {
    ItemService.HoldingsValueSameItems(a, ChargePoints(a, t).0, AllKinds);
  }
}
