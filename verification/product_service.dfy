/** Exchanging points for products, donating points, and the one-time
    reward for watching the video. Every exchange and donation appends a
    record to the account's history. */
module ProductService {
  import opened Common
  import opened ShopItems
  import opened Accounts

  const WatchCompletionConsumption: int := 3
  const PurchaseCosmeticReward: int := 1
  const DonationCosmeticReward: int := 1

  datatype TransactionType = Purchase | Donation

  datatype Product = Product(name: string, pointCost: int, stock: int, transactionType: TransactionType)

  /** One row of the exchange history. */
  datatype ExchangeRecord = ExchangeRecord(
    productName: string,
    quantity: int,
    totalCost: int,
    transactionType: TransactionType,
    accepted: bool)

  /** The account, the product an operation is about and the history. */
  datatype Ledger = Ledger(account: Account, product: Product, history: seq<ExchangeRecord>)

  datatype ExchangeReceipt = ExchangeReceipt(
    productName: string,
    quantity: int,
    totalCost: int,
    remainingPoints: int,
    rewardCosmetic: int,
    totalCosmeticItems: int)

  datatype DonationReceipt = DonationReceipt(
    donationTarget: string,
    donationAmount: int,
    remainingPoints: int,
    rewardCosmetic: int,
    totalCosmeticItems: int)

  datatype WatchReceipt = WatchReceipt(rewardItems: int, totalConsumptionItems: int)

  /** Points paid over the whole history. */
  function RecordedSpending(h: seq<ExchangeRecord>): int {
    if h == [] then 0 else RecordedSpending(h[..|h| - 1]) + h[|h| - 1].totalCost
  }

  /** `b` is `a` paid `cost` points and granted one more of cosmetic `gift`;
      nothing else changes. */
  predicate Paid(a: Account, b: Account, cost: int, gift: ShopItemType) {
    && b.point == a.point - cost
    && Count(b, gift) == Count(a, gift) + 1
    && (forall k :: k != gift ==> Count(b, k) == Count(a, k))
    && b.cosmeticCount == a.cosmeticCount + 1
    && b.consumptionCount == a.consumptionCount
    && b.watched == a.watched
    && SameDaily(a, b)
  }

  /** Exchanges points for `quantity` units of a purchase product and
      grants a strawberry hairpin. Refused for a donation product, then for
      too few points, then for too little stock. */
  function ExchangeProduct(l: Ledger, quantity: int): (r: Result<(Ledger, ExchangeReceipt)>)
    ensures var cost := l.product.pointCost * quantity;
            r.Err? <==> l.product.transactionType == Donation
                        || l.account.point < cost
                        || l.product.stock < quantity
    ensures r.Err? && l.product.transactionType == Donation ==> r.error == InvalidItem
    ensures r.Err? && l.product.transactionType == Purchase ==>
              r.error == (if l.account.point < l.product.pointCost * quantity
                          then InsufficientFunds else InsufficientStock)
    ensures r.Ok? ==> var (l', receipt) := r.value;
                      var cost := l.product.pointCost * quantity;
                      && Paid(l.account, l'.account, cost, StrawberryHairpin)
                      && l'.account.point >= 0
                      && l'.product == l.product.(stock := l.product.stock - quantity)
                      && l'.product.stock >= 0
                      && l'.history == l.history + [ExchangeRecord(l.product.name, quantity, cost, Purchase, false)]
                      && receipt.remainingPoints == l'.account.point
                      && receipt.totalCost == cost
                      && receipt.quantity == quantity
                      && receipt.totalCosmeticItems == l'.account.cosmeticCount
  {
    var a := l.account;
    var p := l.product;
    if p.transactionType == Donation then Err(InvalidItem)
    else
      var totalCost := p.pointCost * quantity;
      if a.point < totalCost then Err(InsufficientFunds)
      else if p.stock < quantity then Err(InsufficientStock)
      else
        var a' := a.(point := a.point - totalCost,
                     strawberryHairpinCount := a.strawberryHairpinCount + PurchaseCosmeticReward,
                     cosmeticCount := a.cosmeticCount + PurchaseCosmeticReward);
        var p' := p.(stock := p.stock - quantity);
        var record := ExchangeRecord(p.name, quantity, totalCost, Purchase, false);
        Ok((Ledger(a', p', l.history + [record]),
            ExchangeReceipt(p.name, quantity, totalCost, a'.point,
                            PurchaseCosmeticReward, a'.cosmeticCount)))
  }

  /** Donates `amount` points to a donation product and grants a rose.
      Refused for a purchase product, then for too few points. The product
      is left as it was; the record counts as accepted at once. */
  function DonateProduct(l: Ledger, amount: int): (r: Result<(Ledger, DonationReceipt)>)
    ensures r.Err? <==> l.product.transactionType != Donation || l.account.point < amount
    ensures r.Err? ==> r.error == (if l.product.transactionType != Donation
                                   then InvalidItem else InsufficientFunds)
    ensures r.Ok? ==> var (l', receipt) := r.value;
                      && Paid(l.account, l'.account, amount, Rose)
                      && l'.account.point >= 0
                      && l'.product == l.product
                      && l'.history == l.history + [ExchangeRecord(l.product.name, 1, amount, Donation, true)]
                      && receipt.remainingPoints == l'.account.point
                      && receipt.donationAmount == amount
                      && receipt.totalCosmeticItems == l'.account.cosmeticCount
  {
    var a := l.account;
    var p := l.product;
    if p.transactionType != Donation then Err(InvalidItem)
    else if a.point < amount then Err(InsufficientFunds)
    else
      var a' := a.(point := a.point - amount,
                   roseCount := a.roseCount + DonationCosmeticReward,
                   cosmeticCount := a.cosmeticCount + DonationCosmeticReward);
      var record := ExchangeRecord(p.name, 1, amount, Donation, true);
      Ok((Ledger(a', p, l.history + [record]),
          DonationReceipt(p.name, amount, a'.point, DonationCosmeticReward, a'.cosmeticCount)))
  }

  /** The one-time watch reward: three persimmons, refused once granted. */
  function CompleteWatching(a: Account): (r: Result<(Account, WatchReceipt)>)
    ensures r.Err? <==> a.watched
    ensures r.Err? ==> r.error == AlreadyCompleted
    ensures r.Ok? ==> var (a', receipt) := r.value;
                      && a'.watched
                      && Count(a', Persimmon) == Count(a, Persimmon) + WatchCompletionConsumption
                      && (forall k :: k != Persimmon ==> Count(a', k) == Count(a, k))
                      && a'.consumptionCount == a.consumptionCount + WatchCompletionConsumption
                      && a'.point == a.point && a'.cosmeticCount == a.cosmeticCount
                      && SameDaily(a, a')
                      && receipt.totalConsumptionItems == a'.consumptionCount
  {
    if a.watched then Err(AlreadyCompleted)
    else
      var a' := a.(watched := true,
                   persimmonCount := a.persimmonCount + WatchCompletionConsumption,
                   consumptionCount := a.consumptionCount + WatchCompletionConsumption);
      Ok((a', WatchReceipt(WatchCompletionConsumption, a'.consumptionCount)))
  }

  // ---------------------------------------------------------------------
  // Lemmas

  lemma {:induction false} RecordedSpendingAppend(h: seq<ExchangeRecord>, e: ExchangeRecord)
    ensures RecordedSpending(h + [e]) == RecordedSpending(h) + e.totalCost
  {
    assert (h + [e])[..|h + [e]| - 1] == h;
  }

  /** Points are never created or lost by exchanges and donations: the
      balance plus everything the history records as paid stays the same. */
  lemma LedgerBalanced(l: Ledger, quantity: int, amount: int)
    ensures ExchangeProduct(l, quantity).Ok? ==>
              var l' := ExchangeProduct(l, quantity).value.0;
              l'.account.point + RecordedSpending(l'.history)
                == l.account.point + RecordedSpending(l.history)
    ensures DonateProduct(l, amount).Ok? ==>
              var l' := DonateProduct(l, amount).value.0;
              l'.account.point + RecordedSpending(l'.history)
                == l.account.point + RecordedSpending(l.history)
  {
    RecordedSpendingAppend(l.history, ExchangeRecord(l.product.name, quantity, l.product.pointCost * quantity, Purchase, false));
    RecordedSpendingAppend(l.history, ExchangeRecord(l.product.name, 1, amount, Donation, true));
  }

  /** The watch reward is granted at most once: after a first success a
      second call always fails. */
  lemma WatchOnce(a: Account)
    ensures CompleteWatching(a).Ok? ==> CompleteWatching(CompleteWatching(a).value.0) == Err(AlreadyCompleted)
  {
  }
}
