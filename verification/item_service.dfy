/** The item shop: buying one unit of a kind for its price, and the
    catalogue listings. */
module ItemService {
  import opened Common
  import opened ShopItems
  import opened Accounts

  datatype PurchaseReceipt = PurchaseReceipt(
    kind: ShopItemType,
    itemPrice: int,
    quantity: int,
    totalCost: int,
    remainingPoints: int)

  /** Buys one unit of `kind`, refused when the balance is below its price.
      Only the bought kind's counter changes; the consumable and cosmetic
      aggregates are not touched. */
  function PurchaseItem(a: Account, kind: ShopItemType): (r: Result<(Account, PurchaseReceipt)>)
    ensures r.Err? <==> a.point < Price(kind)
    ensures r.Err? ==> r.error == InsufficientFunds
    ensures r.Ok? ==> var (a', receipt) := r.value;
                      && a'.point == a.point - Price(kind)
                      && a'.point >= 0
                      && (forall k :: Count(a', k) == Count(a, k) + (if k == kind then 1 else 0))
                      && a'.consumptionCount == a.consumptionCount
                      && a'.cosmeticCount == a.cosmeticCount
                      && a'.watched == a.watched
                      && SameDaily(a, a')
                      && receipt.quantity == 1
                      && receipt.itemPrice == Price(kind)
                      && receipt.totalCost == Price(kind)
                      && receipt.remainingPoints == a'.point
  {
    var price := Price(kind);
    if a.point < price then Err(InsufficientFunds)
    else
      var a' := WithCount(a.(point := a.point - price), kind, Count(a, kind) + 1);
      Ok((a', PurchaseReceipt(kind, price, 1, price, a'.point)))
  }

  /** The whole catalogue, in declaration order. */
  function AllItems(): (r: seq<ShopItemType>)
    ensures forall k :: k in r
    ensures |r| == 6 && InDeclarationOrder(r)
  {
    AllKindsComplete();
    AllKinds
  }

  /** The catalogue entries of one category, in declaration order. */
  function ItemsByCategory(c: ItemCategory): (r: seq<ShopItemType>)
    ensures forall k :: k in r <==> Category(k) == c
    ensures InDeclarationOrder(r)
  {
    AllKindsComplete();
    KindsIn(AllKinds, c)
  }

  /** The price value of the items of kinds `ks` held by `a`. */
  function HoldingsValue(a: Account, ks: seq<ShopItemType>): int {
    if ks == [] then 0 else Price(ks[0]) * Count(a, ks[0]) + HoldingsValue(a, ks[1..])
  }

  /** The balance plus the shop value of everything held. */
  function Worth(a: Account): int {
    a.point + HoldingsValue(a, AllKinds)
  }

  lemma {:induction false} HoldingsValueOneMore(a: Account, b: Account, kind: ShopItemType, ks: seq<ShopItemType>)
    requires InDeclarationOrder(ks)
    requires forall k :: Count(b, k) == Count(a, k) + (if k == kind then 1 else 0)
    ensures HoldingsValue(b, ks) == HoldingsValue(a, ks) + (if kind in ks then Price(kind) else 0)
  {
    if ks != [] {
      HoldingsValueOneMore(a, b, kind, ks[1..]);
      assert kind in ks <==> kind == ks[0] || kind in ks[1..];
      if kind == ks[0] {
        assert kind !in ks[1..] by {
          forall i | 0 <= i < |ks[1..]| ensures ks[1..][i] != kind {
            assert Ordinal(ks[0]) < Ordinal(ks[i + 1]);
          }
        }
      }
    }
  }

  /** Accounts holding the same items have the same holdings value. */
  lemma {:induction false} HoldingsValueSameItems(a: Account, b: Account, ks: seq<ShopItemType>)
    requires SameItems(a, b)
    ensures HoldingsValue(a, ks) == HoldingsValue(b, ks)
  {
    if ks != [] {
      HoldingsValueSameItems(a, b, ks[1..]);
    }
  }

  /** A purchase exchanges points for goods at the shop price: the balance
      plus the shop value of the holdings stays the same. */
  lemma PurchaseKeepsWorth(a: Account, kind: ShopItemType)
    ensures PurchaseItem(a, kind).Ok? ==> Worth(PurchaseItem(a, kind).value.0) == Worth(a)
  {
    if PurchaseItem(a, kind).Ok? {
      var a' := PurchaseItem(a, kind).value.0;
      AllKindsComplete();
      HoldingsValueOneMore(a, a', kind, AllKinds);
    }
  }

  /** The consumable listing is PERSIMMON, GREEN_TEA. */
  lemma ConsumptionListing()
    ensures ItemsByCategory(Consumption) == [Persimmon, GreenTea]
  {
    var expected := [Persimmon, GreenTea];
    var listed := ItemsByCategory(Consumption);
    forall k ensures k in listed <==> k in expected {
      CategoriesAndPrices(k);
    }
    ListingDeterminedByContents(listed, expected);
  }

  /** The cosmetic listing is the other four kinds, in declaration order. */
  lemma CosmeticListing()
    ensures ItemsByCategory(Cosmetic) == [StrawberryHairpin, GongbangAhjima, CarCrown, Rose]
  {
    var expected := [StrawberryHairpin, GongbangAhjima, CarCrown, Rose];
    var listed := ItemsByCategory(Cosmetic);
    forall k ensures k in listed <==> k in expected {
      CategoriesAndPrices(k);
    }
    ListingDeterminedByContents(listed, expected);
  }

  /** The two category listings, one after the other, are the catalogue. */
  lemma CategoriesPartitionCatalogue()
    ensures ItemsByCategory(Consumption) + ItemsByCategory(Cosmetic) == AllItems()
  {
    ConsumptionListing();
    CosmeticListing();
  }
}
