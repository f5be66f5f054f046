/** The player invariant across the services: the operations that change
    only the account (buying, exchanging, donating, the watch reward and
    charging points) keep it as well as the character's activities do. */
module Economy {
  import opened ShopItems
  import opened Accounts
  import opened DailyLimits
  import opened CharacterService
  import ItemService
  import ProductService
  import ChargeService

  /** An account change that keeps every daily counter and takes away no
      cosmetic keeps the player invariant: the character is untouched and
      whatever it wears is still owned. */
  lemma AccountChangeKeepsInvariant(p: Player, b: Account)
    requires Invariant(p)
    requires forall act :: Counter(b, act) == Counter(p.account, act)
    requires CosmeticsKept(p.account, b)
    ensures Invariant(Player(b, p.character))
  {
  }

  lemma PurchaseKeepsInvariant(p: Player, kind: ShopItemType)
    requires Invariant(p)
    ensures var r := ItemService.PurchaseItem(p.account, kind);
            r.Ok? ==> Invariant(Player(r.value.0, p.character))
  {
    var r := ItemService.PurchaseItem(p.account, kind);
    if r.Ok? {
      AccountChangeKeepsInvariant(p, r.value.0);
    }
  }

  lemma ExchangeKeepsInvariant(p: Player, product: ProductService.Product,
                               history: seq<ProductService.ExchangeRecord>, quantity: int)
    requires Invariant(p)
    ensures var r := ProductService.ExchangeProduct(ProductService.Ledger(p.account, product, history), quantity);
            r.Ok? ==> Invariant(Player(r.value.0.account, p.character))
  {
    var r := ProductService.ExchangeProduct(ProductService.Ledger(p.account, product, history), quantity);
    if r.Ok? {
      AccountChangeKeepsInvariant(p, r.value.0.account);
    }
  }

  lemma DonateKeepsInvariant(p: Player, product: ProductService.Product,
                             history: seq<ProductService.ExchangeRecord>, amount: int)
    requires Invariant(p)
    ensures var r := ProductService.DonateProduct(ProductService.Ledger(p.account, product, history), amount);
            r.Ok? ==> Invariant(Player(r.value.0.account, p.character))
  {
    var r := ProductService.DonateProduct(ProductService.Ledger(p.account, product, history), amount);
    if r.Ok? {
      AccountChangeKeepsInvariant(p, r.value.0.account);
    }
  }

  lemma WatchKeepsInvariant(p: Player)
    requires Invariant(p)
    ensures var r := ProductService.CompleteWatching(p.account);
            r.Ok? ==> Invariant(Player(r.value.0, p.character))
  {
    var r := ProductService.CompleteWatching(p.account);
    if r.Ok? {
      AccountChangeKeepsInvariant(p, r.value.0);
    }
  }

  lemma ChargeKeepsInvariant(p: Player, t: ChargeService.ChargeType)
    requires Invariant(p)
    ensures Invariant(Player(ChargeService.ChargePoints(p.account, t).0, p.character))
  {
    AccountChangeKeepsInvariant(p, ChargeService.ChargePoints(p.account, t).0);
  }
}
