/** The per-user account record: point balance, item counters, the three
    daily activity counters with their last dates, the bonus date and the
    one-time watch flag. Only the fields the economy reads or writes are
    kept; dates are day numbers and an absent date is `None`. */
module Accounts {
  import opened Common
  import opened ShopItems

  datatype Account = Account(
    point: int,
    watched: bool,
    persimmonCount: int,
    greenTeaCount: int,
    strawberryHairpinCount: int,
    gongbangAhjimaCount: int,
    carCrownCount: int,
    roseCount: int,
    // aggregates kept beside the per-kind counters; they are not sums of them
    consumptionCount: int,
    cosmeticCount: int,
    dailyGameCount: int,
    lastGameDate: Option<int>,
    dailyPetCount: int,
    lastPetDate: Option<int>,
    dailyFeedCount: int,
    lastFeedDate: Option<int>,
    lastBonusDate: Option<int>)

  /** How many units of kind `k` the account holds. */
  function Count(a: Account, k: ShopItemType): int {
    match k
    case Persimmon => a.persimmonCount
    case GreenTea => a.greenTeaCount
    case StrawberryHairpin => a.strawberryHairpinCount
    case GongbangAhjima => a.gongbangAhjimaCount
    case CarCrown => a.carCrownCount
    case Rose => a.roseCount
  }

  /** How many of a cosmetic the account owns; 0 for a consumable kind. */
  function OwnedCount(a: Account, k: ShopItemType): (n: int)
    ensures IsCosmetic(k) ==> n == Count(a, k)
    ensures !IsCosmetic(k) ==> n == 0
  {
    if IsCosmetic(k) then Count(a, k) else 0
  }

  /** `a` with the counter of kind `k` replaced by `n`. */
  function WithCount(a: Account, k: ShopItemType, n: int): (r: Account)
    ensures Count(r, k) == n
    ensures forall k' :: k' != k ==> Count(r, k') == Count(a, k')
    ensures SameExceptItems(a, r)
  {
    match k
    case Persimmon => a.(persimmonCount := n)
    case GreenTea => a.(greenTeaCount := n)
    case StrawberryHairpin => a.(strawberryHairpinCount := n)
    case GongbangAhjima => a.(gongbangAhjimaCount := n)
    case CarCrown => a.(carCrownCount := n)
    case Rose => a.(roseCount := n)
  }

  /** `a` and `b` agree on every field but the six per-kind counters. */
  predicate SameExceptItems(a: Account, b: Account) {
    && a.point == b.point
    && a.watched == b.watched
    && a.consumptionCount == b.consumptionCount
    && a.cosmeticCount == b.cosmeticCount
    && SameDaily(a, b)
  }

  /** `a` and `b` agree on the daily counters, their dates and the bonus date. */
  predicate SameDaily(a: Account, b: Account) {
    && a.dailyGameCount == b.dailyGameCount
    && a.lastGameDate == b.lastGameDate
    && a.dailyPetCount == b.dailyPetCount
    && a.lastPetDate == b.lastPetDate
    && a.dailyFeedCount == b.dailyFeedCount
    && a.lastFeedDate == b.lastFeedDate
    && a.lastBonusDate == b.lastBonusDate
  }

  /** `a` and `b` agree on the balance, the watch flag and every item counter,
      aggregates included: everything but the daily state. */
  predicate SameWallet(a: Account, b: Account) {
    && a.point == b.point
    && a.watched == b.watched
    && a.consumptionCount == b.consumptionCount
    && a.cosmeticCount == b.cosmeticCount
    && SameItems(a, b)
  }

  /** `a` and `b` hold the same number of every item kind. */
  predicate SameItems(a: Account, b: Account) {
    forall k :: Count(a, k) == Count(b, k)
  }

  /** No cosmetic count ever decreased from `a` to `b`. */
  predicate CosmeticsKept(a: Account, b: Account) {
    forall k :: IsCosmetic(k) ==> Count(a, k) <= Count(b, k)
  }
}
