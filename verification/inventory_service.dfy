/** The inventory views: the consumables held, the cosmetics owned and
    worn, and a summary. All are projections of the account (and of the
    character, when it exists, for what is worn), listed in the declaration
    order of the item kinds. */
module InventoryService {
  import opened Common
  import opened ShopItems
  import opened Accounts
  import opened Characters

  datatype ConsumptionItem = ConsumptionItem(kind: ShopItemType, count: int)

  datatype ConsumptionInventory = ConsumptionInventory(items: seq<ConsumptionItem>, totalCount: int)

  datatype CosmeticItem = CosmeticItem(kind: ShopItemType, owned: bool, equipped: bool)

  datatype CosmeticInventory = CosmeticInventory(
    items: seq<CosmeticItem>,
    totalOwnedCount: int,
    totalEquippedCount: int)

  datatype InventorySummary = InventorySummary(
    totalConsumptionCount: int,
    persimmonCount: int,
    greenTeaCount: int,
    totalOwnedCosmeticCount: int,
    totalEquippedCosmeticCount: int,
    hasStrawberryHairpin: bool,
    hasGongbangAhjima: bool,
    hasCarCrown: bool,
    hasRose: bool,
    totalItemCount: int)

  datatype InventoryView = Consumables(consumption: ConsumptionInventory) | Cosmetics(cosmetic: CosmeticInventory)

  /** Number of kinds in `ks` satisfying `f`. */
  function Tally(ks: seq<ShopItemType>, f: ShopItemType -> bool): nat {
    if ks == [] then 0 else (if f(ks[0]) then 1 else 0) + Tally(ks[1..], f)
  }

  /** The value of `n` when positive, else 0. */
  function Positive(n: int): int {
    if n > 0 then n else 0
  }

  /** Whether cosmetic `k` is worn by the character, if there is one. */
  predicate Worn(ch: Option<Character>, k: ShopItemType) {
    ch.Some? && Equipped(ch.value, k)
  }

  predicate OwnedCosmetic(a: Account, k: ShopItemType) {
    IsCosmetic(k) && Count(a, k) > 0
  }

  predicate HeldConsumable(a: Account, k: ShopItemType) {
    IsConsumption(k) && Count(a, k) > 0
  }

  // ---------------------------------------------------------------------
  // Consumables

  function ConsumptionKinds(items: seq<ConsumptionItem>): (r: seq<ShopItemType>)
    ensures |r| == |items| && forall i :: 0 <= i < |r| ==> r[i] == items[i].kind
  {
    if items == [] then [] else [items[0].kind] + ConsumptionKinds(items[1..])
  }

  function SumCounts(items: seq<ConsumptionItem>): int {
    if items == [] then 0 else items[0].count + SumCounts(items[1..])
  }

  /** One entry per consumable kind of `ks` held at least once. */
  function ConsumptionEntries(a: Account, ks: seq<ShopItemType>): (r: seq<ConsumptionItem>)
    ensures forall k :: k in ConsumptionKinds(r) <==> k in ks && HeldConsumable(a, k)
    ensures forall i :: 0 <= i < |r| ==> r[i].count == Count(a, r[i].kind)
    ensures InDeclarationOrder(ks) ==> InDeclarationOrder(ConsumptionKinds(r))
  {
    if ks == [] then []
    else
      var rest := ConsumptionEntries(a, ks[1..]);
      if HeldConsumable(a, ks[0]) then
        var r := [ConsumptionItem(ks[0], Count(a, ks[0]))] + rest;
        assert r[1..] == rest;
        assert ConsumptionKinds(r) == [ks[0]] + ConsumptionKinds(rest);
        assert InDeclarationOrder(ks) ==> InDeclarationOrder(ConsumptionKinds(r)) by {
          if InDeclarationOrder(ks) {
            assert forall k :: k in ks[1..] ==> Ordinal(ks[0]) < Ordinal(k);
            PrependInOrder(ks[0], ConsumptionKinds(rest));
          }
        }
        r
      else rest
  }

  /** The consumables view: the consumable kinds held, with their counts,
      in declaration order, and the sum of the listed counts. */
  function GetConsumptionItems(a: Account): (r: ConsumptionInventory)
    ensures forall k :: k in ConsumptionKinds(r.items) <==> HeldConsumable(a, k)
    ensures forall i :: 0 <= i < |r.items| ==> r.items[i].count == Count(a, r.items[i].kind) > 0
    ensures InDeclarationOrder(ConsumptionKinds(r.items))
    ensures r.totalCount == Positive(a.persimmonCount) + Positive(a.greenTeaCount)
  {
    AllKindsComplete();
    var items := ConsumptionEntries(a, AllKinds);
    assert forall i :: 0 <= i < |items| ==> ConsumptionKinds(items)[i] in ConsumptionKinds(items);
    ConsumptionTotal(a);
    ConsumptionInventory(items, SumCounts(items))
  }

  lemma ConsumptionTotal(a: Account)
    ensures SumCounts(ConsumptionEntries(a, AllKinds)) == Positive(a.persimmonCount) + Positive(a.greenTeaCount)
  {
    var p, g := a.persimmonCount, a.greenTeaCount;
    var t4 := [StrawberryHairpin, GongbangAhjima, CarCrown, Rose];
    var t5 := AllKinds[1..];
    assert t5[0] == GreenTea && t5[1..] == t4;
    var e4 := ConsumptionEntries(a, t4);
    assert e4 == [] by {
      if e4 != [] {
        assert ConsumptionKinds(e4)[0] in ConsumptionKinds(e4);
      }
    }
    var e5 := ConsumptionEntries(a, t5);
    assert SumCounts(e5) == Positive(g) by {
      if g > 0 {
        assert e5 == [ConsumptionItem(GreenTea, g)];
      } else {
        assert e5 == [];
      }
    }
    var e6 := ConsumptionEntries(a, AllKinds);
    if p > 0 {
      assert e6 == [ConsumptionItem(Persimmon, p)] + e5;
      assert e6[1..] == e5;
    } else {
      assert e6 == e5;
    }
  }

  // ---------------------------------------------------------------------
  // Cosmetics

  function CosmeticKinds(items: seq<CosmeticItem>): (r: seq<ShopItemType>)
    ensures |r| == |items| && forall i :: 0 <= i < |r| ==> r[i] == items[i].kind
  {
    if items == [] then [] else [items[0].kind] + CosmeticKinds(items[1..])
  }

  function CountEquipped(items: seq<CosmeticItem>): nat {
    if items == [] then 0 else (if items[0].equipped then 1 else 0) + CountEquipped(items[1..])
  }

  /** One entry per cosmetic kind of `ks` the account owns. */
  function CosmeticEntries(a: Account, ch: Option<Character>, ks: seq<ShopItemType>): (r: seq<CosmeticItem>)
    ensures forall k :: k in CosmeticKinds(r) <==> k in ks && OwnedCosmetic(a, k)
    ensures forall i :: 0 <= i < |r| ==> r[i].owned && r[i].equipped == Worn(ch, r[i].kind)
    ensures InDeclarationOrder(ks) ==> InDeclarationOrder(CosmeticKinds(r))
    ensures |r| == Tally(ks, k => OwnedCosmetic(a, k))
    ensures CountEquipped(r) == Tally(ks, k => OwnedCosmetic(a, k) && Worn(ch, k))
  {
    if ks == [] then []
    else
      var rest := CosmeticEntries(a, ch, ks[1..]);
      if OwnedCosmetic(a, ks[0]) then
        var r := [CosmeticItem(ks[0], true, Worn(ch, ks[0]))] + rest;
        assert r[1..] == rest;
        assert forall i :: 1 <= i < |r| ==> r[i] == rest[i - 1];
        assert CountEquipped(r) == (if Worn(ch, ks[0]) then 1 else 0) + CountEquipped(rest);
        assert CosmeticKinds(r) == [ks[0]] + CosmeticKinds(rest);
        assert InDeclarationOrder(ks) ==> InDeclarationOrder(CosmeticKinds(r)) by {
          if InDeclarationOrder(ks) {
            assert forall k :: k in ks[1..] ==> Ordinal(ks[0]) < Ordinal(k);
            PrependInOrder(ks[0], CosmeticKinds(rest));
          }
        }
        r
      else rest
  }

  /** The cosmetics view: the cosmetic kinds owned, in declaration order,
      each marked worn when the character wears it; how many are listed and
      how many listed ones are worn. Without a character nothing is worn. */
  function GetCosmeticItems(a: Account, ch: Option<Character>): (r: CosmeticInventory)
    ensures forall k :: k in CosmeticKinds(r.items) <==> OwnedCosmetic(a, k)
    ensures forall i :: 0 <= i < |r.items| ==> r.items[i].owned && r.items[i].equipped == Worn(ch, r.items[i].kind)
    ensures InDeclarationOrder(CosmeticKinds(r.items))
    ensures r.totalOwnedCount == |r.items| == Tally(AllKinds, k => OwnedCosmetic(a, k))
    ensures r.totalEquippedCount == Tally(AllKinds, k => OwnedCosmetic(a, k) && Worn(ch, k))
    ensures ch.None? ==> r.totalEquippedCount == 0
  {
    AllKindsComplete();
    var items := CosmeticEntries(a, ch, AllKinds);
    NothingWornWithoutCharacter(ch, k => OwnedCosmetic(a, k) && Worn(ch, k));
    CosmeticInventory(items, |items|, CountEquipped(items))
  }

  // ---------------------------------------------------------------------
  // Summary and dispatch

  /** The summary: consumable counts added up unfiltered, the number of
      cosmetic kinds owned, the number of cosmetic slots worn (owned or
      not; 0 without a character), and their total. */
  function GetInventorySummary(a: Account, ch: Option<Character>): (r: InventorySummary)
    ensures r.totalConsumptionCount == a.persimmonCount + a.greenTeaCount
    ensures r.persimmonCount == Count(a, Persimmon) && r.greenTeaCount == Count(a, GreenTea)
    ensures r.totalOwnedCosmeticCount == Tally(AllKinds, k => OwnedCosmetic(a, k))
    ensures r.totalEquippedCosmeticCount == Tally(AllKinds, k => IsCosmetic(k) && Worn(ch, k))
    ensures ch.None? ==> r.totalEquippedCosmeticCount == 0
    ensures r.hasStrawberryHairpin == OwnedCosmetic(a, StrawberryHairpin)
    ensures r.hasGongbangAhjima == OwnedCosmetic(a, GongbangAhjima)
    ensures r.hasCarCrown == OwnedCosmetic(a, CarCrown)
    ensures r.hasRose == OwnedCosmetic(a, Rose)
    ensures r.totalItemCount == r.totalConsumptionCount + r.totalOwnedCosmeticCount
  {
    var owned := Tally(AllKinds, k => OwnedCosmetic(a, k));
    var worn :=
      if ch.Some? then Tally(AllKinds, k => IsCosmetic(k) && Equipped(ch.value, k)) else 0;
    WornTally(ch);
    var consumables := a.persimmonCount + a.greenTeaCount;
    InventorySummary(
      consumables, a.persimmonCount, a.greenTeaCount, owned, worn,
      a.strawberryHairpinCount > 0, a.gongbangAhjimaCount > 0,
      a.carCrownCount > 0, a.roseCount > 0,
      consumables + owned)
  }

  /** The view of one category. */
  function GetItemsByType(a: Account, ch: Option<Character>, category: ItemCategory): (r: InventoryView)
    ensures r.Consumables? <==> category == Consumption
    ensures r.Consumables? ==> r.consumption == GetConsumptionItems(a)
    ensures r.Cosmetics? ==> r.cosmetic == GetCosmeticItems(a, ch)
  {
    match category
    case Consumption => Consumables(GetConsumptionItems(a))
    case Cosmetic => Cosmetics(GetCosmeticItems(a, ch))
  }

  // ---------------------------------------------------------------------
  // Lemmas

  lemma {:induction false} TallyNone(ks: seq<ShopItemType>, f: ShopItemType -> bool)
    requires forall k :: !f(k)
    ensures Tally(ks, f) == 0
  {
    if ks != [] {
      TallyNone(ks[1..], f);
    }
  }

  lemma {:induction false} TallySame(ks: seq<ShopItemType>, f: ShopItemType -> bool, g: ShopItemType -> bool)
    requires forall k :: f(k) == g(k)
    ensures Tally(ks, f) == Tally(ks, g)
  {
    if ks != [] {
      TallySame(ks[1..], f, g);
    }
  }

  lemma {:induction false} TallyMonotone(ks: seq<ShopItemType>, f: ShopItemType -> bool, g: ShopItemType -> bool)
    requires forall k :: f(k) ==> g(k)
    ensures Tally(ks, f) <= Tally(ks, g)
  {
    if ks != [] {
      TallyMonotone(ks[1..], f, g);
    }
  }

  lemma NothingWornWithoutCharacter(ch: Option<Character>, f: ShopItemType -> bool)
    requires forall k :: f(k) ==> Worn(ch, k)
    ensures ch.None? ==> Tally(AllKinds, f) == 0
  {
    if ch.None? {
      TallyNone(AllKinds, f);
    }
  }

  /** Counting the worn cosmetic slots of an optional character. */
  lemma WornTally(ch: Option<Character>)
    ensures Tally(AllKinds, k => IsCosmetic(k) && Worn(ch, k)) ==
            if ch.Some? then Tally(AllKinds, k => IsCosmetic(k) && Equipped(ch.value, k)) else 0
  {
    if ch.Some? {
      TallySame(AllKinds, k => IsCosmetic(k) && Worn(ch, k), k => IsCosmetic(k) && Equipped(ch.value, k));
    } else {
      TallyNone(AllKinds, k => IsCosmetic(k) && Worn(ch, k));
    }
  }

  /** The summary and the cosmetics view agree on how many cosmetic kinds
      are owned. The view counts only worn cosmetics that are owned, the
      summary every worn slot, so the view never counts more, and both
      agree when only owned cosmetics are worn. */
  lemma SummaryAgreesWithCosmetics(a: Account, ch: Option<Character>)
    ensures GetInventorySummary(a, ch).totalOwnedCosmeticCount == GetCosmeticItems(a, ch).totalOwnedCount
    ensures GetCosmeticItems(a, ch).totalEquippedCount <= GetInventorySummary(a, ch).totalEquippedCosmeticCount
    ensures (forall k :: Worn(ch, k) ==> Count(a, k) > 0) ==>
              GetCosmeticItems(a, ch).totalEquippedCount == GetInventorySummary(a, ch).totalEquippedCosmeticCount
  {
    TallyMonotone(AllKinds, k => OwnedCosmetic(a, k) && Worn(ch, k), k => IsCosmetic(k) && Worn(ch, k));
    if forall k :: Worn(ch, k) ==> Count(a, k) > 0 {
      TallySame(AllKinds, k => OwnedCosmetic(a, k) && Worn(ch, k), k => IsCosmetic(k) && Worn(ch, k));
    }
  }

  /** With no negative counters, the consumables view's total is the
      summary's unfiltered consumable total. */
  lemma SummaryAgreesWithConsumables(a: Account, ch: Option<Character>)
    requires a.persimmonCount >= 0 && a.greenTeaCount >= 0
    ensures GetConsumptionItems(a).totalCount == GetInventorySummary(a, ch).totalConsumptionCount
  {
  }
}
