/** The six shop item kinds, their category and price, and the declaration
    order that fixes the listing order of every shop and inventory view. */
module ShopItems {

  datatype ItemCategory = Consumption | Cosmetic

  datatype ShopItemType =
    | Persimmon
    | GreenTea
    | StrawberryHairpin
    | GongbangAhjima
    | CarCrown
    | Rose

  function Category(k: ShopItemType): ItemCategory {
    match k
    case Persimmon | GreenTea => Consumption
    case StrawberryHairpin | GongbangAhjima | CarCrown | Rose => Cosmetic
  }

  /** The point price of one unit in the shop. */
  function Price(k: ShopItemType): int {
    match k
    case Persimmon => 100
    case GreenTea => 100
    case StrawberryHairpin => 100
    case GongbangAhjima => 100
    case CarCrown => 100
    case Rose => 100
  }

  predicate IsConsumption(k: ShopItemType) { Category(k) == Consumption }

  predicate IsCosmetic(k: ShopItemType) { Category(k) == Cosmetic }

  /** Position of a kind in the declaration. */
  function Ordinal(k: ShopItemType): nat {
    match k
    case Persimmon => 0
    case GreenTea => 1
    case StrawberryHairpin => 2
    case GongbangAhjima => 3
    case CarCrown => 4
    case Rose => 5
  }

  /** All kinds, in declaration order. */
  const AllKinds: seq<ShopItemType> :=
    [Persimmon, GreenTea, StrawberryHairpin, GongbangAhjima, CarCrown, Rose]

  /** Strictly increasing declaration positions: sorted and free of repeats. */
  predicate InDeclarationOrder(ks: seq<ShopItemType>) {
    forall i, j :: 0 <= i < j < |ks| ==> Ordinal(ks[i]) < Ordinal(ks[j])
  }

  /** The kinds of `ks` whose category is `c`, keeping their relative order. */
  function KindsIn(ks: seq<ShopItemType>, c: ItemCategory): (r: seq<ShopItemType>)
    ensures forall k :: k in r <==> k in ks && Category(k) == c
    ensures InDeclarationOrder(ks) ==> InDeclarationOrder(r)
    ensures |r| <= |ks|
  {
    if ks == [] then []
    else
      var rest := KindsIn(ks[1..], c);
      if Category(ks[0]) == c then
        assert InDeclarationOrder(ks) ==> forall k :: k in ks[1..] ==> Ordinal(ks[0]) < Ordinal(k);
        [ks[0]] + rest
      else rest
  }

  /** Every kind occurs in `AllKinds`, exactly at its declaration position. */
  lemma AllKindsComplete()
    ensures forall k :: k in AllKinds && AllKinds[Ordinal(k)] == k
    ensures |AllKinds| == 6 && InDeclarationOrder(AllKinds)
  {
    forall k ensures k in AllKinds && AllKinds[Ordinal(k)] == k {
      match k
      case Persimmon => assert AllKinds[0] == k;
      case GreenTea => assert AllKinds[1] == k;
      case StrawberryHairpin => assert AllKinds[2] == k;
      case GongbangAhjima => assert AllKinds[3] == k;
      case CarCrown => assert AllKinds[4] == k;
      case Rose => assert AllKinds[5] == k;
    }
  }

  /** A kind declared before every kind of an ordered listing may head it. */
  lemma PrependInOrder(x: ShopItemType, s: seq<ShopItemType>)
    requires InDeclarationOrder(s)
    requires forall k :: k in s ==> Ordinal(x) < Ordinal(k)
    ensures InDeclarationOrder([x] + s)
  {
    var t := [x] + s;
    forall i, j | 0 <= i < j < |t| ensures Ordinal(t[i]) < Ordinal(t[j]) {
      if i > 0 {
        assert t[i] == s[i - 1] && t[j] == s[j - 1];
      } else {
        assert t[j] == s[j - 1] && t[j] in s;
      }
    }
  }

  /** The head of a listing in declaration order precedes every other kind in it. */
  lemma HeadComesFirst(s: seq<ShopItemType>, k: ShopItemType)
    requires InDeclarationOrder(s) && k in s
    ensures k == s[0] || Ordinal(s[0]) < Ordinal(k)
  {
    var i :| 0 <= i < |s| && s[i] == k;
    if i > 0 {
      assert Ordinal(s[0]) < Ordinal(s[i]);
    }
  }

  /** A listing in declaration order is determined by which kinds it holds:
      two such listings holding the same kinds are equal. */
  lemma {:induction false} ListingDeterminedByContents(s: seq<ShopItemType>, t: seq<ShopItemType>)
    requires InDeclarationOrder(s) && InDeclarationOrder(t)
    requires forall k :: k in s <==> k in t
    ensures s == t
    decreases |s|
  {
    assert s == [] <==> t == [] by {
      if s != [] { assert s[0] in t; }
      if t != [] { assert t[0] in s; }
    }
    if s != [] {
      HeadComesFirst(s, t[0]);
      HeadComesFirst(t, s[0]);
      forall k ensures k in s[1..] <==> k in t[1..] {
        if k in s[1..] || k in t[1..] {
          HeadComesFirst(s, k);
          HeadComesFirst(t, k);
        }
      }
      ListingDeterminedByContents(s[1..], t[1..]);
      assert s == [s[0]] + s[1..];
      assert t == [t[0]] + t[1..];
    }
  }

  /** PERSIMMON and GREEN_TEA are exactly the consumable kinds, the other
      four exactly the cosmetic kinds, and every kind costs 100 points. */
  lemma CategoriesAndPrices(k: ShopItemType)
    ensures IsConsumption(k) <==> k == Persimmon || k == GreenTea
    ensures IsCosmetic(k) <==> k in {StrawberryHairpin, GongbangAhjima, CarCrown, Rose}
    ensures IsConsumption(k) != IsCosmetic(k)
    ensures Price(k) == 100
  {
  }
}
