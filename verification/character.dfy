/** The character: its progression (level, experience, the level-up
    threshold, the EGG to DUCK evolution) and its four cosmetic slots. */
module Characters {
  import opened ShopItems

  datatype CharacterType = Egg | Duck

  const EggName: string := "알"
  const DuckName: string := "토덕이"

  /** Threshold of a new character, and the experience an EGG needs to evolve. */
  const InitialMaxExperience: int := 100
  const EvolutionExperience: int := 100

  datatype Character = Character(
    name: string,
    kind: CharacterType,
    level: int,
    experience: int,
    maxExperience: int,
    equippedStrawberryHairpin: bool,
    equippedGongbangAhjima: bool,
    equippedCarCrown: bool,
    equippedRose: bool)

  /** The threshold rule every stored character obeys: it is at least level
      1 and needs `level * 100` experience for the next level. Creation sets
      level 1 and threshold 100, and every level-up re-establishes it. */
  predicate ThresholdRule(c: Character) {
    c.level >= 1 && c.maxExperience == c.level * 100
  }

  /** A level-up is due. For a character whose held experience is not
      negative this is exactly "not settled", and under the threshold rule a
      due level-up always has at least 100 to pay, which is what makes the
      level-up loop end. */
  function CanLevelUp(c: Character): (due: bool)
    ensures c.experience >= 0 ==> (due <==> !Settled(c))
    ensures ThresholdRule(c) && due ==> c.experience >= EvolutionExperience
  {
    c.experience >= c.maxExperience
  }

  /** Held experience is below the threshold and not negative: no level-up is due. */
  predicate Settled(c: Character) {
    0 <= c.experience < c.maxExperience
  }

  /** Experience consumed by the level-ups from level 1 up to `level`:
      100 + 200 + ... + (level - 1) * 100. */
  function SpentExperience(level: int): nat
    decreases level
  {
    if level <= 1 then 0 else SpentExperience(level - 1) + (level - 1) * 100
  }

  /** All experience ever gained: what the level-ups consumed plus what is held. */
  function TotalExperience(c: Character): int {
    SpentExperience(c.level) + c.experience
  }

  // ---------------------------------------------------------------------
  // Cosmetic slots

  /** Whether cosmetic `k` is worn; a consumable kind is never worn. */
  function Equipped(c: Character, k: ShopItemType): (worn: bool)
    ensures worn ==> IsCosmetic(k)
  {
    match k
    case StrawberryHairpin => c.equippedStrawberryHairpin
    case GongbangAhjima => c.equippedGongbangAhjima
    case CarCrown => c.equippedCarCrown
    case Rose => c.equippedRose
    case Persimmon | GreenTea => false
  }

  predicate NothingEquipped(c: Character) {
    forall k :: !Equipped(c, k)
  }

  predicate AtMostOneEquipped(c: Character) {
    forall k1, k2 :: Equipped(c, k1) && Equipped(c, k2) ==> k1 == k2
  }

  /** Same name, kind, level, experience and threshold. */
  predicate SameProgress(c: Character, d: Character) {
    && c.name == d.name
    && c.kind == d.kind
    && c.level == d.level
    && c.experience == d.experience
    && c.maxExperience == d.maxExperience
  }

  /** Same four cosmetic slots. */
  predicate SameLooks(c: Character, d: Character) {
    forall k :: Equipped(c, k) == Equipped(d, k)
  }

  /** `c` with the slot of cosmetic `k` set to `on`; there is no slot for a
      consumable kind. */
  function WithEquipped(c: Character, k: ShopItemType, on: bool): (r: Character)
    requires IsCosmetic(k)
    ensures Equipped(r, k) == on
    ensures forall k' :: k' != k ==> Equipped(r, k') == Equipped(c, k')
    ensures SameProgress(c, r)
  {
    match k
    case StrawberryHairpin => c.(equippedStrawberryHairpin := on)
    case GongbangAhjima => c.(equippedGongbangAhjima := on)
    case CarCrown => c.(equippedCarCrown := on)
    case Rose => c.(equippedRose := on)
  }

  /** Takes off every cosmetic. */
  function UnequipAll(c: Character): (r: Character)
    ensures NothingEquipped(r)
    ensures SameProgress(c, r)
  {
    c.(equippedStrawberryHairpin := false, equippedGongbangAhjima := false,
       equippedCarCrown := false, equippedRose := false)
  }

  // ---------------------------------------------------------------------
  // Creation

  /** A fresh character of the given name and kind. */
  function NewCharacter(name: string, kind: CharacterType): (c: Character)
    ensures c.name == name && c.kind == kind
    ensures c.level == 1 && c.experience == 0 && c.maxExperience == InitialMaxExperience
    ensures ThresholdRule(c) && Settled(c) && TotalExperience(c) == 0
    ensures NothingEquipped(c)
  {
    Character(name, kind, 1, 0, InitialMaxExperience, false, false, false, false)
  }

  /** The character created on demand for an account that has none. */
  function DefaultCharacter(): (c: Character)
    ensures c.name == EggName && c.kind == Egg
    ensures c.level == 1 && c.experience == 0 && c.maxExperience == InitialMaxExperience
    ensures ThresholdRule(c) && Settled(c) && NothingEquipped(c)
  {
    NewCharacter(EggName, Egg)
  }

  // ---------------------------------------------------------------------
  // Progression

  /** One level-up. An EGG holding at least 100 experience first evolves
      into a DUCK and takes the DUCK's name; then the level rises by one,
      the old threshold is paid out of the held experience and the new
      threshold is the new level times 100. */
  function LevelUp(c: Character): (r: Character)
    requires ThresholdRule(c)
    ensures r.level == c.level + 1
    ensures r.experience == c.experience - c.maxExperience
    ensures ThresholdRule(r)
    ensures TotalExperience(r) == TotalExperience(c)
    ensures c.experience >= EvolutionExperience ==> r.kind == Duck
    ensures c.experience < EvolutionExperience ==> r.kind == c.kind
    ensures r.name == (if c.kind == Egg && c.experience >= EvolutionExperience then DuckName else c.name)
    ensures SameLooks(c, r)
  {
    var evolves := c.kind == Egg && c.experience >= EvolutionExperience;
    var level := c.level + 1;
    c.(kind := if evolves then Duck else c.kind,
       name := if evolves then DuckName else c.name,
       level := level,
       experience := c.experience - c.maxExperience,
       maxExperience := level * 100)
  }

  /** Level-ups repeated while the held experience reaches the threshold.
      Every threshold is at least 100, so each step pays at least 100 and
      the cascade ends. */
  function Settle(c: Character): (r: Character)
    requires ThresholdRule(c)
    ensures ThresholdRule(r) && !CanLevelUp(r)
    ensures TotalExperience(r) == TotalExperience(c)
    ensures r.level >= c.level
    ensures r.level > c.level <==> CanLevelUp(c)
    ensures c.experience >= 0 ==> r.experience >= 0
    ensures r.kind == Duck <==> c.kind == Duck || CanLevelUp(c)
    ensures r.name == (if c.kind == Egg && CanLevelUp(c) then DuckName else c.name)
    ensures SameLooks(c, r)
    decreases c.experience
  {
    if CanLevelUp(c) then Settle(LevelUp(c)) else c
  }

  /** Adds `x` experience and performs every level-up that becomes due.
      Experience is conserved: the total gained grows by exactly `x`. */
  function AddExperience(c: Character, x: int): (r: Character)
    requires ThresholdRule(c)
    ensures ThresholdRule(r) && !CanLevelUp(r)
    ensures c.experience + x >= 0 ==> Settled(r)
    ensures TotalExperience(r) == TotalExperience(c) + x
    ensures r.level >= c.level
    ensures r.level > c.level <==> c.experience + x >= c.maxExperience
    ensures r.kind == Duck <==> c.kind == Duck || c.experience + x >= c.maxExperience
    ensures r.name == (if c.kind == Egg && c.experience + x >= c.maxExperience then DuckName else c.name)
    ensures SameLooks(c, r)
  {
    Settle(c.(experience := c.experience + x))
  }

  /** Only a level-1 character is an EGG. Creation starts at level 1 and
      the first level-up of an EGG always evolves it. */
  predicate EggAtLevelOne(c: Character) {
    c.kind == Egg ==> c.level == 1
  }

  // ---------------------------------------------------------------------
  // Lemmas

  lemma {:induction false} SpentMonotone(a: int, b: int)
    requires 1 <= a <= b
    ensures SpentExperience(a) <= SpentExperience(b)
    decreases b - a
  {
    if a < b {
      SpentMonotone(a, b - 1);
    }
  }

  /** A settled character on a lower level has gained strictly less in total. */
  lemma LowerLevelLessExperience(c: Character, d: Character)
    requires ThresholdRule(c) && ThresholdRule(d) && Settled(c) && Settled(d)
    requires c.level < d.level
    ensures TotalExperience(c) < TotalExperience(d)
  {
    SpentMonotone(c.level + 1, d.level);
  }

  /** Total experience determines a settled character's progression: two
      settled characters with the same total sit on the same level with the
      same held experience and threshold. */
  lemma SettledUnique(c: Character, d: Character)
    requires ThresholdRule(c) && ThresholdRule(d) && Settled(c) && Settled(d)
    requires TotalExperience(c) == TotalExperience(d)
    ensures c.level == d.level && c.experience == d.experience && c.maxExperience == d.maxExperience
  {
    if c.level < d.level {
      LowerLevelLessExperience(c, d);
    } else if d.level < c.level {
      LowerLevelLessExperience(d, c);
    }
  }

  /** The level-up loop computes the one settled progression whose total
      is the old total plus the gain: any settled character with that total
      agrees with it on level, held experience and threshold. */
  lemma AddExperienceIsNormalForm(c: Character, x: int, d: Character)
    requires ThresholdRule(c) && c.experience + x >= 0
    requires ThresholdRule(d) && Settled(d)
    requires TotalExperience(d) == TotalExperience(c) + x
    ensures AddExperience(c, x).level == d.level
    ensures AddExperience(c, x).experience == d.experience
    ensures AddExperience(c, x).maxExperience == d.maxExperience
  {
    SettledUnique(AddExperience(c, x), d);
  }

  /** Two gains in a row end where one gain of their sum ends, evolution
      included. */
  lemma AddExperienceAdditive(c: Character, x: int, y: int)
    requires ThresholdRule(c) && c.experience + x >= 0 && y >= 0
    ensures AddExperience(AddExperience(c, x), y) == AddExperience(c, x + y)
  {
    var once := AddExperience(c, x + y);
    var twice := AddExperience(AddExperience(c, x), y);
    SettledUnique(once, twice);
    assert SameLooks(once, twice);
    assert once.equippedStrawberryHairpin == twice.equippedStrawberryHairpin by {
      assert Equipped(once, StrawberryHairpin) == Equipped(twice, StrawberryHairpin);
    }
    assert once.equippedGongbangAhjima == twice.equippedGongbangAhjima by {
      assert Equipped(once, GongbangAhjima) == Equipped(twice, GongbangAhjima);
    }
    assert once.equippedCarCrown == twice.equippedCarCrown by {
      assert Equipped(once, CarCrown) == Equipped(twice, CarCrown);
    }
    assert once.equippedRose == twice.equippedRose by {
      assert Equipped(once, Rose) == Equipped(twice, Rose);
    }
  }

  /** Evolution happens exactly when experience reaches 100: for an EGG,
      which sits on level 1, a gain evolves it precisely when the held
      experience reaches `EvolutionExperience`, and an EGG that does not
      evolve stays on level 1. */
  lemma EvolvesAtHundred(c: Character, x: int)
    requires ThresholdRule(c) && EggAtLevelOne(c)
    ensures EggAtLevelOne(AddExperience(c, x))
    ensures c.kind == Egg ==>
              (AddExperience(c, x).kind == Duck <==> c.experience + x >= EvolutionExperience)
  {
  }

  /** Level 1 holding 90 of 100, plus 20: level 2 holding 10 of 200. */
  lemma LevelUpExample(name: string, kind: CharacterType)
    ensures var r := AddExperience(NewCharacter(name, kind).(experience := 90), 20);
            r.level == 2 && r.experience == 10 && r.maxExperience == 200
  {
  }

  /** An EGG holding 80, plus 25: it evolves into the DUCK and levels up to
      level 2 holding 5 of 200. */
  lemma EvolutionExample()
    ensures var r := AddExperience(DefaultCharacter().(experience := 80), 25);
            r.kind == Duck && r.name == DuckName &&
            r.level == 2 && r.experience == 5 && r.maxExperience == 200
  {
  }
}
