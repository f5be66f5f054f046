/** The character service: petting, feeding and game completion under the
    daily limits, the experience and bonus they grant, the consumable a
    feeding uses up, equipping cosmetics and creating the character.

    A player is one account and its character, if one was created yet; the
    character is created on demand (an EGG at level 1) by every operation
    that needs one. */
module CharacterService {
  import opened Common
  import opened ShopItems
  import opened Accounts
  import opened Characters
  import opened DailyLimits

  const PetExperience: int := 20
  const FeedExperience: int := 20
  const GameCompletionExperience: int := 50
  const ThirdGameBonusExperience: int := 20

  datatype Player = Player(account: Account, character: Option<Character>)

  /** A stored character obeys the threshold rule. */
  predicate PlayerOk(p: Player) {
    p.character.Some? ==> ThresholdRule(p.character.value)
  }

  /** The player's character, or the one that would be created on demand. */
  function CharacterOf(p: Player): (c: Character)
    ensures p.character.Some? ==> c == p.character.value
    ensures p.character.None? ==> c == NewCharacter(EggName, Egg)
    ensures PlayerOk(p) ==> ThresholdRule(c)
  {
    match p.character
    case Some(c) => c
    case None => DefaultCharacter()
  }

  /** What an activity reports back. */
  datatype GameCompletion = GameCompletion(
    experienceGained: int,
    totalExperience: int,
    currentLevel: int,
    dailyCount: int,
    remainingDaily: int)

  /** The outcome of a successful activity: the new player, the report, the
      bonus granted with it and the consumable it used up, if any. */
  datatype Done = Done(
    player: Player,
    response: GameCompletion,
    bonus: int,
    consumed: Option<ShopItemType>)

  /** `r` is the outcome of granting `gained` experience to the character of
      `p` after activity `act` was counted into `counted`, followed by the
      all-complete bonus check on `counted`. */
  predicate Rewarded(p: Player, counted: Account, act: Activity, gained: int, today: int, r: Done) {
    var before := CharacterOf(p);
    && r.player.character.Some?
    && var after := r.player.character.value;
    && r.bonus == (if BonusDue(counted, today) then AllCompleteBonus else 0)
    && r.player.account == (if BonusDue(counted, today) then counted.(lastBonusDate := Some(today)) else counted)
    && r.response.experienceGained == gained + r.bonus
    && ThresholdRule(after)
    && TotalExperience(after) == TotalExperience(before) + r.response.experienceGained
    && (before.experience >= 0 && gained >= 0 ==> Settled(after))
    && after.level >= before.level
    && (before.kind == Duck ==> after.kind == Duck)
    && (after.kind == Duck <==> before.kind == Duck || after.level > before.level)
    && after.name == (if before.kind == Egg && after.level > before.level then DuckName else before.name)
    && SameLooks(before, after)
    && r.response.totalExperience == after.experience
    && r.response.currentLevel == after.level
    && r.response.dailyCount == Counter(counted, act)
    && r.response.remainingDaily == DailyLimit - Counter(counted, act)
  }

  /** Grants the activity's experience, checks the all-complete bonus and
      grants the bonus experience too when it is due. */
  function Reward(p: Player, counted: Account, act: Activity, gained: int, today: int): (r: Done)
    requires PlayerOk(p) && gained >= 0
    ensures Rewarded(p, counted, act, gained, today, r)
    ensures r.consumed == None
  {
    var grown := AddExperience(CharacterOf(p), gained);
    var bonus := CheckAllCompleteBonus(counted, today);
    var c := if bonus.amount > 0 then AddExperience(grown, bonus.amount) else grown;
    Done(Player(bonus.account, Some(c)),
         GameCompletion(gained + bonus.amount, c.experience, c.level,
                        Counter(counted, act), DailyLimit - Counter(counted, act)),
         bonus.amount, None)
  }

  /** The account after an activity, with the bonus date put back as it was
      before: the account as counted, before the bonus check. */
  function CountedAccount(p: Player, r: Done): Account {
    r.player.account.(lastBonusDate := p.account.lastBonusDate)
  }

  /** Pets the character: one of today's three pets, 20 experience. */
  function PetCharacter(p: Player, today: int): (r: Result<Done>)
    requires PlayerOk(p)
    ensures r.Err? <==> Remaining(p.account, Pet, today) <= 0
    ensures r.Err? ==> r.error == DailyLimitExceeded
    ensures r.Ok? ==> Consumed(p.account, CountedAccount(p, r.value), Pet, today)
    ensures r.Ok? ==> Rewarded(p, CountedAccount(p, r.value), Pet, PetExperience, today, r.value)
  {
    match TryConsume(p.account, Pet, today)
    case Err(e) => Err(e)
    case Ok(counted) => Ok(Reward(p, counted, Pet, PetExperience, today))
  }

  /** Experience for a completed game: 50, or 70 for the game that uses up
      the last of the day's three. */
  function GameExperience(remainingBefore: int): (x: int)
    ensures x == GameCompletionExperience || x == GameCompletionExperience + ThirdGameBonusExperience
    ensures x > GameCompletionExperience <==> remainingBefore == 1
  {
    if remainingBefore == 1 then GameCompletionExperience + ThirdGameBonusExperience
    else GameCompletionExperience
  }

  /** Completes a game: one of today's three games, 50 experience, 20 more
      for the third. */
  function CompleteGame(p: Player, today: int): (r: Result<Done>)
    requires PlayerOk(p)
    ensures r.Err? <==> Remaining(p.account, Game, today) <= 0
    ensures r.Err? ==> r.error == DailyLimitExceeded
    ensures r.Ok? ==> Consumed(p.account, CountedAccount(p, r.value), Game, today)
    ensures r.Ok? ==> Rewarded(p, CountedAccount(p, r.value), Game,
                               GameExperience(Remaining(p.account, Game, today)), today, r.value)
    ensures r.Ok? ==> (r.value.response.dailyCount == DailyLimit <==>
                       r.value.response.experienceGained - r.value.bonus == 70)
  {
    match TryConsume(p.account, Game, today)
    case Err(e) => Err(e)
    case Ok(counted) =>
      var gained :=
        if Counter(counted, Game) == DailyLimit
        then GameCompletionExperience + ThirdGameBonusExperience
        else GameCompletionExperience;
      Ok(Reward(p, counted, Game, gained, today))
  }

  /** The consumable a feeding uses up: the kind with the larger stack,
      persimmon on a tie, and only a kind the account holds. */
  predicate Preferred(a: Account, item: ShopItemType) {
    && IsConsumption(item)
    && Count(a, item) > 0
    && (forall k :: IsConsumption(k) ==> Count(a, k) <= Count(a, item))
    && (item == GreenTea ==> a.greenTeaCount > a.persimmonCount)
  }

  /** `b` is `a` with one unit of consumable `item` eaten: its counter and
      the consumable aggregate drop by one and nothing else changes. */
  predicate Ate(a: Account, b: Account, item: ShopItemType) {
    && Count(b, item) == Count(a, item) - 1
    && (forall k :: k != item ==> Count(b, k) == Count(a, k))
    && b.consumptionCount == a.consumptionCount - 1
    && b.point == a.point
    && b.watched == a.watched
    && b.cosmeticCount == a.cosmeticCount
  }

  datatype Meal = Meal(account: Account, item: ShopItemType)

  /** Uses up one consumable for a feeding, or fails when neither persimmon
      nor green tea is held. */
  function ConsumeConsumable(a: Account): (r: Result<Meal>)
    ensures r.Err? <==> a.persimmonCount <= 0 && a.greenTeaCount <= 0
    ensures r.Err? ==> r.error == NoConsumable
    ensures r.Ok? ==> Preferred(a, r.value.item)
    ensures r.Ok? ==> Ate(a, r.value.account, r.value.item) && SameDaily(a, r.value.account)
  {
    if a.persimmonCount == 0 && a.greenTeaCount == 0 then Err(NoConsumable)
    else if a.persimmonCount >= a.greenTeaCount && a.persimmonCount > 0 then
      Ok(Meal(a.(persimmonCount := a.persimmonCount - 1,
                 consumptionCount := a.consumptionCount - 1), Persimmon))
    else if a.greenTeaCount > 0 then
      Ok(Meal(a.(greenTeaCount := a.greenTeaCount - 1,
                 consumptionCount := a.consumptionCount - 1), GreenTea))
    else Err(NoConsumable)
  }

  /** Feeds the character: one of today's three feedings, one consumable
      used up, 20 experience. The daily limit is checked before the
      consumables. */
  function FeedCharacter(p: Player, today: int): (r: Result<Done>)
    requires PlayerOk(p)
    ensures r.Err? <==> Remaining(p.account, Feed, today) <= 0
                        || (p.account.persimmonCount <= 0 && p.account.greenTeaCount <= 0)
    ensures r.Err? && Remaining(p.account, Feed, today) <= 0 ==> r.error == DailyLimitExceeded
    ensures r.Err? && Remaining(p.account, Feed, today) > 0 ==> r.error == NoConsumable
    ensures r.Ok? ==> r.value.consumed.Some?
    ensures r.Ok? ==> var item := r.value.consumed.value;
                      var counted := CountedAccount(p, r.value);
                      && Preferred(p.account, item)
                      && Ate(p.account, counted, item)
                      && DailyConsumed(p.account, counted, Feed, today)
    ensures r.Ok? ==> Rewarded(p, CountedAccount(p, r.value), Feed, FeedExperience, today, r.value)
  {
    match TryConsume(p.account, Feed, today)
    case Err(e) => Err(e)
    case Ok(counted) =>
      match ConsumeConsumable(counted)
      case Err(e) => Err(e)
      case Ok(meal) =>
        var done := Reward(p, meal.account, Feed, FeedExperience, today);
        Ok(done.(consumed := Some(meal.item)))
  }

  /** Every worn cosmetic is one the account owns. */
  predicate EquippedOwned(p: Player) {
    forall k :: Equipped(CharacterOf(p), k) ==> OwnedCount(p.account, k) > 0
  }

  /** Puts on (`equip`) or takes off a cosmetic the account owns. Putting
      one on first takes off all four, so it ends up the only one worn. */
  function EquipItem(p: Player, kind: ShopItemType, equip: bool): (r: Result<Player>)
    ensures r.Err? <==> OwnedCount(p.account, kind) <= 0
    ensures r.Err? ==> r.error == NotOwned
    ensures r.Ok? ==> IsCosmetic(kind)
    ensures r.Ok? ==> r.value.account == p.account && r.value.character.Some?
    ensures r.Ok? ==> SameProgress(CharacterOf(p), CharacterOf(r.value))
    ensures r.Ok? && equip ==> forall k :: Equipped(CharacterOf(r.value), k) <==> k == kind
    ensures r.Ok? && !equip ==> forall k :: Equipped(CharacterOf(r.value), k) <==>
                                             k != kind && Equipped(CharacterOf(p), k)
  {
    var c := CharacterOf(p);
    if OwnedCount(p.account, kind) <= 0 then Err(NotOwned)
    else
      var cleared := if equip then UnequipAll(c) else c;
      Ok(Player(p.account, Some(WithEquipped(cleared, kind, equip))))
  }

  /** Creates the account's character; an account has at most one. */
  function CreateCharacter(p: Player, name: string, kind: CharacterType): (r: Result<Player>)
    ensures r.Err? <==> p.character.Some?
    ensures r.Err? ==> r.error == AlreadyExists
    ensures r.Ok? ==> var c := CharacterOf(r.value);
                      && r.value.account == p.account
                      && r.value.character == Some(c)
                      && c.name == name && c.kind == kind
                      && ThresholdRule(c) && Settled(c) && TotalExperience(c) == 0
                      && NothingEquipped(c)
  {
    if p.character.Some? then Err(AlreadyExists)
    else Ok(Player(p.account, Some(NewCharacter(name, kind))))
  }

  // ---------------------------------------------------------------------
  // A day of activities

  /** Performs one activity. */
  function Perform(p: Player, act: Activity, today: int): (r: Result<Done>)
    requires PlayerOk(p)
    ensures r.Ok? ==> PlayerOk(r.value.player)
    ensures r.Ok? ==> r.value.bonus == 0 || r.value.bonus == AllCompleteBonus
    ensures r.Ok? && r.value.bonus > 0 ==>
              && p.account.lastBonusDate != Some(today)
              && r.value.player.account.lastBonusDate == Some(today)
    ensures r.Ok? && r.value.bonus == 0 ==>
              r.value.player.account.lastBonusDate == p.account.lastBonusDate
  {
    match act
    case Game => CompleteGame(p, today)
    case Pet => PetCharacter(p, today)
    case Feed => FeedCharacter(p, today)
  }

  datatype Day = Day(player: Player, bonus: int)

  /** Performs the activities in order on one day, skipping the refused
      ones, and adds up the all-complete bonus experience granted. */
  function RunDay(p: Player, today: int, acts: seq<Activity>): (d: Day)
    requires PlayerOk(p)
    ensures PlayerOk(d.player)
    decreases |acts|
  {
    if acts == [] then Day(p, 0)
    else
      match Perform(p, acts[0], today)
      case Err(_) => RunDay(p, today, acts[1..])
      case Ok(done) =>
        var rest := RunDay(done.player, today, acts[1..]);
        Day(rest.player, done.bonus + rest.bonus)
  }

  /** However many activities are performed on one day, in whatever order,
      the all-complete bonus is granted at most once; not at all once it
      was granted earlier that day. */
  lemma {:induction false} BonusAtMostOncePerDay(p: Player, today: int, acts: seq<Activity>)
    requires PlayerOk(p)
    ensures 0 <= RunDay(p, today, acts).bonus <= AllCompleteBonus
    ensures p.account.lastBonusDate == Some(today) ==> RunDay(p, today, acts).bonus == 0
    decreases |acts|
  {
    if acts != [] {
      match Perform(p, acts[0], today)
      case Err(_) =>
        BonusAtMostOncePerDay(p, today, acts[1..]);
      case Ok(done) =>
        BonusAtMostOncePerDay(done.player, today, acts[1..]);
    }
  }

  // ---------------------------------------------------------------------
  // The player invariant

  /** What every reachable player satisfies: the threshold rule, only a
      level-1 character is an EGG, daily counters within the limit, at most
      one cosmetic worn and only owned cosmetics worn. */
  predicate Invariant(p: Player) {
    && PlayerOk(p)
    && EggAtLevelOne(CharacterOf(p))
    && WithinLimits(p.account)
    && EquippedOwned(p)
    && AtMostOneEquipped(CharacterOf(p))
  }

  /** A player with no character and a fresh account satisfies it. */
  lemma NewPlayerInvariant(a: Account)
    requires WithinLimits(a)
    ensures Invariant(Player(a, None))
  {
  }

  lemma {:induction false} ActivityKeepsInvariant(p: Player, act: Activity, today: int)
    requires Invariant(p)
    ensures Perform(p, act, today).Ok? ==> Invariant(Perform(p, act, today).value.player)
  {
    var r := Perform(p, act, today);
    if r.Ok? {
      var q := r.value.player;
      var counted := CountedAccount(p, r.value);
      assert SameLooks(CharacterOf(p), CharacterOf(q));
      assert forall k :: IsCosmetic(k) ==> Count(q.account, k) == Count(p.account, k);
      assert forall a :: Counter(q.account, a) == Counter(counted, a);
      forall a ensures 0 <= Counter(counted, a) <= DailyLimit {
        if a != act {
          assert SameActivity(p.account, counted, a);
        }
      }
    }
  }

  lemma EquipKeepsInvariant(p: Player, kind: ShopItemType, equip: bool)
    requires Invariant(p)
    ensures EquipItem(p, kind, equip).Ok? ==> Invariant(EquipItem(p, kind, equip).value)
  {
  }

  lemma CreateKeepsInvariant(p: Player, name: string, kind: CharacterType)
    requires Invariant(p)
    ensures CreateCharacter(p, name, kind).Ok? ==> Invariant(CreateCharacter(p, name, kind).value)
  {
  }

  /** A DUCK never turns back into an EGG, whatever the activity. */
  lemma NoDevolution(p: Player, act: Activity, today: int)
    requires PlayerOk(p) && CharacterOf(p).kind == Duck
    ensures Perform(p, act, today).Ok? ==> CharacterOf(Perform(p, act, today).value.player).kind == Duck
  {
  }

  /** Creating a character succeeds once; a second creation fails. */
  lemma CreateCharacterOnce(p: Player, name: string, kind: CharacterType, name2: string, kind2: CharacterType)
    requires p.character.None?
    ensures CreateCharacter(p, name, kind).Ok?
    ensures CreateCharacter(CreateCharacter(p, name, kind).value, name2, kind2) == Err(AlreadyExists)
  {
  }
}
