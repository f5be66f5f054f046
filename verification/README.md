# Tamagotchi-style game economy, modelled in Dafny

This project models the per-user game economy of the `kdt` backend. A user
has a point balance, six item counters and a character. The character
levels up, evolves from an EGG into a DUCK, and wears cosmetics. The
services of the economy are:

- **Characters** (`character.dfy`): the character record and its progression.
  - Adding experience runs a cascade of level-ups.
  - Every level-up pays the old threshold and sets the new threshold to `level * 100`.
  - The first level-up of an EGG holding at least 100 experience turns it into a DUCK named "토덕이".
- **DailyLimits** (`daily.dfy`): the daily limiter shared by petting, feeding and games.
  - Each activity has a counter and the day it was last performed.
  - A stale day resets the counter, and the counter is capped at three.
  - The all-complete bonus of 20 experience is granted at most once a day.
- **CharacterService** (`character_service.dfy`): the activities themselves.
  - Petting and feeding grant 20 experience; a game grants 50, or 70 for the third game of the day.
  - Feeding uses up the larger stack of persimmon or green tea, and persimmon on a tie.
  - Equipping a cosmetic requires owning it.
  - Creating a character succeeds once per account.
- **ProductService** (`product_service.dfy`): exchanging points for products, donating points, and the one-time watch reward.
  - Each exchange and donation appends a record to a history.
- **ItemService** (`item_service.dfy`): buying one shop item at its price, and the catalogue listings.
- **ChargeService** (`charge_service.dfy`): the point packages.
- **Economy** (`economy.dfy`): the player invariant is kept by the operations that change only the account.
- **InventoryService** (`inventory_service.dfy`): the consumables view, the cosmetics view, the summary and the per-category dispatch.
- **ShopItems** (`shop_items.dfy`), **Accounts** (`account.dfy`) and **Common** (`common.dfy`): the six item kinds in declaration order, the account record, and `Option`/`Result` with the error kinds.

Every operation is a pure function from the old state to a
`Result`. An `Err` leaves the caller holding the old state, which is how the
model renders the all-or-nothing transactions of the services. The current
day is an integer parameter `today`, and an absent date is `None`.

Three properties relate operations to independent definitions rather than to
their own bodies:

- **Experience is conserved.** `TotalExperience` is the experience
  consumed by all level-ups so far plus the experience held. It grows by
  exactly the amount granted, and it determines level and held experience
  uniquely (`SettledUnique`).
- **Points are conserved by purchases.** A shop purchase keeps the balance
  plus the shop value of the holdings unchanged. Exchanges and donations keep
  the balance plus the recorded spending unchanged.
- **The inventory views agree.** Two views computed independently in the
  source, the cosmetics view and the summary, agree on the number of owned
  kinds. The view's worn count never exceeds the summary's, and the two are
  equal when only owned cosmetics are worn.

## Model

| member | source | states |
|---|---|---|
| ShopItems.CategoriesAndPrices | kdt/src/main/java/com/backend/kdt/shop/entity/ShopItemType.java:10-17 | PERSIMMON and GREEN_TEA are exactly the consumable kinds, the other four exactly the cosmetic kinds, no kind is both, and every kind costs 100 points |
| ShopItems.AllKindsComplete | kdt/src/main/java/com/backend/kdt/shop/entity/ShopItemType.java:10-17 | the declaration-order listing holds all six kinds, each exactly at its declaration position, in strictly increasing order |
| ShopItems.KindsIn | kdt/src/main/java/com/backend/kdt/shop/service/ItemService.java:94-97 | filtering by category keeps exactly the kinds of that category, and a listing in declaration order stays in declaration order |
| ShopItems.ListingDeterminedByContents | kdt/src/main/java/com/backend/kdt/shop/entity/ShopItemType.java:10-17 | two listings in declaration order that hold the same kinds are equal, so declaration order fixes every listing |
| Accounts.OwnedCount | kdt/src/main/java/com/backend/kdt/character/service/CharacterService.java:508-521 | the owned count of a cosmetic is its counter, and 0 for a consumable kind |
| Accounts.WithCount | kdt/src/main/java/com/backend/kdt/shop/service/ItemService.java:44-63 | setting one kind's counter changes that counter and no other field |
| Characters.NewCharacter | kdt/src/main/java/com/backend/kdt/character/entity/Character.java:46-72 | a new character is on level 1 with 0 experience and threshold 100, obeys the threshold rule, has gained nothing in total and wears nothing |
| Characters.DefaultCharacter | kdt/src/main/java/com/backend/kdt/character/service/CharacterService.java:102-109 | the character created on demand is the EGG "알" on level 1 holding 0 of 100, obeying the threshold rule and wearing nothing |
| Characters.CanLevelUp | kdt/src/main/java/com/backend/kdt/character/entity/Character.java:83-85 | a level-up is due exactly when a character with non-negative experience is not settled, and under the threshold rule a due level-up has at least 100 to pay |
| Characters.Equipped | kdt/src/main/java/com/backend/kdt/character/service/CharacterService.java:490-503 | only a cosmetic kind can be worn |
| Characters.WithEquipped | kdt/src/main/java/com/backend/kdt/character/service/CharacterService.java:468-485 | setting a cosmetic slot changes that slot only and leaves the progression alone |
| Characters.UnequipAll | kdt/src/main/java/com/backend/kdt/character/service/CharacterService.java:436-442 | afterwards no cosmetic is worn and the progression is unchanged |
| Characters.LevelUp | kdt/src/main/java/com/backend/kdt/character/service/CharacterService.java:447-463 | level rises by one, the old threshold is paid from held experience, the new threshold is the new level times 100, total experience is conserved, and an EGG holding at least 100 becomes a DUCK named "토덕이" while other kinds and names stay |
| Characters.Settle | kdt/src/main/java/com/backend/kdt/character/service/CharacterService.java:116-119 | the level-up loop ends with experience below the threshold, conserves total experience, raises the level exactly when a level-up was due, and evolves an EGG exactly when one was due |
| Characters.AddExperience | kdt/src/main/java/com/backend/kdt/character/service/CharacterService.java:114-119 | total experience grows by exactly the gain; afterwards held experience lies in [0, threshold) for a non-negative result; the level never drops and rises exactly when the threshold is reached; an EGG becomes the DUCK named "토덕이" exactly then, while otherwise kind and name stay; worn cosmetics are untouched |
| Characters.SpentMonotone | kdt/src/main/java/com/backend/kdt/character/service/CharacterService.java:456-460 | the experience consumed by level-ups grows with the level |
| Characters.LowerLevelLessExperience | kdt/src/main/java/com/backend/kdt/character/service/CharacterService.java:456-460 | of two settled characters, the one on the lower level has gained strictly less in total |
| Characters.SettledUnique | kdt/src/main/java/com/backend/kdt/character/service/CharacterService.java:456-460 | total experience determines level, held experience and threshold of a settled character |
| Characters.AddExperienceIsNormalForm | kdt/src/main/java/com/backend/kdt/character/service/CharacterService.java:114-119 | adding experience yields the one settled progression whose total is the old total plus the gain |
| Characters.AddExperienceAdditive | kdt/src/main/java/com/backend/kdt/character/service/CharacterService.java:156-167 | granting the activity experience and then the bonus ends where one grant of their sum ends |
| Characters.EvolvesAtHundred | kdt/src/main/java/com/backend/kdt/character/service/CharacterService.java:449-451 | only level-1 characters are EGGs, and an EGG evolves exactly when its held experience reaches 100 |
| Characters.LevelUpExample | kdt/src/main/java/com/backend/kdt/character/service/CharacterService.java:456-460 | level 1 holding 90, plus 20, gives level 2 holding 10 of 200 |
| Characters.EvolutionExample | kdt/src/main/java/com/backend/kdt/character/service/CharacterService.java:449-451 | an EGG holding 80, plus 25, becomes the DUCK on level 2 holding 5 of 200 |
| DailyLimits.Refresh | kdt/src/main/java/com/backend/kdt/character/service/CharacterService.java:139-142 | an absent or stale date resets the counter to 0 and stamps today; a date of today leaves the account as it is; other activities are untouched |
| DailyLimits.Remaining | kdt/src/main/java/com/backend/kdt/character/service/CharacterService.java:358-387 | the remaining allowance is 3 when the date is stale, otherwise 3 minus today's counter |
| DailyLimits.TryConsume | kdt/src/main/java/com/backend/kdt/character/service/CharacterService.java:139-150 | the activity is refused with DailyLimitExceeded exactly when nothing remains today; on success one performance is used up, the counter is at most 3, other activities and the wallet are unchanged, and counters within the limit stay within it |
| DailyLimits.DailyCapExample | kdt/src/main/java/com/backend/kdt/character/service/CharacterService.java:145-150 | from a fresh counter three performances leave 2, 1 and 0 and a fourth is refused |
| DailyLimits.CrossDayReset | kdt/src/main/java/com/backend/kdt/character/service/CharacterService.java:309-320 | a counter exhausted yesterday does not block today's first performance |
| DailyLimits.CheckAllCompleteBonus | kdt/src/main/java/com/backend/kdt/character/service/CharacterService.java:267-295 | the bonus is 20 exactly when all three activities are exhausted today and none was granted today, in which case today becomes the bonus date; otherwise it is 0 and nothing changes |
| DailyLimits.BonusOncePerDay | kdt/src/main/java/com/backend/kdt/character/service/CharacterService.java:284-291 | a second bonus check on the same day grants nothing |
| CharacterService.CharacterOf | kdt/src/main/java/com/backend/kdt/character/service/CharacterService.java:95-112 | the result is the stored character when there is one, and otherwise the default EGG "알" on level 1 holding 0 of 100; it obeys the threshold rule when the stored one does |
| CharacterService.Reward | kdt/src/main/java/com/backend/kdt/character/service/CharacterService.java:156-175 | the character gains the activity experience plus the bonus when due, total experience grows by exactly the reported gain, an EGG becomes the DUCK named "토덕이" exactly when it levels up while kind and name otherwise stay, and the report carries the new level, held experience, counter and remaining allowance |
| CharacterService.PetCharacter | kdt/src/main/java/com/backend/kdt/character/service/CharacterService.java:131-179 | petting fails exactly when no pet remains today; on success one pet is used up, the wallet is unchanged and 20 experience (plus any bonus) is granted, evolving an EGG exactly when it levels up |
| CharacterService.CompleteGame | kdt/src/main/java/com/backend/kdt/character/service/CharacterService.java:301-357 | a game fails exactly when no game remains today; on success it grants 70 experience when it is the day's third game and 50 otherwise, plus any bonus, evolving an EGG exactly when it levels up |
| CharacterService.GameExperience | kdt/src/main/java/com/backend/kdt/character/service/CharacterService.java:323-331 | a game is worth 50 or 70 experience, and 70 exactly when it uses up the last game of the day |
| CharacterService.ConsumeConsumable | kdt/src/main/java/com/backend/kdt/character/service/CharacterService.java:241-262 | fails with NoConsumable exactly when neither persimmon nor green tea is held; otherwise exactly one unit of the larger stack (persimmon on a tie) and one of the consumable aggregate are used up, nothing else changes |
| CharacterService.FeedCharacter | kdt/src/main/java/com/backend/kdt/character/service/CharacterService.java:185-236 | feeding fails with DailyLimitExceeded when no feeding remains and otherwise with NoConsumable when nothing can be eaten; on success one feeding and one preferred consumable are used up and 20 experience (plus any bonus) is granted, evolving an EGG exactly when it levels up |
| CharacterService.EquipItem | kdt/src/main/java/com/backend/kdt/character/service/CharacterService.java:393-431 | fails with NotOwned exactly when the account owns none of the kind (always for a consumable); putting one on leaves it the only one worn; taking one off clears just that slot; the account and progression are unchanged |
| CharacterService.CreateCharacter | kdt/src/main/java/com/backend/kdt/character/service/CharacterService.java:43-63 | fails with AlreadyExists exactly when the account has a character; otherwise creates one with the given name and kind on level 1 with nothing gained and nothing worn |
| CharacterService.CreateCharacterOnce | kdt/src/main/java/com/backend/kdt/character/service/CharacterService.java:47-50 | the first creation succeeds and a second creation for the same account fails |
| CharacterService.Perform | kdt/src/main/java/com/backend/kdt/character/service/CharacterService.java:284-291 | any activity grants a bonus of 0 or 20; a bonus of 20 is granted only when none was granted today and stamps today; otherwise the bonus date is unchanged |
| CharacterService.BonusAtMostOncePerDay | kdt/src/main/java/com/backend/kdt/character/service/CharacterService.java:284-291 | whatever activities are performed on one day, in any order, the bonus is granted at most once, and not at all if it was granted earlier that day |
| CharacterService.NewPlayerInvariant | kdt/src/main/java/com/backend/kdt/character/entity/Character.java:46-72 | an account with no character and counters within the limit satisfies the player invariant |
| CharacterService.ActivityKeepsInvariant | kdt/src/main/java/com/backend/kdt/character/service/CharacterService.java:131-357 | petting, feeding and games keep the threshold rule, only level-1 EGGs, counters within 3, at most one worn cosmetic and only owned ones worn |
| CharacterService.EquipKeepsInvariant | kdt/src/main/java/com/backend/kdt/character/service/CharacterService.java:415-425 | equipping and unequipping keep the player invariant |
| CharacterService.CreateKeepsInvariant | kdt/src/main/java/com/backend/kdt/character/service/CharacterService.java:43-63 | creating the character keeps the player invariant |
| CharacterService.NoDevolution | kdt/src/main/java/com/backend/kdt/character/service/CharacterService.java:449-451 | no activity turns a DUCK back into an EGG |
| ProductService.ExchangeProduct | kdt/src/main/java/com/backend/kdt/pay/service/ProductService.java:145-195 | refused with InvalidItem for a donation product, then InsufficientFunds when the balance is below price times quantity, then InsufficientStock; on success the cost is debited, the stock drops by the quantity, one strawberry hairpin and one cosmetic are credited, a PURCHASE record is appended, and the receipt reports the new balance |
| ProductService.DonateProduct | kdt/src/main/java/com/backend/kdt/pay/service/ProductService.java:201-244 | refused with InvalidItem for a purchase product, then InsufficientFunds; on success exactly the amount is debited, one rose and one cosmetic are credited, the product is unchanged, an accepted DONATION record of quantity 1 is appended, and the receipt reports the new balance |
| ProductService.CompleteWatching | kdt/src/main/java/com/backend/kdt/pay/service/ProductService.java:259-280 | refused with AlreadyCompleted once watched; otherwise marks it watched and credits 3 persimmons and 3 consumables, nothing else changes |
| ProductService.WatchOnce | kdt/src/main/java/com/backend/kdt/pay/service/ProductService.java:263-265 | after a first successful watch reward a second one always fails |
| ProductService.LedgerBalanced | kdt/src/main/java/com/backend/kdt/pay/service/ProductService.java:76-92 | exchanges and donations keep the balance plus the spending recorded in the history constant |
| Economy.AccountChangeKeepsInvariant | kdt/src/main/java/com/backend/kdt/character/service/CharacterService.java:413-417 | a change of the account that keeps the daily counters and takes away no cosmetic keeps the player invariant |
| Economy.PurchaseKeepsInvariant | kdt/src/main/java/com/backend/kdt/shop/service/ItemService.java:41-63 | a shop purchase keeps the player invariant |
| Economy.ExchangeKeepsInvariant | kdt/src/main/java/com/backend/kdt/pay/service/ProductService.java:76-82 | a product exchange keeps the player invariant |
| Economy.DonateKeepsInvariant | kdt/src/main/java/com/backend/kdt/pay/service/ProductService.java:120-125 | a donation keeps the player invariant |
| Economy.WatchKeepsInvariant | kdt/src/main/java/com/backend/kdt/pay/service/ProductService.java:267-270 | the watch reward keeps the player invariant |
| Economy.ChargeKeepsInvariant | kdt/src/main/java/com/backend/kdt/charge/service/ChargeService.java:28-31 | a point charge keeps the player invariant |
| ItemService.PurchaseItem | kdt/src/main/java/com/backend/kdt/shop/service/ItemService.java:28-79 | refused with InsufficientFunds exactly when the balance is below the price; on success exactly the price is debited, exactly the chosen counter rises by one, the aggregates and daily state are untouched, and the receipt shows quantity 1, the price and the new balance |
| ItemService.PurchaseKeepsWorth | kdt/src/main/java/com/backend/kdt/shop/service/ItemService.java:36-63 | a purchase keeps the balance plus the shop value of the holdings constant |
| ItemService.AllItems | kdt/src/main/java/com/backend/kdt/shop/service/ItemService.java:84-88 | the catalogue lists all six kinds once each, in declaration order |
| ItemService.ItemsByCategory | kdt/src/main/java/com/backend/kdt/shop/service/ItemService.java:93-98 | the listing of a category holds exactly the kinds of that category, in declaration order |
| ItemService.ConsumptionListing | kdt/src/main/java/com/backend/kdt/shop/service/ItemService.java:103-105 | the consumable listing is PERSIMMON, GREEN_TEA |
| ItemService.CosmeticListing | kdt/src/main/java/com/backend/kdt/shop/service/ItemService.java:110-112 | the cosmetic listing is STRAWBERRY_HAIRPIN, GONGBANG_AHJIMA, CAR_CROWN, ROSE |
| ItemService.CategoriesPartitionCatalogue | kdt/src/main/java/com/backend/kdt/shop/service/ItemService.java:84-98 | the consumable listing followed by the cosmetic listing is the whole catalogue |
| ChargeService.ChargePoints | kdt/src/main/java/com/backend/kdt/charge/service/ChargeService.java:24-40 | the balance rises by exactly the package's points, strictly, no other field changes, and the receipt reports the points added and the new balance |
| ChargeService.PackagesPositive | kdt/src/main/java/com/backend/kdt/charge/entity/ChargeType.java:4-7 | the packages add 100, 500, 1000 or 3000 points, all positive |
| ChargeService.ChargeAddsToWorth | kdt/src/main/java/com/backend/kdt/charge/service/ChargeService.java:29-30 | a charge adds exactly the package's points to the balance plus the shop value of the holdings |
| InventoryService.ConsumptionEntries | kdt/src/main/java/com/backend/kdt/inventory/service/InventoryService.java:54-63 | one entry per consumable kind held at least once, with its count; scanning kinds in declaration order lists them in declaration order |
| InventoryService.GetConsumptionItems | kdt/src/main/java/com/backend/kdt/inventory/service/InventoryService.java:49-75 | lists exactly the consumable kinds held, with their positive counts, in declaration order; the total is the sum of the positive persimmon and green tea counts |
| InventoryService.ConsumptionTotal | kdt/src/main/java/com/backend/kdt/inventory/service/InventoryService.java:65-67 | the listed counts add up to the positive parts of the persimmon and green tea counts |
| InventoryService.CosmeticEntries | kdt/src/main/java/com/backend/kdt/inventory/service/InventoryService.java:88-98 | one owned entry per cosmetic kind owned, marked worn exactly when the character wears it; scanning kinds in declaration order lists them in declaration order |
| InventoryService.GetCosmeticItems | kdt/src/main/java/com/backend/kdt/inventory/service/InventoryService.java:80-113 | lists exactly the owned cosmetic kinds in declaration order; the owned total is the list length; the worn total counts kinds both owned and worn, and is 0 without a character |
| InventoryService.GetInventorySummary | kdt/src/main/java/com/backend/kdt/inventory/service/InventoryService.java:132-163 | the consumable total is persimmon plus green tea unfiltered; owned cosmetic kinds are counted; worn slots are counted whether owned or not, 0 without a character; the four ownership flags are count > 0; the item total is consumables plus owned kinds |
| InventoryService.GetItemsByType | kdt/src/main/java/com/backend/kdt/inventory/service/InventoryService.java:118-127 | the consumable category yields the consumables view and the cosmetic category the cosmetics view |
| InventoryService.SummaryAgreesWithCosmetics | kdt/src/main/java/com/backend/kdt/inventory/service/InventoryService.java:140-156 | the summary and the cosmetics view count the same owned kinds; the view's worn count is at most the summary's, with equality when only owned cosmetics are worn |
| InventoryService.SummaryAgreesWithConsumables | kdt/src/main/java/com/backend/kdt/inventory/service/InventoryService.java:145 | with no negative counter, the consumables view total equals the summary's consumable total |

## Left out

- User and product lookups by id, and their "not found" failures: the model holds one account, its character and the product in question, so a lookup cannot fail.
- HTTP controllers, authentication, JWT, cookies, WebSocket and configuration: framework wiring outside the economy.
- The clock: `today` is a parameter and timestamps on records and responses are omitted.
- Log lines, messages, display names and emojis: text only.
- `getExperiencePercentage` of `Character.java`: floating point.
- Java `int`/`Long` widths: integers are unbounded, so the overflow of `pointCost * quantity`, the `intValue()` narrowing in receipts and the `int` casts of experience are not modelled.
- The optimistic-locking conflict of `exchangeProduct` and concurrent requests in general: the model is sequential.
- `getUserInventory`, `getProductsByCategory`, `getProduct`, `getUserDonationHistory`, `isWatchCompleted` and `getChargeTypes`: read-only lookups that change nothing.
- `getCharacterByUserId`: reads the character and creates and stores the default one when there is none. That creation is the one `addExperience` and `equipItem` also perform, modelled as `CharacterService.CharacterOf`; the lookup itself is not modelled.
- The registration defaults of `UserService` and the seed data: the account is a parameter.
- `ProductService.ExchangeProduct` and `ProductService.DonateProduct`: like the source, they do not reject a zero or negative quantity or amount, so their contracts make no claim that depends on positivity.
- `CharacterService.Reward`: requires the granted experience to be non-negative. Every activity grants 20, 50 or 70.
- `Characters.AddExperience`: requires the character to obey the threshold rule (level at least 1, threshold level times 100). Every creation path establishes it and every level-up keeps it, and it is what makes the source's level-up loop terminate.
- `CharacterService.FeedCharacter`: counts the feeding before it uses up the consumable, whereas the source does it the other way round. The two touch different fields, and a failed consumable check discards both changes, so the result is the same.
- `CharacterService.EquipItem`: putting on a cosmetic takes off all four cosmetic slots, as the code does; it does not take off only cosmetics of the same kind.
- `InventoryService.GetConsumptionItems`: when a counter is negative, the total is the sum of the positive counts only, because only positive counts are listed. The aggregate `consumptionCount` is not the sum of the two counters, since shop purchases do not update it, and no contract claims it is.
- The report of every activity uses neutral field names (`dailyCount`, `remainingDaily`); the source reuses the game-count fields for pets and feeds.
- Evolution happens only inside a level-up, as in the code. An EGG is always on level 1 with threshold 100, so this is the same as evolving the moment held experience reaches 100 (`Characters.EvolvesAtHundred`).
