/** The daily activity limiter and the all-complete bonus rule.

    Each of the three activities (game, pet, feed) has a counter and the
    day it was last performed. A counter whose day is not today counts as 0;
    an activity may be performed at most `DailyLimit` times a day. Once all
    three are exhausted for today, a bonus is granted at most once that day. */
module DailyLimits {
  import opened Common
  import opened Accounts

  datatype Activity = Game | Pet | Feed

  const DailyLimit: int := 3
  const AllCompleteBonus: int := 20

  function Counter(a: Account, act: Activity): int {
    match act
    case Game => a.dailyGameCount
    case Pet => a.dailyPetCount
    case Feed => a.dailyFeedCount
  }

  function LastDate(a: Account, act: Activity): Option<int> {
    match act
    case Game => a.lastGameDate
    case Pet => a.lastPetDate
    case Feed => a.lastFeedDate
  }

  /** `a` and `b` agree on the counter and date of activity `act`. */
  predicate SameActivity(a: Account, b: Account, act: Activity) {
    Counter(a, act) == Counter(b, act) && LastDate(a, act) == LastDate(b, act)
  }

  /** `a` with the counter and date of `act` replaced. */
  function WithDaily(a: Account, act: Activity, count: int, date: Option<int>): (r: Account)
    ensures Counter(r, act) == count && LastDate(r, act) == date
    ensures forall other :: other != act ==> SameActivity(a, r, other)
    ensures r.lastBonusDate == a.lastBonusDate
    ensures SameWallet(a, r)
  {
    match act
    case Game => a.(dailyGameCount := count, lastGameDate := date)
    case Pet => a.(dailyPetCount := count, lastPetDate := date)
    case Feed => a.(dailyFeedCount := count, lastFeedDate := date)
  }

  /** Starts a new day for `act` when its last date is absent or not today. */
  function Refresh(a: Account, act: Activity, today: int): (r: Account)
    ensures LastDate(r, act) == Some(today)
    ensures LastDate(a, act) == Some(today) ==> r == a
    ensures LastDate(a, act) != Some(today) ==> Counter(r, act) == 0
    ensures forall other :: other != act ==> SameActivity(a, r, other)
    ensures r.lastBonusDate == a.lastBonusDate
    ensures SameWallet(a, r)
  {
    if LastDate(a, act) == Some(today) then a else WithDaily(a, act, 0, Some(today))
  }

  /** How many more times `act` may be performed today: the whole allowance
      when the last date is absent or stale, otherwise what today's counter
      leaves of it. */
  function Remaining(a: Account, act: Activity, today: int): (n: int)
    ensures n == DailyLimit - Counter(Refresh(a, act, today), act)
    ensures LastDate(a, act) != Some(today) ==> n == DailyLimit
  {
    if LastDate(a, act) != Some(today) then DailyLimit else DailyLimit - Counter(a, act)
  }

  /** Every counter lies between 0 and the daily limit. */
  predicate WithinLimits(a: Account) {
    forall act :: 0 <= Counter(a, act) <= DailyLimit
  }

  /** Performs `act` once today if the allowance permits: refreshes a stale
      counter, refuses when today's counter has reached the limit, and
      otherwise counts the activity. */
  function TryConsume(a: Account, act: Activity, today: int): (r: Result<Account>)
    ensures r.Err? <==> Remaining(a, act, today) <= 0
    ensures r.Err? ==> r.error == DailyLimitExceeded
    ensures r.Ok? ==> Consumed(a, r.value, act, today)
    ensures r.Ok? ==> Counter(r.value, act) <= DailyLimit
    ensures r.Ok? && WithinLimits(a) ==> WithinLimits(r.value)
  {
    var current := Refresh(a, act, today);
    if Counter(current, act) >= DailyLimit then Err(DailyLimitExceeded)
    else
      var counted := WithDaily(current, act, Counter(current, act) + 1, Some(today));
      assert WithinLimits(a) ==> WithinLimits(counted) by {
        if WithinLimits(a) {
          forall other ensures 0 <= Counter(counted, other) <= DailyLimit {
            if other != act {
              assert SameActivity(a, current, other) && SameActivity(current, counted, other);
            }
          }
        }
      }
      Ok(counted)
  }

  /** `b` is `a` with one of today's performances of `act` used up, and
      nothing else changed. */
  predicate Consumed(a: Account, b: Account, act: Activity, today: int) {
    DailyConsumed(a, b, act, today) && SameWallet(a, b)
  }

  /** The daily state of `b` is that of `a` with one of today's
      performances of `act` used up. */
  predicate DailyConsumed(a: Account, b: Account, act: Activity, today: int) {
    && LastDate(b, act) == Some(today)
    && Remaining(b, act, today) == Remaining(a, act, today) - 1
    && (forall other :: other != act ==> SameActivity(a, b, other))
    && b.lastBonusDate == a.lastBonusDate
  }

  /** Activity `act` is exhausted for today. */
  predicate Completed(a: Account, act: Activity, today: int) {
    LastDate(a, act) == Some(today) && Counter(a, act) >= DailyLimit
  }

  /** The bonus is due: all three activities exhausted today, and no bonus
      granted yet today. */
  predicate BonusDue(a: Account, today: int) {
    && Completed(a, Game, today)
    && Completed(a, Pet, today)
    && Completed(a, Feed, today)
    && a.lastBonusDate != Some(today)
  }

  datatype Bonus = Bonus(account: Account, amount: int)

  /** Grants the all-complete bonus when it is due, stamping today as the
      bonus date; otherwise grants nothing and changes nothing. */
  function CheckAllCompleteBonus(a: Account, today: int): (r: Bonus)
    ensures r.amount == AllCompleteBonus <==> BonusDue(a, today)
    ensures r.amount == 0 <==> !BonusDue(a, today)
    ensures r.amount > 0 ==> r.account == a.(lastBonusDate := Some(today))
    ensures r.amount == 0 ==> r.account == a
  {
    if Completed(a, Game, today) && Completed(a, Pet, today) && Completed(a, Feed, today)
       && a.lastBonusDate != Some(today)
    then Bonus(a.(lastBonusDate := Some(today)), AllCompleteBonus)
    else Bonus(a, 0)
  }

  /** Once the bonus has been checked today, checking again grants nothing. */
  lemma BonusOncePerDay(a: Account, today: int)
    ensures CheckAllCompleteBonus(CheckAllCompleteBonus(a, today).account, today).amount == 0
  {
  }

  /** From a fresh counter, three performances leave 2, 1 and 0 remaining
      and a fourth the same day is refused. */
  lemma DailyCapExample(a: Account, act: Activity, today: int)
    requires LastDate(a, act) != Some(today) || Counter(a, act) == 0
    ensures var r1 := TryConsume(a, act, today);
            r1.Ok? && Remaining(r1.value, act, today) == 2 &&
            var r2 := TryConsume(r1.value, act, today);
            r2.Ok? && Remaining(r2.value, act, today) == 1 &&
            var r3 := TryConsume(r2.value, act, today);
            r3.Ok? && Remaining(r3.value, act, today) == 0 &&
            TryConsume(r3.value, act, today) == Err(DailyLimitExceeded)
  {
  }

  /** A counter exhausted on an earlier day does not block today: the first
      performance today succeeds and leaves 2 remaining. */
  lemma CrossDayReset(a: Account, act: Activity, today: int)
    requires LastDate(a, act) == Some(today - 1) && Counter(a, act) == DailyLimit
    ensures TryConsume(a, act, today).Ok?
    ensures Remaining(TryConsume(a, act, today).value, act, today) == DailyLimit - 1
  {
  }
}
