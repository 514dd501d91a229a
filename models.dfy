/** The persistent records of the bot: users with their subscription, diet profile and
    daily counters, saved recipes and payments.

    Time is explicit: `now` is a UTC instant in whole seconds and `today` is a calendar
    day number; the callers pass the clock's readings in. */
module Models {
  import opened Wrappers

  /** One row of the users table, keyed by the Telegram account id. */
  datatype User = User(
    telegramId: int,
    username: Option<string>,
    fullName: Option<string>,
    isPremium: bool,
    premiumUntil: Option<int>,
    dietType: Option<string>,
    allergies: seq<string>,
    caloriesGoal: Option<int>,
    excludedProducts: seq<string>,
    recipesToday: int,
    lastRecipeDate: Option<int>,
    totalRecipes: int)

  /** A user as first registered: no subscription, empty profile, zero counters. */
  function NewUser(telegramId: int, username: Option<string>, fullName: Option<string>): (u: User)
    ensures u.telegramId == telegramId && u.username == username && u.fullName == fullName
    ensures !u.isPremium && u.premiumUntil.None?
    ensures u.dietType.None? && u.allergies == [] && u.caloriesGoal.None? && u.excludedProducts == []
    ensures u.recipesToday == 0 && u.lastRecipeDate.None? && u.totalRecipes == 0
  {
    User(telegramId, username, fullName, false, None, None, [], None, [], 0, None, 0)
  }

  /** Premium is active when the flag is set and no expiry lies strictly in the past. */
  predicate HasActivePremium(u: User, now: int) {
    u.isPremium && !(u.premiumUntil.Some? && u.premiumUntil.value < now)
  }

  /** Whether the user may get another recipe under a daily limit of `freeLimit`. */
  predicate CanGetRecipe(u: User, freeLimit: int, now: int, today: int) {
    if HasActivePremium(u, now) then true
    else if u.lastRecipeDate != Some(today) then true
    else u.recipesToday < freeLimit
  }

  /** Recipes counted against `today`: the stored counter only if it was last touched today. */
  function UsedToday(u: User, today: int): int {
    if u.lastRecipeDate == Some(today) then u.recipesToday else 0
  }

  /** The user after one recipe has been counted on day `today`. */
  function Incremented(u: User, today: int): User {
    if u.lastRecipeDate != Some(today) then
      u.(recipesToday := 1, lastRecipeDate := Some(today), totalRecipes := u.totalRecipes + 1)
    else
      u.(recipesToday := u.recipesToday + 1, totalRecipes := u.totalRecipes + 1)
  }

  /** The user after `k` recipes have been counted on day `today`. */
  function IncrementedTimes(u: User, today: int, k: nat): User
    decreases k
  {
    if k == 0 then u else Incremented(IncrementedTimes(u, today, k - 1), today)
  }

  /** The three cases of an active subscription, and that nothing else activates one. */
  lemma PremiumCases(u: User, now: int)
    ensures !u.isPremium ==> !HasActivePremium(u, now)
    ensures u.isPremium && u.premiumUntil.None? ==> HasActivePremium(u, now)
    ensures u.isPremium && u.premiumUntil.Some? ==>
              (HasActivePremium(u, now) <==> now <= u.premiumUntil.value)
  {
  }

  /** The quota check in terms of the day's usage: premium passes, otherwise the
      counter of today must be below the limit, and a counter left from an earlier
      day always passes (whatever the limit). */
  lemma CanGetRecipeCases(u: User, freeLimit: int, now: int, today: int)
    ensures HasActivePremium(u, now) ==> CanGetRecipe(u, freeLimit, now, today)
    ensures u.lastRecipeDate != Some(today) ==> CanGetRecipe(u, freeLimit, now, today)
    ensures !HasActivePremium(u, now) && u.lastRecipeDate == Some(today) ==>
              (CanGetRecipe(u, freeLimit, now, today) <==> UsedToday(u, today) < freeLimit)
  {
  }

  /** Counting one recipe adds exactly one to today's usage and to the lifetime total,
      and touches nothing but the three counters. */
  lemma IncrementedCounts(u: User, today: int)
    ensures UsedToday(Incremented(u, today), today) == UsedToday(u, today) + 1
    ensures Incremented(u, today).totalRecipes == u.totalRecipes + 1
    ensures Incremented(u, today).lastRecipeDate == Some(today)
    ensures Incremented(u, today).(recipesToday := u.recipesToday, lastRecipeDate := u.lastRecipeDate,
                                   totalRecipes := u.totalRecipes) == u
  {
  }

  /** `k` counted recipes on one day add `k` to the day's usage and to the total, and
      leave the subscription alone. */
  lemma {:induction false} IncrementedTimesCounts(u: User, today: int, k: nat)
    ensures UsedToday(IncrementedTimes(u, today, k), today) == UsedToday(u, today) + k
    ensures IncrementedTimes(u, today, k).totalRecipes == u.totalRecipes + k
    ensures k > 0 ==> IncrementedTimes(u, today, k).lastRecipeDate == Some(today)
    ensures IncrementedTimes(u, today, k).isPremium == u.isPremium
    ensures IncrementedTimes(u, today, k).premiumUntil == u.premiumUntil
  {
    if k > 0 {
      IncrementedTimesCounts(u, today, k - 1);
      IncrementedCounts(IncrementedTimes(u, today, k - 1), today);
    }
  }

  /** A user without premium who has had `freeLimit` recipes counted today (at least
      one of them through the counter) is refused, and stays refused after more. */
  lemma {:induction false} QuotaExhausted(u: User, freeLimit: int, now: int, today: int, k: nat)
    requires !HasActivePremium(u, now)
    requires k > 0 && UsedToday(u, today) + k >= freeLimit
    ensures !CanGetRecipe(IncrementedTimes(u, today, k), freeLimit, now, today)
  {
    IncrementedTimesCounts(u, today, k);
  }

  /** A fresh free user is granted exactly `freeLimit` recipes on a day: before the
      limit is reached the check passes, at the limit it fails. */
  lemma {:induction false} FreshUserQuota(u: User, freeLimit: nat, now: int, today: int, k: nat)
    requires u == NewUser(u.telegramId, u.username, u.fullName)
    ensures k < freeLimit ==> CanGetRecipe(IncrementedTimes(u, today, k), freeLimit, now, today)
    ensures k >= freeLimit && k > 0 ==> !CanGetRecipe(IncrementedTimes(u, today, k), freeLimit, now, today)
  {
    IncrementedTimesCounts(u, today, k);
    if k >= freeLimit && k > 0 {
      QuotaExhausted(u, freeLimit, now, today, k);
    }
  }

  /** On a new day the quota is open again, however many recipes were counted before. */
  lemma {:induction false} NewDayReopens(u: User, freeLimit: int, now: int, day: int, later: int, k: nat)
    requires later != day && k > 0
    ensures CanGetRecipe(IncrementedTimes(u, day, k), freeLimit, now, later)
    ensures UsedToday(Incremented(IncrementedTimes(u, day, k), later), later) == 1
  {
    IncrementedTimesCounts(u, day, k);
  }

  /** A user row loaded into a session: the fields are updated in place and the row
      is written back when the session commits. */
  class UserRow {
    var telegramId: int
    var username: Option<string>
    var fullName: Option<string>
    var isPremium: bool
    var premiumUntil: Option<int>
    var dietType: Option<string>
    var allergies: seq<string>
    var caloriesGoal: Option<int>
    var excludedProducts: seq<string>
    var recipesToday: int
    var lastRecipeDate: Option<int>
    var totalRecipes: int

    /** The row's current values as a user record. */
    function Snapshot(): User
      reads this
    {
      User(telegramId, username, fullName, isPremium, premiumUntil, dietType, allergies,
           caloriesGoal, excludedProducts, recipesToday, lastRecipeDate, totalRecipes)
    }

    constructor Load(u: User)
      ensures Snapshot() == u
    {
      telegramId := u.telegramId;
      username := u.username;
      fullName := u.fullName;
      isPremium := u.isPremium;
      premiumUntil := u.premiumUntil;
      dietType := u.dietType;
      allergies := u.allergies;
      caloriesGoal := u.caloriesGoal;
      excludedProducts := u.excludedProducts;
      recipesToday := u.recipesToday;
      lastRecipeDate := u.lastRecipeDate;
      totalRecipes := u.totalRecipes;
    }

    /** Counts one recipe on day `today`: a counter from another day restarts at one. */
    method IncrementRecipeCount(today: int)
      modifies this
      ensures Snapshot() == Incremented(old(Snapshot()), today)
    {
      if lastRecipeDate != Some(today) {
        recipesToday := 1;
        lastRecipeDate := Some(today);
      } else {
        recipesToday := recipesToday + 1;
      }
      totalRecipes := totalRecipes + 1;
    }
  }

  /** A recipe kept in the user's collection. */
  datatype SavedRecipe = SavedRecipe(
    owner: int,
    title: string,
    ingredients: seq<Ingredient>,
    instructions: string,
    calories: Option<int>,
    estimatedCost: Option<int>,
    cookingTime: Option<int>,
    createdAt: int)

  /** One ingredient as the recipe generator returns it; absent keys are `None`. */
  datatype Ingredient = Ingredient(
    name: Option<string>,
    amount: Option<string>,
    have: Option<bool>,
    substitute: Option<string>)

  /** One generated recipe as the handlers read it; absent keys are `None`. */
  datatype Recipe = Recipe(
    title: Option<string>,
    ingredients: Option<seq<Ingredient>>,
    instructions: Option<string>,
    calories: Option<int>,
    estimatedCost: Option<int>,
    cookingTime: Option<int>)

  /** One payment, keyed by the payment provider's id. */
  datatype Payment = Payment(
    owner: int,
    providerId: string,
    amount: int,
    currency: string,
    status: string,
    description: string,
    confirmedAt: Option<int>)
}
