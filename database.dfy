/** The persistence layer: the users, saved-recipes and payments tables and the
    operations the handlers and the payment service run against them. Each operation
    is one committed session; the tables are the fields of `Store`. */
module Database {
  import opened Wrappers
  import opened Models

  const SECONDS_PER_DAY: int := 86400
  /** One month of premium is thirty days. */
  const DAYS_PER_MONTH: int := 30

  /** The length of `months` months of premium, in seconds. */
  function PremiumSpan(months: int): int {
    DAYS_PER_MONTH * months * SECONDS_PER_DAY
  }

  // ---------------------------------------------------------------- users

  /** The record `get_or_create` leaves behind: a known user gets the new names, an
      unknown one is registered with defaults. */
  function Registered(users: map<int, User>, telegramId: int, username: Option<string>,
                      fullName: Option<string>): User
  {
    if telegramId in users then users[telegramId].(username := username, fullName := fullName)
    else NewUser(telegramId, username, fullName)
  }

  /** One profile column and its new value, as the profile handlers write them. */
  datatype ProfileField =
    | DietType(diet: string)
    | Allergies(allergies: seq<string>)
    | CaloriesGoal(calories: int)
    | ExcludedProducts(products: seq<string>)

  function WithProfileField(u: User, f: ProfileField): User {
    match f
    case DietType(d) => u.(dietType := Some(d))
    case Allergies(a) => u.(allergies := a)
    case CaloriesGoal(c) => u.(caloriesGoal := Some(c))
    case ExcludedProducts(p) => u.(excludedProducts := p)
  }

  /** A bulk update by Telegram id: no matching row, no change. */
  function ProfileUpdated(users: map<int, User>, telegramId: int, f: ProfileField): map<int, User> {
    if telegramId in users then users[telegramId := WithProfileField(users[telegramId], f)] else users
  }

  function IncrementedUsers(users: map<int, User>, telegramId: int, today: int): map<int, User> {
    if telegramId in users then users[telegramId := Incremented(users[telegramId], today)] else users
  }

  /** The new expiry after buying `months` months at `now`: added to a subscription
      still running, otherwise counted from `now`. */
  function ExtendedUntil(u: User, months: int, now: int): int {
    if u.premiumUntil.Some? && u.premiumUntil.value > now then u.premiumUntil.value + PremiumSpan(months)
    else now + PremiumSpan(months)
  }

  function PremiumExtended(u: User, months: int, now: int): User {
    u.(premiumUntil := Some(ExtendedUntil(u, months, now)), isPremium := true)
  }

  function ActivatedUsers(users: map<int, User>, telegramId: int, months: int, now: int): map<int, User> {
    if telegramId in users then users[telegramId := PremiumExtended(users[telegramId], months, now)]
    else users
  }

  /** A subscription whose expiry lies strictly before `now` loses its flag. */
  function Swept(u: User, now: int): User {
    if u.isPremium && u.premiumUntil.Some? && u.premiumUntil.value < now then u.(isPremium := false)
    else u
  }

  function SweptUsers(users: map<int, User>, now: int): map<int, User> {
    map id | id in users :: Swept(users[id], now)
  }

  /** Seconds of premium left at `now`. */
  function Remaining(u: User, now: int): int {
    if u.premiumUntil.Some? && u.premiumUntil.value > now then u.premiumUntil.value - now else 0
  }

  /** Registering again changes only the names: subscription, profile and counters stay. */
  lemma RegisterKeepsAccount(users: map<int, User>, telegramId: int, username: Option<string>,
                             fullName: Option<string>)
    requires telegramId in users
    ensures Registered(users, telegramId, username, fullName).(username := users[telegramId].username,
              fullName := users[telegramId].fullName) == users[telegramId]
  {
  }

  /** Buying premium never loses time: the remaining time is carried over and the
      bought span added to it. */
  lemma ActivationCarriesOver(u: User, months: int, now: int)
    ensures ExtendedUntil(u, months, now) - now == Remaining(u, now) + PremiumSpan(months)
    ensures u.premiumUntil.Some? && u.premiumUntil.value > now ==>
              ExtendedUntil(u, months, now) == u.premiumUntil.value + PremiumSpan(months)
    ensures !(u.premiumUntil.Some? && u.premiumUntil.value > now) ==>
              ExtendedUntil(u, months, now) == now + PremiumSpan(months)
  {
  }

  /** An expiry exactly at `now` is not running: the purchase counts from `now`, which
      is the same instant. */
  lemma ActivationAtBoundary(u: User, months: int, now: int)
    requires u.premiumUntil == Some(now)
    ensures ExtendedUntil(u, months, now) == now + PremiumSpan(months)
  {
  }

  /** After buying a non-negative number of months the user is premium at every
      instant up to the new expiry, and only the two subscription fields changed. */
  lemma ActivationGrants(u: User, months: int, now: int, t: int)
    requires months >= 0 && t <= ExtendedUntil(u, months, now)
    ensures HasActivePremium(PremiumExtended(u, months, now), t)
    ensures ExtendedUntil(u, months, now) >= now
    ensures PremiumExtended(u, months, now).(isPremium := u.isPremium, premiumUntil := u.premiumUntil) == u
  {
  }

  /** The expiry sweep never changes who is entitled from `now` on, clears every
      expired flag, touches only the flag, and a second sweep changes nothing. */
  lemma SweepPreservesEntitlement(users: map<int, User>, now: int, t: int)
    requires t >= now
    ensures SweptUsers(users, now).Keys == users.Keys
    ensures forall id :: id in users ==>
              HasActivePremium(SweptUsers(users, now)[id], t) == HasActivePremium(users[id], t)
    ensures forall id :: id in users ==>
              SweptUsers(users, now)[id].(isPremium := users[id].isPremium) == users[id]
    ensures forall id :: id in users && SweptUsers(users, now)[id].isPremium ==>
              HasActivePremium(SweptUsers(users, now)[id], now)
    ensures SweptUsers(SweptUsers(users, now), now) == SweptUsers(users, now)
  {
    var once := SweptUsers(users, now);
    forall id | id in once
      ensures Swept(once[id], now) == once[id]
    {
    }
    assert SweptUsers(once, now).Keys == once.Keys;
  }

  // ---------------------------------------------------------------- payments

  /** A payment as first recorded: pending, in rubles, unconfirmed. */
  function NewPayment(owner: int, providerId: string, amount: int, description: string): (p: Payment)
    ensures p.owner == owner && p.providerId == providerId && p.amount == amount
    ensures p.status == "pending" && p.currency == "RUB" && p.confirmedAt.None?
  {
    Payment(owner, providerId, amount, "RUB", "pending", description, None)
  }

  /** The status is overwritten by any report; success also stamps the confirmation
      time, and nothing ever clears it. */
  function StatusUpdated(payments: map<string, Payment>, providerId: string, status: string,
                         now: int): map<string, Payment>
  {
    if providerId in payments then
      payments[providerId := payments[providerId].(
        status := status,
        confirmedAt := if status == "succeeded" then Some(now) else payments[providerId].confirmedAt)]
    else payments
  }

  /** A report for an unknown id changes nothing; a known payment takes the reported
      status, is stamped at `now` exactly when it succeeded, and keeps every other field. */
  lemma StatusUpdateEffect(payments: map<string, Payment>, providerId: string, status: string, now: int)
    ensures providerId !in payments ==> StatusUpdated(payments, providerId, status, now) == payments
    ensures providerId in payments ==>
              var p := StatusUpdated(payments, providerId, status, now)[providerId];
              p.status == status &&
              (status == "succeeded" ==> p.confirmedAt == Some(now)) &&
              (status != "succeeded" ==> p.confirmedAt == payments[providerId].confirmedAt) &&
              p.(status := payments[providerId].status, confirmedAt := payments[providerId].confirmedAt)
                == payments[providerId]
    ensures StatusUpdated(payments, providerId, status, now).Keys == payments.Keys
  {
  }

  /** No status is final: a cancellation reported after a success replaces it, and the
      confirmation time of the success stays behind. */
  lemma SucceededThenCanceled(payments: map<string, Payment>, providerId: string, t1: int, t2: int)
    requires providerId in payments
    ensures var p := StatusUpdated(StatusUpdated(payments, providerId, "succeeded", t1),
                                   providerId, "canceled", t2)[providerId];
            p.status == "canceled" && p.confirmedAt == Some(t1)
  {
  }

  // ---------------------------------------------------------------- saved recipes

  /** The row saved for a generated recipe: absent title, ingredients or instructions
      become empty. */
  function SavedFrom(owner: int, r: Recipe, now: int): (s: SavedRecipe)
    ensures s.owner == owner && s.createdAt == now
    ensures s.title == r.title.GetOr("") && s.calories == r.calories
  {
    SavedRecipe(owner, r.title.GetOr(""), r.ingredients.GetOr([]), r.instructions.GetOr(""),
                r.calories, r.estimatedCost, r.cookingTime, now)
  }

  /** The saved recipes of one user, in table order. */
  function OwnedBy(rs: seq<SavedRecipe>, telegramId: int): (r: seq<SavedRecipe>)
    ensures forall x :: x in r ==> x in rs && x.owner == telegramId
    ensures forall x :: x in rs && x.owner == telegramId ==> x in r
    ensures multiset(r) <= multiset(rs)
  {
    if rs == [] then []
    else
      assert rs == [rs[0]] + rs[1..];
      (if rs[0].owner == telegramId then [rs[0]] else []) + OwnedBy(rs[1..], telegramId)
  }

  predicate NewestFirst(s: seq<SavedRecipe>) {
    forall i, j :: 0 <= i < j < |s| ==> s[i].createdAt >= s[j].createdAt
  }

  function InsertNewest(x: SavedRecipe, s: seq<SavedRecipe>): (r: seq<SavedRecipe>)
    requires NewestFirst(s)
    ensures NewestFirst(r)
    ensures multiset(r) == multiset(s) + multiset{x}
    ensures forall y :: y in r ==> y in s || y == x
  {
    if s == [] || x.createdAt >= s[0].createdAt then
      PrependNewest(x, s);
      [x] + s
    else
      assert s == [s[0]] + s[1..];
      var rest := InsertNewest(x, s[1..]);
      PrependNewest(s[0], rest);
      assert multiset([s[0]] + rest) == multiset{s[0]} + multiset(rest);
      assert multiset(s) == multiset{s[0]} + multiset(s[1..]);
      [s[0]] + rest
  }

  lemma PrependNewest(x: SavedRecipe, s: seq<SavedRecipe>)
    requires NewestFirst(s)
    requires s != [] ==> x.createdAt >= s[0].createdAt
    ensures NewestFirst([x] + s)
  {
    forall i, j | 0 <= i < j < |[x] + s|
      ensures ([x] + s)[i].createdAt >= ([x] + s)[j].createdAt
    {
      if i == 0 && j > 1 {
        assert s[0].createdAt >= s[j - 1].createdAt;
      }
    }
  }

  /** The recipes ordered newest first. */
  function SortNewest(s: seq<SavedRecipe>): (r: seq<SavedRecipe>)
    ensures NewestFirst(r)
    ensures multiset(r) == multiset(s)
  {
    if s == [] then []
    else
      assert s == [s[0]] + s[1..];
      InsertNewest(s[0], SortNewest(s[1..]))
  }

  /** The listing query: the user's recipes, newest first, at most `limit` of them. */
  function UserRecipes(rs: seq<SavedRecipe>, telegramId: int, limit: nat): seq<SavedRecipe> {
    var sorted := SortNewest(OwnedBy(rs, telegramId));
    if limit < |sorted| then sorted[..limit] else sorted
  }

  /** Every element of a newest-first sequence left out of its first `k` elements is
      no newer than any element kept. */
  lemma TakeNewest(sorted: seq<SavedRecipe>, k: nat)
    requires NewestFirst(sorted) && k <= |sorted|
    ensures multiset(sorted) - multiset(sorted[..k]) == multiset(sorted[k..])
    ensures forall x, y :: x in multiset(sorted[k..]) && y in sorted[..k] ==> y.createdAt >= x.createdAt
  {
    assert sorted == sorted[..k] + sorted[k..];
    assert multiset(sorted) == multiset(sorted[..k]) + multiset(sorted[k..]);
    forall x, y | x in multiset(sorted[k..]) && y in sorted[..k]
      ensures y.createdAt >= x.createdAt
    {
      assert x in sorted[k..];
      var j :| k <= j < |sorted| && sorted[j] == x;
      var i :| 0 <= i < k && sorted[i] == y;
    }
  }

  /** The first `k` elements of a newest-first rearrangement of `s` are newest first
      and drawn from `s`. */
  lemma SortedPrefix(s: seq<SavedRecipe>, sorted: seq<SavedRecipe>, k: nat)
    requires NewestFirst(sorted) && multiset(sorted) == multiset(s) && k <= |sorted|
    ensures |sorted| == |s|
    ensures NewestFirst(sorted[..k])
    ensures multiset(sorted[..k]) <= multiset(s)
    ensures forall x :: x in sorted[..k] ==> x in s
  {
    assert |multiset(sorted)| == |multiset(s)|;
    assert sorted == sorted[..k] + sorted[k..];
    assert multiset(sorted) == multiset(sorted[..k]) + multiset(sorted[k..]);
    forall x | x in sorted[..k]
      ensures x in s
    {
      assert x in multiset(sorted);
    }
  }

  /** The listing holds `limit` recipes of the user (or all of them when there are
      fewer), newest first, each of them the user's and in the table. */
  lemma UserRecipesNewest(rs: seq<SavedRecipe>, telegramId: int, limit: nat)
    ensures var r := UserRecipes(rs, telegramId, limit);
            var owned := OwnedBy(rs, telegramId);
            |r| == (if limit < |owned| then limit else |owned|) &&
            NewestFirst(r) &&
            multiset(r) <= multiset(owned) &&
            (forall x :: x in r ==> x.owner == telegramId && x in rs)
  {
    var owned := OwnedBy(rs, telegramId);
    var sorted := SortNewest(owned);
    var k := if limit < |sorted| then limit else |sorted|;
    SortedPrefix(owned, sorted, k);
    assert UserRecipes(rs, telegramId, limit) == sorted[..k];
  }

  /** Every recipe of the user left out of the listing is no newer than any recipe
      listed. */
  lemma UserRecipesLeftOut(rs: seq<SavedRecipe>, telegramId: int, limit: nat)
    ensures var r := UserRecipes(rs, telegramId, limit);
            forall x, y :: x in multiset(OwnedBy(rs, telegramId)) - multiset(r) && y in r ==> y.createdAt >= x.createdAt
  {
    var sorted := SortNewest(OwnedBy(rs, telegramId));
    var r := UserRecipes(rs, telegramId, limit);
    var k := |r|;
    assert r == sorted[..k];
    TakeNewest(sorted, k);
  }

  /** In a newest-first rearrangement of `s`, an element of `s` strictly newer than
      all the others comes first. */
  lemma NewestHead(s: seq<SavedRecipe>, sorted: seq<SavedRecipe>, saved: SavedRecipe)
    requires NewestFirst(sorted) && multiset(sorted) == multiset(s)
    requires saved in s
    requires forall x :: x in s ==> x == saved || x.createdAt < saved.createdAt
    ensures |sorted| >= 1 && sorted[0] == saved
  {
    assert saved in multiset(sorted);
    var j :| 0 <= j < |sorted| && sorted[j] == saved;
    assert sorted[0] in multiset(s);
  }

  /** A recipe saved later than every recipe in the table heads its owner's listing. */
  lemma SavedRecipeListedFirst(rs: seq<SavedRecipe>, saved: SavedRecipe, limit: nat)
    requires limit >= 1
    requires forall x :: x in rs ==> x.createdAt < saved.createdAt
    ensures var r := UserRecipes(rs + [saved], saved.owner, limit);
            |r| >= 1 && r[0] == saved
  {
    var all := rs + [saved];
    var owned := OwnedBy(all, saved.owner);
    assert saved in all;
    forall x | x in owned
      ensures x == saved || x.createdAt < saved.createdAt
    {
      assert x in all;
    }
    NewestHead(owned, SortNewest(owned), saved);
  }

  /** A store over the three tables. Every user is filed under its Telegram id, every
      payment under its provider id, and payments and saved recipes belong to
      registered users. */
  class Store {
    var users: map<int, User>
    var payments: map<string, Payment>
    var savedRecipes: seq<SavedRecipe>

    predicate Valid()
      reads this
    {
      (forall id :: id in users ==> users[id].telegramId == id) &&
      (forall pid :: pid in payments ==> payments[pid].providerId == pid && payments[pid].owner in users) &&
      (forall i :: 0 <= i < |savedRecipes| ==> savedRecipes[i].owner in users)
    }

    constructor ()
      ensures Valid()
      ensures users == map[] && payments == map[] && savedRecipes == []
    {
      users := map[];
      payments := map[];
      savedRecipes := [];
    }

    /** Loads the user of `telegramId`, refreshing the names, or registers a new one. */
    method GetOrCreate(telegramId: int, username: Option<string>, fullName: Option<string>)
      returns (u: User)
      requires Valid()
      modifies this
      ensures Valid()
      ensures u == Registered(old(users), telegramId, username, fullName)
      ensures users == old(users)[telegramId := u]
      ensures payments == old(payments) && savedRecipes == old(savedRecipes)
    {
      if telegramId in users {
        var row := new UserRow.Load(users[telegramId]);
        row.username := username;
        row.fullName := fullName;
        u := row.Snapshot();
      } else {
        u := NewUser(telegramId, username, fullName);
      }
      users := users[telegramId := u];
    }

    /** The user of `telegramId`, if registered. */
    function GetByTelegramId(telegramId: int): (r: Option<User>)
      reads this
      ensures r.Some? <==> telegramId in users
      ensures r.Some? ==> r.value == users[telegramId]
    {
      if telegramId in users then Some(users[telegramId]) else None
    }

    /** Writes one profile column of the user; an unknown id changes nothing. */
    method UpdateProfile(telegramId: int, f: ProfileField)
      requires Valid()
      modifies this
      ensures Valid()
      ensures users == ProfileUpdated(old(users), telegramId, f)
      ensures payments == old(payments) && savedRecipes == old(savedRecipes)
    {
      users := ProfileUpdated(users, telegramId, f);
    }

    /** Counts one recipe for the user on day `today`; an unknown id changes nothing. */
    method IncrementRecipe(telegramId: int, today: int)
      requires Valid()
      modifies this
      ensures Valid()
      ensures users == IncrementedUsers(old(users), telegramId, today)
      ensures payments == old(payments) && savedRecipes == old(savedRecipes)
    {
      if telegramId in users {
        var row := new UserRow.Load(users[telegramId]);
        row.IncrementRecipeCount(today);
        users := users[telegramId := row.Snapshot()];
      }
    }

    /** Grants `months` months of premium at `now`; an unknown id changes nothing. */
    method ActivatePremium(telegramId: int, months: int, now: int)
      requires Valid()
      modifies this
      ensures Valid()
      ensures users == ActivatedUsers(old(users), telegramId, months, now)
      ensures payments == old(payments) && savedRecipes == old(savedRecipes)
    {
      if telegramId in users {
        var row := new UserRow.Load(users[telegramId]);
        if row.premiumUntil.Some? && row.premiumUntil.value > now {
          row.premiumUntil := Some(row.premiumUntil.value + PremiumSpan(months));
        } else {
          row.premiumUntil := Some(now + PremiumSpan(months));
        }
        row.isPremium := true;
        users := users[telegramId := row.Snapshot()];
      }
    }

    /** Clears the premium flag of every subscription that expired before `now`. */
    method CheckExpiredPremiums(now: int)
      requires Valid()
      modifies this
      ensures Valid()
      ensures users == SweptUsers(old(users), now)
      ensures payments == old(payments) && savedRecipes == old(savedRecipes)
    {
      users := SweptUsers(users, now);
    }

    /** Saves a generated recipe for the user at `now`; an unknown user is an error
        and nothing is saved. */
    method SaveRecipe(telegramId: int, recipe: Recipe, now: int) returns (r: Result<SavedRecipe>)
      requires Valid()
      modifies this
      ensures Valid()
      ensures r.Ok? <==> telegramId in old(users)
      ensures r.Err? ==> r.error == NotFound
      ensures r.Ok? ==> r.value == SavedFrom(telegramId, recipe, now)
      ensures savedRecipes == if r.Ok? then old(savedRecipes) + [r.value] else old(savedRecipes)
      ensures users == old(users) && payments == old(payments)
    {
      if telegramId !in users {
        return Err(NotFound);
      }
      var saved := SavedFrom(telegramId, recipe, now);
      savedRecipes := savedRecipes + [saved];
      r := Ok(saved);
    }

    /** The user's saved recipes, newest first, at most `limit`. */
    function GetUserRecipes(telegramId: int, limit: nat): (r: seq<SavedRecipe>)
      reads this
      ensures |r| <= limit
      ensures forall x :: x in r ==> x in savedRecipes && x.owner == telegramId
    {
      UserRecipesNewest(savedRecipes, telegramId, limit);
      UserRecipes(savedRecipes, telegramId, limit)
    }

    /** Records a new pending payment. An unknown user is an error, and so is a
        provider id already recorded (the column is unique); neither stores anything. */
    method CreatePayment(telegramId: int, providerId: string, amount: int, description: string)
      returns (r: Result<Payment>)
      requires Valid()
      modifies this
      ensures Valid()
      ensures r == if telegramId !in old(users) then Err(NotFound)
                   else if providerId in old(payments) then Err(Conflict)
                   else Ok(NewPayment(telegramId, providerId, amount, description))
      ensures payments == if r.Ok? then old(payments)[providerId := r.value] else old(payments)
      ensures users == old(users) && savedRecipes == old(savedRecipes)
    {
      if telegramId !in users {
        return Err(NotFound);
      }
      if providerId in payments {
        return Err(Conflict);
      }
      var p := NewPayment(telegramId, providerId, amount, description);
      payments := payments[providerId := p];
      r := Ok(p);
    }

    /** Overwrites the status of the payment with this provider id. */
    method UpdateStatus(providerId: string, status: string, now: int)
      requires Valid()
      modifies this
      ensures Valid()
      ensures payments == StatusUpdated(old(payments), providerId, status, now)
      ensures users == old(users) && savedRecipes == old(savedRecipes)
    {
      payments := StatusUpdated(payments, providerId, status, now);
    }

    /** The payment with this provider id, if recorded. */
    function GetByProviderId(providerId: string): (r: Option<Payment>)
      reads this
      ensures r.Some? <==> providerId in payments
      ensures r.Some? ==> r.value == payments[providerId]
    {
      if providerId in payments then Some(payments[providerId]) else None
    }
  }
}
