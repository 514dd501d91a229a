/** The weekly meal plan: a premium-only screen that asks the plan generator for seven
    days of meals and shows one card per planned day, with the day's calorie total,
    followed by the weekly totals. */
module MealPlanHandlers {
  import opened Wrappers
  import opened Strings
  import opened Models
  import opened Keyboards

  /** The days of the week as (key in the generated plan, display name), Monday first. */
  const DAYS: seq<(string, string)> := [
    ("monday", "Понедельник"),
    ("tuesday", "Вторник"),
    ("wednesday", "Среда"),
    ("thursday", "Четверг"),
    ("friday", "Пятница"),
    ("saturday", "Суббота"),
    ("sunday", "Воскресенье")]

  /** The meals of a day as (key in the generated plan, display name), in order. */
  const MEALS: seq<(string, string)> := [
    ("breakfast", "🌅 Завтрак"),
    ("lunch", "🌞 Обед"),
    ("dinner", "🌙 Ужин")]

  const DEFAULT_CALORIE_GOAL: int := 2000
  const MISSING_TITLE: string := "—"
  const MISSING_TOTAL: string := "?"

  /** One planned meal; either key may be absent from the generated plan. */
  datatype Meal = Meal(title: Option<string>, calories: Option<int>)

  /** A planned day maps meal keys to meals. */
  type Day = map<string, Meal>

  /** The generated plan: days by key, and the weekly totals when the generator gave them. */
  datatype MealPlan = MealPlan(days: map<string, Day>, totalWeeklyCalories: Option<int>, totalWeeklyCost: Option<int>)

  /** What the plan generator is asked for. */
  datatype MealPlanRequest = MealPlanRequest(caloriesGoal: int, dietType: Option<string>,
                                             allergies: seq<string>, excluded: seq<string>)

  /** One line of a day card: the meal's name, its title and its calories. */
  datatype MealLine = MealLine(mealName: string, title: string, calories: int)

  /** The card of the day at position `day` of DAYS. */
  datatype DayCard = DayCard(day: nat, dayName: string, meals: seq<MealLine>, total: int)

  datatype MealPlanReply =
    | PremiumRequired(keyboard: seq<Button>)
    | PlanFailed
    | PlanShown(cards: seq<DayCard>, totalCalories: string, totalCost: string)

  /** The goal sent to the generator: the user's goal, or 2000 when it is unset or zero. */
  function CalorieGoal(u: User): (goal: int)
    ensures goal != 0
    ensures u.caloriesGoal.Some? && u.caloriesGoal.value != 0 ==> goal == u.caloriesGoal.value
    ensures u.caloriesGoal.None? || u.caloriesGoal == Some(0) ==> goal == DEFAULT_CALORIE_GOAL
  {
    if u.caloriesGoal.Some? && u.caloriesGoal.value != 0 then u.caloriesGoal.value else DEFAULT_CALORIE_GOAL
  }

  /** A day is shown when the plan has it and it is not empty. */
  predicate Listed(plan: MealPlan, d: nat)
    requires d < |DAYS|
  {
    DAYS[d].0 in plan.days && plan.days[DAYS[d].0] != map[]
  }

  /** The calories of one meal of a day, a missing meal or value counting as 0. */
  function MealCalories(day: Day, key: string): int {
    if key in day then day[key].calories.GetOr(0) else 0
  }

  /** The line for one meal: a missing meal or title shows "—", missing calories 0. */
  function MealLineOf(day: Day, meal: (string, string)): MealLine {
    var m := if meal.0 in day then day[meal.0] else Meal(None, None);
    MealLine(meal.1, m.title.GetOr(MISSING_TITLE), m.calories.GetOr(0))
  }

  /** The lines for the first `k` meals of MEALS. */
  function MealLines(day: Day, k: nat): seq<MealLine>
    requires k <= |MEALS|
  {
    seq(k, i requires 0 <= i < k => MealLineOf(day, MEALS[i]))
  }

  /** The sum of the calories on a list of lines. */
  function LinesTotal(lines: seq<MealLine>): int {
    if lines == [] then 0 else LinesTotal(lines[..|lines| - 1]) + lines[|lines| - 1].calories
  }

  function DayCardOf(plan: MealPlan, d: nat): DayCard
    requires d < |DAYS| && Listed(plan, d)
  {
    var lines := MealLines(plan.days[DAYS[d].0], |MEALS|);
    DayCard(d, DAYS[d].1, lines, LinesTotal(lines))
  }

  /** The cards for the first `k` days of DAYS, the unlisted ones skipped. */
  function DayCards(plan: MealPlan, k: nat): seq<DayCard>
    requires k <= |DAYS|
  {
    if k == 0 then []
    else DayCards(plan, k - 1) + (if Listed(plan, k - 1) then [DayCardOf(plan, k - 1)] else [])
  }

  /** A weekly total as shown: the number, or "?" when the plan has none. */
  function TotalText(total: Option<int>): (text: string)
    ensures total.None? ==> text == MISSING_TOTAL
    ensures total.Some? ==> ParseInt(text) == Some(total.value)
  {
    match total
    case None => MISSING_TOTAL
    case Some(v) => ParseIntToString(v); IntToString(v)
  }

  /** Formats the plan day by day, accumulating each day's lines and calorie total. */
  method FormatWeek(plan: MealPlan) returns (cards: seq<DayCard>)
    ensures cards == DayCards(plan, |DAYS|)
  {
    cards := [];
    var d := 0;
    while d < |DAYS|
      invariant 0 <= d <= |DAYS|
      invariant cards == DayCards(plan, d)
    {
      var key := DAYS[d].0;
      if key in plan.days && plan.days[key] != map[] {
        var day := plan.days[key];
        var lines: seq<MealLine> := [];
        var dayCalories := 0;
        var j := 0;
        while j < |MEALS|
          invariant 0 <= j <= |MEALS|
          invariant lines == MealLines(day, j)
          invariant dayCalories == LinesTotal(lines)
        {
          var meal := if MEALS[j].0 in day then day[MEALS[j].0] else Meal(None, None);
          var cal := meal.calories.GetOr(0);
          var line := MealLine(MEALS[j].1, meal.title.GetOr(MISSING_TITLE), cal);
          assert (lines + [line])[..|lines|] == lines;
          dayCalories := dayCalories + cal;
          lines := lines + [line];
          j := j + 1;
        }
        cards := cards + [DayCard(d, DAYS[d].1, lines, dayCalories)];
      }
      d := d + 1;
    }
  }

  /** Without active premium the user gets the upsell with the premium keyboard and the
      generator is not asked. Otherwise the generator is asked for a plan with the
      user's goal (2000 when unset), diet, allergies and excluded products; an error
      gives a failure message, a plan gives the day cards and the weekly totals. */
  method MealPlanStart(u: User, now: int, generator: MealPlanRequest -> Result<MealPlan>)
    returns (asked: Option<MealPlanRequest>, reply: MealPlanReply)
    ensures asked.None? <==> !HasActivePremium(u, now)
    ensures !HasActivePremium(u, now) ==> reply == PremiumRequired(PremiumKeyboard())
    ensures asked.Some? ==>
              asked.value == MealPlanRequest(CalorieGoal(u), u.dietType, u.allergies, u.excludedProducts)
    ensures asked.Some? ==>
              reply == match generator(asked.value)
                       case Err(_) => PlanFailed
                       case Ok(plan) =>
                         PlanShown(DayCards(plan, |DAYS|), TotalText(plan.totalWeeklyCalories),
                                   TotalText(plan.totalWeeklyCost))
  {
    if !HasActivePremium(u, now) {
      return None, PremiumRequired(PremiumKeyboard());
    }
    var request := MealPlanRequest(CalorieGoal(u), u.dietType, u.allergies, u.excludedProducts);
    asked := Some(request);
    var outcome := generator(request);
    if outcome.Err? {
      return asked, PlanFailed;
    }
    var plan := outcome.value;
    var cards := FormatWeek(plan);
    reply := PlanShown(cards, TotalText(plan.totalWeeklyCalories), TotalText(plan.totalWeeklyCost));
  }

  /** A day's total is breakfast plus lunch plus dinner, a missing meal or value counting
      as 0, and a missing title shows as "—". */
  lemma DayTotal(day: Day)
    ensures LinesTotal(MealLines(day, |MEALS|)) ==
              MealCalories(day, "breakfast") + MealCalories(day, "lunch") + MealCalories(day, "dinner")
    ensures forall i :: 0 <= i < |MEALS| ==>
              MealLines(day, |MEALS|)[i].mealName == MEALS[i].1 &&
              (MealLines(day, |MEALS|)[i].title == MISSING_TITLE <==>
                 MEALS[i].0 !in day || day[MEALS[i].0].title.None? || day[MEALS[i].0].title == Some(MISSING_TITLE))
  {
    var lines := MealLines(day, |MEALS|);
    var two := MealLines(day, 2);
    var one := MealLines(day, 1);
    assert lines[..2] == two;
    assert two[..1] == one;
    assert one[..0] == [];
    assert LinesTotal(one) == MealCalories(day, "breakfast");
    assert LinesTotal(two) == LinesTotal(one) + MealCalories(day, "lunch");
    assert LinesTotal(lines) == LinesTotal(two) + MealCalories(day, "dinner");
  }

  /** Cards are in strictly increasing day order. */
  predicate InWeekOrder(cards: seq<DayCard>) {
    forall i, j :: 0 <= i < j < |cards| ==> cards[i].day < cards[j].day
  }

  /** Every card is the card of a listed day among the first `k`. */
  predicate CardsOfListedDays(plan: MealPlan, cards: seq<DayCard>, k: nat) {
    forall i :: 0 <= i < |cards| ==>
      cards[i].day < k && cards[i].day < |DAYS| && Listed(plan, cards[i].day) && cards[i] == DayCardOf(plan, cards[i].day)
  }

  /** Every listed day among the first `k` has a card. */
  predicate CoversListedDays(plan: MealPlan, cards: seq<DayCard>, k: nat)
    requires k <= |DAYS|
  {
    forall d :: 0 <= d < k && Listed(plan, d) ==> exists i :: 0 <= i < |cards| && cards[i].day == d
  }

  /** Cards come from listed days only, each the card of its day. */
  lemma {:induction false} CardsAreListedDays(plan: MealPlan, k: nat)
    requires k <= |DAYS|
    ensures CardsOfListedDays(plan, DayCards(plan, k), k)
  {
    if k > 0 {
      CardsAreListedDays(plan, k - 1);
    }
  }

  /** Cards come in Monday-to-Sunday order. */
  lemma {:induction false} CardsInWeekOrder(plan: MealPlan, k: nat)
    requires k <= |DAYS|
    ensures InWeekOrder(DayCards(plan, k))
  {
    if k > 0 {
      CardsInWeekOrder(plan, k - 1);
      CardsAreListedDays(plan, k - 1);
    }
  }

  /** No listed day is skipped. */
  lemma {:induction false} CardsCoverListedDays(plan: MealPlan, k: nat)
    requires k <= |DAYS|
    ensures CoversListedDays(plan, DayCards(plan, k), k)
  {
    if k > 0 {
      CardsCoverListedDays(plan, k - 1);
      var prev := DayCards(plan, k - 1);
      var cards := DayCards(plan, k);
      forall d | 0 <= d < k && Listed(plan, d)
        ensures exists i :: 0 <= i < |cards| && cards[i].day == d
      {
        if d < k - 1 {
          var i :| 0 <= i < |prev| && prev[i].day == d;
          assert cards[i] == prev[i];
        } else {
          assert cards[|prev|].day == d;
        }
      }
    }
  }

  /** Every card shown sums its day's breakfast, lunch and dinner. */
  lemma CardTotals(plan: MealPlan, c: DayCard)
    requires c in DayCards(plan, |DAYS|)
    ensures c.day < |DAYS| && Listed(plan, c.day)
    ensures c.dayName == DAYS[c.day].1
    ensures c.total == MealCalories(plan.days[DAYS[c.day].0], "breakfast") +
                       MealCalories(plan.days[DAYS[c.day].0], "lunch") +
                       MealCalories(plan.days[DAYS[c.day].0], "dinner")
  {
    CardsAreListedDays(plan, |DAYS|);
    DayTotal(plan.days[DAYS[c.day].0]);
  }
}
