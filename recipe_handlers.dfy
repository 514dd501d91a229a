/** The recipe conversation: the quota screen, input of products, generation of
    recipes under the daily quota, showing and paging through them, and saving one. */
module RecipeHandlers {
  import opened Wrappers
  import opened Strings
  import opened Models
  import opened Database
  import opened Keyboards
  import Config

  // ---------------------------------------------------------------- format_recipe

  /** An ingredient counts as present unless the generator said otherwise. */
  predicate Has(ing: Ingredient) {
    ing.have.GetOr(true)
  }

  /** One line of the ingredient section: a tick or a cross, name and amount, and a
      substitute, which is only ever shown for a missing ingredient. */
  datatype IngredientLine = IngredientLine(have: bool, name: string, amount: string, substitute: Option<string>)

  function LineOf(ing: Ingredient): IngredientLine {
    var shown := if ing.substitute.Some? && ing.substitute.value != "" && !Has(ing) then ing.substitute else None;
    IngredientLine(Has(ing), ing.name.GetOr(""), ing.amount.GetOr(""), shown)
  }

  /** The lines of the present ingredients, in input order. */
  function HaveLines(ings: seq<Ingredient>): seq<IngredientLine> {
    if ings == [] then []
    else HaveLines(ings[..|ings| - 1]) + (if Has(ings[|ings| - 1]) then [LineOf(ings[|ings| - 1])] else [])
  }

  /** The lines of the missing ingredients, in input order. */
  function NeedLines(ings: seq<Ingredient>): seq<IngredientLine> {
    if ings == [] then []
    else NeedLines(ings[..|ings| - 1]) + (if !Has(ings[|ings| - 1]) then [LineOf(ings[|ings| - 1])] else [])
  }

  /** The ingredients split into the two groups: every ingredient lands in exactly one,
      the present ones marked present, the missing ones marked missing, substitutes
      only among the missing, and the missing group is empty exactly when every
      ingredient is present. */
  lemma {:induction false} IngredientPartition(ings: seq<Ingredient>)
    ensures |HaveLines(ings)| + |NeedLines(ings)| == |ings|
    ensures forall l :: l in HaveLines(ings) ==> l.have && l.substitute.None?
    ensures forall l :: l in NeedLines(ings) ==> !l.have
    ensures NeedLines(ings) == [] <==> forall i :: 0 <= i < |ings| ==> Has(ings[i])
  {
    if ings != [] {
      var init := ings[..|ings| - 1];
      IngredientPartition(init);
      assert forall i :: 0 <= i < |init| ==> init[i] == ings[i];
    }
  }

  /** Grouping distributes over concatenation, so each group keeps input order. */
  lemma {:induction false} GroupsKeepOrder(a: seq<Ingredient>, b: seq<Ingredient>)
    ensures HaveLines(a + b) == HaveLines(a) + HaveLines(b)
    ensures NeedLines(a + b) == NeedLines(a) + NeedLines(b)
    decreases |b|
  {
    if b == [] {
      assert a + b == a;
    } else {
      var init := b[..|b| - 1];
      assert (a + b)[..|a + b| - 1] == a + init;
      GroupsKeepOrder(a, init);
    }
  }

  /** The ingredient section of a recipe card: every present ingredient, then every
      missing one, and the count of missing ones when there are any. */
  method IngredientSection(ings: seq<Ingredient>) returns (lines: seq<IngredientLine>, needCount: Option<nat>)
    ensures lines == HaveLines(ings) + NeedLines(ings)
    ensures needCount.Some? <==> NeedLines(ings) != []
    ensures needCount.Some? ==> needCount.value == |NeedLines(ings)|
    ensures forall i, j :: 0 <= i < j < |lines| && !lines[i].have ==> !lines[j].have
  {
    var haveList: seq<IngredientLine> := [];
    var needList: seq<IngredientLine> := [];
    var k := 0;
    while k < |ings|
      invariant 0 <= k <= |ings|
      invariant haveList == HaveLines(ings[..k])
      invariant needList == NeedLines(ings[..k])
    {
      assert ings[..k + 1][..k] == ings[..k];
      var line := LineOf(ings[k]);
      if Has(ings[k]) {
        haveList := haveList + [line];
      } else {
        needList := needList + [line];
      }
      k := k + 1;
    }
    assert ings[..k] == ings;
    lines := haveList + needList;
    needCount := if needList != [] then Some(|needList|) else None;
    IngredientPartition(ings);
    GroupsOrdered(haveList, needList);
  }

  /** Present lines followed by missing lines: no present line after a missing one. */
  lemma GroupsOrdered(haves: seq<IngredientLine>, needs: seq<IngredientLine>)
    requires forall l :: l in haves ==> l.have
    requires forall l :: l in needs ==> !l.have
    ensures var lines := haves + needs;
            forall i, j :: 0 <= i < j < |lines| && !lines[i].have ==> !lines[j].have
  {
    var lines := haves + needs;
    forall i, j | 0 <= i < j < |lines| && !lines[i].have
      ensures !lines[j].have
    {
      assert i >= |haves| by {
        assert forall k :: 0 <= k < |haves| ==> lines[k] in haves;
      }
      assert lines[j] == needs[j - |haves|];
    }
  }

  // ---------------------------------------------------------------- start_recipe

  datatype StartReply =
    | LimitMessage(keyboard: seq<Button>)
    | AskProducts(remaining: Option<int>)

  /** The first screen: the limit message when the quota check fails, otherwise the
      invitation with the remaining count (none for premium). The count subtracts the
      stored counter whenever any date is stored, even one from an earlier day. */
  function StartRecipe(u: User, now: int, today: int): (r: StartReply)
    ensures r.LimitMessage? <==> !CanGetRecipe(u, Config.FREE_RECIPES_PER_DAY, now, today)
    ensures r.LimitMessage? ==> r.keyboard == PremiumKeyboard()
    ensures r.AskProducts? ==> (r.remaining.None? <==> HasActivePremium(u, now))
  {
    if !CanGetRecipe(u, Config.FREE_RECIPES_PER_DAY, now, today) then LimitMessage(PremiumKeyboard())
    else
      var used := if u.lastRecipeDate.Some? then u.recipesToday else 0;
      AskProducts(if HasActivePremium(u, now) then None else Some(Config.FREE_RECIPES_PER_DAY - used))
  }

  /** The remaining count agrees with the quota on the day the counter was written and
      for a user who never had a recipe; for a counter left from an earlier day it
      shows the old day's remainder although the quota is open again. */
  lemma RemainingDisplay(u: User, now: int, today: int)
    requires !HasActivePremium(u, now)
    ensures u.lastRecipeDate.None? || u.lastRecipeDate == Some(today) ==>
              StartRecipe(u, now, today) == AskProducts(Some(Config.FREE_RECIPES_PER_DAY - UsedToday(u, today)))
              || StartRecipe(u, now, today).LimitMessage?
    ensures u.lastRecipeDate.Some? && u.lastRecipeDate != Some(today) ==>
              StartRecipe(u, now, today) == AskProducts(Some(Config.FREE_RECIPES_PER_DAY - u.recipesToday))
    ensures u.lastRecipeDate.Some? && u.lastRecipeDate != Some(today) && u.recipesToday >= Config.FREE_RECIPES_PER_DAY ==>
              StartRecipe(u, now, today).remaining.value <= 0 && CanGetRecipe(u, Config.FREE_RECIPES_PER_DAY, now, today)
  {
  }

  // ---------------------------------------------------------------- input

  datatype VoiceGate = TooLong | Empty | Proceed

  /** A voice message longer than the cap is refused before download; a download of
      fewer than 100 bytes is treated as empty. */
  function VoiceInputGate(duration: int, byteCount: nat): (g: VoiceGate)
    ensures g.Proceed? <==> duration <= Config.MAX_VOICE_DURATION && byteCount >= 100
    ensures g.TooLong? <==> duration > Config.MAX_VOICE_DURATION
  {
    if duration > Config.MAX_VOICE_DURATION then TooLong
    else if byteCount < 100 then Empty
    else Proceed
  }

  /** An audio file is refused only when it states a non-zero duration above the cap. */
  function AudioAccepted(duration: Option<int>): (ok: bool)
    ensures !ok <==> duration.Some? && duration.value > Config.MAX_VOICE_DURATION
  {
    !(duration.Some? && duration.value != 0 && duration.value > Config.MAX_VOICE_DURATION)
  }

  predicate NoDuplicates<T(==)>(s: seq<T>) {
    forall i, j :: 0 <= i < j < |s| ==> s[i] != s[j]
  }

  /** `list(set(existing + new))`: each product once. Python's set order is not
      modelled; the last occurrence of each product is kept, in list order. */
  function MergeProducts(existing: seq<string>, added: seq<string>): (r: seq<string>)
    ensures NoDuplicates(r)
    ensures forall p :: p in r <==> p in existing || p in added
  {
    Dedup(existing + added)
  }

  function Dedup(s: seq<string>): (r: seq<string>)
    ensures NoDuplicates(r)
    ensures forall p :: p in r <==> p in s
  {
    if s == [] then []
    else if s[0] in s[1..] then Dedup(s[1..])
    else [s[0]] + Dedup(s[1..])
  }

  // ---------------------------------------------------------------- generate

  /** What is asked of the recipe generator. */
  datatype RecipeRequest = RecipeRequest(
    products: seq<string>, count: int, dietType: Option<string>,
    allergies: seq<string>, excluded: seq<string>)

  datatype GenerateReply =
    | LimitReached(keyboard: seq<Button>)
    | GenerationFailed
    | NothingFound
    | Shown(recipes: seq<Recipe>, current: int)

  /** The recipe-count button: the count is read from the callback data, the quota is
      checked before anything is generated, and one recipe is counted only after the
      generator returned a non-empty list. `generator` stands for the recipe service
      (an error is an exception it raised); `asked` is what it was asked, if anything. */
  method Generate(db: Store, u: User, data: string, products: seq<string>,
                  generator: RecipeRequest -> Result<seq<Recipe>>, now: int, today: int)
    returns (asked: Option<RecipeRequest>, r: Result<GenerateReply>)
    requires db.Valid()
    modifies db
    ensures db.Valid()
    ensures r.Err? <==> CallbackInt(data).None?
    ensures asked.Some? <==> CallbackInt(data).Some? && CanGetRecipe(u, Config.FREE_RECIPES_PER_DAY, now, today)
    ensures asked.Some? ==>
              asked.value == RecipeRequest(products, CallbackInt(data).value, u.dietType, u.allergies, u.excludedProducts)
    ensures r.Ok? && !CanGetRecipe(u, Config.FREE_RECIPES_PER_DAY, now, today) ==> r.value == LimitReached(PremiumKeyboard())
    ensures asked.Some? ==>
              r == match generator(asked.value)
                   case Err(_) => Ok(GenerationFailed)
                   case Ok(rs) => if rs == [] then Ok(NothingFound) else Ok(Shown(rs, 0))
    ensures db.users == if r.Ok? && r.value.Shown? then IncrementedUsers(old(db.users), u.telegramId, today)
                        else old(db.users)
    ensures db.payments == old(db.payments) && db.savedRecipes == old(db.savedRecipes)
  {
    var count := CallbackInt(data);
    if count.None? {
      return None, Err(ValueError);
    }
    if !CanGetRecipe(u, Config.FREE_RECIPES_PER_DAY, now, today) {
      return None, Ok(LimitReached(PremiumKeyboard()));
    }
    var request := RecipeRequest(products, count.value, u.dietType, u.allergies, u.excludedProducts);
    asked := Some(request);
    var outcome := generator(request);
    if outcome.Err? {
      return asked, Ok(GenerationFailed);
    }
    if outcome.value == [] {
      return asked, Ok(NothingFound);
    }
    db.IncrementRecipe(u.telegramId, today);
    r := Ok(Shown(outcome.value, 0));
  }

  /** Telegram refuses messages over 4096 characters; a card over 4000 is sent in two. */
  const SPLIT_THRESHOLD: int := 4000

  /** The split of the first card: at the last newline before the middle plus 500, or
      at the middle when there is none. */
  function FirstSplitPos(text: string): (pos: nat)
    requires |text| > SPLIT_THRESHOLD
    ensures pos < |text| && text[..pos] + text[pos..] == text
    ensures (exists j :: 0 <= j < |text| / 2 + 500 && text[j] == '\n') ==>
              text[pos] == '\n' && pos < |text| / 2 + 500 &&
              forall j :: pos < j < |text| / 2 + 500 ==> text[j] != '\n'
    ensures (forall j :: 0 <= j < |text| / 2 + 500 ==> text[j] != '\n') ==> pos == |text| / 2
  {
    var mid := |text| / 2;
    var p := RFind(text, '\n', mid + 500);
    if p == -1 then mid else p
  }

  /** The split of a card reached with "next": at the last newline before 2000, or at
      2000. The second part then keeps everything past that point, so a card longer
      than 6096 characters still yields a second part over Telegram's limit. */
  function NextSplitPos(text: string): (pos: nat)
    requires |text| > SPLIT_THRESHOLD
    ensures pos <= 2000 && text[..pos] + text[pos..] == text
    ensures (exists j :: 0 <= j < 2000 && text[j] == '\n') ==>
              text[pos] == '\n' && forall j :: pos < j < 2000 ==> text[j] != '\n'
    ensures (forall j :: 0 <= j < 2000 ==> text[j] != '\n') ==> pos == 2000
    ensures |text| > 6096 ==> |text[pos..]| > 4096
  {
    var p := RFind(text, '\n', 2000);
    if p == -1 then 2000 else p
  }

  // ---------------------------------------------------------------- next_recipe

  /** `(current + 1) % len(recipes)`; an empty list divides by zero. */
  function NextIndex(current: int, count: nat): (r: Result<int>)
    ensures r.Err? <==> count == 0
    ensures r.Ok? ==> 0 <= r.value < count
  {
    if count == 0 then Err(ZeroDivision) else Ok((current + 1) % count)
  }

  /** The index after `k` presses of "next", starting from `start`. */
  function AfterPresses(start: int, count: nat, k: nat): int
    requires count > 0
  {
    if k == 0 then start else NextIndex(AfterPresses(start, count, k - 1), count).value
  }

  /** Paging from the first recipe visits every recipe in order and returns to the
      first after one full round. */
  lemma {:induction false} PagingCycles(count: nat, j: nat)
    requires count > 0 && j <= count
    ensures j < count ==> AfterPresses(0, count, j) == j
    ensures j == count ==> AfterPresses(0, count, j) == 0
  {
    if j > 0 {
      PagingCycles(count, j - 1);
      var prev := AfterPresses(0, count, j - 1);
      assert prev == j - 1;
      assert AfterPresses(0, count, j) == NextIndex(prev, count).value;
      WrapAround(j, count);
      assert NextIndex(prev, count) == Ok(j % count);
    }
  }

  /** `j % count` for 0 < j <= count. */
  lemma WrapAround(j: int, count: int)
    requires 0 < j <= count
    ensures j % count == if j < count then j else 0
  {
  }

  // ---------------------------------------------------------------- save_recipe

  datatype SaveReply = Saved | SaveFailed | RecipeNotFound

  /** The save button: the index is read from the callback data; an index not below
      the number of recipes is "not found"; a negative one reads from the end as
      Python does, and one before the start fails like a failed save. */
  method SaveRecipe(db: Store, u: User, recipes: seq<Recipe>, data: string, now: int)
    returns (r: Result<SaveReply>)
    requires db.Valid()
    modifies db
    ensures db.Valid()
    ensures r.Err? <==> CallbackInt(data).None?
    ensures r.Ok? ==>
              var idx := CallbackInt(data).value;
              (r.value == RecipeNotFound <==> idx >= |recipes|) &&
              (r.value == Saved <==> PyIndex(|recipes|, idx).Some? && u.telegramId in old(db.users))
    ensures r == Ok(Saved) ==>
              db.savedRecipes == old(db.savedRecipes) +
                [SavedFrom(u.telegramId, recipes[PyIndex(|recipes|, CallbackInt(data).value).value], now)]
    ensures r != Ok(Saved) ==> db.savedRecipes == old(db.savedRecipes)
    ensures db.users == old(db.users) && db.payments == old(db.payments)
  {
    var idx := CallbackInt(data);
    if idx.None? {
      return Err(ValueError);
    }
    if idx.value >= |recipes| {
      return Ok(RecipeNotFound);
    }
    var pos := PyIndex(|recipes|, idx.value);
    if pos.None? {
      return Ok(SaveFailed);
    }
    var saved := db.SaveRecipe(u.telegramId, recipes[pos.value], now);
    r := if saved.Ok? then Ok(Saved) else Ok(SaveFailed);
  }
}
