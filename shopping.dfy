/** The shopping list for a shown recipe: the missing ingredients are sent to the
    shopping-list generator, with a list built from the recipe itself when the
    generator fails or returns nothing, and the list is shown numbered with a price total. */
module ShoppingHandlers {
  import opened Wrappers
  import opened Strings
  import opened Models
  import opened Keyboards
  import RecipeHandlers

  /** One entry of a shopping list; every key may be absent from the generator's answer,
      and a price that is absent or null is `None`. */
  datatype ShoppingItem = ShoppingItem(name: Option<string>, amount: Option<string>,
                                       price: Option<int>, whereToBuy: Option<string>)

  /** What the shopping-list generator is asked for. */
  datatype ShoppingRequest = ShoppingRequest(recipeTitle: string, ingredients: seq<Ingredient>, products: seq<string>)

  /** One shown line: its number, the name, and the amount, price and shop section when shown. */
  datatype ShoppingLine = ShoppingLine(number: nat, name: string, amount: Option<string>,
                                       price: Option<int>, whereToBuy: Option<string>)

  datatype ShoppingReply =
    | RecipeNotFound
    | AllPresent
    | ShoppingShown(title: string, lines: seq<ShoppingLine>, total: int, totalShown: bool)

  const DEFAULT_TITLE: string := "Рецепт"
  const UNNAMED: string := "?"

  /** The ingredients not at hand, in input order; `have` defaults to present. */
  function Missing(ings: seq<Ingredient>): (m: seq<Ingredient>)
    ensures |m| <= |ings|
    ensures forall x :: x in m ==> x in ings && !RecipeHandlers.Has(x)
    ensures forall x :: x in ings && !RecipeHandlers.Has(x) ==> x in m
  {
    if ings == [] then []
    else Missing(ings[..|ings| - 1]) + (if !RecipeHandlers.Has(ings[|ings| - 1]) then [ings[|ings| - 1]] else [])
  }

  /** The recipe a `shopping_N` button points at: N must parse, be below the number of
      recipes, and, when negative, count from the end as Python indexing does. */
  function Picked(recipes: seq<Recipe>, data: string): Option<Recipe> {
    match CallbackInt(data)
    case None => None
    case Some(idx) =>
      if idx >= |recipes| then None
      else match PyIndex(|recipes|, idx)
           case None => None
           case Some(k) => Some(recipes[k])
  }

  function IngredientsOf(r: Recipe): seq<Ingredient> {
    r.ingredients.GetOr([])
  }

  /** The list built from the recipe itself: each missing ingredient's name and amount
      (empty when absent) at price 0, with the given shop section. */
  function FallbackItems(missing: seq<Ingredient>, whereToBuy: Option<string>): (items: seq<ShoppingItem>)
    ensures |items| == |missing|
    ensures forall i :: 0 <= i < |items| ==>
              items[i].name == Some(missing[i].name.GetOr("")) && items[i].amount == Some(missing[i].amount.GetOr("")) &&
              items[i].price == Some(0) && items[i].whereToBuy == whereToBuy
  {
    seq(|missing|, i requires 0 <= i < |missing| =>
      ShoppingItem(Some(missing[i].name.GetOr("")), Some(missing[i].amount.GetOr("")), Some(0), whereToBuy))
  }

  /** The list used when the generator raised, built entry by entry. */
  method ExceptionFallback(missing: seq<Ingredient>) returns (items: seq<ShoppingItem>)
    ensures items == FallbackItems(missing, Some(""))
  {
    items := [];
    var k := 0;
    while k < |missing|
      invariant 0 <= k <= |missing|
      invariant items == FallbackItems(missing[..k], Some(""))
    {
      var ing := missing[k];
      items := items + [ShoppingItem(Some(ing.name.GetOr("")), Some(ing.amount.GetOr("")), Some(0), Some(""))];
      k := k + 1;
    }
    assert missing[..k] == missing;
  }

  /** The list that is shown: the generator's list, the exception fallback when it
      raised, and the plain fallback when the list is still empty. */
  function ListToShow(outcome: Result<seq<ShoppingItem>>, missing: seq<Ingredient>): seq<ShoppingItem> {
    var shopping := match outcome
                    case Err(_) => FallbackItems(missing, Some(""))
                    case Ok(items) => items;
    if shopping == [] then FallbackItems(missing, None) else shopping
  }

  /** A shown line: an absent name shows "?", and amount, price and shop section are
      shown only when non-empty or non-zero. */
  function LineOfItem(number: nat, item: ShoppingItem): ShoppingLine {
    var amount := item.amount.GetOr("");
    var price := item.price.GetOr(0);
    var where := item.whereToBuy.GetOr("");
    ShoppingLine(number, item.name.GetOr(UNNAMED),
                 if amount != "" then Some(amount) else None,
                 if price != 0 then Some(price) else None,
                 if where != "" then Some(where) else None)
  }

  /** The lines of a list, numbered from 1 in list order. */
  function ShoppingLines(items: seq<ShoppingItem>): (lines: seq<ShoppingLine>)
    ensures |lines| == |items|
    ensures forall i :: 0 <= i < |lines| ==> lines[i].number == i + 1
  {
    seq(|items|, i requires 0 <= i < |items| => LineOfItem(i + 1, items[i]))
  }

  /** The sum of the prices, an absent or null price counting as 0. */
  function TotalPrice(items: seq<ShoppingItem>): int {
    if items == [] then 0 else TotalPrice(items[..|items| - 1]) + items[|items| - 1].price.GetOr(0)
  }

  /** The sum of the prices printed on the lines. */
  function ShownPriceSum(lines: seq<ShoppingLine>): int {
    if lines == [] then 0 else ShownPriceSum(lines[..|lines| - 1]) + lines[|lines| - 1].price.GetOr(0)
  }

  /** Formats the list line by line, accumulating the total. */
  method FormatShopping(items: seq<ShoppingItem>) returns (lines: seq<ShoppingLine>, total: int)
    ensures lines == ShoppingLines(items)
    ensures total == TotalPrice(items)
  {
    lines := [];
    total := 0;
    var k := 0;
    while k < |items|
      invariant 0 <= k <= |items|
      invariant lines == ShoppingLines(items[..k])
      invariant total == TotalPrice(items[..k])
    {
      assert items[..k + 1][..k] == items[..k];
      var item := items[k];
      var price := item.price.GetOr(0);
      total := total + price;
      lines := lines + [LineOfItem(k + 1, item)];
      k := k + 1;
    }
    assert items[..k] == items;
  }

  /** The reply for a recipe and the list shown for it; the total line is shown iff the
      total is non-zero. */
  function ShownFor(recipe: Recipe, items: seq<ShoppingItem>): ShoppingReply {
    ShoppingShown(recipe.title.GetOr(DEFAULT_TITLE), ShoppingLines(items), TotalPrice(items), TotalPrice(items) != 0)
  }

  /** A non-number after the last underscore fails; an index at or past the end gives
      "not found"; a negative index past the start fails as Python indexing does. A
      recipe with nothing missing gives "all present". Only otherwise is the generator
      asked, with the recipe title (empty when absent), all its ingredients and the
      products; its list, or a fallback, is then shown. */
  method ShoppingList(recipes: seq<Recipe>, products: seq<string>, data: string,
                      generator: ShoppingRequest -> Result<seq<ShoppingItem>>)
    returns (asked: Option<ShoppingRequest>, r: Result<ShoppingReply>)
    ensures CallbackInt(data).None? ==> r == Err(ValueError) && asked.None?
    ensures CallbackInt(data).Some? && CallbackInt(data).value >= |recipes| ==> r == Ok(RecipeNotFound) && asked.None?
    ensures CallbackInt(data).Some? && CallbackInt(data).value < |recipes| && Picked(recipes, data).None? ==>
              r == Err(IndexError) && asked.None?
    ensures Picked(recipes, data).Some? && Missing(IngredientsOf(Picked(recipes, data).value)) == [] ==>
              r == Ok(AllPresent) && asked.None?
    ensures asked.Some? <==> Picked(recipes, data).Some? && Missing(IngredientsOf(Picked(recipes, data).value)) != []
    ensures asked.Some? ==>
              var recipe := Picked(recipes, data).value;
              asked.value == ShoppingRequest(recipe.title.GetOr(""), IngredientsOf(recipe), products) &&
              r == Ok(ShownFor(recipe, ListToShow(generator(asked.value), Missing(IngredientsOf(recipe)))))
  {
    var idx := CallbackInt(data);
    if idx.None? {
      return None, Err(ValueError);
    }
    if idx.value >= |recipes| {
      return None, Ok(RecipeNotFound);
    }
    var k := PyIndex(|recipes|, idx.value);
    if k.None? {
      return None, Err(IndexError);
    }
    var recipe := recipes[k.value];
    var ingredients := recipe.ingredients.GetOr([]);
    var missing := Missing(ingredients);
    if missing == [] {
      return None, Ok(AllPresent);
    }
    var request := ShoppingRequest(recipe.title.GetOr(""), ingredients, products);
    asked := Some(request);
    var outcome := generator(request);
    var shopping;
    if outcome.Err? {
      shopping := ExceptionFallback(missing);
    } else {
      shopping := outcome.value;
    }
    if shopping == [] {
      shopping := FallbackItems(missing, None);
    }
    var lines, total := FormatShopping(shopping);
    r := Ok(ShoppingShown(recipe.title.GetOr(DEFAULT_TITLE), lines, total, total != 0));
  }

  /** A fallback list has total 0, so it never shows a total line. */
  lemma {:induction false} FallbackTotalZero(missing: seq<Ingredient>, whereToBuy: Option<string>)
    ensures TotalPrice(FallbackItems(missing, whereToBuy)) == 0
  {
    if missing != [] {
      var init := missing[..|missing| - 1];
      FallbackTotalZero(init, whereToBuy);
      assert FallbackItems(missing, whereToBuy)[..|missing| - 1] == FallbackItems(init, whereToBuy);
    }
  }

  /** When the generator raises or returns nothing, the list shown is the missing
      ingredients in order, each at price 0, and no total line appears. */
  lemma FallbackShown(outcome: Result<seq<ShoppingItem>>, missing: seq<Ingredient>)
    requires outcome.Err? || outcome == Ok([])
    ensures |ListToShow(outcome, missing)| == |missing|
    ensures forall i :: 0 <= i < |missing| ==>
              ListToShow(outcome, missing)[i].name == Some(missing[i].name.GetOr("")) &&
              ListToShow(outcome, missing)[i].price == Some(0)
    ensures TotalPrice(ListToShow(outcome, missing)) == 0
  {
    FallbackTotalZero(missing, Some(""));
    FallbackTotalZero(missing, None);
  }

  /** The total is the sum of the prices printed on the lines. */
  lemma {:induction false} TotalMatchesShownPrices(items: seq<ShoppingItem>)
    ensures ShownPriceSum(ShoppingLines(items)) == TotalPrice(items)
  {
    if items != [] {
      var init := items[..|items| - 1];
      TotalMatchesShownPrices(init);
      assert ShoppingLines(items)[..|items| - 1] == ShoppingLines(init);
    }
  }

  /** Totals add up over concatenated lists. */
  lemma {:induction false} TotalPriceAppend(a: seq<ShoppingItem>, b: seq<ShoppingItem>)
    ensures TotalPrice(a + b) == TotalPrice(a) + TotalPrice(b)
    decreases |b|
  {
    if b == [] {
      assert a + b == a;
    } else {
      var init := b[..|b| - 1];
      assert (a + b)[..|a + b| - 1] == a + init;
      TotalPriceAppend(a, init);
    }
  }

  /** The shopping list starts from exactly the ingredients the recipe card lists under
      "need to buy", in the same order; so "all present" is answered exactly when the
      card has no such line. */
  lemma {:induction false} MissingMatchesCard(ings: seq<Ingredient>)
    ensures |Missing(ings)| == |RecipeHandlers.NeedLines(ings)|
    ensures forall i :: 0 <= i < |Missing(ings)| ==> RecipeHandlers.NeedLines(ings)[i] == RecipeHandlers.LineOf(Missing(ings)[i])
    ensures Missing(ings) == [] <==> RecipeHandlers.NeedLines(ings) == []
  {
    if ings != [] {
      MissingMatchesCard(ings[..|ings| - 1]);
    }
  }

  /** The shopping button under the recipe at `index` picks that recipe. */
  lemma ShoppingButtonPicksRecipe(recipes: seq<Recipe>, index: int)
    requires 0 <= index < |recipes|
    ensures Picked(recipes, RecipeActionsKeyboard(index)[1].callbackData) == Some(recipes[index])
  {
  }
}
