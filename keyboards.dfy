/** The inline keyboards and the callback data their buttons carry. Each keyboard is
    the sequence of its buttons in the order they are added; the row layout is not
    modelled. The handlers decode the callback data these buttons send. */
module Keyboards {
  import opened Wrappers
  import opened Strings

  /** One inline button: its label and the callback data it sends. */
  datatype Button = Button(text: string, callbackData: string)

  /** `int(data.split("_")[-1])`: the integer after the last underscore, as the
      recipe, shopping and payment handlers read their callback data. */
  function CallbackInt(data: string): Option<int> {
    ParseInt(LastPart(data, "_"))
  }

  /** Any integer written after a prefix ending in an underscore is read back. */
  lemma {:induction false} CallbackIntRoundTrip(prefix: string, n: int)
    ensures CallbackInt(prefix + "_" + IntToString(n)) == Some(n)
  {
    IntToStringAvoids(n, "_");
    LastPartOfSuffix(prefix, "_", IntToString(n));
    ParseIntToString(n);
  }

  /** The diet keyboard: one button per diet, in the order they are added. */
  const DIET_BUTTONS: seq<Button> := [
    Button("🥩 Обычная", "diet_" + "normal"),
    Button("🥬 Вегетарианская", "diet_" + "vegetarian"),
    Button("🌱 Веганская", "diet_" + "vegan"),
    Button("🥓 Кето", "diet_" + "keto"),
    Button("🍗 Высокобелковая", "diet_" + "highprotein"),
    Button("🥗 Низкокалорийная", "diet_" + "lowcal")]

  /** The diet keys the diet buttons carry, in button order. */
  const DIET_KEYS: seq<string> := ["normal", "vegetarian", "vegan", "keto", "highprotein", "lowcal"]

  /** The allergy options: label and callback data, in display order. */
  const ALLERGY_OPTIONS: seq<Button> := [
    Button("Глютен", "allergy_" + "глютен"),
    Button("Лактоза", "allergy_" + "лактоза"),
    Button("Орехи", "allergy_" + "орехи"),
    Button("Яйца", "allergy_" + "яйца"),
    Button("Морепродукты", "allergy_" + "морепродукты"),
    Button("Соя", "allergy_" + "соя")]

  /** The allergens the options stand for, in the same order. */
  const ALLERGENS: seq<string> := ["глютен", "лактоза", "орехи", "яйца", "морепродукты", "соя"]

  const DONE_BUTTON: Button := Button("✔️ Готово", "allergy_done")

  const MARK: string := "✅ "

  /** The button of one allergy option, marked when its allergen is selected. */
  function AllergyButton(option: Button, selected: seq<string>): Button {
    var allergen := RemoveAll(option.callbackData, "allergy_");
    Button((if allergen in selected then MARK else "") + option.text, option.callbackData)
  }

  /** The six allergy buttons in fixed order, then the "done" button. */
  function AllergiesKeyboard(selected: seq<string>): (kb: seq<Button>)
    ensures |kb| == |ALLERGY_OPTIONS| + 1 == 7
    ensures kb[|kb| - 1] == DONE_BUTTON
    ensures forall i :: 0 <= i < |ALLERGY_OPTIONS| ==> kb[i] == AllergyButton(ALLERGY_OPTIONS[i], selected)
  {
    seq(|ALLERGY_OPTIONS|, i requires 0 <= i < |ALLERGY_OPTIONS| => AllergyButton(ALLERGY_OPTIONS[i], selected))
      + [DONE_BUTTON]
  }

  /** Each allergy button sends `allergy_` and its allergen, and carries the mark
      exactly when that allergen is selected. */
  lemma AllergyButtonsMarked(selected: seq<string>, i: int)
    requires 0 <= i < |ALLERGENS|
    ensures AllergiesKeyboard(selected)[i].callbackData == "allergy_" + ALLERGENS[i]
    ensures RemoveAll(AllergiesKeyboard(selected)[i].callbackData, "allergy_") == ALLERGENS[i]
    ensures StartsWith(AllergiesKeyboard(selected)[i].text, MARK) <==> ALLERGENS[i] in selected
  {
    var option := ALLERGY_OPTIONS[i];
    assert option.callbackData == "allergy_" + ALLERGENS[i];
    AvoidsFirstChar(ALLERGENS[i], "allergy_");
    RemovePrefix("allergy_", ALLERGENS[i]);
    var text := AllergiesKeyboard(selected)[i].text;
    if ALLERGENS[i] !in selected {
      assert text == option.text;
      assert text[0] != MARK[0];
    }
  }

  /** A prefix ending in an underscore followed by `n` starts with that prefix and
      reads back as `n`. */
  lemma EncodedInt(prefix: string, n: int)
    requires |prefix| > 0 && prefix[|prefix| - 1] == '_'
    ensures StartsWith(prefix + IntToString(n), prefix)
    ensures CallbackInt(prefix + IntToString(n)) == Some(n)
  {
    var s := prefix + IntToString(n);
    assert s[..|prefix|] == prefix;
    var head := prefix[..|prefix| - 1];
    assert prefix == head + "_";
    assert s == head + "_" + IntToString(n);
    CallbackIntRoundTrip(head, n);
  }

  /** Save, shopping list and next recipe for the recipe at `index`. */
  function RecipeActionsKeyboard(index: int): (kb: seq<Button>)
    ensures |kb| == 3
    ensures CallbackInt(kb[0].callbackData) == Some(index)
    ensures StartsWith(kb[0].callbackData, "save_recipe_")
    ensures CallbackInt(kb[1].callbackData) == Some(index)
    ensures StartsWith(kb[1].callbackData, "shopping_")
    ensures kb[2].callbackData == "next_recipe"
  {
    var save := "save_recipe_" + IntToString(index);
    var shop := "shopping_" + IntToString(index);
    EncodedInt("save_recipe_", index);
    EncodedInt("shopping_", index);
    [Button("💾 Сохранить", save),
     Button("🛒 Список покупок", shop),
     Button("➡️ Другой рецепт", "next_recipe")]
  }

  /** Every integer of `ns` written after the prefix reads back. */
  lemma EncodedInts(prefix: string, ns: seq<int>)
    requires |prefix| > 0 && prefix[|prefix| - 1] == '_'
    ensures forall i :: 0 <= i < |ns| ==>
              StartsWith(prefix + IntToString(ns[i]), prefix) && CallbackInt(prefix + IntToString(ns[i])) == Some(ns[i])
  {
    forall i | 0 <= i < |ns|
      ensures StartsWith(prefix + IntToString(ns[i]), prefix) && CallbackInt(prefix + IntToString(ns[i])) == Some(ns[i])
    {
      EncodedInt(prefix, ns[i]);
    }
  }

  /** The months offered, in button order. */
  const PREMIUM_MONTHS: seq<int> := [1, 3, 12]
  const PREMIUM_LABELS: seq<string> := [
    "💳 Подписка — 1 мес (490 ₽)",
    "💳 Подписка — 3 мес (1290 ₽)",
    "💳 Подписка — 12 мес (3990 ₽)"]

  /** One button per offered term, each sending `buy_premium_` and its months. */
  function PremiumKeyboard(): (kb: seq<Button>)
    ensures |kb| == |PREMIUM_MONTHS| == 3
    ensures forall i :: 0 <= i < |kb| ==>
              StartsWith(kb[i].callbackData, "buy_premium_") && CallbackInt(kb[i].callbackData) == Some(PREMIUM_MONTHS[i])
  {
    EncodedInts("buy_premium_", PREMIUM_MONTHS);
    seq(3, i requires 0 <= i < 3 => Button(PREMIUM_LABELS[i], "buy_premium_" + IntToString(PREMIUM_MONTHS[i])))
  }

  /** The recipe counts offered, in button order. */
  const RECIPE_COUNTS: seq<int> := [1, 3, 5]
  const RECIPE_COUNT_LABELS: seq<string> := ["1️⃣ Один", "3️⃣ Три", "5️⃣ Пять"]

  /** One button per count, each sending `recipes_count_` and its count. */
  function RecipeCountKeyboard(): (kb: seq<Button>)
    ensures |kb| == |RECIPE_COUNTS| == 3
    ensures forall i :: 0 <= i < |kb| ==>
              StartsWith(kb[i].callbackData, "recipes_count_") && CallbackInt(kb[i].callbackData) == Some(RECIPE_COUNTS[i])
  {
    EncodedInts("recipes_count_", RECIPE_COUNTS);
    seq(3, i requires 0 <= i < 3 => Button(RECIPE_COUNT_LABELS[i], "recipes_count_" + IntToString(RECIPE_COUNTS[i])))
  }

  /** The calorie presets, in button order. */
  const CALORIE_PRESETS: seq<int> := [1500, 2000, 2500, 3000]

  const CALORIE_OPTIONS: seq<Button> := [
    Button("1500 ккал (похудение)", "calories_" + "1500"),
    Button("2000 ккал (поддержание)", "calories_" + "2000"),
    Button("2500 ккал (набор массы)", "calories_" + "2500"),
    Button("3000 ккал (интенсив)", "calories_" + "3000")]

  const CUSTOM_CALORIES_BUTTON: Button := Button("Ввести своё значение", "calories_custom")

  /** The four presets, each sending `calories_` and its value, then the custom entry last. */
  function CaloriesKeyboard(): (kb: seq<Button>)
    ensures |kb| == |CALORIE_PRESETS| + 1 == 5
    ensures kb[|kb| - 1] == CUSTOM_CALORIES_BUTTON
    ensures forall i :: 0 <= i < |CALORIE_PRESETS| ==> kb[i].callbackData == "calories_" + IntToString(CALORIE_PRESETS[i])
  {
    PresetsSpelled();
    CALORIE_OPTIONS + [CUSTOM_CALORIES_BUTTON]
  }

  /** Each preset's callback data is `calories_` followed by the preset written in decimal. */
  lemma PresetsSpelled()
    ensures forall i :: 0 <= i < |CALORIE_PRESETS| ==> CALORIE_OPTIONS[i].callbackData == "calories_" + IntToString(CALORIE_PRESETS[i])
  {
    Spelled(1, 5);
    Spelled(2, 0);
    Spelled(2, 5);
    Spelled(3, 0);
  }

  /** A goal of the form d,d'00 is written as its two leading digits and "00". */
  lemma Spelled(d: nat, e: nat)
    requires 0 < d < 10 && e < 10
    ensures IntToString(d * 1000 + e * 100) == [('0' as int + d) as char, ('0' as int + e) as char, '0', '0']
  {
    var n := d * 1000 + e * 100;
    assert NatToString(d * 10 + e) == NatToString(d) + [DigitChar(e)];
    assert NatToString(d * 100 + e * 10) == NatToString(d * 10 + e) + [DigitChar(0)];
    assert NatToString(n) == NatToString(d * 100 + e * 10) + [DigitChar(0)];
  }
}
