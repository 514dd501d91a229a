/** The profile screens: choosing a diet, toggling allergies, choosing or typing a
    daily calorie goal, and typing the products to exclude. Each handler decodes its
    callback data or message text and writes one profile field. */
module ProfileHandlers {
  import opened Wrappers
  import opened Strings
  import opened Models
  import opened Database
  import opened Keyboards
  import RecipeHandlers

  const DIET_PREFIX: string := "diet_"
  const ALLERGY_PREFIX: string := "allergy_"
  const CALORIES_PREFIX: string := "calories_"
  const MIN_CALORIES: int := 800
  const MAX_CALORIES: int := 10000

  /** The names shown after a diet is chosen, by diet key. */
  const DIET_NAMES: map<string, string> := map[
    "normal" := "обычная",
    "vegetarian" := "вегетарианская",
    "vegan" := "веганская",
    "keto" := "кето",
    "highprotein" := "высокобелковая",
    "lowcal" := "низкокалорийная"]

  // ---------------------------------------------------------------- set_diet

  /** The diet key of a `diet_` button: the data with every `diet_` removed. */
  function DietOf(data: string): string {
    RemoveAll(data, DIET_PREFIX)
  }

  /** The name shown for a diet: its display name, or the raw key when it has none. */
  function DietDisplay(diet: string): (name: string)
    ensures diet in DIET_NAMES ==> name == DIET_NAMES[diet]
    ensures diet !in DIET_NAMES ==> name == diet
  {
    if diet in DIET_NAMES then DIET_NAMES[diet] else diet
  }

  /** Stores the decoded diet key, whatever it is, and returns the name shown. The
      handler is reached only by data starting with `diet_`. */
  method SetDiet(db: Store, u: User, data: string) returns (shown: string)
    requires db.Valid()
    requires StartsWith(data, DIET_PREFIX)
    modifies db
    ensures db.Valid()
    ensures db.users == ProfileUpdated(old(db.users), u.telegramId, DietType(DietOf(data)))
    ensures db.payments == old(db.payments) && db.savedRecipes == old(db.savedRecipes)
    ensures shown == DietDisplay(DietOf(data))
  {
    var diet := RemoveAll(data, DIET_PREFIX);
    db.UpdateProfile(u.telegramId, DietType(diet));
    shown := if diet in DIET_NAMES then DIET_NAMES[diet] else diet;
  }

  /** The diet keyboard has six buttons; every one of them sends `diet_` and its own
      key, reaches the diet handler and stores that key, which has a display name. */
  lemma DietButtonsDecode(i: int)
    requires 0 <= i < |DIET_KEYS|
    ensures |DIET_BUTTONS| == |DIET_KEYS| == 6
    ensures DIET_BUTTONS[i].callbackData == DIET_PREFIX + DIET_KEYS[i]
    ensures StartsWith(DIET_BUTTONS[i].callbackData, DIET_PREFIX)
    ensures DietOf(DIET_BUTTONS[i].callbackData) == DIET_KEYS[i]
    ensures DIET_KEYS[i] in DIET_NAMES
  {
    var data := DIET_BUTTONS[i].callbackData;
    assert data == DIET_PREFIX + DIET_KEYS[i];
    assert data[..|DIET_PREFIX|] == DIET_PREFIX;
    AvoidsFirstChar(DIET_KEYS[i], DIET_PREFIX);
    RemovePrefix(DIET_PREFIX, DIET_KEYS[i]);
  }

  // ---------------------------------------------------------------- toggle_allergy

  /** The toggle handler takes data starting with `allergy_` and not ending in `done`. */
  predicate RoutesToToggle(data: string) {
    StartsWith(data, ALLERGY_PREFIX) && !EndsWith(data, "done")
  }

  /** The allergen of a button: the data with every `allergy_` removed. */
  function Allergen(data: string): string {
    RemoveAll(data, ALLERGY_PREFIX)
  }

  /** list.remove(x): the first occurrence of `x` removed. */
  function RemoveFirst(s: seq<string>, x: string): (r: seq<string>)
    requires x in s
    ensures |r| == |s| - 1
    ensures multiset(r) == multiset(s) - multiset{x}
  {
    assert s == [s[0]] + s[1..];
    if s[0] == x then s[1..] else [s[0]] + RemoveFirst(s[1..], x)
  }

  /** The allergy list after toggling `allergen`: removed if present, else appended. */
  function Toggled(current: seq<string>, allergen: string): seq<string> {
    if allergen in current then RemoveFirst(current, allergen) else current + [allergen]
  }

  /** Toggles the button's allergen in a copy of the user's list and stores the copy;
      `added` tells whether the allergen is now in the list. */
  method ToggleAllergy(db: Store, u: User, data: string) returns (current: seq<string>, added: bool)
    requires db.Valid()
    requires RoutesToToggle(data)
    modifies db
    ensures db.Valid()
    ensures current == Toggled(u.allergies, Allergen(data))
    ensures added <==> Allergen(data) in current
    ensures db.users == ProfileUpdated(old(db.users), u.telegramId, Allergies(current))
    ensures db.payments == old(db.payments) && db.savedRecipes == old(db.savedRecipes)
  {
    var allergen := RemoveAll(data, ALLERGY_PREFIX);
    current := u.allergies;
    if allergen in current {
      current := RemoveFirst(current, allergen);
    } else {
      current := current + [allergen];
    }
    db.UpdateProfile(u.telegramId, Allergies(current));
    added := allergen in current;
  }

  /** Toggling flips the membership of the allergen, when the list holds it at most
      once, and leaves every other allergen's membership alone. */
  lemma ToggleFlips(current: seq<string>, allergen: string)
    requires multiset(current)[allergen] <= 1
    ensures allergen in Toggled(current, allergen) <==> allergen !in current
    ensures forall other :: other != allergen ==> (other in Toggled(current, allergen) <==> other in current)
  {
    var t := Toggled(current, allergen);
    if allergen in current {
      assert multiset(t) == multiset(current) - multiset{allergen};
      assert multiset(t)[allergen] == 0;
      forall other | other != allergen
        ensures other in t <==> other in current
      {
        assert multiset(t)[other] == multiset(current)[other];
      }
    }
  }

  /** A toggle never introduces a duplicate. */
  lemma ToggleKeepsNoDuplicates(current: seq<string>, allergen: string)
    requires RecipeHandlers.NoDuplicates(current)
    ensures RecipeHandlers.NoDuplicates(Toggled(current, allergen))
  {
    if allergen in current {
      RemoveFirstKeepsNoDuplicates(current, allergen);
    }
  }

  lemma {:induction false} RemoveFirstKeepsNoDuplicates(s: seq<string>, x: string)
    requires x in s && RecipeHandlers.NoDuplicates(s)
    ensures RecipeHandlers.NoDuplicates(RemoveFirst(s, x))
  {
    if s[0] != x {
      var tail := s[1..];
      assert RecipeHandlers.NoDuplicates(tail) by {
        forall i, j | 0 <= i < j < |tail| ensures tail[i] != tail[j] {
          assert tail[i] == s[i + 1] && tail[j] == s[j + 1];
        }
      }
      RemoveFirstKeepsNoDuplicates(tail, x);
      var rest := RemoveFirst(tail, x);
      assert s[0] !in tail by {
        forall j | 0 <= j < |tail| ensures tail[j] != s[0] {
          assert tail[j] == s[j + 1];
        }
      }
      assert s[0] !in rest by {
        assert multiset(tail)[s[0]] == 0;
        assert multiset(rest)[s[0]] == 0;
      }
      ConsNoDuplicates(s[0], rest);
    }
  }

  lemma ConsNoDuplicates(x: string, s: seq<string>)
    requires x !in s && RecipeHandlers.NoDuplicates(s)
    ensures RecipeHandlers.NoDuplicates([x] + s)
  {
    forall i, j | 0 <= i < j < |[x] + s| ensures ([x] + s)[i] != ([x] + s)[j] {
      assert ([x] + s)[j] == s[j - 1];
    }
  }

  /** Toggling twice restores the list exactly when the allergen was absent, and
      restores the same members when it was there once. */
  lemma ToggleTwice(current: seq<string>, allergen: string)
    requires multiset(current)[allergen] <= 1
    ensures allergen !in current ==> Toggled(Toggled(current, allergen), allergen) == current
    ensures multiset(Toggled(Toggled(current, allergen), allergen)) == multiset(current)
  {
    var once := Toggled(current, allergen);
    if allergen !in current {
      assert once[|current|] == allergen;
      assert once[..|current|] == current;
      RemoveLastAdded(current, allergen);
    } else {
      assert multiset(once)[allergen] == 0;
      assert allergen !in once;
    }
  }

  /** Removing the first occurrence of a value that was appended to a list without it
      gives back the list. */
  lemma {:induction false} RemoveLastAdded(s: seq<string>, x: string)
    requires x !in s
    ensures RemoveFirst(s + [x], x) == s
  {
    if s != [] {
      assert (s + [x])[1..] == s[1..] + [x];
      RemoveLastAdded(s[1..], x);
    }
  }

  /** Every allergen button reaches the toggle handler and toggles its own allergen;
      the "done" button does not reach it. */
  lemma AllergyButtonsRoute(selected: seq<string>, i: int)
    requires 0 <= i < |ALLERGENS|
    ensures RoutesToToggle(AllergiesKeyboard(selected)[i].callbackData)
    ensures Allergen(AllergiesKeyboard(selected)[i].callbackData) == ALLERGENS[i]
    ensures !RoutesToToggle(AllergiesKeyboard(selected)[|ALLERGENS|].callbackData)
  {
    AllergyButtonsMarked(selected, i);
    var data := AllergiesKeyboard(selected)[i].callbackData;
    assert data[..|ALLERGY_PREFIX|] == ALLERGY_PREFIX;
    assert data[|data| - 1] == ALLERGENS[i][|ALLERGENS[i]| - 1];
    var done := AllergiesKeyboard(selected)[|ALLERGENS|].callbackData;
    assert done == "allergy_done";
    assert done[|done| - 4..] == "done";
  }

  // ---------------------------------------------------------------- calories

  /** The preset handler takes data starting with `calories_` and not ending in `custom`. */
  predicate RoutesToPreset(data: string) {
    StartsWith(data, CALORIES_PREFIX) && !EndsWith(data, "custom")
  }

  /** The goal of a preset button: the integer left once `calories_` is removed. */
  function PresetCalories(data: string): Option<int> {
    ParseInt(RemoveAll(data, CALORIES_PREFIX))
  }

  /** Stores the decoded preset; data that does not decode raises ValueError and stores
      nothing. */
  method SetCalories(db: Store, u: User, data: string) returns (r: Result<int>)
    requires db.Valid()
    requires RoutesToPreset(data)
    modifies db
    ensures db.Valid()
    ensures r.Ok? <==> PresetCalories(data).Some?
    ensures r.Err? ==> r.error == ValueError && db.users == old(db.users)
    ensures r.Ok? ==> r.value == PresetCalories(data).value &&
                      db.users == ProfileUpdated(old(db.users), u.telegramId, CaloriesGoal(r.value))
    ensures db.payments == old(db.payments) && db.savedRecipes == old(db.savedRecipes)
  {
    var calories := ParseInt(RemoveAll(data, CALORIES_PREFIX));
    if calories.None? {
      return Err(ValueError);
    }
    db.UpdateProfile(u.telegramId, CaloriesGoal(calories.value));
    r := Ok(calories.value);
  }

  /** Every preset button reaches the preset handler and stores its own value; the
      custom button does not reach it. */
  lemma CaloriePresetsDecode(i: int)
    requires 0 <= i < |CALORIE_PRESETS|
    ensures RoutesToPreset(CaloriesKeyboard()[i].callbackData)
    ensures PresetCalories(CaloriesKeyboard()[i].callbackData) == Some(CALORIE_PRESETS[i])
    ensures !RoutesToPreset(CaloriesKeyboard()[|CALORIE_PRESETS|].callbackData)
  {
    var n := CALORIE_PRESETS[i];
    var digits := IntToString(n);
    var data := CaloriesKeyboard()[i].callbackData;
    assert data == CALORIES_PREFIX + digits;
    assert data[..|CALORIES_PREFIX|] == CALORIES_PREFIX;
    assert IsDigit(data[|data| - 1]);
    IntToStringAvoids(n, CALORIES_PREFIX);
    RemovePrefix(CALORIES_PREFIX, digits);
    ParseIntToString(n);
    var custom := CaloriesKeyboard()[|CALORIE_PRESETS|].callbackData;
    assert custom == "calories_custom";
    assert custom[|custom| - 6..] == "custom";
  }

  /** The typed goal that is accepted: an integer, white space around it allowed, from
      800 to 10000 inclusive. */
  function AcceptedCalories(text: string): (r: Option<int>)
    ensures r.Some? ==> MIN_CALORIES <= r.value <= MAX_CALORIES
    ensures r.Some? <==> ParseInt(Strip(text)).Some? && MIN_CALORIES <= ParseInt(Strip(text)).value <= MAX_CALORIES
  {
    var parsed := ParseInt(Strip(text));
    if parsed.Some? && MIN_CALORIES <= parsed.value <= MAX_CALORIES then parsed else None
  }

  /** Every goal in range, typed as a number, is accepted as itself. */
  lemma TypedCaloriesAccepted(n: int)
    requires MIN_CALORIES <= n <= MAX_CALORIES
    ensures AcceptedCalories(IntToString(n)) == Some(n)
  {
    ParseStrippedIntToString(n);
  }

  /** What the typed goal did: stored, or rejected with the question asked again. */
  datatype CaloriesReply = CaloriesSaved(calories: int) | CaloriesRejected

  /** A message without text raises AttributeError. A goal that is not accepted is
      rejected: nothing is stored and the conversation stays in the calorie state.
      An accepted goal is stored and the state is cleared. */
  method SaveCustomCalories(db: Store, u: User, text: Option<string>)
    returns (r: Result<CaloriesReply>, stateCleared: bool)
    requires db.Valid()
    modifies db
    ensures db.Valid()
    ensures text.None? ==> r == Err(AttributeError)
    ensures text.Some? ==> r.Ok? && (r.value.CaloriesSaved? <==> AcceptedCalories(text.value).Some?)
    ensures stateCleared <==> r.Ok? && r.value.CaloriesSaved?
    ensures r.Ok? && r.value.CaloriesSaved? ==>
              r.value.calories == AcceptedCalories(text.value).value &&
              db.users == ProfileUpdated(old(db.users), u.telegramId, CaloriesGoal(r.value.calories))
    ensures !stateCleared ==> db.users == old(db.users)
    ensures db.payments == old(db.payments) && db.savedRecipes == old(db.savedRecipes)
  {
    if text.None? {
      return Err(AttributeError), false;
    }
    var calories := ParseInt(Strip(text.value));
    if calories.None? || calories.value < MIN_CALORIES || calories.value > MAX_CALORIES {
      return Ok(CaloriesRejected), false;
    }
    db.UpdateProfile(u.telegramId, CaloriesGoal(calories.value));
    r, stateCleared := Ok(CaloriesSaved(calories.value)), true;
  }

  // ---------------------------------------------------------------- save_excluded

  /** The comma-separated pieces, each stripped and lower-cased, blank ones dropped. */
  function CleanParts(parts: seq<string>): (r: seq<string>)
    ensures |r| <= |parts|
  {
    if parts == [] then []
    else
      var p := Strip(parts[|parts| - 1]);
      CleanParts(parts[..|parts| - 1]) + (if p != "" then [Lower(p)] else [])
  }

  /** The excluded products typed as a comma-separated list. */
  function ParseExcluded(text: string): seq<string> {
    CleanParts(Split(text, ","))
  }

  /** Cleaning works piece by piece, so the products keep the order they were typed in. */
  lemma {:induction false} CleanPartsInOrder(a: seq<string>, b: seq<string>)
    ensures CleanParts(a + b) == CleanParts(a) + CleanParts(b)
    decreases |b|
  {
    if b == [] {
      assert a + b == a;
    } else {
      var init := b[..|b| - 1];
      assert (a + b)[..|a + b| - 1] == a + init;
      CleanPartsInOrder(a, init);
    }
  }

  /** A product as stored: non-empty, no capital letter and no comma. */
  predicate CleanProduct(e: string) {
    e != "" && forall j :: 0 <= j < |e| ==> !IsUpper(e[j]) && e[j] != ','
  }

  predicate CommaFree(s: string) {
    forall j :: 0 <= j < |s| ==> s[j] != ','
  }

  /** A comma-free piece that is not blank cleans to a clean product. */
  lemma CleanPiece(piece: string)
    requires CommaFree(piece) && Strip(piece) != ""
    ensures CleanProduct(Lower(Strip(piece)))
  {
    var p := Strip(piece);
    StripIsTrimmedSlice(piece);
    assert CommaFree(p);
    LowerIsLower(p);
    var e := Lower(p);
    forall j | 0 <= j < |e| ensures e[j] != ',' {
      assert e[j] == LowerChar(p[j]);
    }
  }

  /** Every cleaned piece of comma-free pieces is a clean product. */
  lemma {:induction false} CleanPartsWellFormed(parts: seq<string>)
    requires forall k :: 0 <= k < |parts| ==> CommaFree(parts[k])
    ensures forall e :: e in CleanParts(parts) ==> CleanProduct(e)
  {
    if parts != [] {
      var last := parts[|parts| - 1];
      CleanPartsWellFormed(parts[..|parts| - 1]);
      if Strip(last) != "" {
        CleanPiece(last);
      }
    }
  }

  /** Every excluded product is non-empty, lower-case and free of commas. */
  lemma ExcludedWellFormed(text: string)
    ensures forall e :: e in ParseExcluded(text) ==> CleanProduct(e)
  {
    var parts := Split(text, ",");
    SplitJoin(text, ",");
    forall k | 0 <= k < |parts| ensures CommaFree(parts[k]) {
      NoCharOccurs(parts[k], ',');
    }
    CleanPartsWellFormed(parts);
  }

  /** A list of products that are already clean reads back as itself once typed with
      commas between them. */
  lemma ExcludedRoundTrip(items: seq<string>)
    requires forall k :: 0 <= k < |items| ==> CleanWord(items[k]) && CommaFree(items[k])
    ensures ParseExcluded(Join(items, ",")) == items
  {
    if items == [] {
      assert Split("", ",") == [""];
      assert Strip("") == "";
    } else {
      forall k, j | 0 <= k < |items| && 0 <= j < |items[k]|
        ensures items[k][j] != ','
      {
        assert CommaFree(items[k]);
      }
      SplitOfJoin(items, ',');
      assert Split(Join(items, ","), ",") == items;
      CleanCleanParts(items);
    }
  }

  lemma {:induction false} CleanCleanParts(items: seq<string>)
    requires forall k :: 0 <= k < |items| ==> CleanWord(items[k])
    ensures CleanParts(items) == items
  {
    if items != [] {
      var init := items[..|items| - 1];
      var last := items[|items| - 1];
      CleanCleanParts(init);
      assert CleanWord(last);
      assert CleanParts(items) == init + [last];
      InitLast(items);
    }
  }

  /** Stores the parsed list and clears the state; a message without text raises
      AttributeError and stores nothing. */
  method SaveExcluded(db: Store, u: User, text: Option<string>)
    returns (r: Result<seq<string>>, stateCleared: bool)
    requires db.Valid()
    modifies db
    ensures db.Valid()
    ensures text.None? ==> r == Err(AttributeError) && !stateCleared && db.users == old(db.users)
    ensures text.Some? ==> r == Ok(ParseExcluded(text.value)) && stateCleared &&
                           db.users == ProfileUpdated(old(db.users), u.telegramId, ExcludedProducts(r.value))
    ensures db.payments == old(db.payments) && db.savedRecipes == old(db.savedRecipes)
  {
    if text.None? {
      return Err(AttributeError), false;
    }
    var excluded := ParseExcluded(text.value);
    db.UpdateProfile(u.telegramId, ExcludedProducts(excluded));
    r, stateCleared := Ok(excluded), true;
  }
}
