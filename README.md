# whattoeat-bot, modelled in Dafny

whattoeat-bot is a Telegram bot that suggests recipes from the products a user has at
hand. Products are typed, spoken or photographed. The bot also keeps a diet profile,
builds shopping lists and weekly meal plans, and sells a premium subscription through a
payment provider. This project models the bot's core in Dafny and proves properties of
that model.

- **Entitlement and usage metering** (modules `Models`, `Database`, `PaymentService`).
  - A free user gets three recipes a day. The daily counter rolls over on a new date.
  - Premium is bought in 30-day months. A running subscription is extended from its
    expiry, a lapsed one from now.
  - An hourly sweep clears the flag of expired subscribers.
  - A payment notification writes the reported status and, on success, grants the
    months named in its metadata. Nothing makes this idempotent: a repeated success
    extends the subscription again, and a later status overwrites an earlier one. Both
    are proved as lemmas.
  - The user, payment and saved-recipe tables live in one `Store` class holding a
    `map<int, User>` keyed by Telegram id, a `map<string, Payment>` keyed by provider
    id and a sequence of saved recipes. Its methods change these as the database
    layer does. Timestamps are integer seconds (`now`) and calendar dates are integer
    day numbers (`today`); both are passed in.
- **Handlers** (`PaymentHandlers`, `RecipeHandlers`, `ShoppingHandlers`,
  `MealPlanHandlers`, `ProfileHandlers`) and the **callback data** their buttons carry
  (`Keyboards`).
  - Each button's data is decoded back to the value it encodes.
  - Recipe generation is gated before the request and counted only after a non-empty
    answer.
  - Covered formatting: the have/need ingredient partition, the message split
    position and the cyclic recipe index.
  - Covered list logic: missing-ingredient lists with their fallbacks and price
    totals, weekly calorie sums, the allergy toggle, calorie validation and
    excluded-product parsing.
- **Outside services** (`GigaChat`, `Speech`, `Tokens`).
  - The shared token cache keeps a token for 1740 seconds.
  - JSON is dug out of a language-model reply: fences are stripped, then bracketed
    slices are tried. `json.loads` is an arbitrary partial function passed in.
  - Product lists are normalised, recipe and shopping lists are shaped, and price
    estimates are back-filled.
  - Recognised speech text is assembled from the recognition service's result list.
  - As written, photo recognition never returns a product. Its request helper is
    called with a `model` argument it does not accept, and the resulting TypeError is
    swallowed. The model keeps this behaviour.
- `Config`, `Strings`, `JsonValues` and `Wrappers` hold the configuration helpers, the
  Python string operations the code uses (strip, lower, split, join, int, str), JSON
  values with Python truthiness, and Option/Result. A `Result` error names the Python
  exception that would be raised.

Every request to an outside service is a parameter: the reply it got, or the function
that gives one. Every operation that changes state is a method on a class, with its
new state tied to a function of the old one. The properties are proved about those
functions.

## Model

| member | source | states |
|---|---|---|
| Config.GetSpeechAuthKey | config.py:20-22 | the speech key is the SaluteSpeech key when it is set, the GigaChat key otherwise; the result is empty only when both are |
| Config.WebhookUrl | config.py:39-49 | the update URL is `https://`, the host, then `/webhook`, and the host can be cut back out of it |
| Config.PaymentCallbackUrl | config.py:45-53 | the payment callback URL is `https://`, the host, then `/payment/callback`, and the host can be cut back out of it |
| Config.CallbackUrlsDiffer | config.py:41-53 | for every host the two URLs differ |
| Models.NewUser | models.py:14-35 | a newly registered user has no subscription, an empty profile and zero counters |
| Models.PremiumCases | models.py:45-51 | premium is active exactly when the flag is set and the expiry is absent or not strictly before now |
| Models.CanGetRecipeCases | models.py:53-59 | premium always passes, a counter from an earlier day always passes, otherwise the check passes exactly when today's count is below the limit |
| Models.IncrementedCounts | models.py:61-68 | counting one recipe adds one to today's usage and to the total, stamps today, and changes nothing else |
| Models.IncrementedTimesCounts | models.py:61-68 | counting k recipes on one day adds k to the day's usage and to the total and leaves the subscription alone |
| Models.QuotaExhausted | models.py:53-68 | a user without premium who reaches the limit through the counter today is refused |
| Models.FreshUserQuota | models.py:53-68 | a new free user gets exactly `freeLimit` recipes on a day |
| Models.NewDayReopens | models.py:53-68 | on a later day the check passes again and the counter restarts at one |
| Models.UserRow.Load | models.py:14-43 | a loaded row holds exactly the user's values |
| Models.UserRow.IncrementRecipeCount | models.py:61-68 | the row's new values are the user counted once on `today`: restart at one on a new day, else add one; the total always grows by one |
| Database.RegisterKeepsAccount | database.py:27-51 | registering a known user again changes only the username and full name |
| Database.ActivationCarriesOver | database.py:81-94 | after a purchase the time left is the old remaining time plus the bought span; a running subscription is extended, any other starts at `now` |
| Database.ActivationAtBoundary | database.py:88-92 | an expiry equal to `now` counts as not running, so the new span starts at `now` |
| Database.ActivationGrants | database.py:81-94 | after buying a non-negative number of months the user is premium up to the new expiry, and only the two subscription fields change |
| Database.SweepPreservesEntitlement | database.py:96-105 | the expiry sweep keeps every user, changes only the premium flag, clears every flag whose expiry has passed, changes no one's entitlement from `now` on, and a second sweep changes nothing |
| Database.NewPayment | models.py:109-120 | a new payment is pending, in RUB and unconfirmed, with the given owner, id and amount |
| Database.StatusUpdateEffect | database.py:168-180 | an unknown id changes nothing; a known payment takes the reported status, gets a confirmation time of `now` exactly when the status is `succeeded`, and keeps its other fields |
| Database.SucceededThenCanceled | database.py:168-180 | a later `canceled` report overwrites a success, and the success's confirmation time stays |
| Database.SavedFrom | database.py:117-128 | the saved row belongs to the user, is stamped `now`, and keeps the title (empty when absent) and calories |
| Database.OwnedBy | database.py:137-140 | the join keeps exactly the rows of the user and draws them from the table |
| Database.SortNewest | database.py:141 | the ordering is newest first and a rearrangement of its input |
| Database.UserRecipesNewest | database.py:135-144 | the listing has `limit` rows (or all the user's rows when fewer), newest first, each the user's and in the table |
| Database.UserRecipesLeftOut | database.py:135-144 | every row of the user left out of the listing is no newer than any row listed |
| Database.SavedRecipeListedFirst | database.py:110-144 | a recipe saved after every existing row heads its owner's listing |
| Database.Store.constructor | database.py:15-17 | the tables start empty and consistent |
| Database.Store.GetOrCreate | database.py:27-51 | a known user gets the new names, an unknown one is registered with defaults; the returned row is the one stored and nothing else changes |
| Database.Store.GetByTelegramId | database.py:54-59 | the user is returned exactly when registered |
| Database.Store.UpdateProfile | database.py:61-67 | one profile column of the user is written; an unknown id changes nothing |
| Database.Store.IncrementRecipe | database.py:69-78 | the user is counted once through the row's own counter update; an unknown id changes nothing |
| Database.Store.ActivatePremium | database.py:80-94 | the user's expiry is extended as in `ExtendedUntil` and the flag set; an unknown id changes nothing |
| Database.Store.CheckExpiredPremiums | database.py:96-105 | every user is swept at `now` and nothing else changes |
| Database.Store.SaveRecipe | database.py:109-132 | an unknown user is an error and stores nothing; otherwise the row is appended to the table |
| Database.Store.GetUserRecipes | database.py:134-144 | at most `limit` rows, each the user's and in the table |
| Database.Store.CreatePayment | database.py:148-166 | an unknown user or an already recorded id is an error and stores nothing; otherwise a new pending payment is recorded under its id |
| Database.Store.UpdateStatus | database.py:168-180 | the payments table becomes `StatusUpdated` of the old one and nothing else changes |
| Database.Store.GetByProviderId | database.py:182-187 | the payment is returned exactly when recorded |
| PaymentService.CreatePremiumPayment | payment_service.py:17-55 | the checkout asks for 490 rubles a month with the buyer and months in its metadata; a provider failure records nothing; otherwise the payment is recorded as pending exactly when the buyer is registered and the id is new, and the answer carries id, link and amount |
| PaymentService.ProcessWebhook | payment_service.py:57-81 | the reported status is written first; only a success grants, to the buyer in the metadata (none for a missing or zero id) for the months there (one when missing); a non-integer metadata value is an error after the status write |
| PaymentService.CheckoutMetadataRoundTrip | payment_service.py:36-79 | a success notification carrying the checkout's own metadata grants exactly the months bought to exactly the buyer |
| PaymentService.OnlySuccessGrants | payment_service.py:69-81 | a status other than `succeeded` changes no user, a notification without a buyer id changes no user, and every grant comes from a success naming a non-zero buyer |
| PaymentService.MonthsDefaultToOne | payment_service.py:72-79 | a success naming a buyer but no months grants one month |
| PaymentService.GrantingWebhook | payment_service.py:71-77 | a granting notification activates premium for the granted user and months |
| PaymentService.DuplicateDeliveryGrantsTwice | payment_service.py:57-81 | the same success delivered twice before the first grant runs out extends the subscription twice; nothing makes the notification idempotent |
| PaymentHandlers.PremiumInfo | handlers/payment.py:13-50 | an active subscriber gets the "already premium" page with the expiry; everybody else gets the offer with the purchase keyboard |
| PaymentHandlers.DisplayedPriceVersusCharged | handlers/payment.py:57-59 | the price shown equals the amount charged only for one month; for every longer term less is shown than is charged (1290 against 1470, 3990 against 5880), and unknown terms show 490 |
| PaymentHandlers.BuyPremium | handlers/payment.py:53-95 | malformed callback data is a ValueError before anything happens; a pay link is shown exactly when the checkout is opened and recorded, with the displayed price and the check button for the new id; any other outcome records nothing |
| PaymentHandlers.PremiumButtonsPriced | handlers/payment.py:53-59 | each purchase button decodes to its own term, shown at 490, 1290 and 3990 |
| PaymentHandlers.CheckPaymentRoundTrip | handlers/payment.py:77-100 | the id put into the check button is the id read back, for every id not containing the prefix |
| PaymentHandlers.StatusReply | handlers/payment.py:108-140 | success, pending and canceled each get their own answer (canceled with the purchase keyboard); any other status is echoed |
| PaymentHandlers.CheckPayment | handlers/payment.py:98-140 | a provider failure gives the error answer; otherwise the answer is the one for the reported status |
| PaymentHandlers.BuyThenCheck | handlers/payment.py:77-106 | the check button shown after a purchase asks the provider about exactly the payment that was opened |
| Keyboards.CallbackIntRoundTrip | handlers/recipe.py:549 | any integer written after a prefix and an underscore is read back by `int(data.split("_")[-1])` |
| Keyboards.AllergiesKeyboard | keyboards.py:44-63 | the six allergy buttons in fixed order, then the "done" button |
| Keyboards.AllergyButtonsMarked | keyboards.py:44-63 | each allergy button sends `allergy_` and its allergen, which the replace recovers, and carries the check mark exactly when its allergen is selected |
| Keyboards.EncodedInt | keyboards.py:66-70 | data built as a prefix ending in an underscore and an integer starts with the prefix and reads back as that integer |
| Keyboards.RecipeActionsKeyboard | keyboards.py:66-73 | the save and shopping buttons start with their prefixes and read back as the recipe index; the third sends `next_recipe` |
| Keyboards.PremiumKeyboard | keyboards.py:76-83 | three buttons, each starting with `buy_premium_` and reading back as 1, 3 and 12 months |
| Keyboards.RecipeCountKeyboard | keyboards.py:96-103 | three buttons, each starting with `recipes_count_` and reading back as 1, 3 and 5 |
| Keyboards.CaloriesKeyboard | keyboards.py:121-134 | four presets, each sending `calories_` and the preset written in decimal, then the custom entry last |
| Keyboards.PresetsSpelled | keyboards.py:124-129 | each preset's callback data is `calories_` followed by str() of the preset |
| ProfileHandlers.DietDisplay | handlers/profile.py:78-87 | a known diet key is shown by its Russian name, any other key as itself |
| ProfileHandlers.SetDiet | handlers/profile.py:73-91 | the diet column becomes the callback data with every `diet_` removed, whatever it is, and the name shown is its display name |
| ProfileHandlers.DietButtonsDecode | handlers/profile.py:73-76 | the diet keyboard has six buttons, each sending `diet_` and its own diet key; every one reaches the diet handler and stores exactly that key, which has a display name |
| ProfileHandlers.RemoveFirst | handlers/profile.py:110-111 | `list.remove` drops exactly one occurrence of the value |
| ProfileHandlers.ToggleAllergy | handlers/profile.py:105-123 | the stored allergy list is the old one with the allergen removed if present, else appended; the answer says "added" exactly when the allergen is now listed |
| ProfileHandlers.ToggleFlips | handlers/profile.py:109-113 | for a list holding the allergen at most once, a toggle flips its membership and leaves every other allergen's membership alone |
| ProfileHandlers.ToggleKeepsNoDuplicates | handlers/profile.py:109-113 | a toggle never introduces a duplicate |
| ProfileHandlers.RemoveFirstKeepsNoDuplicates | handlers/profile.py:110-111 | removing an element from a list without duplicates leaves a list without duplicates |
| ProfileHandlers.ToggleTwice | handlers/profile.py:109-113 | toggling twice restores the list exactly when the allergen was absent, and restores its members when it was present once |
| ProfileHandlers.RemoveLastAdded | handlers/profile.py:110-113 | removing a value just appended to a list without it gives back the list |
| ProfileHandlers.AllergyButtonsRoute | handlers/profile.py:105-107 | every allergen button reaches the toggle handler and toggles its own allergen; the "done" button does not reach it |
| ProfileHandlers.SetCalories | handlers/profile.py:149-158 | the goal stored is the integer left after removing `calories_`; data that is not an integer raises ValueError and stores nothing |
| ProfileHandlers.CaloriePresetsDecode | handlers/profile.py:149-152 | every preset button reaches the preset handler and stores its own value; the custom button does not reach it |
| ProfileHandlers.AcceptedCalories | handlers/profile.py:170-176 | a typed goal is accepted exactly when it is an integer, white space allowed around it, from 800 to 10000 inclusive |
| ProfileHandlers.TypedCaloriesAccepted | handlers/profile.py:170-178 | every goal from 800 to 10000 typed in decimal is accepted as itself |
| ProfileHandlers.SaveCustomCalories | handlers/profile.py:168-184 | a message without text raises AttributeError; an accepted goal is stored and the state cleared; anything else is rejected, stores nothing and keeps the state |
| ProfileHandlers.CleanPartsInOrder | handlers/profile.py:203 | pieces are cleaned one by one, so the products keep the order they were typed in |
| ProfileHandlers.CleanPiece | handlers/profile.py:203 | a comma-free piece that is not blank cleans to a product that is non-empty, lower-case and comma-free |
| ProfileHandlers.CleanPartsWellFormed | handlers/profile.py:203 | every product cleaned from comma-free pieces is non-empty, lower-case and comma-free |
| ProfileHandlers.ExcludedWellFormed | handlers/profile.py:203 | every excluded product parsed from any text is non-empty, lower-case and comma-free |
| ProfileHandlers.ExcludedRoundTrip | handlers/profile.py:203-207 | a list of clean, comma-free products joined with commas parses back to itself |
| ProfileHandlers.CleanCleanParts | handlers/profile.py:203 | already clean pieces are kept unchanged |
| ProfileHandlers.SaveExcluded | handlers/profile.py:201-207 | a message without text raises AttributeError and stores nothing; otherwise the parsed list is stored and the state cleared |
| RecipeHandlers.IngredientPartition | handlers/recipe.py:78-93 | every ingredient lands in exactly one group: present ones (marked present, never with a substitute) or missing ones (marked missing); the missing group is empty exactly when every ingredient is present |
| RecipeHandlers.GroupsKeepOrder | handlers/recipe.py:80-93 | each group keeps the input order |
| RecipeHandlers.IngredientSection | handlers/recipe.py:74-101 | the section lists every present ingredient, then every missing one, never a present line after a missing one, and shows the number of missing ones exactly when there are any |
| RecipeHandlers.GroupsOrdered | handlers/recipe.py:95-98 | present lines followed by missing lines put no present line after a missing one |
| RecipeHandlers.StartRecipe | handlers/recipe.py:147-171 | the limit message with the purchase keyboard appears exactly when the quota check fails; otherwise the remaining count is hidden exactly for premium users |
| RecipeHandlers.RemainingDisplay | handlers/recipe.py:158-161 | the remaining count agrees with the quota for a counter written today or never; a counter from an earlier day still shows that day's remainder, down to zero or below, while the quota is open again |
| RecipeHandlers.VoiceInputGate | handlers/recipe.py:210-227 | a voice message is processed exactly when it lasts at most 60 seconds and the download has at least 100 bytes; it is refused as too long exactly when it lasts over 60 seconds |
| RecipeHandlers.AudioAccepted | handlers/recipe.py:270-273 | an audio file is refused exactly when it states a duration over 60 seconds |
| RecipeHandlers.MergeProducts | handlers/recipe.py:375 | the merged product list has no duplicates and holds exactly the products of both lists |
| RecipeHandlers.Dedup | handlers/recipe.py:375 | the result has no duplicates and the same members as its input |
| RecipeHandlers.Generate | handlers/recipe.py:446-480 | malformed count data is a ValueError; the generator is asked, with the user's profile, exactly when the quota check passes; a failure or an empty answer counts nothing; a non-empty answer shows the first recipe and counts one recipe for the user |
| RecipeHandlers.FirstSplitPos | handlers/recipe.py:486-492 | a first card over 4000 characters is split at the last newline before the middle plus 500, or at the middle when there is none |
| RecipeHandlers.NextSplitPos | handlers/recipe.py:527-530 | a later card is split at the last newline before 2000, or at 2000; a card over 6096 characters leaves a second part over Telegram's 4096 limit |
| RecipeHandlers.NextIndex | handlers/recipe.py:522 | the next index lies within the recipe list; an empty list is a division by zero |
| RecipeHandlers.PagingCycles | handlers/recipe.py:517-523 | paging from the first recipe visits every recipe in order and returns to the first after one round |
| RecipeHandlers.SaveRecipe | handlers/recipe.py:545-557 | malformed data is a ValueError; an index not below the list length is "not found"; a recipe is saved exactly when the index, read as Python reads a negative one, lies in the list and the user is registered; nothing else is saved |
| ShoppingHandlers.Missing | handlers/shopping.py:30 | the missing ingredients are exactly those not marked present (`have` defaulting to present), taken from the recipe and no more than it has |
| ShoppingHandlers.FallbackItems | handlers/shopping.py:55-60 | the fallback list has one entry per missing ingredient, in order, with its name and amount (empty when absent) and price 0 |
| ShoppingHandlers.ExceptionFallback | handlers/shopping.py:43-53 | when the generator raises, the list is built entry by entry from the missing ingredients, each at price 0 and with an empty shop section |
| ShoppingHandlers.ShoppingLines | handlers/shopping.py:67-81 | there is one line per item, numbered from 1 in list order |
| ShoppingHandlers.FormatShopping | handlers/shopping.py:62-86 | the lines are the items' lines and the accumulated total is the sum of the prices, an absent or null price counting as 0 |
| ShoppingHandlers.ShoppingList | handlers/shopping.py:15-89 | a non-numeric suffix raises, an index past the list answers "recipe not found", a recipe with nothing missing answers "all present", and only otherwise is the generator asked with the title, all ingredients and the products; its list, or the fallback when it raised or was empty, is shown with the total line exactly when the total is non-zero |
| ShoppingHandlers.FallbackTotalZero | handlers/shopping.py:51 | a fallback list totals 0 |
| ShoppingHandlers.FallbackShown | handlers/shopping.py:37-60 | when the generator raises or returns nothing, the list shown names the missing ingredients in order at price 0 and shows no total |
| ShoppingHandlers.TotalMatchesShownPrices | handlers/shopping.py:66-85 | the total is the sum of the prices printed on the lines |
| ShoppingHandlers.TotalPriceAppend | handlers/shopping.py:66-72 | the total of two lists one after the other is the sum of their totals |
| ShoppingHandlers.MissingMatchesCard | handlers/shopping.py:29-33 | the list starts from exactly the ingredients the recipe card lists as to buy, in the same order, so "all present" is answered exactly when the card lists none |
| ShoppingHandlers.ShoppingButtonPicksRecipe | handlers/shopping.py:20-26 | the shopping button under the recipe at a position picks that recipe |
| MealPlanHandlers.CalorieGoal | handlers/meal_plan.py:52 | the goal sent is the user's goal, or 2000 when it is unset or zero; it is never zero |
| MealPlanHandlers.TotalText | handlers/meal_plan.py:83-89 | a weekly total shows as a number that parses back to it, or as "?" when the plan has none |
| MealPlanHandlers.FormatWeek | handlers/meal_plan.py:64-80 | the cards built day by day and meal by meal are those of the listed days, Monday first, each with its meals' calorie sum |
| MealPlanHandlers.MealPlanStart | handlers/meal_plan.py:29-92 | the generator is asked exactly when the user has active premium, with the goal (2000 when unset), diet, allergies and excluded products; without premium the upsell with the premium keyboard is shown; a generator error gives the failure message, a plan gives its day cards and weekly totals |
| MealPlanHandlers.DayTotal | handlers/meal_plan.py:70-79 | a day's total is breakfast plus lunch plus dinner, a missing meal or value counting as 0; a meal line shows "—" as its title exactly when the meal or its title is missing or null, or the title is itself "—" |
| MealPlanHandlers.CardsAreListedDays | handlers/meal_plan.py:64-67 | every card is the card of a day the plan has and that is not empty |
| MealPlanHandlers.CardsInWeekOrder | handlers/meal_plan.py:12-20 | cards come in strictly increasing day order, Monday to Sunday |
| MealPlanHandlers.CardsCoverListedDays | handlers/meal_plan.py:64-80 | every day the plan has and that is not empty gets a card |
| MealPlanHandlers.CardTotals | handlers/meal_plan.py:69-79 | every card shown carries its day's name and the sum of that day's breakfast, lunch and dinner calories |
| Wrappers.PyIndex | handlers/shopping.py:26 | a list index reads position i, or len + i when negative, and is an IndexError exactly outside -len .. len - 1 |
| Tokens.TokenFor | speech_service.py:34-62 | a cached, non-empty token is handed out while the time is strictly before its expiry; otherwise a token is handed out exactly when the OAuth answer is a 200 with an access token |
| Tokens.TokenCache.constructor | speech_service.py:23-26 | a new cache holds no token and expiry 0, so the first call fetches |
| Tokens.TokenCache.GetToken | gigachat_service.py:165-191 | the result is the cached token or the fetched one as above; a fetched token is cached with expiry 1740 seconds after the answer arrived, and a failed fetch leaves the cache unchanged |
| Tokens.ReuseWindow | gigachat_service.py:166-189 | a token fetched at time t is reused at every moment before t + 1740 and at none from then on |
| Tokens.FailedFetchKeepsCache | speech_service.py:54-60 | a fetch that raises, for a non-200 status or a body without a token, changes nothing in the cache |
| Speech.ContentTypeFor | speech_service.py:135-142 | an audio file is sent with the content type the MIME table gives it, "audio/mpeg" for any other type, and always with one of the table's content types |
| Speech.Parts | speech_service.py:112-116 | the collected contributions are never empty and are at most one per result |
| Speech.ExtractText | speech_service.py:112-118 | the text collected result by result, the normalised text preferred over the plain one and empty ones skipped, is the contributions joined by spaces and stripped |
| Speech.RecognizeVoice | speech_service.py:64-127 | empty audio gives "" with no token and no request; the audio is sent as Ogg Opus exactly when a token is obtained; a failed token, request or non-200 answer gives ""; an empty result list falls back to the top-level text; the token cache changes as the token fetch says |
| Speech.RecognizeAudio | speech_service.py:129-177 | as for voice, but sent with the content type for the file's MIME type and with no top-level text fallback |
| Speech.PartsInOrder | speech_service.py:113-116 | contributions are taken result by result, so the contributions of two result lists one after the other are those of the first followed by those of the second |
| Speech.SingleResult | speech_service.py:114-118 | a single result gives its normalised text, or its plain text when that is empty, stripped |
| Speech.VoiceAndAudioAgree | speech_service.py:103-110 | voice and audio recognition give the same text for a non-empty result list; for an empty one audio gives "" and voice the top-level text |
| GigaChat.BracketSlice | gigachat_service.py:239-244 | the slice exists exactly when the opening character occurs before the last closing one, and then runs from the first opening character to the last closing one |
| GigaChat.Candidates | gigachat_service.py:233-246 | the texts tried are the whole text first, then the '[' … ']' slice, then the '{' … '}' slice, each only when it exists |
| GigaChat.FirstLoaded | gigachat_service.py:233-249 | the value is that of the first candidate that parses; ValueError exactly when none does |
| GigaChat.ExtractJson | gigachat_service.py:222-249 | the stripped, unfenced, stripped text is parsed whole when it can be, else the first bracketed slice that parses; ValueError exactly when nothing parses |
| GigaChat.FencedBody | gigachat_service.py:226-229 | prose, a "```json" fence, a body, a "```" fence and prose, with no other backticks, unfence to exactly the body |
| GigaChat.BareFence | gigachat_service.py:228-229 | a reply that opens with a bare "```" fence and has no "```json" unfences to the empty string |
| GigaChat.FencedBodyStripped | gigachat_service.py:223-230 | stripping before and after unfencing gives the stripped body, white space outside the fences notwithstanding |
| GigaChat.NormalizedItems | gigachat_service.py:263 | normalising a product list never adds entries |
| GigaChat.NormalizedInOrder | gigachat_service.py:263 | products are normalised item by item, so they keep their order |
| GigaChat.NormalizedKeepsTruthy | gigachat_service.py:263 | exactly the falsy items are dropped |
| GigaChat.CleanNamesNormalize | gigachat_service.py:263 | a list of stripped, lower-case, non-empty names comes back unchanged |
| GigaChat.RecognizeProducts | gigachat_service.py:255-273 | a failed request or unparsable reply raises; a parsed list gives its normalised products and anything else no products |
| GigaChat.RecognizeProductsFromPhoto | gigachat_service.py:275-302 | the photo is uploaded exactly when a token is obtained, but no product is ever returned, because the follow-up request raises TypeError and the error is swallowed; the token cache changes as the token fetch says |
| GigaChat.RecognizeProductsFromPhotoFallback | gigachat_service.py:304-308 | the confidence flag is set exactly when at least two products are found, which never happens |
| GigaChat.GetRecipes | gigachat_service.py:310-332 | a single parsed object becomes a one-recipe list, a parsed list is kept, anything else gives no recipes, and a failed request or unparsable reply raises |
| GigaChat.FencedRecipe | gigachat_service.py:328-331 | a fenced reply holding one recipe object gives exactly that recipe |
| GigaChat.GetShoppingList | gigachat_service.py:376-396 | a parsed list is kept, anything else gives an empty list, and a failed request or unparsable reply raises |
| GigaChat.PriceFallback | gigachat_service.py:432-435 | the fallback has one entry per item asked about, with its name, price 0 and an empty shop section |
| GigaChat.ShoppingListWithPrices | gigachat_service.py:398-435 | an item asked about without a name raises KeyError; otherwise a non-empty parsed list of estimates is returned back-filled, and any failure gives the fallback |
| GigaChat.BackFill | gigachat_service.py:421-428 | each estimate matched with an item asked about gets an empty name or amount filled in from it, the rest stay as they came, and a matched estimate that is not an object stops the loop |
| GigaChat.BackFillTouchesNameAndAmount | gigachat_service.py:424-427 | back-filling changes only the name and the amount, each only when it was empty |
| GigaChat.PricedListKeepsEstimates | gigachat_service.py:416-435 | the result keeps one entry per estimate with its price and shop section, and a name whenever the item asked about had one; otherwise it has one entry per item asked about at price 0 |

## Left out

- HTTP, SDK and Telegram calls are not executed. This covers httpx requests to GigaChat and SaluteSpeech, the payment provider's create and find calls, and message sending. Their outcomes are parameters (`Result` values or functions), and a reply is modelled by the data it carries.
- SQLAlchemy engine, sessions and commits are not modelled; the tables are in-memory maps and a sequence. A failed commit is not modelled.
- Concurrency is not modelled. The read-modify-write in `increment_recipe` and `activate_premium` has no locking, so two interleaved handlers can lose an update; the model is sequential.
- `bot.py` (the web server, start-up and the hourly sweep loop) and `middlewares/rate_limit.py` (which only registers the user) are not part of this model. The sweep itself is `Database.Store.CheckExpiredPremiums`.
- Floating point is not modelled. Payment amounts, estimated prices and calories are whole numbers of rubles and kilocalories.
- Reading the environment in `config.py` is not modelled: the API keys and the webhook host are parameters.
- The first definitions of `get_shopping_list` and `generate_meal_plan` in `gigachat_service.py` are dead, because later definitions of the same names replace them. Only the later ones are modelled. `generate_meal_plan` is just `_extract_json` of the reply, which is `GigaChat.ReplyJson`.
- Prompt texts, emoji and HTML wording are not modelled; replies are datatypes holding the values they show. Keyboard layout (`adjust`) is not modelled.
- Keyboards with fixed data only (main menu, confirm, back, meal plan, input method) are not modelled.
- `format_recipe` is modelled in its ingredient section only; the description, steps and macros are display text.
- Display-only handlers are not modelled: `show_profile`, the `change_*` prompts, `allergies_done`, the `my_recipes` text, `video_note`, the edit/restart/confirm prompts, `photo_fix_*` and `show_weekly_shopping`.
- Conversion of parsed JSON into the typed records the handlers read is not modelled, beyond `JsonValues`. In those records an absent key and a JSON null are the same `None`.
- RecipeHandlers.IngredientPartition: an ingredient whose `have` is present but JSON null is falsy in the source, so it is listed as missing; the model cannot tell null from absent and lists it as present.
- ShoppingHandlers.Missing: for the same reason, an ingredient whose `have` is null is missing in the source and present in the model.
- MealPlanHandlers.DayTotal: a meal whose `calories` is present but null makes the source's day sum raise TypeError, and a null title is shown as "None"; the model counts 0 and shows "—".
- MealPlanHandlers.TotalText: a weekly total that is present but null is shown as "None" in the source; the model shows "?".
- ShoppingHandlers.ShoppingLines: an item whose `name` is present but null is shown as "None" in the source; the model shows "?".
- `str()` of a list or object is a fixed placeholder in `JsonValues.PyStr`.
- FSM storage is a `stateCleared` output or a parameter. Router filters (`F.data.startswith`, `F.text == …`) are preconditions of the handler they guard.
- `RecipeHandlers.MergeProducts`: Python's set gives no defined order. The model keeps the last occurrence of each product and proves only membership and the absence of duplicates.
- `Strings.Lower` lower-cases ASCII and Cyrillic letters only. `Strings.ParseInt` accepts an optional sign and ASCII digits, with white space around them. Python's `int()` also accepts underscores and other Unicode digits.
- A generated meal plan that is not an object would raise AttributeError on `.get`. The model's plan is always an object.
- The file id returned by the photo upload is not modelled, since the request that would use it always fails.
- `Database.Store.GetUserRecipes`: its own contract states only the limit and ownership. The newest-first order and the choice of rows are stated by `Database.UserRecipesNewest` and `Database.UserRecipesLeftOut`, which it calls.
- `Speech.Parts`: its own contract states only the bound and non-emptiness. Order is stated by `Speech.PartsInOrder` and the exact text by `Speech.ExtractText`.
- `GigaChat.NormalizedItems`: its own contract states only that no entry is added. The rest is stated by `GigaChat.NormalizedInOrder`, `GigaChat.NormalizedKeepsTruthy` and `GigaChat.CleanNamesNormalize`.
