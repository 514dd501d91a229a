/** Premium purchases through the payment provider: creating a checkout and
    applying the provider's notifications. The provider itself is outside the model:
    what it answers is passed in. */
module PaymentService {
  import opened Wrappers
  import opened Strings
  import opened Models
  import opened Database
  import Config

  /** The return link the checkout page sends the buyer back to. */
  const RETURN_URL: string := "https://t.me/WhatToEatBot"

  /** The amount charged for `months` months, in rubles. */
  function PremiumAmount(months: int): int {
    Config.PREMIUM_PRICE_RUB * months
  }

  function PaymentDescription(months: int): string {
    "WhatToEat Premium — " + IntToString(months) + " мес."
  }

  /** The metadata attached to a premium checkout: who bought how many months. */
  function CheckoutMetadata(telegramId: int, months: int): map<string, string> {
    map["telegram_id" := IntToString(telegramId), "months" := IntToString(months),
        "type" := "premium_subscription"]
  }

  /** What is sent to the provider to open a checkout. */
  datatype CheckoutRequest = CheckoutRequest(
    value: string,
    currency: string,
    returnUrl: string,
    capture: bool,
    description: string,
    metadata: map<string, string>)

  /** The provider's answer to a checkout request. */
  datatype Checkout = Checkout(paymentId: string, confirmationUrl: string)

  /** What the purchase flow hands back to the bot. */
  datatype CreatedPayment = CreatedPayment(paymentId: string, confirmationUrl: string, amount: int)

  function PremiumCheckoutRequest(telegramId: int, months: int): CheckoutRequest {
    CheckoutRequest(IntToString(PremiumAmount(months)) + ".00", "RUB", RETURN_URL, true,
                    PaymentDescription(months), CheckoutMetadata(telegramId, months))
  }

  /** Opens a checkout for `months` months and records it as pending. The provider is
      asked first: when it fails nothing is recorded; when the buyer is not registered
      (or the provider repeats an id) the checkout exists but is not recorded. */
  method CreatePremiumPayment(db: Store, telegramId: int, months: int, provider: Result<Checkout>)
    returns (request: CheckoutRequest, r: Result<CreatedPayment>)
    requires db.Valid()
    modifies db
    ensures db.Valid()
    ensures request == PremiumCheckoutRequest(telegramId, months)
    ensures provider.Err? ==> r == Err(provider.error)
    ensures provider.Ok? ==>
              (r.Ok? <==> telegramId in old(db.users) && provider.value.paymentId !in old(db.payments))
    ensures r.Ok? ==>
              r.value == CreatedPayment(provider.value.paymentId, provider.value.confirmationUrl,
                                        PremiumAmount(months)) &&
              db.payments == old(db.payments)[r.value.paymentId :=
                NewPayment(telegramId, r.value.paymentId, r.value.amount, request.description)]
    ensures r.Err? ==> db.payments == old(db.payments)
    ensures db.users == old(db.users) && db.savedRecipes == old(db.savedRecipes)
  {
    var amount := PremiumAmount(months);
    request := PremiumCheckoutRequest(telegramId, months);
    if provider.Err? {
      return request, Err(provider.error);
    }
    var checkout := provider.value;
    var stored := db.CreatePayment(telegramId, checkout.paymentId, amount, request.description);
    if stored.Err? {
      return request, Err(stored.error);
    }
    r := Ok(CreatedPayment(checkout.paymentId, checkout.confirmationUrl, amount));
  }

  /** A payment notification as the provider delivers it. */
  datatype Notification = Notification(paymentId: string, status: string, metadata: map<string, string>)

  /** Premium to grant: to whom and for how many months. */
  datatype Grant = Grant(telegramId: int, months: int)

  datatype WebhookResult = WebhookResult(paymentId: string, status: string, grant: Option<Grant>)

  /** A metadata value read as an integer, with a default when the key is absent;
      a value that is not an integer is an error. */
  function MetadataInt(metadata: map<string, string>, key: string, default: int): Option<int> {
    if key in metadata then ParseInt(metadata[key]) else Some(default)
  }

  /** The answer to a notification. Only a success can grant, to the buyer named in
      the metadata (none when the id is missing or zero) for the months named there
      (one when missing). */
  function WebhookOutcome(n: Notification): Result<WebhookResult> {
    if n.status != "succeeded" then Ok(WebhookResult(n.paymentId, n.status, None))
    else
      var telegramId := MetadataInt(n.metadata, "telegram_id", 0);
      var months := MetadataInt(n.metadata, "months", 1);
      if telegramId.None? || months.None? then Err(ValueError)
      else if telegramId.value != 0 then
        Ok(WebhookResult(n.paymentId, n.status, Some(Grant(telegramId.value, months.value))))
      else Ok(WebhookResult(n.paymentId, n.status, None))
  }

  /** The users table after a notification. */
  function AfterWebhook(users: map<int, User>, n: Notification, now: int): map<int, User> {
    var outcome := WebhookOutcome(n);
    if outcome.Ok? && outcome.value.grant.Some? then
      ActivatedUsers(users, outcome.value.grant.value.telegramId, outcome.value.grant.value.months, now)
    else users
  }

  /** Applies a notification: the reported status is written first, then a success
      grants premium. Nothing checks that the payment was seen before or that it was
      already granted. */
  method ProcessWebhook(db: Store, n: Notification, now: int) returns (r: Result<WebhookResult>)
    requires db.Valid()
    modifies db
    ensures db.Valid()
    ensures db.payments == StatusUpdated(old(db.payments), n.paymentId, n.status, now)
    ensures r == WebhookOutcome(n)
    ensures db.users == AfterWebhook(old(db.users), n, now)
    ensures db.savedRecipes == old(db.savedRecipes)
  {
    db.UpdateStatus(n.paymentId, n.status, now);
    var grant: Option<Grant> := None;
    if n.status == "succeeded" {
      var telegramId := MetadataInt(n.metadata, "telegram_id", 0);
      var months := MetadataInt(n.metadata, "months", 1);
      if telegramId.None? || months.None? {
        return Err(ValueError);
      }
      if telegramId.value != 0 {
        db.ActivatePremium(telegramId.value, months.value, now);
        grant := Some(Grant(telegramId.value, months.value));
      }
    }
    r := Ok(WebhookResult(n.paymentId, n.status, grant));
  }

  /** The metadata written at checkout is read back by the notification: a success
      grants exactly the months bought to exactly the buyer. */
  lemma CheckoutMetadataRoundTrip(paymentId: string, telegramId: int, months: int)
    requires telegramId != 0
    ensures WebhookOutcome(Notification(paymentId, "succeeded", CheckoutMetadata(telegramId, months)))
              == Ok(WebhookResult(paymentId, "succeeded", Some(Grant(telegramId, months))))
  {
    var md := CheckoutMetadata(telegramId, months);
    assert md["telegram_id"] == IntToString(telegramId);
    assert md["months"] == IntToString(months);
    ParseIntToString(telegramId);
    ParseIntToString(months);
    assert MetadataInt(md, "telegram_id", 0) == Some(telegramId);
    assert MetadataInt(md, "months", 1) == Some(months);
  }

  /** Only a success changes the users table, and a success without a buyer id changes
      nothing either. */
  lemma OnlySuccessGrants(users: map<int, User>, n: Notification, now: int)
    ensures n.status != "succeeded" ==>
              AfterWebhook(users, n, now) == users && WebhookOutcome(n) == Ok(WebhookResult(n.paymentId, n.status, None))
    ensures "telegram_id" !in n.metadata ==> AfterWebhook(users, n, now) == users
    ensures WebhookOutcome(n).Ok? && WebhookOutcome(n).value.grant.Some? ==>
              n.status == "succeeded" && "telegram_id" in n.metadata &&
              WebhookOutcome(n).value.grant.value.telegramId != 0
  {
  }

  /** A buyer id without a months entry grants one month. */
  lemma MonthsDefaultToOne(paymentId: string, telegramId: int)
    requires telegramId != 0
    ensures WebhookOutcome(Notification(paymentId, "succeeded", map["telegram_id" := IntToString(telegramId)]))
              == Ok(WebhookResult(paymentId, "succeeded", Some(Grant(telegramId, 1))))
  {
    ParseIntToString(telegramId);
  }

  lemma GrantingWebhook(users: map<int, User>, n: Notification, telegramId: int, months: int, now: int)
    requires WebhookOutcome(n).Ok? && WebhookOutcome(n).value.grant == Some(Grant(telegramId, months))
    ensures AfterWebhook(users, n, now) == ActivatedUsers(users, telegramId, months, now)
  {
  }

  /** A granting notification delivered twice, the second time before the first grant
      runs out, grants the months twice: the second delivery stacks on the first. The
      checkout's own metadata is such a notification (CheckoutMetadataRoundTrip). */
  lemma DuplicateDeliveryGrantsTwice(users: map<int, User>, n: Notification, telegramId: int,
                                     months: int, now: int, later: int)
    requires WebhookOutcome(n).Ok? && WebhookOutcome(n).value.grant == Some(Grant(telegramId, months))
    requires telegramId in users && months >= 1
    requires now <= later < ExtendedUntil(users[telegramId], months, now)
    ensures AfterWebhook(AfterWebhook(users, n, now), n, later)[telegramId].premiumUntil
              == Some(ExtendedUntil(users[telegramId], months, now) + PremiumSpan(months))
    ensures Remaining(users[telegramId], now) == 0 ==>
              AfterWebhook(AfterWebhook(users, n, now), n, later)[telegramId].premiumUntil
                == Some(now + 2 * PremiumSpan(months))
  {
    var u := users[telegramId];
    var until := ExtendedUntil(u, months, now);
    var span := PremiumSpan(months);
    var once := AfterWebhook(users, n, now);
    GrantingWebhook(users, n, telegramId, months, now);
    assert once[telegramId] == PremiumExtended(u, months, now);
    GrantingWebhook(once, n, telegramId, months, later);
    assert ExtendedUntil(once[telegramId], months, later) == until + span;
    ActivationCarriesOver(u, months, now);
  }
}
