/** The premium screens of the bot: the offer, the purchase button and the manual
    payment check. */
module PaymentHandlers {
  import opened Wrappers
  import opened Strings
  import opened Models
  import opened Database
  import opened Keyboards
  import opened PaymentService

  // ---------------------------------------------------------------- premium_info

  datatype PremiumInfoReply =
    | AlreadyPremium(until: Option<int>)
    | Offer(keyboard: seq<Button>)

  /** The premium screen: the "already premium" page with the expiry for an active
      subscriber, the offer with the purchase keyboard for everybody else. */
  function PremiumInfo(u: User, now: int): (r: PremiumInfoReply)
    ensures r.AlreadyPremium? <==> HasActivePremium(u, now)
    ensures r.AlreadyPremium? ==> r.until == u.premiumUntil
    ensures r.Offer? ==> r.keyboard == PremiumKeyboard()
  {
    if HasActivePremium(u, now) then AlreadyPremium(u.premiumUntil) else Offer(PremiumKeyboard())
  }

  // ---------------------------------------------------------------- buy_premium

  /** The price shown on the payment screen, looked up by months with 490 as default. */
  function DisplayedPrice(months: int): int {
    var prices := map[1 := 490, 3 := 1290, 12 := 3990];
    if months in prices then prices[months] else 490
  }

  /** The price shown agrees with the amount charged only for one month: for every
      longer term the buyer is shown less than is charged (1290 against 1470 for three
      months, 3990 against 5880 for twelve). */
  lemma DisplayedPriceVersusCharged(months: int)
    ensures DisplayedPrice(1) == PremiumAmount(1)
    ensures DisplayedPrice(3) == 1290 && PremiumAmount(3) == 1470
    ensures DisplayedPrice(12) == 3990 && PremiumAmount(12) == 5880
    ensures months > 1 ==> DisplayedPrice(months) < PremiumAmount(months)
    ensures months !in {1, 3, 12} ==> DisplayedPrice(months) == 490
  {
  }

  /** The callback data of the "check payment" button for a payment. */
  function CheckPaymentCallback(paymentId: string): string {
    "check_payment_" + paymentId
  }

  datatype BuyReply =
    | PaymentFailed
    | PayLink(months: int, shownAmount: int, confirmationUrl: string, checkCallback: string)

  /** The purchase button: the months are read from the callback data (malformed data
      raises before anything happens), a checkout is opened for them, and its link is
      shown with the displayed price and a button to check the payment. Any failure
      to open or record the checkout is reported as such. */
  method BuyPremium(db: Store, u: User, data: string, provider: Result<Checkout>)
    returns (r: Result<BuyReply>)
    requires db.Valid()
    modifies db
    ensures db.Valid()
    ensures r.Err? <==> CallbackInt(data).None?
    ensures r.Err? ==> r.error == ValueError && db.payments == old(db.payments)
    ensures r.Ok? && r.value.PayLink? <==>
              CallbackInt(data).Some? && provider.Ok? && u.telegramId in old(db.users) &&
              provider.value.paymentId !in old(db.payments)
    ensures r.Ok? && r.value.PayLink? ==>
              var months := CallbackInt(data).value;
              var pid := provider.value.paymentId;
              r.value == PayLink(months, DisplayedPrice(months), provider.value.confirmationUrl,
                                 CheckPaymentCallback(pid)) &&
              db.payments == old(db.payments)[pid := NewPayment(u.telegramId, pid, PremiumAmount(months),
                                                                PaymentDescription(months))]
    ensures !(r.Ok? && r.value.PayLink?) ==> db.payments == old(db.payments)
    ensures db.users == old(db.users) && db.savedRecipes == old(db.savedRecipes)
  {
    var months := CallbackInt(data);
    if months.None? {
      return Err(ValueError);
    }
    var amount := DisplayedPrice(months.value);
    var request, created := CreatePremiumPayment(db, u.telegramId, months.value, provider);
    if created.Err? {
      return Ok(PaymentFailed);
    }
    r := Ok(PayLink(months.value, amount, created.value.confirmationUrl,
                    CheckPaymentCallback(created.value.paymentId)));
  }

  /** Each button of the purchase keyboard leads to the payment screen for its term,
      priced at 490, 1290 and 3990. */
  lemma PremiumButtonsPriced(i: int)
    requires 0 <= i < 3
    ensures CallbackInt(PremiumKeyboard()[i].callbackData) == Some(PREMIUM_MONTHS[i])
    ensures DisplayedPrice(PREMIUM_MONTHS[i]) == [490, 1290, 3990][i]
  {
  }

  // ---------------------------------------------------------------- check_payment

  /** The payment id of a "check payment" callback: every `check_payment_` removed. */
  function CheckPaymentId(data: string): string {
    RemoveAll(data, "check_payment_")
  }

  /** The id put into the button is the id checked, for every id that does not itself
      contain the prefix. */
  lemma CheckPaymentRoundTrip(paymentId: string)
    requires !Contains(paymentId, "check_payment_")
    ensures CheckPaymentId(CheckPaymentCallback(paymentId)) == paymentId
  {
    RemovePrefix("check_payment_", paymentId);
  }

  datatype CheckReply =
    | CheckFailed
    | PaymentSucceeded
    | PaymentPending
    | PaymentCanceled(keyboard: seq<Button>)
    | OtherStatus(status: string)

  /** The answer to a status reported by the provider. */
  function StatusReply(status: string): (r: CheckReply)
    ensures r.PaymentSucceeded? <==> status == "succeeded"
    ensures r.PaymentPending? <==> status == "pending"
    ensures r.PaymentCanceled? <==> status == "canceled"
    ensures r.PaymentCanceled? ==> r.keyboard == PremiumKeyboard()
    ensures r.OtherStatus? ==> r.status == status
    ensures !r.CheckFailed?
  {
    if status == "succeeded" then PaymentSucceeded
    else if status == "pending" then PaymentPending
    else if status == "canceled" then PaymentCanceled(PremiumKeyboard())
    else OtherStatus(status)
  }

  /** The manual check: asks the provider for the status of the id in the callback
      data and answers it. It changes no table (a success only re-reads the user; the
      grant comes from the notification), so it is a function of the provider's answer. */
  function CheckPayment(data: string, provider: string -> Result<string>): (r: CheckReply)
    ensures provider(CheckPaymentId(data)).Err? <==> r.CheckFailed?
    ensures provider(CheckPaymentId(data)).Ok? ==> r == StatusReply(provider(CheckPaymentId(data)).value)
  {
    match provider(CheckPaymentId(data))
    case Err(_) => CheckFailed
    case Ok(status) => StatusReply(status)
  }

  /** The check button shown after a purchase asks the provider about exactly the
      payment that was opened. */
  lemma BuyThenCheck(paymentId: string, provider: string -> Result<string>)
    requires !Contains(paymentId, "check_payment_")
    ensures CheckPayment(CheckPaymentCallback(paymentId), provider) ==
              match provider(paymentId)
              case Err(_) => CheckFailed
              case Ok(status) => StatusReply(status)
  {
    CheckPaymentRoundTrip(paymentId);
  }
}
