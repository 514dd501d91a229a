/** The configuration values the core reads. The values that come from the environment
    (keys, host name) are parameters; the fixed ones are constants. */
module Config {
  import opened Strings

  /** Recipes a free user may get per calendar day. */
  const FREE_RECIPES_PER_DAY: int := 3
  /** Price of one month of premium, in rubles. */
  const PREMIUM_PRICE_RUB: int := 490
  /** Longest voice message accepted, in seconds. */
  const MAX_VOICE_DURATION: int := 60
  /** Largest photo, in megabytes (declared; no handler reads it). */
  const MAX_PHOTO_SIZE: int := 20

  const WEBHOOK_PATH: string := "/webhook"
  const PAYMENT_CALLBACK_PATH: string := "/payment/callback"

  /** The SaluteSpeech key when one is configured, otherwise the GigaChat key. */
  function GetSpeechAuthKey(saluteSpeechKey: string, gigachatKey: string): (key: string)
    ensures key == saluteSpeechKey || key == gigachatKey
    ensures key == "" ==> saluteSpeechKey == "" && gigachatKey == ""
    ensures saluteSpeechKey != "" ==> key == saluteSpeechKey
  {
    if saluteSpeechKey != "" then saluteSpeechKey else gigachatKey
  }

  function HttpsUrl(host: string, path: string): string {
    "https://" + host + path
  }

  /** The URL Telegram delivers updates to: the host can be read back from it. */
  function WebhookUrl(host: string): (url: string)
    ensures StartsWith(url, "https://") && EndsWith(url, WEBHOOK_PATH)
    ensures |url| == 8 + |host| + |WEBHOOK_PATH|
    ensures url[8..|url| - |WEBHOOK_PATH|] == host
  {
    HttpsUrl(host, WEBHOOK_PATH)
  }

  /** The URL the payment provider calls back: the host can be read back from it. */
  function PaymentCallbackUrl(host: string): (url: string)
    ensures StartsWith(url, "https://") && EndsWith(url, PAYMENT_CALLBACK_PATH)
    ensures |url| == 8 + |host| + |PAYMENT_CALLBACK_PATH|
    ensures url[8..|url| - |PAYMENT_CALLBACK_PATH|] == host
  {
    HttpsUrl(host, PAYMENT_CALLBACK_PATH)
  }

  /** The two URLs share the host and differ in the path, so no host makes them collide. */
  lemma CallbackUrlsDiffer(host: string)
    ensures WebhookUrl(host) != PaymentCallbackUrl(host)
  {
    assert |WebhookUrl(host)| != |PaymentCallbackUrl(host)|;
  }
}
