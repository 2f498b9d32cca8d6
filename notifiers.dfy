/**
 Selection of the failure notifier from the loaded configuration
 (`build_notifier` in src/main.rs). The configuration names a notifier
 kind by a string tag; the two known tags select a closed set of notifier
 variants, everything else is a configuration error whose message names
 the offending tag.
 */
module Notifiers {

  datatype Option<+T> = None | Some(value: T)

  /** The value of `build_notifier`: a notifier, or the error text that makes startup abort. */
  datatype Result<+T> = Ok(value: T) | Err(error: string)

  /** One HTTP header of a webhook request, as a (name, value) pair. */
  type Header = (string, string)

  /** The `webhook` section of the settings; `headers` may be left out. */
  datatype WebhookSettings = WebhookSettings(url: string, httpMethod: string, headers: Option<seq<Header>>)

  /** The part of the settings that `build_notifier` reads. */
  datatype Settings = Settings(notifierType: string, webhook: Option<WebhookSettings>)

  /** The notifier variants the program can run with. */
  datatype Notifier =
    | NoOp
    | Webhook(url: string, httpMethod: string, headers: seq<Header>)

  const NoOpTag: string := "noop"
  const WebhookTag: string := "webhook"
  const MissingWebhookSettings: string := "no webhook settings found"
  const UnsupportedPrefix: string := "unsupported notifier: "

  /** The configuration tag that selects notifier `n`. */
  function Tag(n: Notifier): (t: string)
    ensures t == NoOpTag <==> n.NoOp?
    ensures t == WebhookTag <==> n.Webhook?
  {
    match n
    case NoOp => NoOpTag
    case Webhook(_, _, _) => WebhookTag
  }

  /** Absent headers stand for the empty header list. */
  function HeadersOrEmpty(headers: Option<seq<Header>>): (hs: seq<Header>)
    ensures headers.None? ==> hs == []
    ensures headers.Some? ==> hs == headers.value
  {
    match headers
    case Some(h) => h
    case None => []
  }

  /**
   Chooses the notifier the configuration asks for. The result is a
   notifier exactly for the two known tags (for "webhook" only when the
   webhook section is present), and the notifier built carries the tag
   that was asked for.
   */
  function BuildNotifier(cfg: Settings): (r: Result<Notifier>)
    ensures r.Ok? <==> cfg.notifierType == NoOpTag || (cfg.notifierType == WebhookTag && cfg.webhook.Some?)
    ensures r.Ok? ==> Tag(r.value) == cfg.notifierType
  {
    if cfg.notifierType == WebhookTag then
      match cfg.webhook
      case Some(wh) => Ok(Webhook(wh.url, wh.httpMethod, HeadersOrEmpty(wh.headers)))
      case None => Err(MissingWebhookSettings)
    else if cfg.notifierType == NoOpTag then
      Ok(NoOp)
    else
      Err(UnsupportedPrefix + cfg.notifierType)
  }

  /** A configuration that selects `n`: the inverse direction of `BuildNotifier`. */
  function SettingsFor(n: Notifier): (cfg: Settings)
    ensures cfg.notifierType == Tag(n)
  {
    match n
    case NoOp => Settings(NoOpTag, None)
    case Webhook(url, httpMethod, headers) => Settings(WebhookTag, Some(WebhookSettings(url, httpMethod, Some(headers))))
  }

  /** Every notifier variant can be configured, and building from its settings gives it back. */
  lemma BuildSettingsForRoundTrip(n: Notifier)
    ensures BuildNotifier(SettingsFor(n)) == Ok(n)
  {
  }

  /** "noop" yields the no-op notifier whatever the webhook section holds. */
  lemma BuildNoOpIgnoresWebhook(cfg: Settings)
    requires cfg.notifierType == NoOpTag
    ensures BuildNotifier(cfg) == Ok(NoOp)
    ensures forall w :: BuildNotifier(cfg.(webhook := w)) == BuildNotifier(cfg)
  {
  }

  /**
   "webhook" with settings yields a webhook notifier with the configured URL
   and method unchanged; absent headers become the empty list and present
   headers pass through in their order.
   */
  lemma BuildWebhookCarriesSettings(cfg: Settings)
    requires cfg.notifierType == WebhookTag && cfg.webhook.Some?
    ensures BuildNotifier(cfg).Ok? && BuildNotifier(cfg).value.Webhook?
    ensures BuildNotifier(cfg).value.url == cfg.webhook.value.url
    ensures BuildNotifier(cfg).value.httpMethod == cfg.webhook.value.httpMethod
    ensures cfg.webhook.value.headers.None? ==> BuildNotifier(cfg).value.headers == []
    ensures cfg.webhook.value.headers.Some? ==> BuildNotifier(cfg).value.headers == cfg.webhook.value.headers.value
  {
  }

  /**
   The two configuration errors: a webhook tag without its section, and any
   other tag, whose message ends in the tag itself.
   */
  lemma BuildNotifierErrors(cfg: Settings)
    requires BuildNotifier(cfg).Err?
    ensures cfg.notifierType == WebhookTag ==> BuildNotifier(cfg).error == MissingWebhookSettings
    ensures cfg.notifierType != WebhookTag ==>
      && BuildNotifier(cfg).error == UnsupportedPrefix + cfg.notifierType
      && BuildNotifier(cfg).error[|UnsupportedPrefix|..] == cfg.notifierType
  {
  }

  /**
   Building is injective up to the fields it ignores: two configurations
   that build the same notifier have the same tag and, for a webhook, the
   same URL, method and header list (absent headers counting as empty).
   */
  lemma BuildNotifierInjective(c1: Settings, c2: Settings)
    requires BuildNotifier(c1).Ok? && BuildNotifier(c1) == BuildNotifier(c2)
    ensures c1.notifierType == c2.notifierType
    ensures c1.notifierType == WebhookTag ==>
      && c1.webhook.value.url == c2.webhook.value.url
      && c1.webhook.value.httpMethod == c2.webhook.value.httpMethod
      && HeadersOrEmpty(c1.webhook.value.headers) == HeadersOrEmpty(c2.webhook.value.headers)
  {
  }
}
