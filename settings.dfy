/** The plugin's option blob `vwl_settings`: its defaults, how it is read
    (`get_settings`) and how the settings form is sanitised before saving
    (`sanitize_settings`). The blob is a map from the six keys the plugin
    knows; other keys of a submitted form are never read and are dropped on
    saving, so they are not represented. */
module Settings {
  import opened Php
  import opened Platform

  datatype Key = ApiUrl | ApiKey | ApiSecret | CategorySlug | ButtonText | BadgeText

  type Blob = map<Key, string>

  const DefaultCategorySlug := "waitlist"
  const DefaultButtonText := "¡LO QUIERO!"
  const DefaultBadgeText := "Lista de espera"

  /** Every key the plugin reads is present. */
  predicate HasAllKeys(b: Blob) {
    ApiUrl in b && ApiKey in b && ApiSecret in b && CategorySlug in b && ButtonText in b && BadgeText in b
  }

  /** The array `get_settings` falls back to when the option is not stored. */
  function Defaults(): (d: Blob)
    ensures HasAllKeys(d)
    ensures d[ApiUrl] == "" && d[ApiKey] == "" && d[ApiSecret] == ""
    ensures d[CategorySlug] == DefaultCategorySlug && !Falsy(d[CategorySlug])
    ensures d[ButtonText] == DefaultButtonText && d[BadgeText] == DefaultBadgeText
  {
    map[
      ApiUrl := "",
      ApiKey := "",
      ApiSecret := "",
      CategorySlug := DefaultCategorySlug,
      ButtonText := DefaultButtonText,
      BadgeText := DefaultBadgeText
    ]
  }

  /** `get_option('vwl_settings', defaults)`: the stored option when there is
      one, the defaults otherwise. */
  function GetSettings(stored: Option<Blob>): (s: Blob)
    ensures stored.None? ==> s == Defaults()
    ensures stored.Some? ==> s == stored.value
  {
    match stored
    case None => Defaults()
    case Some(m) => m
  }

  /** `$settings[$k] ?? ''`. */
  function Setting(s: Blob, k: Key): string {
    if k in s then s[k] else ""
  }

  /** The sanitiser `sanitize_settings` applies to each key. */
  function SanitizerFor(p: Platform, k: Key): string -> string {
    match k
    case ApiUrl => p.escUrlRaw
    case CategorySlug => p.sanitizeTitle
    case _ => p.sanitizeTextField
  }

  /** `sanitize_settings($input)`: all six keys, each the sanitised input
      value or, when the input lacks the key, the sanitised `get_settings`
      default. */
  function SanitizeSettings(p: Platform, input: Blob): (r: Blob)
    ensures HasAllKeys(r)
  {
    map[
      ApiUrl := p.escUrlRaw(Setting(input, ApiUrl)),
      ApiKey := p.sanitizeTextField(Setting(input, ApiKey)),
      ApiSecret := p.sanitizeTextField(Setting(input, ApiSecret)),
      CategorySlug := p.sanitizeTitle(if CategorySlug in input then input[CategorySlug] else DefaultCategorySlug),
      ButtonText := p.sanitizeTextField(if ButtonText in input then input[ButtonText] else DefaultButtonText),
      BadgeText := p.sanitizeTextField(if BadgeText in input then input[BadgeText] else DefaultBadgeText)
    ]
  }

  /** Each key of the sanitised blob is the input's value for that key, or
      the `get_settings` default when the input lacks it, passed through the
      key's sanitiser: missing keys are filled with the same defaults that
      `get_settings` uses. */
  lemma SanitizeFillsDefaults(p: Platform, input: Blob, k: Key)
    ensures k in SanitizeSettings(p, input)
    ensures SanitizeSettings(p, input)[k] == SanitizerFor(p, k)(if k in input then input[k] else Defaults()[k])
  {
  }

  /** Saving an empty settings form stores exactly the defaults, provided the
      sanitisers leave the default values as they are. */
  lemma SanitizeEmptyIsDefaults(p: Platform)
    requires p.escUrlRaw("") == "" && p.sanitizeTextField("") == ""
    requires p.sanitizeTitle(DefaultCategorySlug) == DefaultCategorySlug
    requires p.sanitizeTextField(DefaultButtonText) == DefaultButtonText
    requires p.sanitizeTextField(DefaultBadgeText) == DefaultBadgeText
    ensures SanitizeSettings(p, map[]) == Defaults()
  {
  }

  /** Re-saving a sanitised settings blob changes nothing, provided each
      sanitiser is idempotent. */
  lemma SanitizeSettingsIdempotent(p: Platform, input: Blob)
    requires forall s :: p.escUrlRaw(p.escUrlRaw(s)) == p.escUrlRaw(s)
    requires forall s :: p.sanitizeTextField(p.sanitizeTextField(s)) == p.sanitizeTextField(s)
    requires forall s :: p.sanitizeTitle(p.sanitizeTitle(s)) == p.sanitizeTitle(s)
    ensures SanitizeSettings(p, SanitizeSettings(p, input)) == SanitizeSettings(p, input)
  {
  }
}
