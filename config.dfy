/**
 * The defaults of the application settings (app/config.py), used as the
 * model's constants. `SECRET_KEY` has no default; it is the parameter `key`
 * of every operation that signs or reads a link token.
 */
module Config {

  const ACCESS_TOKEN_EXPIRE_MINUTES: int := 30
  const REFRESH_TOKEN_EXPIRE_DAYS: int := 7
  const APP_URL: string := "http://localhost:8000"
  const VERIFICATION_TOKEN_EXPIRE_HOURS: int := 24

  /** The integer settings the `Settings` class declares, with their defaults. */
  const INT_SETTINGS: map<string, int> := map[
    "ACCESS_TOKEN_EXPIRE_MINUTES" := ACCESS_TOKEN_EXPIRE_MINUTES,
    "REFRESH_TOKEN_EXPIRE_DAYS" := REFRESH_TOKEN_EXPIRE_DAYS,
    "MAIL_PORT" := 587,
    "VERIFICATION_TOKEN_EXPIRE_HOURS" := VERIFICATION_TOKEN_EXPIRE_HOURS
  ]

  /** `getattr(settings, name, default)` for an integer setting. */
  function GetAttrInt(name: string, default: int): (r: int)
    ensures name !in INT_SETTINGS ==> r == default
    ensures name in INT_SETTINGS ==> r == INT_SETTINGS[name]
  {
    if name in INT_SETTINGS then INT_SETTINGS[name] else default
  }

  /** `Settings` declares no expiry for reset or change-email links. */
  lemma LinkExpirySettingsAbsent()
    ensures "PASSWORD_RESET_TOKEN_EXPIRE_HOURS" !in INT_SETTINGS
    ensures "EMAIL_CHANGE_TOKEN_EXPIRE_HOURS" !in INT_SETTINGS
  {
    assert INT_SETTINGS.Keys == {"ACCESS_TOKEN_EXPIRE_MINUTES", "REFRESH_TOKEN_EXPIRE_DAYS", "MAIL_PORT", "VERIFICATION_TOKEN_EXPIRE_HOURS"};
  }
}
