/**
 * The settings page of `src/pages/Settings.tsx`: a record of preferences
 * changed one key at a time, a save that only toggles a loading flag, and
 * export and delete actions that only raise notices.
 */
module Settings {

  /** A preference is a switch or a chosen option. */
  datatype SettingValue = Flag(on: bool) | Choice(option: string)

  /** JavaScript truthiness of a setting. */
  predicate Truthy(v: SettingValue) {
    match v
    case Flag(on) => on
    case Choice(option) => option != ""
  }

  /** The initial `settings` record. */
  const Defaults: map<string, SettingValue> := map[
    "emailNotifications" := Flag(true),
    "pushNotifications" := Flag(false),
    "tradingAlerts" := Flag(true),
    "weeklyDigest" := Flag(true),
    "twoFactorAuth" := Flag(false),
    "publicProfile" := Flag(true),
    "showHoldings" := Flag(false),
    "currency" := Choice("USD"),
    "language" := Choice("en"),
    "theme" := Choice("dark")]

  /** The defaults hold exactly the ten keys, with two-factor off and prices in USD. */
  lemma DefaultsShape()
    ensures Defaults.Keys == {"emailNotifications", "pushNotifications", "tradingAlerts",
      "weeklyDigest", "twoFactorAuth", "publicProfile", "showHoldings", "currency",
      "language", "theme"}
    ensures Defaults["emailNotifications"] == Flag(true) && Defaults["twoFactorAuth"] == Flag(false)
    ensures Defaults["currency"] == Choice("USD") && !ShowsTwoFactorBadge(Defaults)
  {
  }

  /** `{ ...prev, [key]: value }`. */
  function Changed(settings: map<string, SettingValue>, key: string, value: SettingValue)
    : (r: map<string, SettingValue>)
    ensures key in r && r[key] == value
    ensures r.Keys == settings.Keys + {key}
    ensures forall k :: k in settings && k != key ==> r[k] == settings[k]
  {
    settings[key := value]
  }

  /** Changing a key twice keeps only the later value; changing two different keys commutes. */
  lemma ChangesCompose(s: map<string, SettingValue>, k1: string, v1: SettingValue, k2: string, v2: SettingValue)
    ensures k1 == k2 ==> Changed(Changed(s, k1, v1), k2, v2) == Changed(s, k2, v2)
    ensures k1 != k2 ==> Changed(Changed(s, k1, v1), k2, v2) == Changed(Changed(s, k2, v2), k1, v1)
  {
  }

  /** The "Enabled" badge next to the two-factor switch. */
  predicate ShowsTwoFactorBadge(settings: map<string, SettingValue>) {
    "twoFactorAuth" in settings && Truthy(settings["twoFactorAuth"])
  }

  /** Switching two-factor on shows the badge and switching it off hides it. */
  lemma TwoFactorBadgeFollowsSwitch(s: map<string, SettingValue>, on: bool)
    ensures ShowsTwoFactorBadge(Changed(s, "twoFactorAuth", Flag(on))) <==> on
  {
  }

  /** A notice shown by the page. */
  datatype Toast = Toast(title: string, destructive: bool)

  /** The page's state. */
  class SettingsPage {
    var settings: map<string, SettingValue>
    var isLoading: bool

    constructor ()
      ensures settings == Defaults && !isLoading
    {
      settings := Defaults;
      isLoading := false;
    }

    method HandleSettingChange(key: string, value: SettingValue)
      modifies this
      ensures settings == Changed(old(settings), key, value) && isLoading == old(isLoading)
    {
      settings := settings[key := value];
    }

    /** `handleSave`, first half: raise the flag and start the timer. */
    method HandleSave()
      modifies this
      ensures isLoading && settings == old(settings)
    {
      isLoading := true;
    }

    /** The save timer firing: lower the flag and say so. */
    method SaveTimerFired() returns (notice: Toast)
      modifies this
      ensures !isLoading && settings == old(settings)
      ensures !notice.destructive
    {
      isLoading := false;
      notice := Toast("Settings saved", false);
    }

    /** `handleExportData`: only a notice; no field is modified. */
    method HandleExportData() returns (notice: Toast)
      ensures notice.title == "Export initiated" && !notice.destructive
    {
      notice := Toast("Export initiated", false);
    }

    /** `handleDeleteAccount`: only a destructive notice; neither the settings nor the session change. */
    method HandleDeleteAccount() returns (notice: Toast)
      ensures notice.title == "Account deletion initiated" && notice.destructive
    {
      notice := Toast("Account deletion initiated", true);
    }
  }
}
