/**
 * The platform settings form (front-end/src/components/admin/PlatformSettings.jsx):
 * one map of settings, of several value types, and one handler that copies the
 * map with a single key replaced.
 */
module PlatformSettings {
  import opened JsValues

  const Defaults: map<string, JsValue> := map[
    "platformName" := Str("SubForge"),
    "maintenanceMode" := Bool(false),
    "allowRegistration" := Bool(true),
    "requireEmailVerification" := Bool(true),
    "passwordMinLength" := Num(8),
    "enableTwoFactor" := Bool(true),
    "sessionTimeout" := Num(24),
    "maxLoginAttempts" := Num(5),
    "smtpHost" := Str("smtp.example.com"),
    "smtpPort" := Num(587),
    "smtpUser" := Str("noreply@subforge.com"),
    "smtpPassword" := Str("••••••••"),
    "maxSubdomainsPerUser" := Num(10),
    "maxStoragePerUser" := Num(1024),
    "maxBandwidthPerUser" := Num(10240),
    "buildTimeout" := Num(600)]

  /** `handleSettingChange(key, value)`: that key takes the value and every other key keeps its own. */
  function SettingChange(m: map<string, JsValue>, key: string, value: JsValue): (r: map<string, JsValue>)
    ensures r.Keys == m.Keys + {key}
    ensures r[key] == value
    ensures forall k :: k in m && k != key ==> r[k] == m[k]
  {
    m[key := value]
  }

  /** Two sets of the same key: the last one wins. */
  lemma LastWriteWins(m: map<string, JsValue>, key: string, v1: JsValue, v2: JsValue)
    ensures SettingChange(SettingChange(m, key, v1), key, v2) == SettingChange(m, key, v2)
  {
  }

  /** Sets of different keys commute. */
  lemma SetsCommute(m: map<string, JsValue>, k1: string, v1: JsValue, k2: string, v2: JsValue)
    requires k1 != k2
    ensures SettingChange(SettingChange(m, k1, v1), k2, v2) == SettingChange(SettingChange(m, k2, v2), k1, v1)
  {
  }

  /** Setting a key to the value it already has changes nothing. */
  lemma SetSameValue(m: map<string, JsValue>, key: string)
    requires key in m
    ensures SettingChange(m, key, m[key]) == m
  {
  }

  /** A few of the defaults: the security limits and the build timeout. */
  lemma DefaultLimits()
    ensures Defaults["passwordMinLength"] == Num(8)
    ensures Defaults["maxLoginAttempts"] == Num(5)
    ensures Defaults["buildTimeout"] == Num(600)
    ensures Defaults["maintenanceMode"] == Bool(false)
  {
  }
}
