/**
 * The notification preferences page
 * (front-end/src/components/settings/NotificationSettings.jsx): three groups
 * of on/off switches, each a map from key to flag, and one toggle handler per
 * group that copies its map with a single key negated.
 */
module NotificationSettings {
  /** The three state cells. */
  datatype Preferences = Preferences(email: map<string, bool>, push: map<string, bool>, inApp: map<string, bool>)

  const DefaultEmail: map<string, bool> := map[
    "deployments" := true, "systemUpdates" := true, "billingAlerts" := true,
    "securityAlerts" := true, "marketingEmails" := false, "weeklyDigest" := true]

  const DefaultPush: map<string, bool> := map[
    "deployments" := true, "buildFailures" := true, "systemMaintenance" := false, "securityAlerts" := true]

  const DefaultInApp: map<string, bool> := map[
    "deployments" := true, "buildLogs" := true, "systemMessages" := true, "tips" := true]

  const Defaults := Preferences(DefaultEmail, DefaultPush, DefaultInApp)

  /**
   * `{...prev, [key]: !prev[key]}`: the key is negated and every other key is
   * kept; a key the map lacks reads as `undefined` and so becomes `true`.
   */
  function Flip(m: map<string, bool>, key: string): (r: map<string, bool>)
    ensures r.Keys == m.Keys + {key}
    ensures key in m ==> r[key] == !m[key]
    ensures key !in m ==> r[key]
    ensures forall k :: k in m && k != key ==> r[k] == m[k]
  {
    m[key := !(key in m && m[key])]
  }

  /** Flipping a key the map has twice restores the map; flipping a missing key twice leaves it present and off. */
  lemma FlipTwice(m: map<string, bool>, key: string)
    ensures key in m ==> Flip(Flip(m, key), key) == m
    ensures key !in m ==> Flip(Flip(m, key), key) == m[key := false]
  {
  }

  /** Flips of two different keys commute. */
  lemma FlipsCommute(m: map<string, bool>, k1: string, k2: string)
    requires k1 != k2
    ensures Flip(Flip(m, k1), k2) == Flip(Flip(m, k2), k1)
  {
  }

  /** `handleEmailToggle(key)`: only the email group changes. */
  function EmailToggle(p: Preferences, key: string): (q: Preferences)
    ensures q.email == Flip(p.email, key) && q.push == p.push && q.inApp == p.inApp
  {
    p.(email := Flip(p.email, key))
  }

  /** `handlePushToggle(key)`: only the push group changes. */
  function PushToggle(p: Preferences, key: string): (q: Preferences)
    ensures q.push == Flip(p.push, key) && q.email == p.email && q.inApp == p.inApp
  {
    p.(push := Flip(p.push, key))
  }

  /** `handleInAppToggle(key)`: only the in-app group changes. */
  function InAppToggle(p: Preferences, key: string): (q: Preferences)
    ensures q.inApp == Flip(p.inApp, key) && q.email == p.email && q.push == p.push
  {
    p.(inApp := Flip(p.inApp, key))
  }

  /** The groups are independent: toggles of different groups commute, whatever the keys. */
  lemma GroupsIndependent(p: Preferences, a: string, b: string, c: string)
    ensures PushToggle(EmailToggle(p, a), b) == EmailToggle(PushToggle(p, b), a)
    ensures InAppToggle(EmailToggle(p, a), c) == EmailToggle(InAppToggle(p, c), a)
    ensures InAppToggle(PushToggle(p, b), c) == PushToggle(InAppToggle(p, c), b)
  {
  }

  /** In the defaults only marketing e-mails and system-maintenance pushes are off. */
  lemma DefaultsOff()
    ensures forall k :: k in DefaultEmail ==> (DefaultEmail[k] <==> k != "marketingEmails")
    ensures forall k :: k in DefaultPush ==> (DefaultPush[k] <==> k != "systemMaintenance")
    ensures forall k :: k in DefaultInApp ==> DefaultInApp[k]
  {
  }
}
