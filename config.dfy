/** The planner's configuration: the browser-storage keys it uses, the two
    paid plans and the free plan's cooldown. */
module Config {

  /** The keys the app reads and writes in browser storage. */
  datatype StorageKey =
    | ThemeKey | PlanHistoryKey | RateLimitTimestampKey
    | SubscriptionStatusKey | SubscriptionExpiryKey | PlanCountKey

  /** The name each key is stored under. */
  function KeyName(k: StorageKey): (name: string)
    ensures |name| > |"accra-vibe-"| && name[..|"accra-vibe-"|] == "accra-vibe-"
  {
    match k
    case ThemeKey => "accra-vibe-theme"
    case PlanHistoryKey => "accra-vibe-plan-history"
    case RateLimitTimestampKey => "accra-vibe-last-plan-timestamp"
    case SubscriptionStatusKey => "accra-vibe-subscription-status"
    case SubscriptionExpiryKey => "accra-vibe-subscription-expiry"
    case PlanCountKey => "accra-vibe-plan-count"
  }

  /** No two keys share a name, so a map over `StorageKey` is a faithful
      picture of the string-keyed storage. */
  lemma {:induction false} KeyNamesDistinct(a: StorageKey, b: StorageKey)
    requires a != b
    ensures KeyName(a) != KeyName(b)
  {
    var n := |"accra-vibe-"|;
    var x, y := KeyName(a), KeyName(b);
    if |x| == |y| {
      assert x[n] != y[n] || x[n + 10] != y[n + 10] || x[n + 13] != y[n + 13];
    }
  }

  /** The two paid plans. */
  datatype Plan = MicroBoost | PowerPlanner

  function Code(plan: Plan): string {
    match plan
    case MicroBoost => "micro-boost"
    case PowerPlanner => "power-planner"
  }

  /** How many plans a subscription covers. */
  function PlanLimit(plan: Plan): nat {
    match plan
    case MicroBoost => 5
    case PowerPlanner => 150
  }

  /** How long a subscription lasts, in milliseconds: 48 hours or 30 days. */
  function ValidityMs(plan: Plan): (ms: nat)
    ensures ms > 0
  {
    match plan
    case MicroBoost => 48 * 60 * 60 * 1000
    case PowerPlanner => 30 * 24 * 60 * 60 * 1000
  }

  /** The wait between two free plans, in milliseconds. */
  const FreePlanCooldownMs: nat := 60 * 1000

  /** The stored status names a paid plan when it is one of the two codes. */
  lemma {:induction false} CodesDistinct()
    ensures Code(MicroBoost) != Code(PowerPlanner)
    ensures Code(MicroBoost) != "" && Code(PowerPlanner) != ""
  {
    assert Code(MicroBoost)[0] != Code(PowerPlanner)[0];
  }
}
