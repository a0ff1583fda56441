/** The planner hook: the screen the app is on, the questionnaire step, the
    answers, and the entitlement bookkeeping kept in browser storage (paid
    subscriptions with a plan count, and a one-minute cooldown between free
    plans). Storage is a map from the app's keys to strings; the clock is a
    parameter in milliseconds. */
module VibePlanner {
  import opened Basics
  import opened Text
  import opened Config
  import opened Hangout
  import PlanParser
  import Questionnaire

  datatype AppState =
    | Welcome | GatheringInput | Loading | ShowingOptions | AskingLocation
    | ShowingFinalPlan | Error | RateLimited

  type Storage = map<StorageKey, string>

  // ---------------------------------------------------------------------
  // Reading storage the way the hook does

  /** `localStorage.getItem(k)` is truthy: present and not empty. */
  predicate Truthy(s: Storage, k: StorageKey) {
    k in s && s[k] != ""
  }

  /** `Date.now() < parseInt(expiry, 10)` with both subscription keys truthy;
      an unreadable expiry (`NaN`) never compares as later. */
  predicate SubscriptionActive(s: Storage, now: int) {
    Truthy(s, SubscriptionStatusKey) && Truthy(s, SubscriptionExpiryKey)
    && var expiry := ParseInt(s[SubscriptionExpiryKey]);
       expiry.Some? && now < expiry.value
  }

  /** `parseInt(getItem(planCount) || '0', 10)`, `None` for `NaN`. */
  function StoredPlanCount(s: Storage): Option<int> {
    ParseInt(if Truthy(s, PlanCountKey) then s[PlanCountKey] else "0")
  }

  /** The stored subscription still covers another plan. */
  predicate UnderLimit(s: Storage) {
    var count := StoredPlanCount(s);
    SubscriptionStatusKey in s && count.Some?
    && ((s[SubscriptionStatusKey] == Code(MicroBoost) && count.value < PlanLimit(MicroBoost))
        || (s[SubscriptionStatusKey] == Code(PowerPlanner) && count.value < PlanLimit(PowerPlanner)))
  }

  /** The stored free-plan timestamp, when truthy and readable. */
  function LastPlanTime(s: Storage): Option<int> {
    if Truthy(s, RateLimitTimestampKey) then ParseInt(s[RateLimitTimestampKey]) else None
  }

  // ---------------------------------------------------------------------
  // Decisions, as functions of storage and the clock

  /** Where starting a plan leads. */
  datatype StartOutcome =
    | Admitted(storage: Storage)
    | Limited(storage: Storage, timeLeft: int)

  /** The storage after the subscription check of a start: keys of a
      subscription that is not active are all dropped. */
  function AfterSubscriptionCheck(s: Storage, now: int): Storage {
    if !SubscriptionActive(s, now) && (Truthy(s, SubscriptionStatusKey) || Truthy(s, SubscriptionExpiryKey))
    then s - {SubscriptionStatusKey, SubscriptionExpiryKey, PlanCountKey}
    else s
  }

  /** Starting a plan at time `now`: an active subscription under its limit
      goes straight in; otherwise a free plan less than the cooldown ago
      blocks for the rest of it, and else the free path goes in with a plan
      count of zero. */
  function StartDecision(s: Storage, now: int): StartOutcome {
    if SubscriptionActive(s, now) && UnderLimit(s) then Admitted(s)
    else
      var s1 := AfterSubscriptionCheck(s, now);
      var last := LastPlanTime(s1);
      if last.Some? && now - last.value < FreePlanCooldownMs then
        Limited(s1, FreePlanCooldownMs - (now - last.value))
      else
        var s2 := if Truthy(s1, RateLimitTimestampKey) then s1 - {RateLimitTimestampKey} else s1;
        Admitted(s2[PlanCountKey := "0"])
  }

  /** The answers a start fills in for the chosen mode. */
  function WithModeDefaults(p: HangoutParams, mode: string): HangoutParams {
    if mode == "quick" then
      p.(planningMode := mode, timeWindow := "Quickie (1-2 hours)", audience := "With the Crew", openNowOnly := false)
    else p.(planningMode := mode, openNowOnly := false)
  }

  /** The storage after buying `plan` at time `now`. */
  function Activated(s: Storage, plan: Plan, now: int): Storage {
    s[SubscriptionStatusKey := Code(plan)]
     [SubscriptionExpiryKey := IntString(now + ValidityMs(plan))]
     [PlanCountKey := if Truthy(s, RateLimitTimestampKey) then "1" else "0"]
  }

  /** The storage after a final plan is delivered at time `now`: one more plan
      on an active subscription, or else a fresh free-plan timestamp and a
      count of one. */
  function AfterPlan(s: Storage, now: int): Storage {
    if SubscriptionActive(s, now) then
      s[PlanCountKey := match StoredPlanCount(s) case Some(c) => IntString(c + 1) case None => "NaN"]
    else s[RateLimitTimestampKey := IntString(now)][PlanCountKey := "1"]
  }

  /** The clock time `HH:MM` stored for a picked hour, minute and half of the
      day; an unreadable hour shows as `NaN`. */
  function ClockTime(hour: string, minute: string, ampm: string): string {
    var hourText := match ParseInt(hour)
      case Some(h) => IntString(Questionnaire.Hour24(h, ampm))
      case None => "NaN";
    PadStart2(hourText) + ":" + minute
  }

  /** A location submit goes ahead only with an origin, a time and a
      non-empty selected plan. */
  predicate Submittable(origin: string, intendedTime: string, selected: Option<string>) {
    origin != "" && intendedTime != "" && selected.Some? && selected.value != ""
  }

  /** The saved plan: the chosen option, the separator, the travel details. */
  function FullPlan(plan: string, info: string): string {
    plan + PlanParser.FinalSeparator + info
  }

  const NoDestinationMessage := "Could not find a destination in the selected plan."
  const UnexpectedErrorMessage := "An unexpected error occurred."
  const PaymentFailedMessage := "Payment verification failed. Please contact support."

  // ---------------------------------------------------------------------
  // The hook's storage steps

  /** The storage half of `handleStartPlanning`, step by step. */
  method CheckStart(storage: Storage, now: int) returns (outcome: StartOutcome)
    ensures outcome == StartDecision(storage, now)
  {
    var s := storage;
    var statusSet := SubscriptionStatusKey in s && s[SubscriptionStatusKey] != "";
    var expirySet := SubscriptionExpiryKey in s && s[SubscriptionExpiryKey] != "";
    var expiry := if expirySet then ParseInt(s[SubscriptionExpiryKey]) else None;
    if statusSet && expirySet && expiry.Some? && now < expiry.value {
      var planCount := ParseInt(if PlanCountKey in s && s[PlanCountKey] != "" then s[PlanCountKey] else "0");
      var status := s[SubscriptionStatusKey];
      if status == Code(MicroBoost) && planCount.Some? && planCount.value < PlanLimit(MicroBoost) {
        return Admitted(s);
      }
      if status == Code(PowerPlanner) && planCount.Some? && planCount.value < PlanLimit(PowerPlanner) {
        return Admitted(s);
      }
    } else if statusSet || expirySet {
      s := s - {SubscriptionStatusKey};
      s := s - {SubscriptionExpiryKey};
      s := s - {PlanCountKey};
    }
    assert s == AfterSubscriptionCheck(storage, now);

    var timestampSet := RateLimitTimestampKey in s && s[RateLimitTimestampKey] != "";
    if timestampSet {
      var last := ParseInt(s[RateLimitTimestampKey]);
      if last.Some? && now - last.value < FreePlanCooldownMs {
        return Limited(s, FreePlanCooldownMs - (now - last.value));
      } else {
        s := s - {RateLimitTimestampKey};
      }
    }
    s := s[PlanCountKey := "0"];
    return Admitted(s);
  }

  /** The storage half of delivering a final plan. */
  method RecordPlan(storage: Storage, now: int) returns (s: Storage)
    ensures s == AfterPlan(storage, now)
  {
    s := storage;
    var statusSet := SubscriptionStatusKey in s && s[SubscriptionStatusKey] != "";
    var expirySet := SubscriptionExpiryKey in s && s[SubscriptionExpiryKey] != "";
    var expiry := if expirySet then ParseInt(s[SubscriptionExpiryKey]) else None;
    if statusSet && expirySet && expiry.Some? && now < expiry.value {
      var currentCount := ParseInt(if PlanCountKey in s && s[PlanCountKey] != "" then s[PlanCountKey] else "0");
      s := s[PlanCountKey := if currentCount.Some? then IntString(currentCount.value + 1) else "NaN"];
    } else {
      s := s[RateLimitTimestampKey := IntString(now)];
      s := s[PlanCountKey := "1"];
    }
  }

  // ---------------------------------------------------------------------
  // The hook's state

  class Planner {
    var appState: AppState
    var params: HangoutParams
    var planOptions: Option<string>
    var finalPlan: Option<string>
    var selectedPlan: Option<string>
    var error: Option<string>
    var rateLimitTimeLeft: int
    var currentStep: int
    var storage: Storage
    /** The app's plan history, newest first, and the copy kept in storage. */
    var history: seq<SavedPlan>
    var savedHistory: seq<SavedPlan>

    /** The step is never negative, the countdown never below zero, and the
        stored copy of the history is the history. */
    predicate Valid()
      reads this
    {
      currentStep >= 0 && rateLimitTimeLeft >= 0 && savedHistory == history
    }

    constructor(initialStorage: Storage, initialHistory: seq<SavedPlan>)
      ensures Valid()
      ensures appState == Welcome && params == InitialParams && currentStep == 0
      ensures planOptions.None? && finalPlan.None? && selectedPlan.None? && error.None?
      ensures rateLimitTimeLeft == 0
      ensures storage == initialStorage && history == initialHistory && savedHistory == initialHistory
    {
      appState := Welcome;
      params := InitialParams;
      planOptions := None;
      finalPlan := None;
      selectedPlan := None;
      error := None;
      rateLimitTimeLeft := 0;
      currentStep := 0;
      storage := initialStorage;
      history := initialHistory;
      savedHistory := initialHistory;
    }

    /** `handleOptionSelect`: records the answer and moves to the next step. */
    method OptionSelect(key: ParamKey, value: ParamValue)
      requires Valid() && Fits(key, value)
      modifies this
      ensures Valid()
      ensures params == WithParam(old(params), key, value) && currentStep == old(currentStep) + 1
      ensures appState == old(appState) && storage == old(storage) && history == old(history)
      ensures savedHistory == old(savedHistory) && rateLimitTimeLeft == old(rateLimitTimeLeft)
      ensures planOptions == old(planOptions) && finalPlan == old(finalPlan)
      ensures selectedPlan == old(selectedPlan) && error == old(error)
    {
      params := WithParam(params, key, value);
      currentStep := currentStep + 1;
    }

    /** `handleBack`: one step back, never below the first. */
    method Back()
      requires Valid()
      modifies this
      ensures Valid()
      ensures currentStep == if old(currentStep) > 0 then old(currentStep) - 1 else 0
      ensures appState == old(appState) && params == old(params) && storage == old(storage)
      ensures history == old(history) && savedHistory == old(savedHistory)
      ensures rateLimitTimeLeft == old(rateLimitTimeLeft) && planOptions == old(planOptions)
      ensures finalPlan == old(finalPlan) && selectedPlan == old(selectedPlan) && error == old(error)
    {
      if currentStep > 0 {
        currentStep := currentStep - 1;
      }
    }

    /** `handleJumpToStep`: goes to `step`, or to the first step for a negative one. */
    method JumpToStep(step: int)
      requires Valid()
      modifies this
      ensures Valid()
      ensures currentStep == if step > 0 then step else 0
      ensures appState == old(appState) && params == old(params) && storage == old(storage)
      ensures history == old(history) && savedHistory == old(savedHistory)
      ensures rateLimitTimeLeft == old(rateLimitTimeLeft) && planOptions == old(planOptions)
      ensures finalPlan == old(finalPlan) && selectedPlan == old(selectedPlan) && error == old(error)
    {
      currentStep := if 0 > step then 0 else step;
    }

    /** `handleStartPlanning` at time `now`. */
    method StartPlanning(mode: string, now: int)
      requires Valid()
      modifies this
      ensures Valid()
      ensures match StartDecision(old(storage), now)
        case Admitted(s) =>
          storage == s && appState == GatheringInput && params == WithModeDefaults(old(params), mode)
          && rateLimitTimeLeft == old(rateLimitTimeLeft)
        case Limited(s, left) =>
          storage == s && appState == RateLimited && rateLimitTimeLeft == left && params == old(params)
      ensures currentStep == old(currentStep) && history == old(history) && savedHistory == old(savedHistory)
      ensures planOptions == old(planOptions) && finalPlan == old(finalPlan)
      ensures selectedPlan == old(selectedPlan) && error == old(error)
    {
      var outcome := CheckStart(storage, now);
      match outcome {
        case Admitted(s) =>
          storage := s;
          params := WithModeDefaults(params, mode);
          appState := GatheringInput;
        case Limited(s, left) =>
          storage := s;
          rateLimitTimeLeft := left;
          appState := RateLimited;
      }
    }

    /** `activateSubscription` after a verified payment at time `now`. */
    method ActivateSubscription(plan: Plan, now: int)
      requires Valid()
      modifies this
      ensures Valid()
      ensures storage == Activated(old(storage), plan, now)
      ensures appState == GatheringInput && currentStep == 0
      ensures params == old(params) && history == old(history) && savedHistory == old(savedHistory)
      ensures rateLimitTimeLeft == old(rateLimitTimeLeft) && planOptions == old(planOptions)
      ensures finalPlan == old(finalPlan) && selectedPlan == old(selectedPlan) && error == old(error)
    {
      var timestampSet := RateLimitTimestampKey in storage && storage[RateLimitTimestampKey] != "";
      var initialPlanCount := if timestampSet then 1 else 0;
      var expiry: int;
      if plan == MicroBoost {
        expiry := now + ValidityMs(MicroBoost);
        storage := storage[SubscriptionStatusKey := Code(MicroBoost)];
      } else {
        expiry := now + ValidityMs(PowerPlanner);
        storage := storage[SubscriptionStatusKey := Code(PowerPlanner)];
      }
      storage := storage[SubscriptionExpiryKey := IntString(expiry)];
      storage := storage[PlanCountKey := IntString(initialPlanCount)];
      appState := GatheringInput;
      currentStep := 0;
    }

    /** `handlePaymentInitiation` once the payment provider's modal has
        succeeded and the verification request has returned: a verified
        payment activates the plan, a failed verification shows the error
        screen with the support message and changes nothing else. */
    method PaymentVerified(plan: Plan, verified: bool, now: int)
      requires Valid()
      modifies this
      ensures Valid()
      ensures verified ==>
        storage == Activated(old(storage), plan, now) && appState == GatheringInput
        && currentStep == 0 && error == old(error)
      ensures !verified ==>
        error == Some(PaymentFailedMessage) && appState == Error
        && storage == old(storage) && currentStep == old(currentStep)
      ensures params == old(params) && history == old(history) && savedHistory == old(savedHistory)
      ensures rateLimitTimeLeft == old(rateLimitTimeLeft) && planOptions == old(planOptions)
      ensures finalPlan == old(finalPlan) && selectedPlan == old(selectedPlan)
    {
      if verified {
        ActivateSubscription(plan, now);
      } else {
        error := Some(PaymentFailedMessage);
        appState := Error;
      }
    }

    /** `handleSubmit` once the plan options have come back (`Ok`) or the
        request failed with a message (`Err`). */
    method ReceiveOptions(result: Result<string, string>)
      requires Valid()
      modifies this
      ensures Valid()
      ensures result.Ok? ==> planOptions == Some(result.value) && appState == ShowingOptions && error == old(error)
      ensures result.Err? ==>
        (planOptions == old(planOptions) && appState == Error
         && error == Some(if result.error != "" then result.error else UnexpectedErrorMessage))
      ensures params == old(params) && currentStep == old(currentStep) && storage == old(storage)
      ensures history == old(history) && savedHistory == old(savedHistory)
      ensures rateLimitTimeLeft == old(rateLimitTimeLeft) && finalPlan == old(finalPlan)
      ensures selectedPlan == old(selectedPlan)
    {
      match result
      case Ok(options) =>
        planOptions := Some(options);
        appState := ShowingOptions;
      case Err(message) =>
        error := Some(if message != "" then message else UnexpectedErrorMessage);
        appState := Error;
    }

    /** `handleSpecificTimeSubmit`: stores `date` (or `today` when no date
        was picked) with the 24-hour clock time, and moves on a step. */
    method SpecificTimeSubmit(date: string, hour: string, minute: string, ampm: string, today: string)
      requires Valid()
      modifies this
      ensures Valid()
      ensures params == old(params).(specificDateTime :=
        (if date != "" then date else today) + "T" + ClockTime(hour, minute, ampm))
      ensures currentStep == old(currentStep) + 1
      ensures appState == old(appState) && storage == old(storage)
      ensures history == old(history) && savedHistory == old(savedHistory)
      ensures rateLimitTimeLeft == old(rateLimitTimeLeft) && planOptions == old(planOptions)
      ensures finalPlan == old(finalPlan) && selectedPlan == old(selectedPlan) && error == old(error)
    {
      var parsed := ParseInt(hour);
      var hourText: string;
      if parsed.Some? {
        var hour24 := parsed.value;
        if ampm == "PM" && hour24 < 12 {
          hour24 := hour24 + 12;
        }
        if ampm == "AM" && hour24 == 12 {
          hour24 := 0;
        }
        assert hour24 == Questionnaire.Hour24(parsed.value, ampm);
        hourText := IntString(hour24);
      } else {
        hourText := "NaN";
      }
      var formattedTime := PadStart2(hourText) + ":" + minute;
      assert formattedTime == ClockTime(hour, minute, ampm);
      var finalDateTime := if date != "" then date + "T" + formattedTime else today + "T" + formattedTime;
      params := params.(specificDateTime := finalDateTime);
      currentStep := currentStep + 1;
    }

    /** `handlePlanSelect`. */
    method PlanSelect(plan: string)
      requires Valid()
      modifies this
      ensures Valid()
      ensures selectedPlan == Some(plan) && appState == AskingLocation
      ensures params == old(params) && currentStep == old(currentStep) && storage == old(storage)
      ensures history == old(history) && savedHistory == old(savedHistory)
      ensures rateLimitTimeLeft == old(rateLimitTimeLeft) && planOptions == old(planOptions)
      ensures finalPlan == old(finalPlan) && error == old(error)
    {
      selectedPlan := Some(plan);
      appState := AskingLocation;
    }

    /** `handleLocationBack`. */
    method LocationBack()
      requires Valid()
      modifies this
      ensures Valid()
      ensures selectedPlan.None? && appState == ShowingOptions
      ensures params == old(params) && currentStep == old(currentStep) && storage == old(storage)
      ensures history == old(history) && savedHistory == old(savedHistory)
      ensures rateLimitTimeLeft == old(rateLimitTimeLeft) && planOptions == old(planOptions)
      ensures finalPlan == old(finalPlan) && error == old(error)
    {
      appState := ShowingOptions;
      selectedPlan := None;
    }

    /** `handleLocationSubmit`. `normalized` is the intended time as the time
        normaliser returns it, `travel` what the travel lookup returned (or
        the message it failed with), `now` the clock after it returned, and
        `id` and `savedAt` the two ISO timestamps read for the saved plan's
        id and save time (two separate clock readings). Nothing happens
        without an origin, a time and a selected plan. */
    method LocationSubmit(origin: string, intendedTime: string, normalized: string,
                          travel: Result<string, string>, now: int, id: string, savedAt: string)
      requires Valid()
      modifies this
      ensures Valid()
      ensures !Submittable(origin, intendedTime, old(selectedPlan)) ==>
        (appState == old(appState) && params == old(params) && storage == old(storage)
         && history == old(history) && savedHistory == old(savedHistory)
         && finalPlan == old(finalPlan) && error == old(error))
      ensures (Submittable(origin, intendedTime, old(selectedPlan))
               && PlanParser.GetDestinationFromPlan(old(selectedPlan).value).None?) ==>
        (appState == Error && error == Some(NoDestinationMessage) && params == old(params)
         && storage == old(storage) && history == old(history) && savedHistory == old(savedHistory)
         && finalPlan == old(finalPlan))
      ensures (Submittable(origin, intendedTime, old(selectedPlan))
               && PlanParser.GetDestinationFromPlan(old(selectedPlan).value).Some?) ==>
        Delivered(old(selectedPlan).value, normalized, travel, now, id, savedAt,
                  old(params), old(storage), old(history), old(error), old(finalPlan))
      ensures currentStep == old(currentStep) && rateLimitTimeLeft == old(rateLimitTimeLeft)
      ensures planOptions == old(planOptions) && selectedPlan == old(selectedPlan)
    {
      if origin == "" || intendedTime == "" || selectedPlan.None? || selectedPlan.value == "" {
        return;
      }
      var plan := selectedPlan.value;
      appState := Loading;
      var destination := PlanParser.GetDestinationFromPlan(plan);
      if destination.None? {
        error := Some(NoDestinationMessage);
        appState := Error;
        return;
      }
      Deliver(plan, normalized, travel, now, id, savedAt);
    }

    /** What follows once the selected plan names a destination. */
    predicate Delivered(plan: string, normalized: string, travel: Result<string, string>, now: int,
                        id: string, savedAt: string, params0: HangoutParams, storage0: Storage,
                        history0: seq<SavedPlan>, error0: Option<string>, finalPlan0: Option<string>)
      reads this
    {
      params == params0.(specificDateTime := normalized)
      && match travel
         case Err(message) =>
           appState == Error && error == Some(if message != "" then message else UnexpectedErrorMessage)
           && storage == storage0 && history == history0 && savedHistory == history0
           && finalPlan == finalPlan0
         case Ok(info) =>
           var fullPlan := FullPlan(plan, info);
           appState == ShowingFinalPlan && finalPlan == Some(fullPlan) && error == error0
           && history == [SavedPlan(id, fullPlan, savedAt, None)] + history0
           && savedHistory == history
           && storage == AfterPlan(storage0, now)
    }

    /** The rest of `handleLocationSubmit` once a destination is known. */
    method Deliver(plan: string, normalized: string, travel: Result<string, string>, now: int,
                   id: string, savedAt: string)
      requires Valid()
      modifies this
      ensures Valid()
      ensures Delivered(plan, normalized, travel, now, id, savedAt,
                        old(params), old(storage), old(history), old(error), old(finalPlan))
      ensures currentStep == old(currentStep) && rateLimitTimeLeft == old(rateLimitTimeLeft)
      ensures planOptions == old(planOptions) && selectedPlan == old(selectedPlan)
    {
      params := params.(specificDateTime := normalized);
      match travel {
        case Err(message) =>
          error := Some(if message != "" then message else UnexpectedErrorMessage);
          appState := Error;
        case Ok(info) =>
          var fullPlan := FullPlan(plan, info);
          var recorded := RecordPlan(storage, now);
          storage := recorded;
          finalPlan := Some(fullPlan);
          history := [SavedPlan(id, fullPlan, savedAt, None)] + history;
          savedHistory := history;
          appState := ShowingFinalPlan;
      }
    }

    /** `handleRestart`: back to the welcome screen with fresh answers. */
    method Restart()
      requires Valid()
      modifies this
      ensures Valid()
      ensures params == InitialParams && currentStep == 0 && appState == Welcome
      ensures planOptions.None? && finalPlan.None? && selectedPlan.None? && error.None?
      ensures storage == old(storage) && history == old(history) && savedHistory == old(savedHistory)
      ensures rateLimitTimeLeft == old(rateLimitTimeLeft)
    {
      params := InitialParams;
      currentStep := 0;
      planOptions := None;
      finalPlan := None;
      selectedPlan := None;
      error := None;
      appState := Welcome;
    }
  }
}
