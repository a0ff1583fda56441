/** What the planner's bookkeeping promises: when a start goes straight in,
    when it is blocked and for how long, what activating a plan and
    delivering a plan leave in storage, and how the saved plan and the
    picked time read back. */
module PlannerFacts {
  import opened Basics
  import opened Text
  import opened Config
  import opened VibePlanner
  import opened Hangout
  import PlanParser
  import PlanParserFacts
  import Questionnaire

  // ---------------------------------------------------------------------
  // Starting a plan

  /** An active subscription under its limit starts without touching storage. */
  lemma {:induction false} ActiveUnderLimitUntouched(s: Storage, now: int)
    requires SubscriptionActive(s, now) && UnderLimit(s)
    ensures StartDecision(s, now) == Admitted(s)
  {
  }

  /** A subscription that is set but not active (expired, partly stored, or
      with an unreadable expiry) loses all three subscription keys; the plan
      count only comes back as "0" on the free path. */
  lemma {:induction false} StaleSubscriptionCleared(s: Storage, now: int)
    requires !SubscriptionActive(s, now)
    requires Truthy(s, SubscriptionStatusKey) || Truthy(s, SubscriptionExpiryKey)
    ensures var r := StartDecision(s, now).storage;
      SubscriptionStatusKey !in r && SubscriptionExpiryKey !in r
      && (PlanCountKey in r ==> StartDecision(s, now).Admitted? && r[PlanCountKey] == "0")
  {
  }

  /** An active subscription at its limit keeps its status and expiry and
      goes on to the cooldown check. */
  lemma {:induction false} ExhaustedKept(s: Storage, now: int)
    requires SubscriptionActive(s, now) && !UnderLimit(s)
    ensures var r := StartDecision(s, now).storage;
      SubscriptionStatusKey in r && r[SubscriptionStatusKey] == s[SubscriptionStatusKey]
      && SubscriptionExpiryKey in r && r[SubscriptionExpiryKey] == s[SubscriptionExpiryKey]
  {
  }

  /** A start is blocked exactly when it does not go in on a subscription
      and the stored free-plan time is less than the cooldown ago; the time
      left is then positive, and at most the cooldown for a time not in the
      future. */
  lemma {:induction false} RateLimited(s: Storage, now: int)
    ensures StartDecision(s, now).Limited? <==>
      !(SubscriptionActive(s, now) && UnderLimit(s))
      && LastPlanTime(s).Some? && now - LastPlanTime(s).value < FreePlanCooldownMs
    ensures StartDecision(s, now).Limited? ==>
      var left := StartDecision(s, now).timeLeft;
      left == FreePlanCooldownMs - (now - LastPlanTime(s).value)
      && 0 < left
      && (LastPlanTime(s).value <= now ==> left <= FreePlanCooldownMs)
  {
    assert LastPlanTime(AfterSubscriptionCheck(s, now)) == LastPlanTime(s);
  }

  /** The free path clears the stored free-plan time and sets the plan count
      to "0". */
  lemma {:induction false} FreePathResets(s: Storage, now: int)
    requires !(SubscriptionActive(s, now) && UnderLimit(s))
    requires StartDecision(s, now).Admitted?
    ensures var r := StartDecision(s, now).storage;
      !Truthy(r, RateLimitTimestampKey) && PlanCountKey in r && r[PlanCountKey] == "0"
  {
  }

  /** Choosing a mode records it and clears the open-now flag; quick mode
      also fixes the time window and the audience; every other answer is
      kept. */
  lemma {:induction false} ModeDefaults(p: HangoutParams, mode: string, k: ParamKey)
    ensures var r := WithModeDefaults(p, mode);
      && r.planningMode == mode && !r.openNowOnly
      && (mode == "quick" ==> r.timeWindow == "Quickie (1-2 hours)" && r.audience == "With the Crew")
      && (mode != "quick" ==> r.timeWindow == p.timeWindow && r.audience == p.audience)
      && (k !in {PlanningMode, TimeWindow, Audience, OpenNowOnly} ==> Param(r, k) == Param(p, k))
  {
  }

  /** Starting, activating and delivering never touch the stored theme. */
  lemma {:induction false} ThemeUntouched(s: Storage, plan: Plan, now: int)
    ensures var r := StartDecision(s, now).storage;
      (ThemeKey in r <==> ThemeKey in s) && (ThemeKey in s ==> r[ThemeKey] == s[ThemeKey])
    ensures var r := Activated(s, plan, now);
      (ThemeKey in r <==> ThemeKey in s) && (ThemeKey in s ==> r[ThemeKey] == s[ThemeKey])
    ensures var r := AfterPlan(s, now);
      (ThemeKey in r <==> ThemeKey in s) && (ThemeKey in s ==> r[ThemeKey] == s[ThemeKey])
  {
  }

  // ---------------------------------------------------------------------
  // Activation

  lemma {:induction false} OneAndZero()
    ensures IntString(1) == "1" && IntString(0) == "0"
    ensures ParseInt("1") == Some(1) && ParseInt("0") == Some(0)
  {
    ParseIntString(1);
    ParseIntString(0);
  }

  /** Buying a plan records its code, an expiry the plan's validity ahead,
      and a plan count of 1 when a free plan was already used, else 0. */
  lemma {:induction false} ActivationRecords(s: Storage, plan: Plan, now: int)
    ensures var r := Activated(s, plan, now);
      r[SubscriptionStatusKey] == Code(plan)
      && ParseInt(r[SubscriptionExpiryKey]) == Some(now + ValidityMs(plan))
      && StoredPlanCount(r) == Some(if Truthy(s, RateLimitTimestampKey) then 1 else 0)
  {
    ParseIntString(now + ValidityMs(plan));
    OneAndZero();
  }

  /** From activation until the plan's validity runs out, a start goes
      straight in and leaves storage as it is. */
  lemma {:induction false} ActivationAdmits(s: Storage, plan: Plan, now: int, t: int)
    requires now <= t < now + ValidityMs(plan)
    ensures StartDecision(Activated(s, plan, now), t) == Admitted(Activated(s, plan, now))
  {
    var r := Activated(s, plan, now);
    ActivationRecords(s, plan, now);
    CodesDistinct();
    assert SubscriptionActive(r, t);
    assert UnderLimit(r);
  }

  // ---------------------------------------------------------------------
  // Delivering a plan

  /** On an active subscription a delivered plan adds one to the readable
      plan count and leaves the subscription as it is. */
  lemma {:induction false} PlanCounted(s: Storage, now: int)
    requires SubscriptionActive(s, now) && StoredPlanCount(s).Some?
    ensures var r := AfterPlan(s, now);
      StoredPlanCount(r) == Some(StoredPlanCount(s).value + 1)
      && r[SubscriptionStatusKey] == s[SubscriptionStatusKey]
      && r[SubscriptionExpiryKey] == s[SubscriptionExpiryKey]
      && SubscriptionActive(r, now)
  {
    var c := StoredPlanCount(s).value;
    ParseIntString(c + 1);
    assert IntString(c + 1) != "" by {
      if c + 1 >= 0 { assert |Decimal(c + 1)| >= 1; }
    }
  }

  /** A free plan delivered at `now` blocks every start in the following
      cooldown, for exactly the rest of it. */
  lemma {:induction false} FreePlanStartsCooldown(s: Storage, now: int, t: int)
    requires !SubscriptionActive(s, now)
    requires now <= t < now + FreePlanCooldownMs
    ensures StartDecision(AfterPlan(s, now), t) ==
      Limited(AfterSubscriptionCheck(AfterPlan(s, now), t), FreePlanCooldownMs - (t - now))
  {
    var r := AfterPlan(s, now);
    ParseIntString(now);
    assert IntString(now) != "" by {
      if now < 0 { assert IntString(now)[0] == '-'; } else { assert |Decimal(now)| >= 1; }
    }
    assert LastPlanTime(r) == Some(now);
    assert !SubscriptionActive(r, t);
    RateLimited(r, t);
  }

  /** As written, an active subscription at its limit is not blocked for
      long: once no free plan is pending, a start resets the count to "0",
      and the next delivered plan leaves it under the limit again. */
  lemma {:induction false} ExhaustedSubscriptionRenews(s: Storage, now: int)
    requires SubscriptionActive(s, now) && !UnderLimit(s)
    requires LastPlanTime(s).None? || now - LastPlanTime(s).value >= FreePlanCooldownMs
    ensures StartDecision(s, now).Admitted?
    ensures var r := StartDecision(s, now).storage;
      StoredPlanCount(r) == Some(0)
      && UnderLimit(AfterPlan(r, now)) == (s[SubscriptionStatusKey] == Code(MicroBoost) || s[SubscriptionStatusKey] == Code(PowerPlanner))
  {
    OneAndZero();
    var r := StartDecision(s, now).storage;
    assert SubscriptionActive(r, now);
    assert AfterPlan(r, now)[PlanCountKey] == "1";
  }

  // ---------------------------------------------------------------------
  // The saved plan and the picked time

  /** The saved plan splits back into the chosen option and the travel
      details, as long as neither contains the separators. */
  lemma {:induction false} FullPlanSplits(plan: string, info: string)
    requires !Contains(plan, PlanParser.OptionSeparator) && !Contains(info, PlanParser.FinalSeparator)
    ensures PlanParser.SplitFinalPlan(FullPlan(plan, info)) == PlanParser.FinalPlanSections(plan, info)
  {
    PlanParserFacts.FinalPlanRoundTrip(plan, info);
  }

  /** For a picker setting (1 to 12 and AM or PM) the stored clock time
      starts with two digits that read back as the 24-hour hour the preview
      shows, followed by the minute. */
  lemma {:induction false} ClockTimeReadsBack(h: int, minute: string, ampm: string)
    requires 1 <= h <= 12 && (ampm == "AM" || ampm == "PM")
    ensures var text := ClockTime(IntString(h), minute, ampm);
      |text| == 3 + |minute|
      && ParseInt(text[..2]) == Some(Questionnaire.Hour24(h, ampm))
      && text[2..] == ":" + minute
  {
    var hour := Questionnaire.Hour24(h, ampm);
    var padded := PadStart2(IntString(hour));
    var text := ClockTime(IntString(h), minute, ampm);
    ParseIntString(h);
    assert text == padded + ":" + minute;
    ShortHour(hour);
    ParsePadded2(hour);
    assert text[..2] == padded;
  }

  lemma {:induction false} ShortHour(n: nat)
    requires n < 100
    ensures |PadStart2(IntString(n))| == 2
  {
    if n >= 10 {
      assert Decimal(n) == Decimal(n / 10) + [DigitChar(n % 10)];
    }
  }
}
