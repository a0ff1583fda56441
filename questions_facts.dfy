/** What the question flow promises: the quick and detailed lists, the
    optional questions and when they appear, and the hour rules for a romantic
    date's timing choices. */
module QuestionFacts {
  import opened Basics
  import opened Hangout
  import opened Questions

  /** Quick mode asks for the vibe, the budget and the timing, in that order
      and sections, and then at most the exact-time follow-up. */
  lemma {:induction false} QuickFlow(p: HangoutParams, c: Catalog, hour: int)
    requires IsQuick(p)
    ensures var qs := QuestionsFor(p, c, hour);
      |qs| == (if p.timing == LaterToday || p.timing == SometimeThisWeek then 4 else 3)
      && qs[0].key == Vibe && qs[0].section == Some(Mood)
      && qs[1].key == Budget && qs[1].section == Some(Constraints)
      && qs[2].key == Timing && qs[2].section == Some(Logistics)
  {
  }

  /** The detailed list opens with the vibe, asks for the meal second exactly
      for a romantic date, and offers the romantic audiences then; the
      must-haves question after it allows several answers. */
  lemma {:induction false} DetailedFlow(p: HangoutParams, c: Catalog, hour: int)
    requires !IsQuick(p)
    ensures var qs := QuestionsFor(p, c, hour);
      var shift := if IsRomantic(p) then 1 else 0;
      |qs| >= 6 + shift
      && qs[0].key == Vibe
      && (IsRomantic(p) ==> qs[1] == DateMealQuestion(c))
      && qs[3 + shift].key == Audience
      && qs[3 + shift].options == Some(if IsRomantic(p) then c.romanticAudiences else c.audiences)
      && qs[5 + shift].key == MustHaves && qs[5 + shift].multiSelect
  {
    var qs := QuestionsFor(p, c, hour);
    var d := DetailedQuestions(p, c);
    assert qs[..|d|] == d;
  }

  function BaseKeys(p: HangoutParams): seq<ParamKey> {
    if IsQuick(p) then [Vibe, Budget, Timing]
    else ([Vibe] + (if IsRomantic(p) then [DateMeal] else [])
      + [TimeWindow, Budget, Audience, TravelPreference, MustHaves])
  }

  function CrewKeys(p: HangoutParams): seq<ParamKey> {
    if !IsQuick(p) && p.audience == WithTheCrew then [GroupSize] else []
  }

  function TimingKeys(p: HangoutParams): seq<ParamKey> {
    if !IsQuick(p) then [Timing] else []
  }

  function SpecificKeys(timing: string): seq<ParamKey> {
    if timing == LaterToday || timing == SometimeThisWeek then [SpecificDateTime] else []
  }

  lemma {:induction false} KeysOfBase(p: HangoutParams, c: Catalog)
    ensures Keys(if IsQuick(p) then QuickQuestions(c) else DetailedQuestions(p, c)) == BaseKeys(p)
  {
    if !IsQuick(p) {
      var head := [Ask(Vibe, "First, what's the vibe?", c.vibes, Mood)];
      var meal := if IsRomantic(p) then [DateMealQuestion(c)] else [];
      var rest := DetailedQuestions(p, c)[|head| + |meal|..];
      assert DetailedQuestions(p, c) == head + meal + rest;
      KeysAppend(head + meal, rest);
      KeysAppend(head, meal);
    }
  }

  /** The keys asked, in order: the quick or detailed base list (the meal
      only for a romantic date), the crew size for a crew in detailed mode, the
      timing in detailed mode, and the exact time when the timing needs one. */
  lemma {:induction false} KeysInOrder(p: HangoutParams, c: Catalog, hour: int)
    ensures Keys(QuestionsFor(p, c, hour)) == AllKeys(p)
  {
    var base := if IsQuick(p) then QuickQuestions(c) else DetailedQuestions(p, c);
    var crew := if !IsQuick(p) && p.audience == WithTheCrew then [GroupSizeQuestion] else [];
    var timing := if !IsQuick(p) then [TimingQuestion(Keep(c.timings, Blocked(p, hour)))] else [];
    var specific := SpecificQuestion(p.timing);
    assert QuestionsFor(p, c, hour) == base + crew + timing + specific;
    KeysAppend(base + crew + timing, specific);
    KeysAppend(base + crew, timing);
    KeysAppend(base, crew);
    KeysOfBase(p, c);
    assert Keys(crew) == CrewKeys(p);
    assert Keys(timing) == TimingKeys(p);
    assert Keys(specific) == SpecificKeys(p.timing);
  }

  function AllKeys(p: HangoutParams): seq<ParamKey> {
    BaseKeys(p) + CrewKeys(p) + TimingKeys(p) + SpecificKeys(p.timing)
  }

  lemma {:induction false} KeyMembership(p: HangoutParams)
    ensures DateMeal in AllKeys(p) <==> !IsQuick(p) && IsRomantic(p)
    ensures GroupSize in AllKeys(p) <==> !IsQuick(p) && p.audience == WithTheCrew
    ensures SpecificDateTime in AllKeys(p) <==> p.timing == LaterToday || p.timing == SometimeThisWeek
  {
  }

  /** Only a romantic date in detailed mode asks for the meal. */
  lemma {:induction false} DateMealOnlyForRomance(p: HangoutParams, c: Catalog, hour: int)
    ensures DateMeal in Keys(QuestionsFor(p, c, hour)) <==> !IsQuick(p) && IsRomantic(p)
  {
    KeysInOrder(p, c, hour);
    KeyMembership(p);
  }

  /** The crew-size question appears exactly in detailed mode for a crew. */
  lemma {:induction false} GroupSizeOnlyForCrew(p: HangoutParams, c: Catalog, hour: int)
    ensures GroupSize in Keys(QuestionsFor(p, c, hour)) <==> !IsQuick(p) && p.audience == WithTheCrew
  {
    KeysInOrder(p, c, hour);
    KeyMembership(p);
  }

  /** The exact-time question is asked for later today (a time) and for
      sometime this week (a date and time), always last; otherwise never. */
  lemma {:induction false} SpecificQuestionLast(p: HangoutParams, c: Catalog, hour: int)
    ensures var qs := QuestionsFor(p, c, hour);
      (p.timing == LaterToday ==> qs[|qs| - 1].key == SpecificDateTime && qs[|qs| - 1].kind == TimeQuestion)
      && (p.timing == SometimeThisWeek ==> qs[|qs| - 1].key == SpecificDateTime && qs[|qs| - 1].kind == DateAndTimeQuestion)
      && (SpecificDateTime in Keys(qs) <==> p.timing == LaterToday || p.timing == SometimeThisWeek)
  {
    var qs := QuestionsFor(p, c, hour);
    var front := (if IsQuick(p) then QuickQuestions(c) else DetailedQuestions(p, c))
      + (if !IsQuick(p) && p.audience == WithTheCrew then [GroupSizeQuestion] else [])
      + (if !IsQuick(p) then [TimingQuestion(Keep(c.timings, Blocked(p, hour)))] else []);
    var specific := SpecificQuestion(p.timing);
    assert qs == front + specific;
    if specific != [] {
      assert qs[|qs| - 1] == specific[0];
    }
    KeysInOrder(p, c, hour);
    KeyMembership(p);
  }

  /** The detailed timing question sits right before the exact-time follow-up,
      if any, and offers exactly the catalogue's timings whose value the hour
      rules leave open, in the catalogue's order. */
  lemma {:induction false} TimingChoicesFollowRules(p: HangoutParams, c: Catalog, hour: int)
    requires !IsQuick(p)
    ensures var qs := QuestionsFor(p, c, hour);
      var t := |qs| - 1 - |SpecificQuestion(p.timing)|;
      0 <= t && qs[t].key == Timing && qs[t].options.Some?
      && SubsequenceOf(qs[t].options.value, c.timings)
      && (forall o :: o in qs[t].options.value <==> o in c.timings && o.value !in Blocked(p, hour))
  {
    var qs := QuestionsFor(p, c, hour);
    var s := SpecificQuestion(p.timing);
    var front := DetailedQuestions(p, c)
      + (if p.audience == WithTheCrew then [GroupSizeQuestion] else []);
    var q := TimingQuestion(Keep(c.timings, Blocked(p, hour)));
    assert qs == front + [q] + s;
    assert qs[|qs| - 1 - |s|] == q;
    KeepMembers(c.timings, Blocked(p, hour));
    KeepIsSubsequence(c.timings, Blocked(p, hour));
  }

  /** Outside a romantic date with a chosen meal, every timing is offered. */
  lemma {:induction false} TimingUnfilteredUnlessRomanticMeal(p: HangoutParams, c: Catalog, hour: int)
    requires !IsQuick(p) && !(IsRomantic(p) && p.dateMeal != "")
    ensures var qs := QuestionsFor(p, c, hour);
      qs[|qs| - 1 - |SpecificQuestion(p.timing)|].options == Some(c.timings)
  {
    var qs := QuestionsFor(p, c, hour);
    var s := SpecificQuestion(p.timing);
    var front := DetailedQuestions(p, c)
      + (if p.audience == WithTheCrew then [GroupSizeQuestion] else []);
    assert qs == front + [TimingQuestion(Keep(c.timings, Blocked(p, hour)))] + s;
    KeepNothing(c.timings);
  }

  /** The hour rules, value by value, for a romantic date with the given meal. */
  lemma {:induction false} HourRules(p: HangoutParams, hour: int)
    requires IsRomantic(p)
    ensures p.dateMeal == "Breakfast" ==>
      (RightNow in Blocked(p, hour) <==> hour >= 11) && (LaterToday in Blocked(p, hour) <==> hour >= 11)
    ensures p.dateMeal == "Brunch" || p.dateMeal == "Lunch" ==>
      (RightNow in Blocked(p, hour) <==> hour < 11 || hour >= 15) && (LaterToday in Blocked(p, hour) <==> hour >= 15)
    ensures p.dateMeal == "Dinner" ==>
      (RightNow in Blocked(p, hour) <==> hour < 18) && (LaterToday in Blocked(p, hour) <==> hour >= 22)
    ensures Blocked(p, hour) <= {RightNow, LaterToday}
  {
  }
}
