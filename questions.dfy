/** The question flow: which questions the planner asks, in which order, for
    the answers given so far, and which timing choices are still open at the
    current hour for a romantic date's meal. */
module Questions {
  import opened Basics
  import opened Hangout

  datatype Section = Mood | Constraints | Logistics

  datatype QuestionType = OptionsQuestion | TimeQuestion | DateAndTimeQuestion | NumberQuestion

  /** One selectable answer: what is shown and what is stored. */
  datatype Choice = Choice(name: string, value: string)

  datatype Question = Question(
    key: ParamKey,
    prompt: string,
    kind: QuestionType,
    section: Option<Section>,
    helperText: Option<string>,
    multiSelect: bool,
    options: Option<seq<Choice>>)

  /** The fixed option lists the questions offer. Their contents live in a
      constants file that is not part of this model, so they are a parameter. */
  datatype Catalog = Catalog(
    vibes: seq<Choice>,
    timeWindows: seq<Choice>,
    budgets: seq<Choice>,
    audiences: seq<Choice>,
    romanticAudiences: seq<Choice>,
    timings: seq<Choice>,
    dateMeals: seq<Choice>,
    travelPreferences: seq<Choice>,
    mustHaves: seq<Choice>)

  const RomanticDate := "Romantic Date"
  const WithTheCrew := "With the Crew"
  const RightNow := "Right Now!"
  const LaterToday := "Later Today"
  const SometimeThisWeek := "Sometime This Week"

  predicate IsQuick(p: HangoutParams) { p.planningMode == "quick" }

  predicate IsRomantic(p: HangoutParams) { p.vibe == RomanticDate }

  function Ask(key: ParamKey, prompt: string, options: seq<Choice>, section: Section): Question {
    Question(key, prompt, OptionsQuestion, Some(section), None, false, Some(options))
  }

  // ---------------------------------------------------------------------
  // The questions themselves

  function QuickQuestions(c: Catalog): seq<Question> {
    [ Ask(Vibe, "What kind of outing do you want right now?", c.vibes, Mood),
      Ask(Budget, "Budget per person?", c.budgets, Constraints).(helperText := Some("Tip: you can tweak this later.")),
      Ask(Timing, "When are we doing this?", c.timings, Logistics) ]
  }

  function AudienceQuestion(p: HangoutParams, c: Catalog): Question {
    if IsRomantic(p) then Ask(Audience, "Who's this romantic mission for?", c.romanticAudiences, Constraints)
    else Ask(Audience, "Who's in this mission?", c.audiences, Constraints)
  }

  function DateMealQuestion(c: Catalog): Question {
    Ask(DateMeal, "Perfect. What time of day is the date?", c.dateMeals, Mood)
  }

  function DetailedQuestions(p: HangoutParams, c: Catalog): seq<Question> {
    [Ask(Vibe, "First, what's the vibe?", c.vibes, Mood)]
    + (if IsRomantic(p) then [DateMealQuestion(c)] else [])
    + [ Ask(TimeWindow, "How much time have you got?", c.timeWindows, Constraints),
        Ask(Budget, "How deep are your pockets?", c.budgets, Constraints),
        AudienceQuestion(p, c),
        Ask(TravelPreference, "How far are you willing to go?", c.travelPreferences, Logistics),
        Ask(MustHaves, "Any must-haves? Pick one or more.", c.mustHaves, Logistics).(multiSelect := true) ]
  }

  const GroupSizeQuestion := Question(GroupSize, "How many in your crew?", NumberQuestion, None, None, false, None)

  function TimingQuestion(options: seq<Choice>): Question {
    Ask(Timing, "And when are we doing this?", options, Logistics)
  }

  /** The follow-up asking for the exact time, for the two timings that need one. */
  function SpecificQuestion(timing: string): seq<Question> {
    if timing == LaterToday then
      [Question(SpecificDateTime, "Got it. What time later today?", TimeQuestion, Some(Logistics), None, false, None)]
    else if timing == SometimeThisWeek then
      [Question(SpecificDateTime, "Sounds good. What day and time?", DateAndTimeQuestion, Some(Logistics), None, false, None)]
    else []
  }

  // ---------------------------------------------------------------------
  // Timing choices still open

  /** The timing values ruled out for a romantic date's meal at `hour`: a
      breakfast from 11:00 on can be neither now nor later today; brunch and
      lunch are only "now" between 11:00 and 15:00 and no longer "later today"
      from 15:00; dinner is only "now" from 18:00 and no longer "later today"
      from 22:00. Any other answers rule nothing out. */
  function Blocked(p: HangoutParams, hour: int): set<string> {
    if !(IsRomantic(p) && p.dateMeal != "") then {}
    else if p.dateMeal == "Breakfast" then
      if hour >= 11 then {RightNow, LaterToday} else {}
    else if p.dateMeal == "Brunch" || p.dateMeal == "Lunch" then
      (if hour < 11 || hour >= 15 then {RightNow} else {}) + (if hour >= 15 then {LaterToday} else {})
    else if p.dateMeal == "Dinner" then
      (if hour < 18 then {RightNow} else {}) + (if hour >= 22 then {LaterToday} else {})
    else {}
  }

  /** The choices whose value is not in `blocked`, in their original order. */
  function Keep(xs: seq<Choice>, blocked: set<string>): (r: seq<Choice>)
    ensures |r| <= |xs|
  {
    if xs == [] then []
    else (if xs[0].value in blocked then [] else [xs[0]]) + Keep(xs[1..], blocked)
  }

  /** `a` is `b` with some elements left out, the rest in order. */
  predicate SubsequenceOf<T(==)>(a: seq<T>, b: seq<T>)
    decreases |b|
  {
    if b == [] then a == []
    else (a != [] && a[0] == b[0] && SubsequenceOf(a[1..], b[1..])) || SubsequenceOf(a, b[1..])
  }

  /** A choice is kept exactly when it is offered and its value is not ruled out. */
  lemma {:induction false} KeepMembers(xs: seq<Choice>, blocked: set<string>)
    ensures forall o :: o in Keep(xs, blocked) <==> o in xs && o.value !in blocked
  {
    if xs != [] {
      KeepMembers(xs[1..], blocked);
      assert xs == [xs[0]] + xs[1..];
    }
  }

  /** Filtering keeps the survivors in their original order. */
  lemma {:induction false} KeepIsSubsequence(xs: seq<Choice>, blocked: set<string>)
    ensures SubsequenceOf(Keep(xs, blocked), xs)
  {
    if xs != [] {
      KeepIsSubsequence(xs[1..], blocked);
      var r := Keep(xs, blocked);
      if xs[0].value !in blocked {
        assert r == [xs[0]] + Keep(xs[1..], blocked);
        assert r[1..] == Keep(xs[1..], blocked);
      } else {
        assert r == Keep(xs[1..], blocked);
      }
    }
  }

  /** Filtering twice is filtering once by both sets. */
  lemma {:induction false} KeepTwice(xs: seq<Choice>, a: set<string>, b: set<string>)
    ensures Keep(Keep(xs, a), b) == Keep(xs, a + b)
  {
    if xs != [] {
      KeepTwice(xs[1..], a, b);
      var x := xs[0];
      if x.value !in a {
        var once := Keep(xs, a);
        assert once == [x] + Keep(xs[1..], a);
        assert once[0] == x && once[1..] == Keep(xs[1..], a);
        assert Keep(once, b) == (if x.value in b then [] else [x]) + Keep(once[1..], b);
      } else {
        assert Keep(xs, a) == Keep(xs[1..], a);
        assert x.value in a + b;
      }
    }
  }

  lemma {:induction false} KeepNothing(xs: seq<Choice>)
    ensures Keep(xs, {}) == xs
  {
    if xs != [] {
      KeepNothing(xs[1..]);
      assert xs == [xs[0]] + xs[1..];
    }
  }

  // ---------------------------------------------------------------------
  // The whole list

  /** The questions for the answers so far: the quick or detailed base list,
      then the crew-size question, then the detailed timing question, then the
      exact-time follow-up. */
  function QuestionsFor(p: HangoutParams, c: Catalog, hour: int): seq<Question> {
    (if IsQuick(p) then QuickQuestions(c) else DetailedQuestions(p, c))
    + (if !IsQuick(p) && p.audience == WithTheCrew then [GroupSizeQuestion] else [])
    + (if !IsQuick(p) then [TimingQuestion(Keep(c.timings, Blocked(p, hour)))] else [])
    + SpecificQuestion(p.timing)
  }

  /** The keys of a question list, in order. */
  function Keys(qs: seq<Question>): (r: seq<ParamKey>)
    ensures |r| == |qs| && forall k :: 0 <= k < |qs| ==> r[k] == qs[k].key
  {
    seq(|qs|, k requires 0 <= k < |qs| => qs[k].key)
  }

  lemma {:induction false} KeysAppend(a: seq<Question>, b: seq<Question>)
    ensures Keys(a + b) == Keys(a) + Keys(b)
  {
  }

  /** Removes every choice whose value is `v`. */
  method RemoveValue(xs: seq<Choice>, v: string) returns (r: seq<Choice>)
    ensures r == Keep(xs, {v})
  {
    r := [];
    var i := 0;
    while i < |xs|
      invariant 0 <= i <= |xs|
      invariant Keep(xs, {v}) == r + Keep(xs[i..], {v})
    {
      KeepStep(xs, i, {v});
      if xs[i].value != v {
        r := r + [xs[i]];
      }
      i := i + 1;
    }
    assert xs[i..] == [];
  }

  /** `Keep` on a suffix: the first element, unless blocked, then the rest. */
  lemma {:induction false} KeepStep(xs: seq<Choice>, i: nat, blocked: set<string>)
    requires i < |xs|
    ensures Keep(xs[i..], blocked)
      == (if xs[i].value in blocked then [] else [xs[i]]) + Keep(xs[i + 1..], blocked)
  {
    var rest := xs[i..];
    assert rest[0] == xs[i] && rest[1..] == xs[i + 1..];
  }

  /** The timing choices left once the meal-and-hour rules have filtered
      them, one filter at a time. */
  method TimingOptions(p: HangoutParams, c: Catalog, hour: int) returns (timingOptions: seq<Choice>)
    ensures timingOptions == Keep(c.timings, Blocked(p, hour))
  {
    timingOptions := c.timings;
    KeepNothing(c.timings);
    ghost var ruledOut: set<string> := {};
    if p.vibe == RomanticDate && p.dateMeal != "" {
      if p.dateMeal == "Breakfast" {
        if hour >= 11 {
          timingOptions := RemoveValue(timingOptions, RightNow);
          KeepTwice(c.timings, {}, {RightNow});
          timingOptions := RemoveValue(timingOptions, LaterToday);
          KeepTwice(c.timings, {RightNow}, {LaterToday});
          ruledOut := {RightNow} + {LaterToday};
        }
      } else if p.dateMeal == "Brunch" || p.dateMeal == "Lunch" {
        if hour < 11 || hour >= 15 {
          timingOptions := RemoveValue(timingOptions, RightNow);
          KeepTwice(c.timings, {}, {RightNow});
          ruledOut := {RightNow};
        }
        if hour >= 15 {
          timingOptions := RemoveValue(timingOptions, LaterToday);
          KeepTwice(c.timings, ruledOut, {LaterToday});
          ruledOut := ruledOut + {LaterToday};
        }
      } else if p.dateMeal == "Dinner" {
        if hour < 18 {
          timingOptions := RemoveValue(timingOptions, RightNow);
          KeepTwice(c.timings, {}, {RightNow});
          ruledOut := {RightNow};
        }
        if hour >= 22 {
          timingOptions := RemoveValue(timingOptions, LaterToday);
          KeepTwice(c.timings, ruledOut, {LaterToday});
          ruledOut := ruledOut + {LaterToday};
        }
      }
    }
    assert ruledOut == Blocked(p, hour);
  }

  /** Builds the question list as the planner does: a base list, then one
      `push` per optional question. */
  method GetQuestions(p: HangoutParams, c: Catalog, hour: int) returns (questions: seq<Question>)
    ensures questions == QuestionsFor(p, c, hour)
  {
    var isQuick := p.planningMode == "quick";
    questions := if isQuick then QuickQuestions(c) else DetailedQuestions(p, c);
    if !isQuick && p.audience == WithTheCrew {
      questions := questions + [GroupSizeQuestion];
    }
    var timingOptions := TimingOptions(p, c, hour);
    if !isQuick {
      questions := questions + [TimingQuestion(timingOptions)];
    }
    if p.timing == LaterToday {
      questions := questions + [Question(SpecificDateTime, "Got it. What time later today?", TimeQuestion, Some(Logistics), None, false, None)];
    } else if p.timing == SometimeThisWeek {
      questions := questions + [Question(SpecificDateTime, "Sounds good. What day and time?", DateAndTimeQuestion, Some(Logistics), None, false, None)];
    }
  }
}
