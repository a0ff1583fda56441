/** The questionnaire screen's logic: the review summary, the must-have
    multi-select, the 12-hour to 24-hour conversion of the time picker, the
    review-step test and the "Edit" jump targets, and the summary chips. */
module Questionnaire {
  import opened Basics
  import opened Text
  import opened Hangout
  import opened Questions

  // ---------------------------------------------------------------------
  // Review summary

  datatype SummaryRow = SummaryRow(key: ParamKey, heading: string, value: string)

  /** `value || fallback`. */
  function Or(value: string, fallback: string): string {
    if value != "" then value else fallback
  }

  /** The must-haves that are not empty, joined with `", "`. */
  function MustHavesText(mustHaves: seq<string>): string {
    Join(NonEmpty(mustHaves), ", ")
  }

  /** The eight review rows. `when` is the formatted date/time, which comes
      from a formatter outside this model. */
  function SummaryPairs(p: HangoutParams, when: string): (rows: seq<SummaryRow>)
    ensures |rows| == 8
    ensures RowKeys(rows) == [PlanningMode, Vibe, Budget, Audience, Timing, SpecificDateTime, TravelPreference, MustHaves]
  {
    [ SummaryRow(PlanningMode, "Mode", Or(p.planningMode, "detailed")),
      SummaryRow(Vibe, "Vibe", Or(p.vibe, "Not set")),
      SummaryRow(Budget, "Budget", Or(p.budget, "Not set")),
      SummaryRow(Audience, "Audience", Or(p.audience, "Not set")),
      SummaryRow(Timing, "Timing", Or(p.timing, "Not set")),
      SummaryRow(SpecificDateTime, "When", if p.specificDateTime != "" then when else "Flexible"),
      SummaryRow(TravelPreference, "Travel", Or(p.travelPreference, "Any distance")),
      SummaryRow(MustHaves, "Must-haves", Or(MustHavesText(p.mustHaves), "None selected")) ]
  }

  function RowKeys(rows: seq<SummaryRow>): (r: seq<ParamKey>)
    ensures |r| == |rows| && forall k :: 0 <= k < |rows| ==> r[k] == rows[k].key
  {
    seq(|rows|, k requires 0 <= k < |rows| => rows[k].key)
  }

  /** Joining non-empty pieces gives the empty string only when there are none. */
  lemma {:induction false} JoinEmpty(parts: seq<string>, sep: string)
    requires forall k :: 0 <= k < |parts| ==> parts[k] != ""
    ensures Join(parts, sep) == "" <==> parts == []
  {
    if |parts| > 1 {
      assert |Join(parts, sep)| >= |parts[0]|;
    }
  }

  /** The must-haves row shows the placeholder when no must-have is set,
      and otherwise the set ones joined, which is never empty. */
  lemma {:induction false} MustHavesRow(p: HangoutParams, when: string)
    ensures (forall k :: 0 <= k < |p.mustHaves| ==> p.mustHaves[k] == "")
      ==> SummaryPairs(p, when)[7].value == "None selected"
    ensures (exists k :: 0 <= k < |p.mustHaves| && p.mustHaves[k] != "")
      ==> SummaryPairs(p, when)[7].value == Join(NonEmpty(p.mustHaves), ", ") != ""
  {
    var shown := NonEmpty(p.mustHaves);
    JoinEmpty(shown, ", ");
    if exists k :: 0 <= k < |p.mustHaves| && p.mustHaves[k] != "" {
      var k :| 0 <= k < |p.mustHaves| && p.mustHaves[k] != "";
      assert p.mustHaves[k] in shown;
    } else {
      assert forall x :: x in p.mustHaves ==> x == "";
      assert forall k :: 0 <= k < |shown| ==> shown[k] in shown;
    }
  }

  /** A row shows the answer itself whenever the answer is set, and its own
      placeholder otherwise: `detailed` for the mode, `Not set` for the vibe,
      budget, audience and timing, `Flexible` for the date (the formatted date
      when one is set) and `Any distance` for travel. */
  lemma {:induction false} SummaryShowsAnswers(p: HangoutParams, when: string)
    ensures var rows := SummaryPairs(p, when);
      && rows[0].value == (if p.planningMode != "" then p.planningMode else "detailed")
      && rows[1].value == (if p.vibe != "" then p.vibe else "Not set")
      && rows[2].value == (if p.budget != "" then p.budget else "Not set")
      && rows[3].value == (if p.audience != "" then p.audience else "Not set")
      && rows[4].value == (if p.timing != "" then p.timing else "Not set")
      && rows[5].value == (if p.specificDateTime != "" then when else "Flexible")
      && rows[6].value == (if p.travelPreference != "" then p.travelPreference else "Any distance")
  {
  }

  /** The headings, in order. */
  lemma {:induction false} SummaryHeadings(p: HangoutParams, when: string)
    ensures var rows := SummaryPairs(p, when);
      && rows[0].heading == "Mode" && rows[1].heading == "Vibe" && rows[2].heading == "Budget"
      && rows[3].heading == "Audience" && rows[4].heading == "Timing" && rows[5].heading == "When"
      && rows[6].heading == "Travel" && rows[7].heading == "Must-haves"
  {
  }

  /** With a non-empty formatted date, no row is blank. */
  lemma {:induction false} SummaryNeverBlank(p: HangoutParams, when: string)
    requires when != ""
    ensures forall k :: 0 <= k < 8 ==> SummaryPairs(p, when)[k].value != ""
  {
    var rows := SummaryPairs(p, when);
    SummaryShowsAnswers(p, when);
    MustHavesRow(p, when);
    assert rows[7].value != "";
  }

  // ---------------------------------------------------------------------
  // Multi-select

  /** The items other than `v`, in order (`filter(item => item !== v)`). */
  function Without(xs: seq<string>, v: string): (r: seq<string>)
    ensures v !in r
    ensures forall y :: y in r <==> y in xs && y != v
  {
    if xs == [] then []
    else (if xs[0] == v then [] else [xs[0]]) + Without(xs[1..], v)
  }

  /** Toggling a must-have: every occurrence removed when present, appended
      at the end when absent. */
  function Toggled(existing: seq<string>, v: string): (r: seq<string>)
    ensures v in r <==> v !in existing
    ensures forall y :: y != v ==> (y in r <==> y in existing)
  {
    if v in existing then Without(existing, v) else existing + [v]
  }

  lemma {:induction false} WithoutAbsent(xs: seq<string>, v: string)
    requires v !in xs
    ensures Without(xs, v) == xs
  {
    if xs != [] {
      WithoutAbsent(xs[1..], v);
      assert xs == [xs[0]] + xs[1..];
    }
  }

  lemma {:induction false} WithoutAppend(xs: seq<string>, ys: seq<string>, v: string)
    ensures Without(xs + ys, v) == Without(xs, v) + Without(ys, v)
  {
    if xs != [] {
      WithoutAppend(xs[1..], ys, v);
      assert (xs + ys)[1..] == xs[1..] + ys;
    } else {
      assert xs + ys == ys;
    }
  }

  lemma {:induction false} WithoutTwice(xs: seq<string>, v: string)
    ensures Without(Without(xs, v), v) == Without(xs, v)
  {
    WithoutAbsent(Without(xs, v), v);
  }

  /** Toggling leaves the other items in their order. */
  lemma {:induction false} ToggleKeepsOthers(existing: seq<string>, v: string)
    ensures Without(Toggled(existing, v), v) == Without(existing, v)
  {
    if v in existing {
      WithoutTwice(existing, v);
    } else {
      WithoutAppend(existing, [v], v);
      assert Without([v], v) == [];
    }
  }

  /** Toggling an absent must-have twice restores the selection; toggling a
      present one twice moves it, once, to the end. */
  lemma {:induction false} ToggleTwice(existing: seq<string>, v: string)
    ensures v !in existing ==> Toggled(Toggled(existing, v), v) == existing
    ensures v in existing ==> Toggled(Toggled(existing, v), v) == Without(existing, v) + [v]
  {
    if v !in existing {
      WithoutAppend(existing, [v], v);
      WithoutAbsent(existing, v);
      assert Without([v], v) == [];
    }
  }

  /** The screen's pending must-have selection. */
  class MustHavePicker {
    var selected: seq<string>

    constructor(initial: seq<string>)
      ensures selected == initial
    {
      selected := initial;
    }

    /** `toggleMultiSelect`: commits the toggled selection. */
    method Toggle(value: string)
      modifies this
      ensures selected == Toggled(old(selected), value)
    {
      var existing := selected;
      var next := if value in existing then Without(existing, value) else existing + [value];
      selected := next;
    }
  }

  // ---------------------------------------------------------------------
  // Time picker

  /** The 24-hour hour for a 12-hour picker value and `AM`/`PM`. */
  function Hour24(h: int, ampm: string): (r: int)
    ensures 1 <= h <= 12 && (ampm == "AM" || ampm == "PM") ==> 0 <= r <= 23
  {
    if ampm == "PM" && h < 12 then h + 12
    else if ampm == "AM" && h == 12 then 0
    else h
  }

  /** The 12-hour picker value and half of the day for a 24-hour hour. */
  function Hour12(t: int): (int, string) {
    (if t == 0 then 12 else if t > 12 then t - 12 else t, if t >= 12 then "PM" else "AM")
  }

  /** The conversion is a one-to-one match between the 24 picker settings and
      the 24 hours of the day. */
  lemma {:induction false} Hour24RoundTrip(h: int, ampm: string, t: int)
    ensures 1 <= h <= 12 && (ampm == "AM" || ampm == "PM") ==> Hour12(Hour24(h, ampm)) == (h, ampm)
    ensures 0 <= t <= 23 ==> Hour24(Hour12(t).0, Hour12(t).1) == t
  {
  }

  // ---------------------------------------------------------------------
  // Navigation on the review step

  /** The review page is shown once every question has been answered. */
  predicate IsReviewStep(currentStep: int, questions: seq<Question>) {
    currentStep >= |questions|
  }

  /** The first question asking for `key` (`findIndex`), if any. */
  function EditTarget(questions: seq<Question>, key: ParamKey): (r: Option<nat>)
    ensures r.Some? ==>
      (r.value < |questions| && questions[r.value].key == key
       && forall j :: 0 <= j < r.value ==> questions[j].key != key)
    ensures r.None? <==> forall j :: 0 <= j < |questions| ==> questions[j].key != key
  {
    if questions == [] then None
    else if questions[0].key == key then Some(0)
    else match EditTarget(questions[1..], key)
      case None => None
      case Some(i) => Some(i + 1)
  }

  /** Jumping to an Edit target leaves the review page for the question that
      asks for that answer. */
  lemma {:induction false} EditLeavesReview(questions: seq<Question>, key: ParamKey)
    requires EditTarget(questions, key).Some?
    ensures var i := EditTarget(questions, key).value;
      !IsReviewStep(i, questions) && questions[i].key == key
  {
  }

  // ---------------------------------------------------------------------
  // Chips

  /** The vibe, budget and timing answers that are set, in that order. */
  function VibeSummaryChips(p: HangoutParams): (chips: seq<string>)
    ensures chips == (if p.vibe != "" then [p.vibe] else [])
      + (if p.budget != "" then [p.budget] else [])
      + (if p.timing != "" then [p.timing] else [])
  {
    var xs := [p.vibe, p.budget, p.timing];
    assert xs[1..] == [p.budget, p.timing] && xs[1..][1..] == [p.timing] && xs[1..][1..][1..] == [];
    assert NonEmpty([p.timing]) == (if p.timing != "" then [p.timing] else []);
    assert NonEmpty([p.budget, p.timing]) == (if p.budget != "" then [p.budget] else []) + NonEmpty([p.timing]);
    NonEmpty(xs)
  }
}
