/** Date and time helpers: the length of a time window, and the parts of
    the intended-time label that do not depend on the locale. */
module DateTime {
  import opened Basics
  import opened Text

  // ---------------------------------------------------------------------
  // getDurationHours

  /** The number of hours a time-window answer stands for. The first of the
      markers `1-2`, `3-4`, `5+`, `8+` found, in that order, decides it; an
      absent or empty answer, or one with no marker, counts as two hours. */
  function GetDurationHours(timeWindow: Option<string>): (r: nat)
    ensures r in {2, 4, 5, 8}
    ensures timeWindow.None? || timeWindow == Some("") ==> r == 2
  {
    match timeWindow
    case None => 2
    case Some(w) =>
      if w == "" then 2
      else if Contains(w, "1-2") then 2
      else if Contains(w, "3-4") then 4
      else if Contains(w, "5+") then 5
      else if Contains(w, "8+") then 8
      else 2
  }

  /** A marker decides the duration whenever no earlier marker is present. */
  lemma {:induction false} DurationByFirstMarker(w: string)
    ensures Contains(w, "1-2") ==> GetDurationHours(Some(w)) == 2
    ensures !Contains(w, "1-2") && Contains(w, "3-4") ==> GetDurationHours(Some(w)) == 4
    ensures !Contains(w, "1-2") && !Contains(w, "3-4") && Contains(w, "5+")
      ==> GetDurationHours(Some(w)) == 5
    ensures !Contains(w, "1-2") && !Contains(w, "3-4") && !Contains(w, "5+") && Contains(w, "8+")
      ==> GetDurationHours(Some(w)) == 8
    ensures GetDurationHours(Some(w)) != 2 ==> !Contains(w, "1-2")
  {
    if w == "" {
      assert !OccursAt(w, "1-2", 0);
      assert forall j: nat :: !OccursAt(w, "1-2", j);
    }
  }

  /** A window label that carries only one marker (wrapped in text free of
      digits) lasts the hours that marker names. */
  lemma {:induction false} DurationOfLabel(before: string, after: string)
    requires forall i :: 0 <= i < |before| ==> !IsDigit(before[i])
    requires forall i :: 0 <= i < |after| ==> !IsDigit(after[i])
    ensures GetDurationHours(Some(before + "1-2" + after)) == 2
    ensures GetDurationHours(Some(before + "3-4" + after)) == 4
    ensures GetDurationHours(Some(before + "5+" + after)) == 5
    ensures GetDurationHours(Some(before + "8+" + after)) == 8
  {
    MarkerPresent(before, "1-2", after);
    MarkerPresent(before, "3-4", after);
    MarkerPresent(before, "5+", after);
    MarkerPresent(before, "8+", after);
    MarkerAbsent(before, "3-4", after, "1-2");
    MarkerAbsent(before, "5+", after, "1-2");
    MarkerAbsent(before, "5+", after, "3-4");
    MarkerAbsent(before, "8+", after, "1-2");
    MarkerAbsent(before, "8+", after, "3-4");
    MarkerAbsent(before, "8+", after, "5+");
  }

  lemma {:induction false} MarkerPresent(before: string, m: string, after: string)
    ensures Contains(before + m + after, m)
  {
    var s := before + m + after;
    assert s[|before|..|before| + |m|] == m;
    assert OccursAt(s, m, |before|);
  }

  /** A marker whose leading digit is not in `m` does not occur in a label
      that carries only `m` between digit-free ends. */
  lemma {:induction false} MarkerAbsent(before: string, m: string, after: string, o: string)
    requires forall i :: 0 <= i < |before| ==> !IsDigit(before[i])
    requires forall i :: 0 <= i < |after| ==> !IsDigit(after[i])
    requires o != [] && IsDigit(o[0]) && o[0] !in m
    ensures !Contains(before + m + after, o)
  {
    var s := before + m + after;
    forall j: nat ensures !OccursAt(s, o, j) {
      if OccursAt(s, o, j) {
        assert s[j..j + |o|][0] == o[0];
        DigitsOnlyInMarker(before, m, after, j);
      }
    }
  }

  /** In `before + m + after` with digit-free ends, a digit lies inside `m`. */
  lemma {:induction false} DigitsOnlyInMarker(before: string, m: string, after: string, j: nat)
    requires forall i :: 0 <= i < |before| ==> !IsDigit(before[i])
    requires forall i :: 0 <= i < |after| ==> !IsDigit(after[i])
    requires j < |before + m + after| && IsDigit((before + m + after)[j])
    ensures |before| <= j < |before| + |m| && (before + m + after)[j] == m[j - |before|]
  {
    var s := before + m + after;
    assert forall i :: 0 <= i < |before| ==> s[i] == before[i];
    assert forall i :: |before| + |m| <= i < |s| ==> s[i] == after[i - |before| - |m|];
  }

  // ---------------------------------------------------------------------
  // formatIntendedTime

  /** What the intended-time label shows. `TodayAt` and `OnDate` are rendered
      with the user's locale, which this model leaves out; it keeps what is
      handed to the formatter. */
  datatype IntendedTime =
    | Plain(text: string)
    | TodayAt(hours: string, minutes: string)
    | OnDate(dateTime: string)

  /** The label for a chosen timing and, when given, a specific date/time. */
  function FormatIntendedTime(specificDateTime: Option<string>, timing: Option<string>): (r: IntendedTime)
    ensures specificDateTime.None? || specificDateTime == Some("") ==>
      r == Plain(if timing == Some("Right Now!") then "Right Now" else "")
    ensures r.TodayAt? ==>
      (timing == Some("Later Today") && specificDateTime.Some? && ':' !in r.hours && ':' !in r.minutes)
    ensures r.OnDate? ==> timing == Some("Sometime This Week")
    ensures (specificDateTime.Some? && specificDateTime.value != ""
             && timing != Some("Later Today") && timing != Some("Sometime This Week"))
      ==> r == Plain("")
  {
    match specificDateTime
    case None => Plain(if timing == Some("Right Now!") then "Right Now" else "")
    case Some(s) =>
      if s == "" then Plain(if timing == Some("Right Now!") then "Right Now" else "")
      else if timing == Some("Later Today") then
        if !Contains(s, ":") then Plain("")
        else
          var pieces := Split(s, ":");
          SplitPartsAvoidSeparator(s, ":");
          ContainsChar(pieces[0], ':');
          ContainsChar(pieces[1], ':');
          TodayAt(pieces[0], pieces[1])
      else if timing == Some("Sometime This Week") then OnDate(s)
      else Plain("")
  }


  /** Later today, an entry without a colon gives an empty label; one with a
      colon is shown from the text before it and the text after it, up to
      any further colon. */
  lemma {:induction false} LaterTodayLabel(s: string)
    requires s != ""
    ensures !Contains(s, ":") ==> FormatIntendedTime(Some(s), Some("Later Today")) == Plain("")
    ensures Contains(s, ":") ==>
      var i := IndexOf(s, ":").value;
      FormatIntendedTime(Some(s), Some("Later Today")) == TodayAt(s[..i], UpTo(s[i + 1..], ":"))
  {
    if Contains(s, ":") {
      var i := IndexOf(s, ":").value;
      var rest := s[i + 1..];
      assert Split(s, ":") == [s[..i]] + Split(rest, ":");
      SplitFirstPiece(rest, ":");
    }
  }

  /** An `hours:minutes` entry made later today hands exactly those two parts
      to the formatter. */
  lemma {:induction false} LaterTodayRoundTrip(hours: string, minutes: string)
    requires ':' !in hours && ':' !in minutes
    ensures FormatIntendedTime(Some(hours + ":" + minutes), Some("Later Today")) == TodayAt(hours, minutes)
  {
    var s := hours + ":" + minutes;
    assert s[|hours|..|hours| + 1] == ":";
    assert OccursAt(s, ":", |hours|);
    forall j: nat | j < |hours| ensures !OccursAt(s, ":", j) {
      assert s[j..j + 1][0] == s[j] == hours[j];
    }
    IndexOfIs(s, ":", |hours|);
    assert s[..|hours|] == hours;
    assert s[|hours| + 1..] == minutes;
    CharFreeNotContains(minutes, ':');
    LaterTodayLabel(s);
  }
}
