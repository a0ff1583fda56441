/** What the plan cards derive from a parsed plan (the image-URL test, the
    opening-hours confidence, the numeric cost, the rating digit, the short
    location and the recommended badge) and the per-category median cost of
    the saved history. */
module PlanDisplay {
  import opened Basics
  import opened Text
  import opened Hangout
  import opened PlanParser
  import PlanParserFacts
  import PlanLookupFacts

  // ---------------------------------------------------------------------
  // Image URLs

  /** `/^https?:\/\//i` on a non-empty value. The flag makes the match
      case-insensitive; the pattern has only ASCII letters. */
  predicate IsHttpUrl(value: string) {
    value != "" && (StartsWith(Lower(value), "http://") || StartsWith(Lower(value), "https://"))
  }

  /** Both schemes are accepted, in any case: whatever follows a prefix
      that lower-cases to `http://` or `https://`. */
  lemma {:induction false} HttpSchemesAccepted(p: string, rest: string)
    ensures Lower(p) == "http://" || Lower(p) == "https://" ==> IsHttpUrl(p + rest)
    ensures IsHttpUrl("HTTP://" + rest) && IsHttpUrl("Https://" + rest)
  {
    LowerPrefix(p, rest);
    assert Lower("HTTP://") == "http://" by { LowerChars("HTTP://"); }
    assert Lower("Https://") == "https://" by { LowerChars("Https://"); }
    LowerPrefix("HTTP://", rest);
    LowerPrefix("Https://", rest);
  }

  lemma {:induction false} LowerPrefix(p: string, rest: string)
    ensures StartsWith(Lower(p + rest), Lower(p))
  {
    LowerAppend(p, rest);
    assert (Lower(p) + Lower(rest))[..|p|] == Lower(p);
  }

  lemma {:induction false} LowerChars(s: string)
    ensures forall i :: 0 <= i < |s| ==> Lower(s)[i] == LowerChar(s[i])
  {
  }

  /** Nothing else is accepted: an accepted value starts with `http` in
      some case, so an empty value or another scheme is refused. */
  lemma {:induction false} HttpUrlStartsWithHttp(value: string, rest: string)
    ensures IsHttpUrl(value) ==> |value| >= 7 && Lower(value[..4]) == "http"
    ensures !IsHttpUrl("ftp://" + rest)
  {
    if IsHttpUrl(value) {
      var low := Lower(value);
      if StartsWith(low, "http://") {
        PrefixOfPrefix(low, "http://", 4);
      } else {
        PrefixOfPrefix(low, "https://", 4);
      }
      assert Lower(value[..4]) == low[..4];
    }
    var ftp := "ftp://" + rest;
    assert Lower(ftp)[0] == LowerChar(ftp[0]) == 'f';
  }

  lemma {:induction false} PrefixOfPrefix(s: string, p: string, k: nat)
    requires StartsWith(s, p) && k <= |p|
    ensures s[..k] == p[..k]
  {
    assert s[..k] == s[..|p|][..k];
  }

  // ---------------------------------------------------------------------
  // Opening hours

  datatype Confidence = High | Medium | Low

  /** `openingConfidence`: low when the hours are unknown, high when they
      give a range, medium otherwise. */
  function OpeningConfidence(openingHours: string): (c: Confidence)
    ensures c == Low <==> Contains(openingHours, "Not available") || openingHours == NotAvailable
    ensures c == High <==> c != Low && '-' in openingHours
    ensures c == Medium <==> c != Low && '-' !in openingHours
  {
    ContainsChar(openingHours, '-');
    if Contains(openingHours, "Not available") || openingHours == NotAvailable then Low
    else if Contains(openingHours, "-") then High
    else Medium
  }

  /** A plan without an opening-hours line shows the fallback hours, which
      rate low. */
  lemma {:induction false} MissingHoursLow(segment: string, index: nat)
    requires PlanParserFacts.LastTopValue(Infos(LinesOf(segment)), OpeningHours).None?
    ensures OpeningConfidence(PlanOf(segment, index).openingHours) == Low
  {
    PlanParserFacts.PlanDetails(segment, index);
  }

  // ---------------------------------------------------------------------
  // Digits in free text

  /** The position of the first digit. */
  function FirstDigit(s: string): (r: Option<nat>)
    ensures r.Some? ==> r.value < |s| && IsDigit(s[r.value])
    ensures r.Some? ==> forall j :: 0 <= j < r.value ==> !IsDigit(s[j])
    ensures r.None? <==> forall j :: 0 <= j < |s| ==> !IsDigit(s[j])
  {
    if s == [] then None
    else if IsDigit(s[0]) then Some(0)
    else match FirstDigit(s[1..])
      case None => None
      case Some(i) => Some(i + 1)
  }

  predicate DigitFree(s: string) {
    forall j :: 0 <= j < |s| ==> !IsDigit(s[j])
  }

  /** After digit-free text, the first digit is the one that follows it. */
  lemma {:induction false} FirstDigitAfter(w: string, t: string)
    requires DigitFree(w) && t != [] && IsDigit(t[0])
    ensures FirstDigit(w + t) == Some(|w|)
  {
    var s := w + t;
    var r := FirstDigit(s);
    assert IsDigit(s[|w|]);
    assert forall j :: 0 <= j < |w| ==> s[j] == w[j];
  }

  // ---------------------------------------------------------------------
  // Cost

  predicate IsCostChar(c: char) { IsDigit(c) || c == ',' }

  /** The longest prefix made of digits and commas (`[\,\d]*`, greedy). */
  function CostRun(s: string): (r: string)
    ensures |r| <= |s| && r == s[..|r|]
    ensures forall k :: 0 <= k < |r| ==> IsCostChar(r[k])
    ensures |r| == |s| || !IsCostChar(s[|r|])
  {
    if s != [] && IsCostChar(s[0]) then [s[0]] + CostRun(s[1..]) else []
  }

  lemma {:induction false} CommasGone(s: string)
    requires forall k :: 0 <= k < |s| ==> IsCostChar(s[k])
    ensures AllDigits(RemoveChar(s, ','))
  {
    if s != [] {
      CommasGone(s[1..]);
    }
  }

  /** `costToNumber`: the first run that starts with a digit and goes on
      with digits and commas, read as a number once the commas are gone;
      `None` when the text has no digit. */
  function CostToNumber(costText: string): (r: Option<nat>)
    ensures r.None? <==> DigitFree(costText)
  {
    match FirstDigit(costText)
    case None => None
    case Some(i) =>
      var run := CostRun(costText[i..]);
      CommasGone(run);
      Some(DigitsValue(RemoveChar(run, ',')))
  }

  lemma {:induction false} CostRunDigits(d: string, rest: string)
    requires forall k :: 0 <= k < |d| ==> IsCostChar(d[k])
    requires rest == [] || !IsCostChar(rest[0])
    ensures CostRun(d + rest) == d
  {
    if d != [] {
      assert (d + rest)[1..] == d[1..] + rest;
      CostRunDigits(d[1..], rest);
    } else {
      assert d + rest == rest;
    }
  }

  /** A price written as a plain decimal after a digit-free label, and not
      followed by a digit or comma, reads back as its value. */
  lemma {:induction false} CostReadsDecimal(w: string, n: nat, rest: string)
    requires DigitFree(w) && (rest == [] || !IsCostChar(rest[0]))
    ensures CostToNumber(w + Decimal(n) + rest) == Some(n)
  {
    var d := Decimal(n);
    var s := w + d + rest;
    assert s == w + (d + rest);
    FirstDigitAfter(w, d + rest);
    assert s[|w|..] == d + rest;
    CostRunDigits(d, rest);
    assert ',' !in d;
    DecimalValue(n);
  }

  /** A run of digits and commas that starts with a digit, after a
      digit-free label and not followed by a digit or comma, is the run
      that is read, commas dropped. */
  lemma {:induction false} CostReadsRun(w: string, g: string, rest: string)
    requires DigitFree(w) && g != [] && IsDigit(g[0])
    requires forall k :: 0 <= k < |g| ==> IsCostChar(g[k])
    requires rest == [] || !IsCostChar(rest[0])
    ensures AllDigits(RemoveChar(g, ','))
    ensures CostToNumber(w + g + rest) == Some(DigitsValue(RemoveChar(g, ',')))
  {
    var s := w + g + rest;
    assert s == w + (g + rest);
    FirstDigitAfter(w, g + rest);
    assert s[|w|..] == g + rest;
    CostRunDigits(g, rest);
    CommasGone(g);
  }

  /** A price written with a thousands comma (`1,500`) after a digit-free
      label, and not followed by a digit or comma, reads as the number
      without the comma. */
  lemma {:induction false} CostReadsGrouped(w: string, a: nat, d3: string, rest: string)
    requires DigitFree(w) && |d3| == 3 && AllDigits(d3)
    requires rest == [] || !IsCostChar(rest[0])
    ensures CostToNumber(w + Decimal(a) + "," + d3 + rest) == Some(a * 1000 + DigitsValue(d3))
  {
    var d := Decimal(a);
    var g := d + "," + d3;
    assert w + d + "," + d3 + rest == w + g + rest;
    GroupedCostChars(d, d3);
    CostReadsRun(w, g, rest);
    CommaDropped(d, d3);
    assert CostToNumber(w + g + rest) == Some(DigitsValue(d + d3));
    DecimalValue(a);
    ThousandsValue(d, d3);
    var v := DigitsValue(d3);
    assert DigitsValue(d + d3) == a * 1000 + v;
    assert CostToNumber(w + d + "," + d3 + rest) == Some(a * 1000 + v);
  }

  lemma {:induction false} GroupedCostChars(d: string, d3: string)
    requires d != [] && AllDigits(d) && AllDigits(d3)
    ensures IsDigit((d + "," + d3)[0])
    ensures forall k :: 0 <= k < |d + "," + d3| ==> IsCostChar((d + "," + d3)[k])
  {
    var g := d + "," + d3;
    assert g[0] == d[0];
    forall k | 0 <= k < |g| ensures IsCostChar(g[k]) {
      if k < |d| {
        assert g[k] == d[k];
      } else if k > |d| {
        assert g[k] == d3[k - |d| - 1];
      }
    }
  }

  /** Dropping the comma from `d,ddd` leaves the digits side by side. */
  lemma {:induction false} CommaDropped(d: string, d3: string)
    requires AllDigits(d) && AllDigits(d3)
    ensures RemoveChar(d + "," + d3, ',') == d + d3
  {
    assert ',' !in d && ',' !in d3 by {
      assert forall k :: 0 <= k < |d| ==> d[k] != ',';
      assert forall k :: 0 <= k < |d3| ==> d3[k] != ',';
    }
    RemoveCharAppend(d + ",", d3, ',');
    RemoveCharAppend(d, ",", ',');
    assert RemoveChar(",", ',') == [];
    assert RemoveChar(d + ",", ',') == d;
  }

  /** Three digits written after `d` make it `d * 1000 + ddd`. */
  lemma {:induction false} ThousandsValue(d: string, d3: string)
    requires AllDigits(d) && AllDigits(d3) && |d3| == 3
    ensures AllDigits(d + d3)
    ensures DigitsValue(d + d3) == DigitsValue(d) * 1000 + DigitsValue(d3)
  {
    DigitsValueAppend(d, d3);
    assert Pow10(3) == 1000;
  }

  lemma {:induction false} FallbackCostHasNoNumber()
    ensures CostToNumber(NotAvailable).None?
  {
    assert DigitFree(NotAvailable);
  }

  /** A missing cost line leaves the fallback text, which has no number. */
  lemma {:induction false} MissingCostHasNoNumber(segment: string, index: nat)
    requires PlanParserFacts.LastTopValue(Infos(LinesOf(segment)), Cost).None?
    ensures CostToNumber(PlanOf(segment, index).cost).None?
  {
    PlanParserFacts.PlanDetails(segment, index);
    FallbackCostHasNoNumber();
  }

  // ---------------------------------------------------------------------
  // Rating and location

  /** `rating.match(/(\d\.\d|\d)/)`: at the first digit, a `d.d` when one
      starts there, else that digit alone. */
  function RatingValue(rating: string): (r: Option<string>)
    ensures r.None? <==> DigitFree(rating)
    ensures r.Some? ==>
      var i := FirstDigit(rating).value;
      (|r.value| == 1 || (|r.value| == 3 && r.value[1] == '.' && IsDigit(r.value[2])))
      && i + |r.value| <= |rating| && r.value == rating[i..i + |r.value|] && IsDigit(r.value[0])
  {
    match FirstDigit(rating)
    case None => None
    case Some(i) =>
      if i + 2 < |rating| && rating[i + 1] == '.' && IsDigit(rating[i + 2]) then Some(rating[i..i + 3])
      else Some(rating[i..i + 1])
  }

  /** A one-decimal rating after a digit-free label reads as that rating; a
      digit not followed by `.` and a digit reads alone. */
  lemma {:induction false} RatingReads(w: string, a: char, b: char, rest: string)
    requires DigitFree(w) && IsDigit(a) && IsDigit(b)
    ensures RatingValue(w + [a, '.', b] + rest) == Some([a, '.', b])
    ensures rest == [] || rest[0] != '.' ==> RatingValue(w + [a] + rest) == Some([a])
  {
    var s := w + [a, '.', b] + rest;
    assert s == w + ([a, '.', b] + rest);
    FirstDigitAfter(w, [a, '.', b] + rest);
    assert s[|w|..|w| + 3] == [a, '.', b];
    var t := w + [a] + rest;
    assert t == w + ([a] + rest);
    FirstDigitAfter(w, [a] + rest);
    assert t[|w|..|w| + 1] == [a];
  }

  /** `location.split(',')[0]`: the text before the first comma. */
  function LocationShort(location: string): (r: string)
    ensures |r| <= |location| && r == location[..|r|] && ',' !in r
    ensures ',' !in location ==> r == location
  {
    SplitFirstPiece(location, ",");
    assert UpTo(location, ",") == Split(location, ",")[0];
    NotCommaBefore(location);
    Split(location, ",")[0]
  }

  lemma {:induction false} NotCommaBefore(location: string)
    ensures ',' !in UpTo(location, ",")
    ensures ',' !in location ==> UpTo(location, ",") == location
  {
    var r := UpTo(location, ",");
    if ',' in location {
      ContainsChar(location, ',');
      var i := IndexOf(location, ",").value;
      NotContainsBeforeFirst(location, ",", i);
      ContainsChar(location[..i], ',');
    } else {
      ContainsChar(location, ',');
    }
  }

  // ---------------------------------------------------------------------
  // The recommended badge

  /** `plan.title === recommendedPlanTitle`. */
  predicate IsRecommended(title: string, recommendation: Option<string>) {
    GetRecommendedPlanTitle(recommendation) == Some(title)
  }

  /** Only a non-empty title, without surrounding blanks and without a colon,
      can carry the badge, and only when there is a recommendation. */
  lemma {:induction false} RecommendedTitleShape(title: string, recommendation: Option<string>)
    requires IsRecommended(title, recommendation)
    ensures recommendation.Some? && title != "" && ':' !in title && Trim(title) == title
  {
  }

  /** A card shows the badge exactly when its title is the text between the
      first and second colon of the recommendation, trimmed. */
  lemma {:induction false} RecommendedBetweenColons(title: string, s: string)
    requires Contains(s, ":")
    ensures var i := IndexOf(s, ":").value;
      IsRecommended(title, Some(s)) <==> title != "" && title == Trim(UpTo(s[i + 1..], ":"))
  {
    PlanLookupFacts.RecommendedTitleBetweenColons(s);
  }
}
