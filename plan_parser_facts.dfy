/** What the plan parser computes, stated line by line: which line a field
    comes from, when the two list modes are open, which lines become picnic
    items, the shape of the render key, and the round trips between the
    parser's outputs and its lookups. */
module PlanParserFacts {
  import opened Basics
  import opened Text
  import opened PlanParser

  // ---------------------------------------------------------------------
  // The list modes

  /** A header line for `header`: not an option line, and its key announces `header`. */
  predicate IsHeader(line: LineInfo, header: LineKey) {
    !line.isOption && line.key == header
  }

  /** A line that leaves an open list mode open: an option line or a list item. */
  predicate KeepsMode(line: LineInfo) {
    line.isOption || line.isList
  }

  /** The list mode that `header` opens, as the scan state records it. */
  function Mode(st: ScanState, header: LineKey): bool {
    if header == ChecklistHeader then st.inChecklist else st.inPicnic
  }

  /** A list mode is open after `lines` when some header line for it is
      followed only by option lines and list items. */
  ghost predicate ModeOpen(lines: seq<LineInfo>, header: LineKey) {
    exists h :: 0 <= h < |lines| && IsHeader(lines[h], header) &&
      forall j :: h < j < |lines| ==> KeepsMode(lines[j])
  }

  /** The scan's two mode flags mean exactly `ModeOpen`. */
  lemma {:induction false} ModeMeaning(lines: seq<LineInfo>, header: LineKey)
    requires header == ChecklistHeader || header == PicnicHeader
    ensures Mode(ScanAll(lines), header) <==> ModeOpen(lines, header)
  {
    if |lines| > 0 {
      var n := |lines| - 1;
      var init := lines[..n];
      var line := lines[n];
      ModeMeaning(init, header);
      assert Mode(ScanAll(lines), header) ==
        if line.isOption then Mode(ScanAll(init), header)
        else if line.key == header then true
        else line.isList && Mode(ScanAll(init), header);
      if ModeOpen(lines, header) {
        var h :| 0 <= h < |lines| && IsHeader(lines[h], header) &&
          forall j :: h < j < |lines| ==> KeepsMode(lines[j]);
        if h < n && !IsHeader(line, header) {
          assert init[h] == lines[h];
          assert forall j :: h < j < |init| ==> init[j] == lines[j];
          assert ModeOpen(init, header);
        }
      }
      if IsHeader(line, header) {
        assert ModeOpen(lines, header);
      } else if KeepsMode(line) && ModeOpen(init, header) {
        var h :| 0 <= h < |init| && IsHeader(init[h], header) &&
          forall j :: h < j < |init| ==> KeepsMode(init[j]);
        assert lines[h] == init[h];
        assert forall j :: h < j < |lines| ==> KeepsMode(lines[j]) by {
          forall j | h < j < |lines| ensures KeepsMode(lines[j]) {
            if j < n { assert lines[j] == init[j]; }
          }
        }
      }
    }
  }

  // ---------------------------------------------------------------------
  // Where fields and picnic items come from

  /** A line that sets field `f`, given the lines before it: a top-level key
      anywhere, a checklist key only on a list item while the checklist is open. */
  ghost predicate SetsField(before: seq<LineInfo>, line: LineInfo, f: Field) {
    !line.isOption &&
    (line.key == Top(f) || (line.key == Checklist(f) && line.isList && ModeOpen(before, ChecklistHeader)))
  }

  /** The value the last line that sets `f` gives it. */
  ghost function FieldSource(lines: seq<LineInfo>, f: Field): Option<string> {
    if |lines| == 0 then None
    else
      var before := lines[..|lines| - 1];
      var line := lines[|lines| - 1];
      if SetsField(before, line, f) then Some(line.value) else FieldSource(before, f)
  }

  /** Later lines overwrite earlier ones: a field holds the value of the last line that sets it. */
  lemma {:induction false} FieldMeaning(lines: seq<LineInfo>, f: Field)
    ensures FieldOpt(ScanAll(lines).data, f) == FieldSource(lines, f)
  {
    if |lines| > 0 {
      var before := lines[..|lines| - 1];
      var line := lines[|lines| - 1];
      FieldMeaning(before, f);
      ModeMeaning(before, ChecklistHeader);
      assert FieldOpt(ScanAll(lines).data, f) ==
        if !line.isOption &&
           (line.key == Top(f) || (line.key == Checklist(f) && line.isList && ScanAll(before).inChecklist))
        then Some(line.value) else FieldOpt(ScanAll(before).data, f);
    }
  }

  /** A picnic item line: a list item whose key is not recognised at top
      level, read while the picnic list is open and the checklist is not. */
  ghost predicate IsPicnicItem(before: seq<LineInfo>, line: LineInfo) {
    && !line.isOption && line.isList
    && (line.key.Checklist? || line.key.Other?)
    && !ModeOpen(before, ChecklistHeader)
    && ModeOpen(before, PicnicHeader)
  }

  /** The items of the picnic item lines, in order. */
  ghost function PicnicSource(lines: seq<LineInfo>): seq<string> {
    if |lines| == 0 then []
    else
      var before := lines[..|lines| - 1];
      var line := lines[|lines| - 1];
      PicnicSource(before) + (if IsPicnicItem(before, line) then [line.item] else [])
  }

  lemma {:induction false} PicnicMeaning(lines: seq<LineInfo>)
    ensures ScanAll(lines).picnicItems == PicnicSource(lines)
  {
    if |lines| > 0 {
      var before := lines[..|lines| - 1];
      var line := lines[|lines| - 1];
      PicnicMeaning(before);
      ModeMeaning(before, ChecklistHeader);
      ModeMeaning(before, PicnicHeader);
      var st := ScanAll(before);
      assert ScanAll(lines).picnicItems ==
        st.picnicItems +
        (if !line.isOption && line.isList && (line.key.Checklist? || line.key.Other?) &&
            !st.inChecklist && st.inPicnic
         then [line.item] else []);
    }
  }

  /** Keys as `Classify` produces them: checklist keys never name a top-level field. */
  predicate KeySound(k: LineKey) {
    (k.Top? ==> IsTopField(k.field)) && (k.Checklist? ==> !IsTopField(k.item))
  }

  predicate AllKeysSound(lines: seq<LineInfo>) {
    forall j :: 0 <= j < |lines| ==> KeySound(lines[j].key)
  }

  lemma {:induction false} InfosSound(lines: seq<string>)
    ensures AllKeysSound(Infos(lines))
  {
  }

  /** The value of the last non-option line whose key names top-level field `f`. */
  function LastTopValue(lines: seq<LineInfo>, f: Field): Option<string> {
    if |lines| == 0 then None
    else
      var line := lines[|lines| - 1];
      if !line.isOption && line.key == Top(f) then Some(line.value)
      else LastTopValue(lines[..|lines| - 1], f)
  }

  /** A top-level field is set by its own key on any line, list item or not,
      whatever the list modes: its value is that of the last such line. */
  lemma {:induction false} TopFieldLastWins(lines: seq<LineInfo>, f: Field)
    requires IsTopField(f) && AllKeysSound(lines)
    ensures FieldOpt(ScanAll(lines).data, f) == LastTopValue(lines, f)
  {
    FieldMeaning(lines, f);
    TopSourceIsLast(lines, f);
  }

  lemma {:induction false} TopSourceIsLast(lines: seq<LineInfo>, f: Field)
    requires IsTopField(f) && AllKeysSound(lines)
    ensures FieldSource(lines, f) == LastTopValue(lines, f)
  {
    if |lines| > 0 {
      var before := lines[..|lines| - 1];
      assert KeySound(lines[|lines| - 1].key);
      TopSourceIsLast(before, f);
    }
  }

  /** No `Essentials Checklist` header, no dress code, noise level or seating. */
  lemma {:induction false} ChecklistNeedsHeader(lines: seq<LineInfo>, f: Field)
    requires !IsTopField(f) && AllKeysSound(lines)
    requires forall j :: 0 <= j < |lines| ==> !IsHeader(lines[j], ChecklistHeader)
    ensures FieldOpt(ScanAll(lines).data, f) == None
  {
    FieldMeaning(lines, f);
    NoHeaderNoSource(lines, f);
  }

  lemma {:induction false} NoHeaderNoSource(lines: seq<LineInfo>, f: Field)
    requires !IsTopField(f) && AllKeysSound(lines)
    requires forall j :: 0 <= j < |lines| ==> !IsHeader(lines[j], ChecklistHeader)
    ensures FieldSource(lines, f) == None
  {
    if |lines| > 0 {
      var before := lines[..|lines| - 1];
      assert KeySound(lines[|lines| - 1].key);
      NoHeaderNoSource(before, f);
    }
  }

  /** No `Picnic Essentials` header, no picnic items. */
  lemma {:induction false} PicnicNeedsHeader(lines: seq<LineInfo>)
    requires forall j :: 0 <= j < |lines| ==> !IsHeader(lines[j], PicnicHeader)
    ensures ScanAll(lines).picnicItems == []
  {
    if |lines| > 0 {
      var before := lines[..|lines| - 1];
      PicnicNeedsHeader(before);
      ModeMeaning(before, PicnicHeader);
    }
  }

  /** Lines with no recognised key change nothing. */
  lemma {:induction false} UnrecognisedLinesChangeNothing(lines: seq<LineInfo>)
    requires forall j :: 0 <= j < |lines| ==> lines[j].isOption || lines[j].key == Other
    ensures ScanAll(lines) == InitialScan
  {
    if |lines| > 0 {
      UnrecognisedLinesChangeNothing(lines[..|lines| - 1]);
    }
  }

  // ---------------------------------------------------------------------
  // Plans

  /** `value || fallback` on an optional value. */
  function OptOr(o: Option<string>, fallback: string): string {
    if o.Some? && o.value != "" then o.value else fallback
  }

  lemma {:induction false} FieldOrOptOr(d: map<Field, string>, f: Field, fallback: string)
    ensures FieldOr(d, f, fallback) == OptOr(FieldOpt(d, f), fallback)
  {
  }

  /** A plan's title, location and description, each read off the last line naming it. */
  lemma {:induction false} PlanHeadline(segment: string, index: nat)
    ensures var p := PlanOf(segment, index);
      var lines := Infos(LinesOf(segment));
      && p.title == OptOr(LastTopValue(lines, Title), NotAvailable)
      && p.location == OptOr(LastTopValue(lines, Location), NotAvailable)
      && p.description == OptOr(LastTopValue(lines, Description), NoDescription)
  {
    var lines := Infos(LinesOf(segment));
    var d := ScanAll(lines).data;
    assert PlanOf(segment, index) == Finish(segment, index, ScanAll(lines));
    InfosSound(LinesOf(segment));
    FieldOrOptOr(d, Title, NotAvailable);
    FieldOrOptOr(d, Location, NotAvailable);
    FieldOrOptOr(d, Description, NoDescription);
    TopFieldLastWins(lines, Title);
    TopFieldLastWins(lines, Location);
    TopFieldLastWins(lines, Description);
  }

  /** A plan's rating, opening hours, cost and pro tip, each read off the last line naming it. */
  lemma {:induction false} PlanDetails(segment: string, index: nat)
    ensures var p := PlanOf(segment, index);
      var lines := Infos(LinesOf(segment));
      && p.rating == OptOr(LastTopValue(lines, Rating), NotAvailable)
      && p.openingHours == OptOr(LastTopValue(lines, OpeningHours), NotAvailable)
      && p.cost == OptOr(LastTopValue(lines, Cost), NotAvailable)
      && p.proTip == OptOr(LastTopValue(lines, ProTip), NotAvailable)
  {
    var lines := Infos(LinesOf(segment));
    var d := ScanAll(lines).data;
    assert PlanOf(segment, index) == Finish(segment, index, ScanAll(lines));
    InfosSound(LinesOf(segment));
    FieldOrOptOr(d, Rating, NotAvailable);
    FieldOrOptOr(d, OpeningHours, NotAvailable);
    FieldOrOptOr(d, Cost, NotAvailable);
    FieldOrOptOr(d, ProTip, NotAvailable);
    TopFieldLastWins(lines, Rating);
    TopFieldLastWins(lines, OpeningHours);
    TopFieldLastWins(lines, Cost);
    TopFieldLastWins(lines, ProTip);
  }

  /** A plan's ride cost and weather: the last line naming each, or none at all
      (these two have no fallback text). */
  lemma {:induction false} PlanOptionalFields(segment: string, index: nat)
    ensures var p := PlanOf(segment, index);
      var lines := Infos(LinesOf(segment));
      && p.estimatedRideCost == LastTopValue(lines, EstimatedRideCost)
      && p.weather == LastTopValue(lines, Weather)
  {
    var lines := Infos(LinesOf(segment));
    InfosSound(LinesOf(segment));
    TopFieldLastWins(lines, EstimatedRideCost);
    TopFieldLastWins(lines, Weather);
  }

  /** A plan's category is the last category line's value when that is a
      supported vibe, and the empty string otherwise. */
  lemma {:induction false} PlanCategory(segment: string, index: nat)
    ensures var p := PlanOf(segment, index);
      var c := LastTopValue(Infos(LinesOf(segment)), Category);
      && p.category in SupportedVibes
      && p.category == (if c.Some? && c.value in SupportedVibes then c.value else "")
  {
    var lines := Infos(LinesOf(segment));
    InfosSound(LinesOf(segment));
    TopFieldLastWins(lines, Category);
    FinishCategory(segment, index, ScanAll(lines));
  }

  lemma {:induction false} FinishCategory(segment: string, index: nat, st: ScanState)
    ensures var c := FieldOpt(st.data, Category);
      Finish(segment, index, st).category == (if c.Some? && c.value in SupportedVibes then c.value else "")
  {
  }

  /** The checklist fields and the picnic list of a parsed plan. */
  lemma {:induction false} PlanListFields(segment: string, index: nat)
    ensures var p := PlanOf(segment, index);
      var lines := Infos(LinesOf(segment));
      && p.dressCode == OptOr(FieldSource(lines, DressCode), NotAvailable)
      && p.noiseLevel == OptOr(FieldSource(lines, NoiseLevel), NotAvailable)
      && p.seating == OptOr(FieldSource(lines, Seating), NotAvailable)
      && p.picnicEssentials == (if PicnicSource(lines) == [] then None else Some(PicnicSource(lines)))
  {
    var lines := Infos(LinesOf(segment));
    var st := ScanAll(lines);
    assert PlanOf(segment, index) == Finish(segment, index, st);
    FinishLists(segment, index, st);
    FieldMeaning(lines, DressCode);
    FieldMeaning(lines, NoiseLevel);
    FieldMeaning(lines, Seating);
    PicnicMeaning(lines);
  }

  lemma {:induction false} FinishLists(segment: string, index: nat, st: ScanState)
    ensures var p := Finish(segment, index, st);
      && p.dressCode == OptOr(FieldOpt(st.data, DressCode), NotAvailable)
      && p.noiseLevel == OptOr(FieldOpt(st.data, NoiseLevel), NotAvailable)
      && p.seating == OptOr(FieldOpt(st.data, Seating), NotAvailable)
      && p.picnicEssentials == (if st.picnicItems == [] then None else Some(st.picnicItems))
  {
    FieldOrOptOr(st.data, DressCode, NotAvailable);
    FieldOrOptOr(st.data, NoiseLevel, NotAvailable);
    FieldOrOptOr(st.data, Seating, NotAvailable);
  }

  /** The plan of a segment none of whose lines carries a recognised key. */
  function DefaultPlan(segment: string, index: nat): (p: ParsedPlan)
    ensures p.title == NotAvailable && p.description == NoDescription && p.category == ""
  {
    ParsedPlan(
      id := PlanId(index + 1, NotAvailable, NotAvailable),
      rawContent := segment, title := NotAvailable, imageUrl := "", imageStatus := Fallback,
      parseWarnings := [], reasoning := None, category := "", location := NotAvailable,
      rating := NotAvailable, openingHours := NotAvailable, description := NoDescription,
      cost := NotAvailable, proTip := NotAvailable, dressCode := NotAvailable,
      noiseLevel := NotAvailable, seating := NotAvailable, picnicEssentials := None,
      estimatedRideCost := None, weather := None)
  }

  /** A segment without recognised keys still yields a plan, made of the fallbacks. */
  lemma {:induction false} UnrecognisedSegmentGivesDefaults(segment: string, index: nat)
    requires forall l :: l in LinesOf(segment) ==> IsOptionLine(l) || Classify(CleanKey(l)) == Other
    ensures PlanOf(segment, index) == DefaultPlan(segment, index)
  {
    var lines := LinesOf(segment);
    UnrecognisedInfos(lines);
    UnrecognisedLinesChangeNothing(Infos(lines));
    FinishInitial(segment, index);
  }

  lemma {:induction false} UnrecognisedInfos(lines: seq<string>)
    requires forall l :: l in lines ==> IsOptionLine(l) || Classify(CleanKey(l)) == Other
    ensures forall j :: 0 <= j < |Infos(lines)| ==> Infos(lines)[j].isOption || Infos(lines)[j].key == Other
  {
    var infos := Infos(lines);
    forall j | 0 <= j < |infos| ensures infos[j].isOption || infos[j].key == Other {
      assert lines[j] in lines;
      AnalyzeParts(lines[j]);
    }
  }

  lemma {:induction false} AnalyzeParts(line: string)
    ensures var info := Analyze(line);
      && info.isOption == IsOptionLine(line) && info.isList == IsListLine(line)
      && info.key == Classify(CleanKey(line)) && info.value == CleanValue(line)
  {
  }

  /** Finishing with no field set gives the fallbacks. */
  lemma {:induction false} FinishInitial(segment: string, index: nat)
    ensures Finish(segment, index, InitialScan) == DefaultPlan(segment, index)
  {
    var d: map<Field, string> := map[];
    assert InitialScan.data == d;
    assert Category !in d;
  }

  /** Every plan has a title, a location, a description and the other text
      fields (the fallbacks are non-empty), a supported category, no empty
      picnic list, and the fallback image. */
  lemma {:induction false} PlanFieldsNeverEmpty(segment: string, index: nat)
    ensures var p := PlanOf(segment, index);
      && p.rawContent == segment
      && p.category in SupportedVibes
      && p.title != "" && p.location != "" && p.rating != "" && p.openingHours != ""
      && p.description != "" && p.cost != "" && p.proTip != ""
      && p.dressCode != "" && p.noiseLevel != "" && p.seating != ""
      && (p.picnicEssentials.Some? ==> |p.picnicEssentials.value| > 0)
      && p.imageUrl == "" && p.imageStatus == Fallback && p.parseWarnings == []
  {
  }

  // ---------------------------------------------------------------------
  // Render keys

  lemma {:induction false} LowerKeepsDigits(d: string)
    requires AllDigits(d)
    ensures Lower(d) == d
  {
  }

  lemma {:induction false} CollapseDigitsPrefix(d: string, t: string)
    requires AllDigits(d)
    ensures Collapse(d + t) == d + Collapse(t)
  {
    if d != [] {
      var s := d + t;
      assert s[0] == d[0] && IsDigit(d[0]);
      assert s[1..] == d[1..] + t;
      assert Collapse(s) == [s[0]] + Collapse(s[1..]);
      CollapseDigitsPrefix(d[1..], t);
      assert d + Collapse(t) == [d[0]] + (d[1..] + Collapse(t));
    } else {
      assert d + t == t;
    }
  }

  /** Before the trailing hyphens are dropped: the ordinal's digits, then the
      collapsed rest, which starts with a hyphen. */
  lemma {:induction false} IdCore(ordinal: nat, title: string, location: string)
    ensures var d := Decimal(ordinal);
      var tail := Collapse(Lower("-" + title + "-" + location));
      && Collapse(Lower(d + "-" + title + "-" + location)) == d + tail
      && |tail| > 0 && tail[0] == '-'
  {
    var d := Decimal(ordinal);
    var rest := "-" + title + "-" + location;
    assert d + "-" + title + "-" + location == d + rest;
    LowerAppend(d, rest);
    LowerKeepsDigits(d);
    assert Lower(rest)[0] == '-';
    CollapseDigitsPrefix(d, Lower(rest));
  }

  lemma {:induction false} SlugAfterDigits(d: string, tail: string)
    requires AllDigits(d) && IsSlug(tail)
    ensures IsSlug(d + tail)
  {
  }

  /** Dropping the trailing hyphens of a slug keeps a slug and any prefix that ends in a non-hyphen. */
  lemma {:induction false} TrimHyphenEndKeeps(c: string, k: nat)
    requires IsSlug(c) && 0 < k <= |c| && c[k - 1] != '-'
    ensures var r := TrimHyphenEnd(c); IsSlug(r) && k <= |r| && r[..k] == c[..k]
  {
  }

  /** A plan's render key is a slug (lower-case letters, digits and single
      hyphens, no hyphen at the end) that starts with its 1-based ordinal,
      followed by a hyphen or nothing. */
  lemma {:induction false} PlanIdShape(ordinal: nat, title: string, location: string)
    ensures var id := PlanId(ordinal, title, location);
      var d := Decimal(ordinal);
      && IsSlug(id) && |id| >= |d| && id[..|d|] == d
      && (|id| == |d| || id[|d|] == '-')
      && id[|id| - 1] != '-'
  {
    var d := Decimal(ordinal);
    IdCore(ordinal, title, location);
    var tail := Collapse(Lower("-" + title + "-" + location));
    var c := d + tail;
    SlugAfterDigits(d, tail);
    assert TrimHyphenStart(c) == c;
    TrimHyphenEndKeeps(c, |d|);
    var id := TrimHyphenEnd(c);
    assert id == PlanId(ordinal, title, location);
    assert id[..|d|] == d;
    assert |id| > |d| ==> id[|d|] == c[|d|] == tail[0];
  }

  /** Two digit strings that each start `id` and are each followed there by a
      hyphen or the end are the same string. */
  lemma {:induction false} DigitPrefixUnique(id: string, a: string, b: string)
    requires AllDigits(a) && AllDigits(b)
    requires |a| <= |id| && id[..|a|] == a && (|id| == |a| || id[|a|] == '-')
    requires |b| <= |id| && id[..|b|] == b && (|id| == |b| || id[|b|] == '-')
    ensures a == b
  {
  }

  /** `id` starts with the decimal rendering of `n`, followed by a hyphen or nothing. */
  predicate NumberedBy(id: string, n: nat) {
    var d := Decimal(n);
    |d| <= |id| && id[..|d|] == d && (|id| == |d| || id[|d|] == '-')
  }

  /** Different numbers have different decimal renderings. */
  lemma {:induction false} DecimalInjective(m: nat, n: nat)
    requires m != n
    ensures Decimal(m) != Decimal(n)
  {
    DecimalValue(m);
    DecimalValue(n);
  }

  /** Keys numbered by different ordinals differ. */
  lemma {:induction false} NumberedDistinct(id1: string, id2: string, m: nat, n: nat)
    requires m != n && NumberedBy(id1, m) && NumberedBy(id2, n)
    ensures id1 != id2
  {
    DecimalInjective(m, n);
    if id1 == id2 {
      DigitPrefixUnique(id1, Decimal(m), Decimal(n));
    }
  }

  lemma {:induction false} IdNumbered(id: string, ordinal: nat, title: string, location: string)
    requires id == PlanId(ordinal, title, location)
    ensures NumberedBy(id, ordinal)
  {
    PlanIdShape(ordinal, title, location);
  }

  /** Plans at different positions never share a render key, whatever their titles and locations. */
  lemma {:induction false} PlanIdsDistinct(m: nat, n: nat, title1: string, location1: string, title2: string, location2: string)
    requires m != n
    ensures PlanId(m, title1, location1) != PlanId(n, title2, location2)
  {
    var id1, id2 := PlanId(m, title1, location1), PlanId(n, title2, location2);
    IdNumbered(id1, m, title1, location1);
    IdNumbered(id2, n, title2, location2);
    NumberedDistinct(id1, id2, m, n);
  }

  // ---------------------------------------------------------------------
  // The whole response

  /** The k-th parsed plan is the k-th segment parsed at position k. */
  lemma {:induction false} PlansInOrder(content: string)
    ensures var r := PlansOf(content);
      && |r.plans| == |Segments(content)|
      && forall k :: 0 <= k < |r.plans| ==> r.plans[k] == PlanOf(Segments(content)[k], k)
  {
    MapIndexedIndex(PlanOf, Segments(content));
  }

  /** The plan parsed at 0-based `index` carries the ordinal `index + 1` in its key. */
  lemma {:induction false} PlanIdOf(segment: string, index: nat)
    ensures var p := PlanOf(segment, index); p.id == PlanId(index + 1, p.title, p.location)
  {
  }

  lemma {:induction false} PlanNumbered(segment: string, index: nat)
    ensures NumberedBy(PlanOf(segment, index).id, index + 1)
  {
    var p := PlanOf(segment, index);
    PlanIdOf(segment, index);
    IdNumbered(p.id, index + 1, p.title, p.location);
  }

  /** A list whose `k`-th key is numbered `k + 1` has no repeated key. */
  lemma {:induction false} NumberedPlansDistinct(plans: seq<ParsedPlan>)
    requires forall k :: 0 <= k < |plans| ==> NumberedBy(plans[k].id, k + 1)
    ensures forall i, j :: 0 <= i < j < |plans| ==> plans[i].id != plans[j].id
  {
    forall i, j | 0 <= i < j < |plans| ensures plans[i].id != plans[j].id {
      NumberedDistinct(plans[i].id, plans[j].id, i + 1, j + 1);
    }
  }

  /** No two plans of one response share a render key. */
  lemma {:induction false} ParsedIdsDistinct(content: string)
    ensures var plans := PlansOf(content).plans;
      forall i, j :: 0 <= i < j < |plans| ==> plans[i].id != plans[j].id
  {
    var segs := Segments(content);
    var plans := PlansOf(content).plans;
    PlansInOrder(content);
    forall k | 0 <= k < |plans| ensures NumberedBy(plans[k].id, k + 1) {
      PlanNumbered(segs[k], k);
    }
    NumberedPlansDistinct(plans);
  }

  /** Trimming text that starts with `pat` (whose ends are not whitespace)
      keeps it a prefix of the text that starts with `pat`. */
  lemma {:induction false} TrimKeepsLeadingPattern(x: string, pat: string)
    requires |pat| > 0 && !IsSpace(pat[0]) && !IsSpace(pat[|pat| - 1]) && StartsWith(x, pat)
    ensures var r := Trim(x); |pat| <= |r| && r == x[..|r|] && r[..|pat|] == pat
  {
    TrimStartKeeps(x);
    TrimEndKeeps(x, |pat|);
  }

  /** A longer pattern that starts with `pat` and occurs where `pat` first
      occurs first occurs there too. */
  lemma {:induction false} FirstOccurrenceOfExtension(s: string, pat: string, ext: string, m: nat)
    requires IndexOf(s, pat) == Some(m) && StartsWith(ext, pat) && OccursAt(s, ext, m)
    ensures IndexOf(s, ext) == Some(m)
  {
    forall j: nat | j < m ensures !OccursAt(s, ext, j) {
      ExtensionOccurs(s, pat, ext, j);
    }
    IndexOfIs(s, ext, m);
  }

  /** Where a pattern occurs, so does each of its prefixes. */
  lemma {:induction false} ExtensionOccurs(s: string, pat: string, ext: string, j: nat)
    requires StartsWith(ext, pat)
    ensures OccursAt(s, ext, j) ==> OccursAt(s, pat, j)
  {
    if OccursAt(s, ext, j) {
      assert s[j..j + |pat|] == ext[..|pat|];
    }
  }

  /** The recommendation is the trimmed text from the first `Recommendation:`
      on, and the options are read only from the text before it. */
  lemma {:induction false} RecommendationSplit(content: string)
    ensures IndexOf(content, RecommendationMarker).None? ==>
      RecommendationOf(content).None? && PlansContent(content) == content
    ensures IndexOf(content, RecommendationMarker).Some? ==>
      var m := IndexOf(content, RecommendationMarker).value;
      && RecommendationOf(content) == Some(Trim(content[m..]))
      && StartsWith(Trim(content[m..]), RecommendationMarker)
      && PlansContent(content) == content[..m]
  {
    match IndexOf(content, RecommendationMarker)
    case None =>
    case Some(m) =>
      RecommendationText(content, m);
      OptionsBeforeRecommendation(content, m);
  }

  /** The recommendation starts with its marker and first occurs where the
      marker first does. */
  lemma {:induction false} RecommendationText(content: string, m: nat)
    requires IndexOf(content, RecommendationMarker) == Some(m)
    ensures RecommendationOf(content) == Some(Trim(content[m..]))
    ensures StartsWith(Trim(content[m..]), RecommendationMarker)
    ensures IndexOf(content, Trim(content[m..])) == Some(m)
  {
    var pat := RecommendationMarker;
    assert |pat| > 0 && !IsSpace(pat[0]) && !IsSpace(pat[|pat| - 1]);
    TrimmedTailFromPattern(content, pat, m);
  }

  /** The trimmed text from the first occurrence of a pattern without blanks
      at its ends starts with the pattern and first occurs there too. */
  lemma {:induction false} TrimmedTailFromPattern(content: string, pat: string, m: nat)
    requires |pat| > 0 && !IsSpace(pat[0]) && !IsSpace(pat[|pat| - 1])
    requires IndexOf(content, pat) == Some(m)
    ensures StartsWith(Trim(content[m..]), pat)
    ensures IndexOf(content, Trim(content[m..])) == Some(m)
  {
    TailStartsWith(content, pat, m);
    TrimKeepsLeadingPattern(content[m..], pat);
    TailPrefixOccurs(content, m, Trim(content[m..]));
    FirstOccurrenceOfExtension(content, pat, Trim(content[m..]), m);
  }

  lemma {:induction false} TailStartsWith(s: string, pat: string, m: nat)
    requires OccursAt(s, pat, m)
    ensures StartsWith(s[m..], pat)
  {
    SuffixPrefix(s, m, |pat|);
  }

  lemma {:induction false} TailPrefixOccurs(s: string, m: nat, p: string)
    requires m <= |s| && |p| <= |s[m..]| && p == s[m..][..|p|]
    ensures OccursAt(s, p, m)
  {
    SuffixPrefix(s, m, |p|);
  }

  /** The options are read from the text before the recommendation. */
  lemma {:induction false} OptionsBeforeRecommendation(content: string, m: nat)
    requires IndexOf(content, RecommendationMarker) == Some(m)
    ensures PlansContent(content) == content[..m]
  {
    RecommendationText(content, m);
    var rec := Trim(content[m..]);
    assert rec != "";
    SplitAtFirst(content, rec, m);
  }

  /** The pieces of any text split on `sep`, trimmed, empty ones dropped, are
      non-empty, trimmed and free of `sep`. */
  lemma {:induction false} CleanPieces(s: string, sep: string)
    requires |sep| > 0
    ensures forall seg :: seg in NonEmpty(TrimAll(Split(s, sep))) ==> seg != "" && Clean(seg, sep)
  {
    var parts := Split(s, sep);
    var trimmed := TrimAll(parts);
    SplitPartsAvoidSeparator(s, sep);
    forall k | 0 <= k < |trimmed| ensures Clean(trimmed[k], sep) {
      CleanPiece(parts[k], sep);
    }
    forall seg | seg in NonEmpty(trimmed) ensures seg != "" && Clean(seg, sep) {
      assert seg in trimmed;
    }
  }

  predicate Clean(x: string, sep: string) {
    Trim(x) == x && !Contains(x, sep)
  }

  lemma {:induction false} CleanPiece(piece: string, sep: string)
    requires !Contains(piece, sep)
    ensures Clean(Trim(piece), sep)
  {
    TrimIdempotent(piece);
    TrimNotContains(piece, sep);
  }

  /** Every option segment is non-empty, trimmed and free of `---`. */
  lemma {:induction false} SegmentsClean(content: string)
    ensures forall seg :: seg in Segments(content) ==>
      seg != "" && Trim(seg) == seg && !Contains(seg, OptionSeparator)
  {
    CleanPieces(PlansContent(content), OptionSeparator);
  }

  // ---------------------------------------------------------------------
  // The final plan: option text, separator, travel forecast

  /** Splitting `a`, the separator and `b` gives back `a` and `b`, when `a` has
      no `---` and `b` has no separator of its own. */
  lemma {:induction false} FinalPlanRoundTrip(a: string, b: string)
    requires !Contains(a, OptionSeparator) && !Contains(b, FinalSeparator)
    ensures SplitFinalPlan(a + FinalSeparator + b) == FinalPlanSections(a, b)
  {
    var s := a + FinalSeparator + b;
    var n := |FinalSeparator|;
    assert s[|a|..|a| + n] == FinalSeparator;
    forall j: nat | j < |a| ensures !OccursAt(s, FinalSeparator, j) {
      NoEarlyFinalSeparator(a, b, j);
    }
    IndexOfIs(s, FinalSeparator, |a|);
    assert s[..|a|] == a;
    assert s[|a| + n..] == b;
    assert UpTo(b, FinalSeparator) == b;
  }

  /** Before the end of `a`, no final separator starts: it would put a `---`
      inside `a` or a line break where `a` still has a dash. */
  lemma {:induction false} NoEarlyFinalSeparator(a: string, b: string, j: nat)
    requires !Contains(a, OptionSeparator) && j < |a|
    ensures !OccursAt(a + FinalSeparator + b, FinalSeparator, j)
  {
    var s := a + FinalSeparator + b;
    var n := |FinalSeparator|;
    assert FinalSeparator == ['\n', '\n', '-', '-', '-', '\n'];
    if j + n <= |s| {
      if j + 5 <= |a| {
        assert !OccursAt(a, OptionSeparator, j + 2);
        assert s[j + 2..j + 5] == a[j + 2..j + 5];
        assert FinalSeparator[2..5] == OptionSeparator;
        MismatchNoOccurrence(s, FinalSeparator, j, 2, 3);
      } else if j + 2 >= |a| {
        // the separator's dash at offset 2 would sit on one of its own line breaks
        var p := j + 2;
        assert s[p] == FinalSeparator[p - |a|];
        assert p - |a| == 0 || p - |a| == 1;
        assert s[p] == '\n';
        assert s[j + 2..j + 3][0] != FinalSeparator[2..3][0];
        MismatchNoOccurrence(s, FinalSeparator, j, 2, 1);
      } else {
        // the separator's first line break sits on a dash
        var off := |a| - j;
        assert off == 3 || off == 4;
        assert s[|a|] == FinalSeparator[0] == '\n';
        assert s[j + off..j + off + 1][0] != FinalSeparator[off..off + 1][0];
        MismatchNoOccurrence(s, FinalSeparator, j, off, 1);
      }
    }
  }

  /** An option's text, joined to any travel forecast the way the final plan
      is built, splits back into the two. */
  lemma {:induction false} ParsedPlanSurvivesComposition(content: string, k: nat, travel: string)
    requires k < |PlansOf(content).plans| && !Contains(travel, FinalSeparator)
    ensures var raw := PlansOf(content).plans[k].rawContent;
      SplitFinalPlan(raw + FinalSeparator + travel) == FinalPlanSections(raw, travel)
  {
    PlansInOrder(content);
    SegmentsClean(content);
    var seg := Segments(content)[k];
    assert seg in Segments(content);
    FinalPlanRoundTrip(seg, travel);
  }
}
