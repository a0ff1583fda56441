/** The plan text parser: turns the loosely formatted, `---`-separated option
    text produced by the text-generation service into `ParsedPlan` records and
    an optional recommendation; splits a final-plan composite into its plan and
    travel parts; and looks up single `Key: value` fields. */
module PlanParser {
  import opened Basics
  import opened Text

  // ---------------------------------------------------------------------
  // Records

  /** The vibe categories a plan may carry (the empty string is the
      "unknown vibe"). Any other parsed category becomes the empty string. */
  const SupportedVibes: set<string> := {
    "Relax & Unwind", "Food & Nightlife", "Sports & Games", "Active & Adventure",
    "Movies & Plays", "Romantic Date", "Picnic & Parks", ""
  }

  datatype ImageStatus = External | Fallback

  datatype ParsedPlan = ParsedPlan(
    id: string,
    rawContent: string,
    title: string,
    imageUrl: string,
    imageStatus: ImageStatus,
    parseWarnings: seq<string>,
    reasoning: Option<string>,
    category: string,
    location: string,
    rating: string,
    openingHours: string,
    description: string,
    cost: string,
    proTip: string,
    dressCode: string,
    noiseLevel: string,
    seating: string,
    picnicEssentials: Option<seq<string>>,
    estimatedRideCost: Option<string>,
    weather: Option<string>)

  datatype ParsedTravelDetails = ParsedTravelDetails(
    distance: string, travelTime: string, traffic: string, weather: string)

  /** What `parsePlans` returns. */
  datatype ParsedOptions = ParsedOptions(plans: seq<ParsedPlan>, recommendation: Option<string>)

  datatype FinalPlanSections = FinalPlanSections(planSection: string, travelSection: string)

  const NotAvailable := "N/A"
  const NoDescription := "No description available."
  const Undetermined := "Could not be determined"
  const RecommendationMarker := "Recommendation:"
  const OptionSeparator := "---"
  /** The separator between the chosen plan and its travel forecast in a final plan. */
  const FinalSeparator := "\n\n---\n"

  // ---------------------------------------------------------------------
  // The anatomy of one line

  /** The text before the first `:` (the whole line when there is none). */
  function KeyPart(line: string): string {
    Split(line, ":")[0]
  }

  /** The text after the first `:`, its later colons kept, trimmed. */
  function ValuePart(line: string): string {
    Trim(Join(Split(line, ":")[1..], ":"))
  }

  /** A section header such as `OPTION 1`: its key mentions "option" in any case. */
  predicate IsOptionLine(line: string) {
    Contains(Lower(Trim(KeyPart(line))), "option")
  }

  /** A list item: the trimmed line starts with `-` or `*`. */
  predicate IsListLine(line: string) {
    var t := Trim(line);
    |t| > 0 && (t[0] == '-' || t[0] == '*')
  }

  /** `replace(/^[-*]+/, '')`. */
  function StripMarkers(s: string): (r: string)
    ensures |r| <= |s| && r == s[|s| - |r|..]
    ensures r == [] || (r[0] != '-' && r[0] != '*')
  {
    if |s| > 0 && (s[0] == '-' || s[0] == '*') then StripMarkers(s[1..]) else s
  }

  /** The key with list markers and emphasis stars removed, trimmed. */
  function CleanKey(line: string): string {
    Trim(RemoveChar(StripMarkers(KeyPart(line)), '*'))
  }

  /** The value with emphasis stars removed, trimmed. */
  function CleanValue(line: string): string {
    Trim(RemoveChar(ValuePart(line), '*'))
  }

  /** A picnic item: the line without its first character, trimmed. */
  function PicnicItem(line: string): string {
    Trim(if |line| == 0 then "" else line[1..])
  }

  // ---------------------------------------------------------------------
  // The line scan: fields collected so far and the two list modes

  /** The plan fields a line can set. */
  datatype Field =
    | Title | Category | Location | Rating | OpeningHours | Description | Cost
    | EstimatedRideCost | Weather | ProTip | DressCode | NoiseLevel | Seating

  /** What a cleaned key announces: a field recognised on any line, a field
      recognised only on checklist items, one of the two list headers, or nothing. */
  datatype LineKey = Top(field: Field) | Checklist(item: Field) | ChecklistHeader | PicnicHeader | Other

  /** The fields any line may set; the other three are checklist items. */
  predicate IsTopField(f: Field) {
    !(f.DressCode? || f.NoiseLevel? || f.Seating?)
  }

  /** The `switch (cleanKey)` of the line loop, with the checklist's inner switch. */
  function Classify(key: string): (k: LineKey)
    ensures k.Top? ==> IsTopField(k.field)
    ensures k.Checklist? ==> !IsTopField(k.item)
  {
    if key == "Title" then Top(Title)
    else if key == "Category" then Top(Category)
    else if key == "Location" then Top(Location)
    else if key == "Rating" then Top(Rating)
    else if key == "Opening Hours" then Top(OpeningHours)
    else if key == "Description" then Top(Description)
    else if key == "Cost" then Top(Cost)
    else if key == "Estimated Ride Cost" then Top(EstimatedRideCost)
    else if key == "Weather" then Top(Weather)
    else if key == "Pro-Tip" then Top(ProTip)
    else if key == "Essentials Checklist" then ChecklistHeader
    else if key == "Picnic Essentials" then PicnicHeader
    else if key == "Dress Code" then Checklist(DressCode)
    else if key == "Noise Level" then Checklist(NoiseLevel)
    else if key == "Seating" then Checklist(Seating)
    else Other
  }

  /** What the line loop needs to know about one line. */
  datatype LineInfo = LineInfo(isOption: bool, isList: bool, key: LineKey, value: string, item: string)

  function Analyze(line: string): LineInfo {
    LineInfo(IsOptionLine(line), IsListLine(line), Classify(CleanKey(line)), CleanValue(line), PicnicItem(line))
  }

  /** The analysis of each line, in order. */
  function Infos(lines: seq<string>): (r: seq<LineInfo>)
    ensures |r| == |lines|
    ensures forall i :: 0 <= i < |lines| ==> r[i] == Analyze(lines[i])
  {
    seq(|lines|, i requires 0 <= i < |lines| => Analyze(lines[i]))
  }

  /** The state the line loop carries from one line to the next: the fields
      set so far (`data`), the two list modes and the picnic items. */
  datatype ScanState = ScanState(data: map<Field, string>, inChecklist: bool, inPicnic: bool, picnicItems: seq<string>)

  const InitialScan := ScanState(map[], false, false, [])

  /** One turn of the line loop: option lines are skipped; any other line
      that is not a list item closes both list modes; then the key decides. */
  function Step(st: ScanState, line: LineInfo): ScanState {
    if line.isOption then st
    else
      var st1 := if line.isList then st else st.(inChecklist := false, inPicnic := false);
      match line.key
      case Top(f) => st1.(data := st1.data[f := line.value])
      case ChecklistHeader => st1.(inChecklist := true)
      case PicnicHeader => st1.(inPicnic := true)
      case Checklist(f) =>
        if st1.inChecklist && line.isList then st1.(data := st1.data[f := line.value])
        else if st1.inPicnic && line.isList then st1.(picnicItems := st1.picnicItems + [line.item])
        else st1
      case Other =>
        if st1.inChecklist && line.isList then st1
        else if st1.inPicnic && line.isList then st1.(picnicItems := st1.picnicItems + [line.item])
        else st1
  }

  /** The state after the lines described by `infos`, read in order. */
  function ScanAll(infos: seq<LineInfo>): ScanState {
    if |infos| == 0 then InitialScan
    else Step(ScanAll(infos[..|infos| - 1]), infos[|infos| - 1])
  }

  lemma {:induction false} ScanAllStep(lines: seq<string>, i: nat)
    requires i < |lines|
    ensures ScanAll(Infos(lines[..i + 1])) == Step(ScanAll(Infos(lines[..i])), Analyze(lines[i]))
  {
    InfosPrefix(lines[..i + 1], i);
    assert lines[..i + 1][..i] == lines[..i];
  }

  /** Analysing a prefix gives the prefix of the analyses. */
  lemma {:induction false} InfosPrefix(lines: seq<string>, k: nat)
    requires k <= |lines|
    ensures Infos(lines)[..k] == Infos(lines[..k])
  {
    var a, b := Infos(lines)[..k], Infos(lines[..k]);
    forall j | 0 <= j < k ensures a[j] == b[j] {
      assert lines[..k][j] == lines[j];
    }
  }

  /** The lines of a segment that are not blank. */
  function NonBlankLines(lines: seq<string>): (r: seq<string>)
    ensures forall l :: l in r <==> l in lines && Trim(l) != ""
  {
    if lines == [] then []
    else (if Trim(lines[0]) == "" then [] else [lines[0]]) + NonBlankLines(lines[1..])
  }

  function LinesOf(segment: string): seq<string> {
    NonBlankLines(Split(segment, "\n"))
  }

  // ---------------------------------------------------------------------
  // Building a plan record

  /** `data.field || fallback`: a missing or empty field takes the fallback. */
  function FieldOr(data: map<Field, string>, f: Field, fallback: string): string {
    if f in data && data[f] != "" then data[f] else fallback
  }

  /** `data.field` as it stands: present or not. */
  function FieldOpt(data: map<Field, string>, f: Field): Option<string> {
    if f in data then Some(data[f]) else None
  }

  predicate IsSlugChar(c: char) {
    ('a' <= c <= 'z') || ('0' <= c <= '9')
  }

  predicate IsSlug(s: string) {
    && (forall i :: 0 <= i < |s| ==> IsSlugChar(s[i]) || s[i] == '-')
    && (forall i :: 0 <= i < |s| - 1 ==> !(s[i] == '-' && s[i + 1] == '-'))
  }

  /** Drops a leading run of characters outside `[a-z0-9]`. */
  function SkipRun(s: string): (r: string)
    ensures |r| <= |s| && r == s[|s| - |r|..]
    ensures r == [] || IsSlugChar(r[0])
  {
    if |s| > 0 && !IsSlugChar(s[0]) then SkipRun(s[1..]) else s
  }

  /** `replace(/[^a-z0-9]+/g, '-')`: each maximal run outside `[a-z0-9]` becomes one hyphen. */
  function Collapse(s: string): (r: string)
    ensures IsSlug(r)
    ensures s == [] <==> r == []
    ensures s != [] && IsSlugChar(s[0]) ==> r[0] == s[0]
    ensures s != [] && !IsSlugChar(s[0]) ==> r[0] == '-'
    decreases |s|
  {
    if s == [] then []
    else if IsSlugChar(s[0]) then [s[0]] + Collapse(s[1..])
    else "-" + Collapse(SkipRun(s[1..]))
  }

  /** `replace(/^-+/, '')`. */
  function TrimHyphenStart(s: string): (r: string)
    ensures |r| <= |s| && r == s[|s| - |r|..]
    ensures r == [] || r[0] != '-'
    ensures s != [] && s[0] != '-' ==> r == s
  {
    if |s| > 0 && s[0] == '-' then TrimHyphenStart(s[1..]) else s
  }

  /** `replace(/-+$/, '')`. */
  function TrimHyphenEnd(s: string): (r: string)
    ensures |r| <= |s| && r == s[..|r|]
    ensures forall i :: |r| <= i < |s| ==> s[i] == '-'
    ensures r == [] || r[|r| - 1] != '-'
  {
    if |s| > 0 && s[|s| - 1] == '-' then TrimHyphenEnd(s[..|s| - 1]) else s
  }

  /** The render key of the plan at 1-based position `ordinal`. */
  function PlanId(ordinal: nat, title: string, location: string): string {
    TrimHyphenEnd(TrimHyphenStart(Collapse(Lower(Decimal(ordinal) + "-" + title + "-" + location))))
  }

  /** The record built from a segment once all its lines are scanned. */
  function Finish(segment: string, index: nat, st: ScanState): ParsedPlan {
    var d := st.data;
    var category := if Category in d && d[Category] != "" && d[Category] in SupportedVibes
                    then d[Category] else "";
    var title := FieldOr(d, Title, NotAvailable);
    var location := FieldOr(d, Location, NotAvailable);
    ParsedPlan(
      id := PlanId(index + 1, title, location),
      rawContent := segment,
      title := title,
      imageUrl := "",
      imageStatus := Fallback,
      parseWarnings := [],
      reasoning := None,
      category := category,
      location := location,
      rating := FieldOr(d, Rating, NotAvailable),
      openingHours := FieldOr(d, OpeningHours, NotAvailable),
      description := FieldOr(d, Description, NoDescription),
      cost := FieldOr(d, Cost, NotAvailable),
      proTip := FieldOr(d, ProTip, NotAvailable),
      dressCode := FieldOr(d, DressCode, NotAvailable),
      noiseLevel := FieldOr(d, NoiseLevel, NotAvailable),
      seating := FieldOr(d, Seating, NotAvailable),
      picnicEssentials := if |st.picnicItems| > 0 then Some(st.picnicItems) else None,
      estimatedRideCost := FieldOpt(d, EstimatedRideCost),
      weather := FieldOpt(d, Weather))
  }

  /** The plan parsed from the segment at 0-based position `index`. */
  function PlanOf(segment: string, index: nat): ParsedPlan {
    Finish(segment, index, ScanAll(Infos(LinesOf(segment))))
  }

  // ---------------------------------------------------------------------
  // parsePlans

  /** The trimmed text from the first `Recommendation:` to the end. */
  function RecommendationOf(content: string): Option<string> {
    match IndexOf(content, RecommendationMarker)
    case None => None
    case Some(m) => Some(Trim(content[m..]))
  }

  /** The text the options are read from: what precedes the recommendation,
      found by splitting the input on the recommendation text itself. */
  function PlansContent(content: string): string {
    match RecommendationOf(content)
    case None => content
    case Some(rec) => if rec == "" then content else Split(content, rec)[0]
  }

  /** The option segments: the `---`-separated pieces, trimmed, empty ones dropped. */
  function Segments(content: string): seq<string> {
    NonEmpty(TrimAll(Split(PlansContent(content), OptionSeparator)))
  }

  /** `parsePlans` as a function of its input. */
  function PlansOf(content: string): ParsedOptions {
    ParsedOptions(MapIndexed(PlanOf, Segments(content)), RecommendationOf(content))
  }

  /** `parsePlans`: each segment mapped to its plan, in order. */
  method ParsePlans(content: string) returns (r: ParsedOptions)
    ensures r == PlansOf(content)
  {
    var plans := ParseSegments(Segments(content));
    r := ParsedOptions(plans, RecommendationOf(content));
  }

  /** The `map` over the segments: each one parsed with its position. */
  method ParseSegments(segs: seq<string>) returns (plans: seq<ParsedPlan>)
    ensures plans == MapIndexed(PlanOf, segs)
  {
    plans := [];
    var k := 0;
    while k < |segs|
      invariant 0 <= k <= |segs|
      invariant plans == MapIndexed(PlanOf, segs[..k])
    {
      var p := ParsePlan(segs[k], k);
      MapIndexedStep(PlanOf, segs, k);
      plans := plans + [p];
      k := k + 1;
    }
    TakeAll(segs);
  }

  /** The body of `parsePlans`' per-segment callback: the non-blank lines are
      read one by one, each turn updating the collected fields, the two list
      modes and the picnic items as `Step` says. */
  method ParsePlan(segment: string, index: nat) returns (p: ParsedPlan)
    ensures p == PlanOf(segment, index)
  {
    var lines := LinesOf(segment);
    var data: map<Field, string> := map[];
    var inChecklist := false;
    var inPicnic := false;
    var picnicItems: seq<string> := [];
    var i := 0;
    while i < |lines|
      invariant 0 <= i <= |lines|
      invariant ScanState(data, inChecklist, inPicnic, picnicItems) == ScanAll(Infos(lines[..i]))
    {
      ScanAllStep(lines, i);
      var next := Step(ScanState(data, inChecklist, inPicnic, picnicItems), Analyze(lines[i]));
      data, inChecklist, inPicnic, picnicItems := next.data, next.inChecklist, next.inPicnic, next.picnicItems;
      i := i + 1;
    }
    TakeAll(lines);
    p := Finish(segment, index, ScanState(data, inChecklist, inPicnic, picnicItems));
  }

  // ---------------------------------------------------------------------
  // Other lookups

  /** `parseTravelDetails`' `getDetail`: the rest of the line after the first
      `name:` and any whitespace, trimmed. */
  function Detail(content: string, name: string): (r: string)
    ensures r == Undetermined || ('\n' !in r && '\r' !in r && Trim(r) == r)
    ensures !Contains(content, name + ":") ==> r == Undetermined
  {
    DetailAfterKeyClean(content, name + ":");
    DetailAfterKey(content, name + ":")
  }

  /** The line after the first occurrence of `key`, or the fallback. */
  function DetailAfterKey(content: string, key: string): string {
    match IndexOf(content, key)
    case None => Undetermined
    case Some(i) => LineAfter(content[i + |key|..])
  }

  lemma {:induction false} DetailAfterKeyClean(content: string, key: string)
    ensures var r := DetailAfterKey(content, key);
      r == Undetermined || ('\n' !in r && '\r' !in r && Trim(r) == r)
    ensures !Contains(content, key) ==> DetailAfterKey(content, key) == Undetermined
  {
    match IndexOf(content, key)
    case None =>
    case Some(i) =>
      DetailAt(content, key, i);
      LineAfterClean(content[i + |key|..]);
  }

  /** Where the key is found, the line after it. */
  lemma {:induction false} DetailAt(content: string, key: string, i: nat)
    requires IndexOf(content, key) == Some(i)
    ensures i + |key| <= |content|
    ensures DetailAfterKey(content, key) == LineAfter(content[i + |key|..])
  {
  }

  /** A line read by `LineAfter` holds no line break and is trimmed. */
  lemma {:induction false} LineAfterClean(s: string)
    ensures '\n' !in LineAfter(s) && '\r' !in LineAfter(s) && Trim(LineAfter(s)) == LineAfter(s)
  {
    LineAfterIsTrim(s);
    RestOfLineShape(TrimStart(s));
    TrimmedLine(RestOfLine(TrimStart(s)));
  }

  /** Trimming a line gives a trimmed line. */
  lemma {:induction false} TrimmedLine(line: string)
    requires '\n' !in line && '\r' !in line
    ensures '\n' !in Trim(line) && '\r' !in Trim(line) && Trim(Trim(line)) == Trim(line)
  {
    TrimIdempotent(line);
    TrimKeepsChars(line, '\n');
    TrimKeepsChars(line, '\r');
  }

  /** `\s*([^\n\r]*)` read from the start of `s`, trimmed: the leading
      blanks are skipped one by one, so only the trailing ones are left to
      drop (`LineAfterIsTrim`). */
  function LineAfter(s: string): string
    decreases |s|
  {
    if s != [] && IsSpace(s[0]) then LineAfter(s[1..]) else TrimEnd(RestOfLine(s))
  }

  /** `LineAfter` is the `trim` of the captured line. */
  lemma {:induction false} LineAfterIsTrim(s: string)
    ensures LineAfter(s) == Trim(RestOfLine(TrimStart(s)))
    decreases |s|
  {
    if s != [] && IsSpace(s[0]) {
      LineAfterIsTrim(s[1..]);
      assert TrimStart(s) == TrimStart(s[1..]);
    } else {
      TrimStartKeeps(s);
      var line := RestOfLine(s);
      RestOfLineShape(s);
      if line != [] {
        assert line[0] == s[0];
      }
      TrimStartKeeps(line);
    }
  }

  /** The text up to the first line break. */
  function RestOfLine(s: string): string
    decreases |s|
  {
    if s == [] || s[0] == '\n' || s[0] == '\r' then [] else [s[0]] + RestOfLine(s[1..])
  }

  /** The rest of a line is a prefix without line breaks, ended by one or by the end. */
  lemma {:induction false} RestOfLineShape(s: string)
    ensures var r := RestOfLine(s);
      && |r| <= |s| && r == s[..|r|]
      && '\n' !in r && '\r' !in r
      && (|r| == |s| || s[|r|] == '\n' || s[|r|] == '\r')
    decreases |s|
  {
    if !(s == [] || s[0] == '\n' || s[0] == '\r') {
      RestOfLineShape(s[1..]);
      var r' := RestOfLine(s[1..]);
      assert RestOfLine(s) == [s[0]] + r';
      assert s[..|r'| + 1] == [s[0]] + s[1..][..|r'|];
    }
  }

  /** `parseTravelDetails`: nothing unless the text mentions `Travel Estimate`;
      each of the four fields is looked up on its own. */
  function ParseTravelDetails(content: string): (r: Option<ParsedTravelDetails>)
    ensures r.None? <==> !Contains(content, "Travel Estimate")
  {
    if content == "" || !Contains(content, "Travel Estimate") then None
    else Some(ParsedTravelDetails(
      distance := Detail(content, "Distance"),
      travelTime := Detail(content, "Travel Time"),
      traffic := Detail(content, "Traffic"),
      weather := Detail(content, "Weather Forecast")))
  }

  /** The first line at or after `from` whose trimmed form starts with `prefix`. */
  function FirstLineStarting(lines: seq<string>, prefix: string, from: nat): (r: Option<nat>)
    requires from <= |lines|
    ensures r.Some? ==> from <= r.value < |lines|
    decreases |lines| - from
  {
    if from == |lines| then None
    else if StartsWith(Trim(lines[from]), prefix) then Some(from)
    else FirstLineStarting(lines, prefix, from + 1)
  }

  /** The line found is the first from `from` on whose trimmed form starts
      with `prefix`; when none is found, no such line exists. */
  lemma {:induction false} FirstLineStartingSound(lines: seq<string>, prefix: string, from: nat)
    requires from <= |lines|
    ensures var r := FirstLineStarting(lines, prefix, from);
      && (r.Some? ==> StartsWith(Trim(lines[r.value]), prefix))
      && (r.Some? ==> forall j {:trigger StartsWith(Trim(lines[j]), prefix)} ::
            from <= j < r.value ==> !StartsWith(Trim(lines[j]), prefix))
      && (r.None? ==> forall j {:trigger StartsWith(Trim(lines[j]), prefix)} ::
            from <= j < |lines| ==> !StartsWith(Trim(lines[j]), prefix))
    decreases |lines| - from
  {
    if from < |lines| && !StartsWith(Trim(lines[from]), prefix) {
      FirstLineStartingSound(lines, prefix, from + 1);
    }
  }

  /** `s.replace(pat, rep)` with a string pattern: the first occurrence only. */
  function ReplaceFirst(s: string, pat: string, rep: string): string {
    match IndexOf(s, pat)
    case None => s
    case Some(i) => s[..i] + rep + s[i + |pat|..]
  }

  /** `getPlanField`. */
  function GetPlanField(rawPlan: string, key: string): string {
    var lines := Split(rawPlan, "\n");
    match FirstLineStarting(lines, key + ":", 0)
    case None => ""
    case Some(k) => Trim(ReplaceFirst(lines[k], key + ":", ""))
  }

  /** `getTitleFromPlan`. */
  function GetTitleFromPlan(planText: string): (r: string)
    ensures r != ""
    ensures GetPlanField(planText, "Title") != "" ==> r == GetPlanField(planText, "Title")
    ensures GetPlanField(planText, "Title") == "" ==> r == "Vibe Plan"
  {
    var title := GetPlanField(planText, "Title");
    if title != "" then title else "Vibe Plan"
  }

  /** `getDestinationFromPlan`. */
  function GetDestinationFromPlan(planText: string): (r: Option<string>)
    ensures r.None? <==> GetPlanField(planText, "Location") == ""
    ensures r.Some? ==> r.value == GetPlanField(planText, "Location")
  {
    var destination := GetPlanField(planText, "Location");
    if destination != "" then Some(destination) else None
  }

  /** `splitFinalPlan`. */
  function SplitFinalPlan(content: string): (r: FinalPlanSections)
    ensures r.planSection == UpTo(content, FinalSeparator)
    ensures !Contains(content, FinalSeparator) ==> r.travelSection == ""
    ensures Contains(content, FinalSeparator) ==>
      var i := IndexOf(content, FinalSeparator).value;
      r.travelSection == UpTo(content[i + |FinalSeparator|..], FinalSeparator)
  {
    var parts := Split(content, FinalSeparator);
    SplitFinal(content);
    FinalPlanSections(parts[0], if |parts| > 1 then parts[1] else "")
  }

  lemma {:induction false} SplitFinal(content: string)
    ensures Split(content, FinalSeparator)[0] == UpTo(content, FinalSeparator)
    ensures Contains(content, FinalSeparator) ==>
      var i := IndexOf(content, FinalSeparator).value;
      |Split(content, FinalSeparator)| > 1 &&
      Split(content, FinalSeparator)[1] == UpTo(content[i + |FinalSeparator|..], FinalSeparator)
  {
    if Contains(content, FinalSeparator) {
      var i := IndexOf(content, FinalSeparator).value;
      var rest := content[i + |FinalSeparator|..];
      assert Split(content, FinalSeparator) == [content[..i]] + Split(rest, FinalSeparator);
      if Contains(rest, FinalSeparator) {
        var j := IndexOf(rest, FinalSeparator).value;
        assert Split(rest, FinalSeparator) == [rest[..j]] + Split(rest[j + |FinalSeparator|..], FinalSeparator);
      }
    }
  }

  /** `getRecommendedPlanTitle`: the trimmed text between the first and the
      second colon of the recommendation, when there is any. */
  function GetRecommendedPlanTitle(recommendation: Option<string>): (r: Option<string>)
    ensures recommendation.None? ==> r.None?
    ensures r.Some? ==> r.value != "" && Trim(r.value) == r.value && ':' !in r.value
  {
    if recommendation.None? || recommendation.value == "" then None
    else
      var parts := Split(recommendation.value, ":");
      if |parts| < 2 then None
      else
        SecondPieceClean(recommendation.value);
        var t := Trim(parts[1]);
        if t == "" then None else Some(t)
  }

  lemma {:induction false} SecondPieceClean(s: string)
    requires |Split(s, ":")| >= 2
    ensures Trim(Trim(Split(s, ":")[1])) == Trim(Split(s, ":")[1])
    ensures ':' !in Trim(Split(s, ":")[1])
  {
    var piece := Split(s, ":")[1];
    assert !Contains(piece, ":") by {
      SplitPartsAvoidSeparator(s, ":");
    }
    TrimIdempotent(piece);
    TrimNotContains(piece, ":");
    ContainsChar(Trim(piece), ':');
  }
}
