# Accra Vibe Planner: a verified model of the planning core

Accra Vibe Planner is a web app that helps people plan an outing in Accra.
It asks a short questionnaire and gets two or three plan options from a text
generator, written in a loose `Key: value` format. The user picks one and
gives a starting point. The app then adds a travel forecast, saves the final
plan in the history and shows it as cards. Free users wait a minute between
plans. Paid users buy a subscription that covers 5 or 150 plans.

This project models the logic behind that flow in Dafny and proves what it
promises:

- **Plan text parser** (`plan_parser.dfy`, `plan_parser_facts.dfy`,
  `plan_lookup_facts.dfy`):
  - `parsePlans` is a method whose line loop is proved equal to a fold of a
    per-line step function over the lines. That step has a small
    list-mode state machine.
  - Also modelled: the travel-detail lookup, `getPlanField` with the title and
    destination readers, `splitFinalPlan` and `getRecommendedPlanTitle`.
  - Lemmas:
    - what each field of a parsed plan means, line by line;
    - the fallbacks;
    - the shape of the render key, and that keys are distinct;
    - how the recommendation is cut off;
    - the final-plan round trip.
- **Question flow** (`questions.dfy`, `questions_facts.dfy`): `getQuestions`
  builds the list by pushes and timing-option filters. Lemmas state which
  questions appear, in which order, and which timings are offered for a
  romantic date's meal at a given hour.
- **Planner hook** (`vibe_planner.dfy`, `planner_facts.dfy`): the class
  `Planner` holds the hook's state. Its methods change that state like the
  handlers do. Browser storage is a map from the app's keys to strings, and
  the clock is a parameter. Lemmas cover:
  - when starting a plan goes straight in and when it is rate limited;
  - what activating a subscription records;
  - what delivering a plan counts;
  - that the picked clock time reads back.
- **Date and time helpers** (`date_time.dfy`): `getDurationHours` and the
  locale-free branches of `formatIntendedTime`.
- **Plan cards** (`plan_display.dfy`, `cost_medians.dfy`):
  - the image-URL test, the opening-hours confidence, the numeric cost, the
    rating digit, the short location and the recommended badge;
  - the per-category median cost over the saved history. It is computed by
    methods that are proved against a functional definition. The median is
    proved to lie within the costs and not to depend on their order.
- **Questionnaire screen** (`questionnaire.dfy`): the review summary, the
  must-have multi-select (a small class), the 12-to-24-hour conversion, the
  review step and the Edit targets, and the summary chips.
- **App shell** (`app.dfy`): the class `App`, with rating a saved plan, the
  start-up theme and the theme toggle.

Shared pieces:

- `basics.dfy`: `Option` and `Result`.
- `text.dfy`: the JavaScript string operations the code relies on, such as
  `trim`, `split`, `join`, `indexOf`, `includes`, ASCII `toLowerCase`,
  `toString` and `parseInt`.
- `hangout.dfy`: the answers record and saved plans.
- `config.dfy`: storage keys, billing plans and the cooldown.

## Where the model follows the code rather than the written specification

- **Image fields.** A parsed plan always has an empty image URL, the
  `fallback` image status and no parse warnings
  (domain/planner/planParser.ts:151-153). The image-URL check in that file is
  never called. The model follows the code.
- **Recommended title.** `getRecommendedPlanTitle` returns the trimmed text
  between the first and the second colon, not the whole rest after the first
  one (domain/planner/planParser.ts:215). `PlanLookupFacts.RecommendedTitleBetweenColons`
  states this.
- **Keys on list lines.** The top-level keys (`Title`, `Location` and the
  rest) are matched on list lines too, whatever the list mode
  (domain/planner/planParser.ts:75-108). See `PlanParserFacts.TopFieldLastWins`.
- **Title round trip.** The parser keeps the *last* `Title:` line, while
  `getPlanField` reads the *first* one. So
  `getPlanField(plan.rawContent, "Title") == plan.title` holds for a plan made
  of one clean title line (`PlanLookupFacts.TitleLineRoundTrip`). It fails for
  two title lines (`PlanLookupFacts.TitleReadersDisagree`).
- **Exhausted subscription.** An active subscription that has used up its
  plans is not blocked for good. Once no free-plan cooldown is pending,
  starting a plan takes the free path and resets the stored count to `"0"`
  (hooks/useVibePlanner.ts:130-163). The next delivered plan then counts as
  a paid one again. `PlannerFacts.ExhaustedSubscriptionRenews` states this
  behaviour as written.
- **Rate-limit wait.** The wait is `cooldown - elapsed`. It is positive, and
  it is at most the cooldown only when the stored timestamp is not in the
  future (`PlannerFacts.RateLimited`).

## Model

| member | source | states |
|---|---|---|
| Config.KeyNamesDistinct | config/appConfig.ts:1-8 | different keys have different names, so keying storage by the key enum loses nothing |
| Text.ParseIntString | hooks/useVibePlanner.ts:178-179 | `parseInt` reads back what `toString` wrote for any integer, as the stored expiry and count are |
| Text.ParsePadded2 | hooks/useVibePlanner.ts:223 | a zero-padded two-digit hour reads back as its value |
| Text.PadStart2 | hooks/useVibePlanner.ts:223 | `padStart(2, '0')` reaches length 2 and ends with the original text |
| Text.ParseIntSkipsSpace | hooks/useVibePlanner.ts:130 | `parseInt` skips exactly the leading whitespace before reading sign and digits |
| Text.SplitJoin | domain/planner/planParser.ts:65-66 | joining the pieces of a split with the separator gives the text back |
| Text.SplitAtFirst | domain/planner/planParser.ts:65-66 | the first piece is the text before the first separator and the rest, joined, is the text after it |
| Text.TrimIdempotent | domain/planner/planParser.ts:54 | trimming twice is trimming once |
| Text.TrimSlice | domain/planner/planParser.ts:54 | what `trim` leaves is a contiguous slice with no surrounding whitespace |
| Hangout.Param | hooks/useVibePlanner.ts:93-101 | each answer key reads a value of its own shape |
| Hangout.WithParam | hooks/useVibePlanner.ts:96 | `{ ...params, [key]: value }` sets that answer and keeps every other |
| Hangout.WithOwnParam | hooks/useVibePlanner.ts:96 | writing back an answer's own value changes nothing |
| Hangout.WithParamTwice | hooks/useVibePlanner.ts:96 | of two writes to one answer the later wins |
| Hangout.ParamsExtensional | hooks/useVibePlanner.ts:19-27 | two answer records that read alike under every key are the same record |
| PlanParser.StripMarkers | domain/planner/planParser.ts:75 | the result is a suffix of the key that no longer starts with `-` or `*` |
| PlanParser.Classify | domain/planner/planParser.ts:78-132 | top-level keys name top-level fields; checklist keys name only the three checklist fields |
| PlanParser.Infos | domain/planner/planParser.ts:64-76 | one analysis per line, in order |
| PlanParser.ScanAllStep | domain/planner/planParser.ts:64-133 | scanning one more line applies one loop step to the state so far |
| PlanParser.NonBlankLines | domain/planner/planParser.ts:57 | exactly the lines that are not blank once trimmed are kept |
| PlanParser.SkipRun | domain/planner/planParser.ts:144 | drops a leading run outside `[a-z0-9]`, leaving a suffix that starts inside it |
| PlanParser.Collapse | domain/planner/planParser.ts:144 | the result is a slug; it is empty iff the input is, and starts with the input's slug character or a hyphen |
| PlanParser.TrimHyphenStart | domain/planner/planParser.ts:145 | drops exactly the leading hyphens |
| PlanParser.TrimHyphenEnd | domain/planner/planParser.ts:145 | drops exactly the trailing hyphens |
| PlanParser.ParsePlans | domain/planner/planParser.ts:49-172 | the method's result equals the functional definition of `parsePlans` |
| PlanParser.ParseSegments | domain/planner/planParser.ts:56-169 | each segment is parsed with its 0-based position, in order |
| PlanParser.ParsePlan | domain/planner/planParser.ts:57-168 | the line loop with its flags and picnic array yields the plan of the fold over the lines |
| PlanParser.Detail | domain/planner/planParser.ts:177-181 | a travel detail is the undetermined text or a trimmed single line, and undetermined without its label |
| PlanParser.RestOfLineShape | domain/planner/planParser.ts:178 | `[^\n\r]*`: the longest prefix without a line break, ended by the text's end or a break |
| PlanParser.LineAfterIsTrim | domain/planner/planParser.ts:178-180 | the capture after `\s*`, trimmed, is the rest of the first non-blank line of the text with its blanks trimmed |
| PlanParser.LineAfterClean | domain/planner/planParser.ts:178-180 | what follows a label is a trimmed text without line breaks |
| PlanParser.ParseTravelDetails | domain/planner/planParser.ts:174-189 | there are no details iff the text lacks `Travel Estimate` |
| PlanParser.FirstLineStartingSound | domain/planner/planParser.ts:192 | finds the first line whose trimmed form starts with the prefix, or reports there is none |
| PlanParser.GetTitleFromPlan | domain/planner/planParser.ts:196-199 | never empty; the `Title` field when that is non-empty, `Vibe Plan` when it is empty |
| PlanParser.GetDestinationFromPlan | domain/planner/planParser.ts:201-204 | none iff the `Location` field is empty, else that field |
| PlanParser.SplitFinalPlan | domain/planner/planParser.ts:206-212 | the plan section is the text before the first separator; the travel section is empty without one, else the text up to the next separator |
| PlanParser.SplitFinal | domain/planner/planParser.ts:207-210 | the first split piece is the text before the separator, the second the text between the first two separators |
| PlanParser.GetRecommendedPlanTitle | domain/planner/planParser.ts:214-216 | none without a recommendation; any title is non-empty, trimmed and colon-free |
| PlanParser.SecondPieceClean | domain/planner/planParser.ts:215 | the trimmed second colon piece is trimmed and colon-free |
| PlanParserFacts.ModeMeaning | domain/planner/planParser.ts:70-73 | a list mode is open iff its header line was followed only by option lines and list items |
| PlanParserFacts.FieldMeaning | domain/planner/planParser.ts:78-127 | a field holds the value of the last line that sets it, and is unset when no line does |
| PlanParserFacts.PicnicMeaning | domain/planner/planParser.ts:128-130 | the picnic items are the picnic item lines' texts, in order |
| PlanParserFacts.InfosSound | domain/planner/planParser.ts:117-127 | no line's checklist key names a top-level field |
| PlanParserFacts.TopFieldLastWins | domain/planner/planParser.ts:78-108 | a top-level field is set by its key on any line, list item or not, and the last such line wins |
| PlanParserFacts.TopSourceIsLast | domain/planner/planParser.ts:78-108 | the last line setting a top-level field is the last line with its key |
| PlanParserFacts.ChecklistNeedsHeader | domain/planner/planParser.ts:109-127 | without an `Essentials Checklist` header, dress code, noise level and seating stay unset |
| PlanParserFacts.NoHeaderNoSource | domain/planner/planParser.ts:116 | without a checklist header, no line sets a checklist field |
| PlanParserFacts.PicnicNeedsHeader | domain/planner/planParser.ts:112-130 | without a `Picnic Essentials` header there are no picnic items |
| PlanParserFacts.UnrecognisedLinesChangeNothing | domain/planner/planParser.ts:115-131 | lines with no recognised key leave fields and items as they were |
| PlanParserFacts.FieldOrOptOr | domain/planner/planParser.ts:157-164 | `data.field \|\| fallback` is the fallback for a missing or empty field |
| PlanParserFacts.PlanHeadline | domain/planner/planParser.ts:140-159 | title, location and description come from the last line naming each, else `N/A` or the description fallback |
| PlanParserFacts.PlanDetails | domain/planner/planParser.ts:157-161 | rating, opening hours, cost and pro tip come from the last line naming each, else `N/A` |
| PlanParserFacts.PlanOptionalFields | domain/planner/planParser.ts:166-167 | ride cost and weather are the last line's value or absent |
| PlanParserFacts.PlanCategory | domain/planner/planParser.ts:139 | the category is the last category value when it is a supported vibe, else empty |
| PlanParserFacts.PlanListFields | domain/planner/planParser.ts:135-165 | checklist fields fall back to `N/A`; the picnic list is absent iff no items were read |
| PlanParserFacts.DefaultPlan | domain/planner/planParser.ts:147-168 | the all-fallback plan has the fixed fallback texts and the position-derived key |
| PlanParserFacts.UnrecognisedSegmentGivesDefaults | domain/planner/planParser.ts:140-165 | a segment without recognised keys parses to the all-fallback plan |
| PlanParserFacts.PlanFieldsNeverEmpty | domain/planner/planParser.ts:140-165 | every text field of a plan is non-empty, the image is the fallback and there are no warnings |
| PlanParserFacts.PlanIdShape | domain/planner/planParser.ts:142-145 | the key is a slug with no leading, trailing or doubled hyphen, starting with the ordinal's digits |
| PlanParserFacts.DecimalInjective | domain/planner/planParser.ts:142 | different ordinals render differently |
| PlanParserFacts.DigitPrefixUnique | domain/planner/planParser.ts:142-145 | the digit run that starts a key and ends at a hyphen or the end is unique |
| PlanParserFacts.PlanIdsDistinct | domain/planner/planParser.ts:142-145 | plans at different positions never share a key, whatever their titles and locations |
| PlanParserFacts.PlansInOrder | domain/planner/planParser.ts:56 | the k-th plan is the k-th segment parsed at position k |
| PlanParserFacts.ParsedIdsDistinct | domain/planner/planParser.ts:142-145 | no two plans of one response share a key |
| PlanParserFacts.NumberedPlansDistinct | domain/planner/planParser.ts:142-145 | plans whose keys carry their 1-based positions have pairwise different keys |
| PlanParserFacts.RecommendationSplit | domain/planner/planParser.ts:50-53 | the recommendation is the trimmed text from the first `Recommendation:` on, and the options come only from the text before it |
| PlanParserFacts.CleanPieces | domain/planner/planParser.ts:54 | trimmed, non-empty split pieces are free of the separator |
| PlanParserFacts.SegmentsClean | domain/planner/planParser.ts:54 | every option segment is non-empty, trimmed and free of `---` |
| PlanParserFacts.FinalPlanRoundTrip | domain/planner/planParser.ts:206-212 | splitting `a + separator + b` gives `(a, b)` when `a` has no `---` and `b` no separator |
| PlanParserFacts.ParsedPlanSurvivesComposition | hooks/useVibePlanner.ts:291 | an option's text, joined to travel details as the final plan is built, splits back into the two |
| PlanLookupFacts.KeyValueNoColon | domain/planner/planParser.ts:65-66 | a line without a colon is all key with an empty value |
| PlanLookupFacts.KeyValueAtColon | domain/planner/planParser.ts:65-66 | the key is the text before the first colon and the value the trimmed rest, later colons kept |
| PlanLookupFacts.KeyLineParts | domain/planner/planParser.ts:65-66 | `key: v` splits into `key` and `v` |
| PlanLookupFacts.KeyLineAnalysis | domain/planner/planParser.ts:68-76 | a clean `key: v` line is no list item, is classified by its key, and is an option line only when the key says so |
| PlanLookupFacts.KeyOnFirstLine | domain/planner/planParser.ts:191-194 | with a clean `key: v` first line, `getPlanField` reads `v` whatever follows |
| PlanLookupFacts.KeyLineScan | domain/planner/planParser.ts:64-133 | a one-line plan `key: v` for a top-level field records exactly `v` for it |
| PlanLookupFacts.TitleLineRoundTrip | domain/planner/planParser.ts:196-199 | a plan of the single line `Title: v` has title `v`, and `getTitleFromPlan` reads `v` back |
| PlanLookupFacts.TitleLineParsed | domain/planner/planParser.ts:79-80 | the single line `Title: v` parses to the title `v` |
| PlanLookupFacts.TitleLineRead | domain/planner/planParser.ts:196-199 | `getTitleFromPlan` reads `v` from the single line `Title: v` |
| PlanLookupFacts.TitleReadersDisagree | domain/planner/planParser.ts:191-194 | with two title lines the parser keeps the second title and `getPlanField` the first |
| PlanLookupFacts.TwoTitlesParsed | domain/planner/planParser.ts:79-80 | of two title lines the parser keeps the second |
| PlanLookupFacts.TwoTitlesRead | domain/planner/planParser.ts:191-199 | of two title lines `getTitleFromPlan` reads the first |
| PlanLookupFacts.PlanFieldReadsFirstLine | domain/planner/planParser.ts:191-194 | `getPlanField` is the trimmed text after `key:` on the first line that starts with it |
| PlanLookupFacts.PlanFieldAbsent | domain/planner/planParser.ts:191-194 | without such a line `getPlanField` gives the empty string |
| PlanLookupFacts.DetailReadsLine | domain/planner/planParser.ts:177-181 | at the first `name:`, the blanks after the colon (line breaks included) are skipped and the rest of that line, trimmed, is the detail |
| PlanLookupFacts.DetailBlankAfterColon | domain/planner/planParser.ts:177-181 | only blanks after the first `name:` give the empty detail |
| PlanLookupFacts.DetailAfterColonFreeText | domain/planner/planParser.ts:177-181 | `name: v` ended by a line break after colon-free text reads as `v` |
| PlanLookupFacts.RecommendedTitleBetweenColons | domain/planner/planParser.ts:214-216 | the recommended title is the trimmed text between the first and second colon, none when that is blank |
| Questions.Keep | utils/questions.ts:60-91 | a filter never lengthens the list |
| Questions.KeepMembers | utils/questions.ts:60-91 | a choice survives iff it was offered and its value is not ruled out |
| Questions.KeepIsSubsequence | utils/questions.ts:52-93 | the surviving choices keep their catalogue order |
| Questions.KeepTwice | utils/questions.ts:60-91 | two successive filters are one filter by both sets |
| Questions.KeepNothing | utils/questions.ts:52 | with nothing ruled out the copy is the catalogue |
| Questions.Keys | utils/questions.ts:25-108 | one key per question, in order |
| Questions.KeysAppend | utils/questions.ts:99-105 | pushing questions appends their keys |
| Questions.RemoveValue | utils/questions.ts:60-91 | one `filter` removes exactly the choices with that value |
| Questions.TimingOptions | utils/questions.ts:52-95 | the successive filters leave the catalogue minus the timings the meal and hour rule out |
| Questions.GetQuestions | utils/questions.ts:25-109 | the pushes build exactly the functional question list |
| QuestionFacts.QuickFlow | utils/questions.ts:31-106 | quick mode asks vibe, budget and timing in the Mood, Constraints and Logistics sections, and then at most the exact-time question |
| QuestionFacts.DetailedFlow | utils/questions.ts:27-45 | detailed mode opens with the vibe, asks the meal second iff the vibe is a romantic date, and the must-haves allow several answers |
| QuestionFacts.KeysOfBase | utils/questions.ts:31-45 | the base lists' keys |
| QuestionFacts.KeysInOrder | utils/questions.ts:25-108 | the full key order for any answers |
| QuestionFacts.KeyMembership | utils/questions.ts:39-106 | meal, crew size and exact time are asked exactly under their conditions |
| QuestionFacts.DateMealOnlyForRomance | utils/questions.ts:39 | the meal is asked iff detailed mode and a romantic date |
| QuestionFacts.GroupSizeOnlyForCrew | utils/questions.ts:47-49 | the crew size is asked iff detailed mode with the crew |
| QuestionFacts.SpecificQuestionLast | utils/questions.ts:102-106 | the exact-time question is last, a time for later today and a date-and-time for this week, and absent otherwise |
| QuestionFacts.TimingChoicesFollowRules | utils/questions.ts:52-100 | the detailed timing question offers the catalogue minus the ruled-out timings, in order |
| QuestionFacts.TimingUnfilteredUnlessRomanticMeal | utils/questions.ts:53 | outside a romantic date with a meal every timing is offered |
| QuestionFacts.HourRules | utils/questions.ts:56-93 | breakfast, brunch/lunch and dinner rule out `Right Now!` and `Later Today` at exactly the listed hours |
| DateTime.GetDurationHours | utils/dateTime.ts:59-66 | the duration is 2, 4, 5 or 8, and 2 for an absent or empty window |
| DateTime.DurationByFirstMarker | utils/dateTime.ts:61-65 | the first marker present decides the duration |
| DateTime.DurationOfLabel | utils/dateTime.ts:61-65 | a label carrying only one marker lasts the hours it names |
| DateTime.FormatIntendedTime | utils/dateTime.ts:3-36 | without a date it is `Right Now` iff the timing is `Right Now!`; today-at only for later today, a date only for this week, and empty for any other timing |
| DateTime.LaterTodayLabel | utils/dateTime.ts:11-19 | later today without a colon is empty; with one it hands the first two colon pieces on |
| DateTime.LaterTodayRoundTrip | utils/dateTime.ts:11-19 | `hours:minutes` hands exactly those two parts to the formatter |
| VibePlanner.CheckStart | hooks/useVibePlanner.ts:127-163 | the storage steps of a start compute the start decision |
| VibePlanner.RecordPlan | hooks/useVibePlanner.ts:295-304 | the storage steps after delivery compute the delivered-plan storage |
| VibePlanner.Planner.constructor | hooks/useVibePlanner.ts:19-42 | the hook starts on the welcome screen with the initial answers and step 0 |
| VibePlanner.Planner.OptionSelect | hooks/useVibePlanner.ts:93-101 | sets the one answer and moves one step on, nothing else changes |
| VibePlanner.Planner.Back | hooks/useVibePlanner.ts:103-111 | one step back, only above step 0 |
| VibePlanner.Planner.JumpToStep | hooks/useVibePlanner.ts:113-115 | the step becomes `max(0, step)` |
| VibePlanner.Planner.StartPlanning | hooks/useVibePlanner.ts:123-164 | admitted: new storage, mode defaults, gathering input; limited: new storage, the wait, rate-limited screen |
| VibePlanner.Planner.ActivateSubscription | hooks/useVibePlanner.ts:166-184 | storage records the plan, its expiry and the initial count; the questionnaire restarts |
| VibePlanner.Planner.PaymentVerified | hooks/useVibePlanner.ts:198-205 | a verified payment activates the plan as `activateSubscription` does; a failed one shows the error screen with the support message and changes nothing else |
| VibePlanner.Planner.ReceiveOptions | hooks/useVibePlanner.ts:81-91 | options shown on success; on failure the error screen with the message or the fallback message |
| VibePlanner.Planner.SpecificTimeSubmit | hooks/useVibePlanner.ts:218-236 | stores the date (or today) with the 24-hour padded clock time and moves one step on |
| VibePlanner.Planner.PlanSelect | hooks/useVibePlanner.ts:267-270 | remembers the plan and asks for a location |
| VibePlanner.Planner.LocationBack | hooks/useVibePlanner.ts:313-316 | forgets the plan and shows the options again |
| VibePlanner.Planner.LocationSubmit | hooks/useVibePlanner.ts:272-311 | does nothing without origin, time and plan; errors without a destination; else delivers |
| VibePlanner.Planner.Deliver | hooks/useVibePlanner.ts:286-311 | saves the composite plan, with its own id and save time, first in the history and storage and counts it, or shows the travel error |
| VibePlanner.Planner.Restart | hooks/useVibePlanner.ts:318-341 | initial answers, step 0, no plans or error, welcome screen; storage and history kept |
| PlannerFacts.ModeDefaults | hooks/useVibePlanner.ts:123-126 | the mode is recorded and the open-now flag cleared; quick mode fixes the window and the audience; every other answer is kept |
| PlannerFacts.ActiveUnderLimitUntouched | hooks/useVibePlanner.ts:130-142 | an active subscription under its limit starts without touching storage |
| PlannerFacts.StaleSubscriptionCleared | hooks/useVibePlanner.ts:143-147 | a set but inactive subscription loses all its keys; the count only returns as `"0"` on the free path |
| PlannerFacts.ExhaustedKept | hooks/useVibePlanner.ts:130-147 | an active subscription at its limit keeps status and expiry |
| PlannerFacts.RateLimited | hooks/useVibePlanner.ts:149-159 | blocked iff not admitted by subscription and the last free plan is less than a cooldown ago; the wait is positive and at most the cooldown |
| PlannerFacts.FreePathResets | hooks/useVibePlanner.ts:156-161 | the free path clears the timestamp and sets the count to `"0"` |
| PlannerFacts.ThemeUntouched | hooks/useVibePlanner.ts:123-184 | starting, activating and delivering leave the stored theme as it is |
| PlannerFacts.ActivationRecords | hooks/useVibePlanner.ts:166-179 | activation stores the code, an expiry the validity ahead, and count 1 after a free plan else 0 |
| PlannerFacts.ActivationAdmits | hooks/useVibePlanner.ts:130-184 | throughout the validity after activation a start goes straight in |
| PlannerFacts.PlanCounted | hooks/useVibePlanner.ts:298-300 | on an active subscription a delivered plan adds one to the count and keeps it active |
| PlannerFacts.FreePlanStartsCooldown | hooks/useVibePlanner.ts:149-155 | a free plan blocks every start in the next cooldown for exactly its rest |
| PlannerFacts.ExhaustedSubscriptionRenews | hooks/useVibePlanner.ts:130-163 | an exhausted subscription with no pending cooldown is admitted with the count reset to 0 |
| PlannerFacts.FullPlanSplits | hooks/useVibePlanner.ts:291 | the saved composite splits back into plan and travel details |
| PlannerFacts.ClockTimeReadsBack | hooks/useVibePlanner.ts:218-223 | for a picker setting the stored time starts with two digits reading as the 24-hour hour, then `:` and the minute |
| PlanDisplay.HttpSchemesAccepted | components/PlanDisplay.tsx:51 | any prefix that lower-cases to `http://` or `https://` is accepted, whatever follows |
| PlanDisplay.HttpUrlStartsWithHttp | components/PlanDisplay.tsx:51 | an accepted value starts with `http` in some case; other schemes are refused |
| PlanDisplay.OpeningConfidence | components/PlanDisplay.tsx:98-102 | low iff hours are `N/A` or say `Not available`; else high iff they contain `-`; else medium |
| PlanDisplay.MissingHoursLow | components/PlanDisplay.tsx:330-334 | a plan without an opening-hours line rates low |
| PlanDisplay.FirstDigit | components/PlanDisplay.tsx:299 | the position of the first digit, none iff digit-free |
| PlanDisplay.FirstDigitAfter | components/PlanDisplay.tsx:299 | after digit-free text the first digit is the next one |
| PlanDisplay.CostRun | components/PlanDisplay.tsx:299 | the longest prefix of digits and commas |
| PlanDisplay.CommasGone | components/PlanDisplay.tsx:301 | removing commas from such a run leaves only digits |
| PlanDisplay.CostToNumber | components/PlanDisplay.tsx:298-302 | no number iff the text has no digit |
| PlanDisplay.CostRunDigits | components/PlanDisplay.tsx:299 | a digit run followed by a non-cost character is the whole run |
| PlanDisplay.CostReadsDecimal | components/PlanDisplay.tsx:298-302 | a plain decimal price after a digit-free label reads back as its value |
| PlanDisplay.CostReadsRun | components/PlanDisplay.tsx:298-302 | the digit-and-comma run after a digit-free label is read with its commas removed |
| PlanDisplay.CostReadsGrouped | components/PlanDisplay.tsx:298-302 | a price with a thousands comma (`1,500`) reads as the number without the comma |
| PlanDisplay.FallbackCostHasNoNumber | components/PlanDisplay.tsx:313-314 | the fallback cost has no number |
| PlanDisplay.MissingCostHasNoNumber | components/PlanDisplay.tsx:313-314 | a plan without a cost line contributes no cost |
| PlanDisplay.RatingValue | components/PlanDisplay.tsx:89-90 | none iff digit-free; else one digit or `d.d` found at the first digit |
| PlanDisplay.RatingReads | components/PlanDisplay.tsx:89-90 | a one-decimal rating reads whole; a digit not followed by `.` reads alone |
| PlanDisplay.LocationShort | components/PlanDisplay.tsx:91 | a comma-free prefix of the location, the whole location when it has no comma |
| PlanDisplay.NotCommaBefore | components/PlanDisplay.tsx:91 | the text before the first comma has no comma |
| PlanDisplay.RecommendedTitleShape | components/PlanDisplay.tsx:282 | only a non-empty, trimmed, colon-free title can carry the badge, and only with a recommendation |
| PlanDisplay.RecommendedBetweenColons | components/PlanDisplay.tsx:282 | a card has the badge iff its title is the trimmed text between the recommendation's first two colons |
| CostMedians.Insert | components/PlanDisplay.tsx:320 | inserting keeps the run sorted and adds exactly the element |
| CostMedians.SortAsc | components/PlanDisplay.tsx:320 | the ascending sort is sorted and a permutation |
| CostMedians.SortedUnique | components/PlanDisplay.tsx:320 | sorted permutations of each other are equal |
| CostMedians.MedianWithinRange | components/PlanDisplay.tsx:320-322 | the median lies between the smallest and largest cost and is a cost for an odd count |
| CostMedians.MedianOfArrangement | components/PlanDisplay.tsx:320-322 | the median is the middle of any ascending arrangement for an odd count, the half-up mean of the two middles for an even count |
| CostMedians.MedianRank | components/PlanDisplay.tsx:320-322 | at most half the costs lie below the median and at most half above it |
| CostMedians.MedianOrderFree | components/PlanDisplay.tsx:320-322 | the median does not depend on the order of the costs |
| CostMedians.GroupedByCategory | components/PlanDisplay.tsx:315-316 | a category has a group iff it has a cost, and the group is its costs in history order |
| CostMedians.MediansByCategory | components/PlanDisplay.tsx:309-323 | a category has a median iff some entry contributes a cost to it, and it is their median |
| CostMedians.EntryCost | components/PlanDisplay.tsx:311-314 | an entry contributes its first plan's category and cost when the plan exists and the cost has a number |
| CostMedians.GroupHistory | components/PlanDisplay.tsx:309-317 | the `forEach` builds exactly the grouping of the contributions |
| CostMedians.GroupMedians | components/PlanDisplay.tsx:318-323 | one median per non-empty group |
| CostMedians.HistoryMedians | components/PlanDisplay.tsx:308-324 | the effect computes the medians of the grouped contributions |
| CostMedians.MedianCategoriesSupported | components/PlanDisplay.tsx:309-323 | medians are only ever kept under supported categories |
| CostMedians.GroupsNonEmpty | components/PlanDisplay.tsx:315-316 | every group holds at least one cost |
| Questionnaire.SummaryPairs | components/screens/Questionnaire.tsx:22-35 | eight rows with keys in the fixed order |
| Questionnaire.JoinEmpty | components/screens/Questionnaire.tsx:23 | joining non-empty must-haves is empty iff there are none |
| Questionnaire.MustHavesRow | components/screens/Questionnaire.tsx:23-33 | the placeholder when no must-have is set, else the set ones joined, which is non-empty |
| Questionnaire.SummaryShowsAnswers | components/screens/Questionnaire.tsx:22-35 | each row shows its answer when set, else its placeholder (`detailed`, `Not set`, `Flexible`, `Any distance`); the When row shows the formatted date when there is one |
| Questionnaire.SummaryHeadings | components/screens/Questionnaire.tsx:26-33 | the rows are headed Mode, Vibe, Budget, Audience, Timing, When, Travel and Must-haves, in that order |
| Questionnaire.SummaryNeverBlank | components/screens/Questionnaire.tsx:22-35 | with a formatted date every row shows a non-empty value |
| Questionnaire.Without | components/screens/Questionnaire.tsx:84 | removes exactly the occurrences of the value |
| Questionnaire.WithoutAbsent | components/screens/Questionnaire.tsx:84 | filtering out an absent value changes nothing |
| Questionnaire.WithoutAppend | components/screens/Questionnaire.tsx:84 | filtering distributes over concatenation |
| Questionnaire.WithoutTwice | components/screens/Questionnaire.tsx:84 | filtering out a value twice is filtering once |
| Questionnaire.Toggled | components/screens/Questionnaire.tsx:81-87 | membership of the value flips, every other item's membership is kept |
| Questionnaire.ToggleKeepsOthers | components/screens/Questionnaire.tsx:81-87 | the other items keep their order |
| Questionnaire.ToggleTwice | components/screens/Questionnaire.tsx:81-87 | toggling an absent value twice restores the list; a present one ends up once at the end |
| Questionnaire.MustHavePicker.Toggle | components/screens/Questionnaire.tsx:81-87 | the selection becomes the toggled selection |
| Questionnaire.Hour24 | components/screens/Questionnaire.tsx:93-97 | for picker values the hour lies in 0..23 |
| Questionnaire.Hour24RoundTrip | components/screens/Questionnaire.tsx:93-97 | the conversion is a bijection between the 24 picker settings and the 24 hours |
| Questionnaire.EditTarget | components/screens/Questionnaire.tsx:325 | the first question with the key, none iff no question asks it |
| Questionnaire.EditLeavesReview | components/screens/Questionnaire.tsx:325-332 | jumping to an Edit target leaves the review page for the question asking that answer |
| Questionnaire.VibeSummaryChips | components/screens/Questionnaire.tsx:103 | the set vibe, budget and timing, in that order |
| AppShell.RateHistory | App.tsx:83-95 | same length and order; entries with the id get the rating with everything else kept, others are untouched |
| AppShell.Rated | App.tsx:86 | the rated entry keeps id, text and save time and carries the new rating |
| AppShell.RateUnknownId | App.tsx:85-87 | rating an id no entry has changes nothing |
| AppShell.LatestRatingWins | App.tsx:85-87 | the later of two ratings of one entry wins |
| AppShell.RatingsCommute | App.tsx:85-87 | ratings of different entries do not interfere |
| AppShell.SameContentsSameContributions | App.tsx:85-87 | histories with the same plan texts give the same cost contributions |
| AppShell.RatingKeepsMedians | App.tsx:83-95 | rating a plan never changes the median costs per category |
| AppShell.ThemeName | App.tsx:72-78 | the persisted word is `dark` exactly for dark mode |
| AppShell.SavedThemeWins | App.tsx:49-52 | a saved theme decides the start-up theme, the system preference counts only without one, and a persisted toggle survives a reload |
| AppShell.App.constructor | App.tsx:48-66 | dark iff saved `dark`, or no saved theme and the system prefers dark; the stored history is loaded |
| AppShell.App.ToggleDarkMode | App.tsx:69-81 | flips the mode and persists the matching theme word |
| AppShell.App.RatePlan | App.tsx:83-95 | the history becomes the rated history and storage holds the same list |

## Specification functions

These functions define what the source computes and carry no contract of
their own; the lemmas named after each state what they mean.

- `PlanParser.GetPlanField` (domain/planner/planParser.ts:191-194):
  `PlanFieldReadsFirstLine`, `PlanFieldAbsent`, `KeyOnFirstLine`.
- `PlanParser.PlanOf` (domain/planner/planParser.ts:57-168): `PlanHeadline`,
  `PlanDetails`, `PlanOptionalFields`, `PlanCategory`, `PlanListFields`,
  `PlanFieldsNeverEmpty`, `PlanIdShape`.
- `PlanParser.PlansOf` and `PlanParser.Segments`
  (domain/planner/planParser.ts:49-172): `PlansInOrder`, `ParsedIdsDistinct`,
  `SegmentsClean`.
- `PlanParser.RecommendationOf` (domain/planner/planParser.ts:50-53):
  `RecommendationSplit`.
- `VibePlanner.StartDecision` and `VibePlanner.AfterSubscriptionCheck`
  (hooks/useVibePlanner.ts:127-163): `ActiveUnderLimitUntouched`,
  `StaleSubscriptionCleared`, `ExhaustedKept`, `RateLimited`,
  `FreePathResets`, `ExhaustedSubscriptionRenews`.
- `VibePlanner.WithModeDefaults` (hooks/useVibePlanner.ts:123-126):
  `ModeDefaults`.
- `VibePlanner.Activated` (hooks/useVibePlanner.ts:166-179):
  `ActivationRecords`, `ActivationAdmits`.
- `VibePlanner.AfterPlan` (hooks/useVibePlanner.ts:295-304): `PlanCounted`,
  `FreePlanStartsCooldown`.
- `VibePlanner.ClockTime` (hooks/useVibePlanner.ts:218-223):
  `ClockTimeReadsBack`.
- `Questions.QuestionsFor` (utils/questions.ts:25-109): `KeysInOrder`,
  `QuickFlow`, `DetailedFlow`, `KeyMembership`, `SpecificQuestionLast`,
  `TimingChoicesFollowRules`.
- `Questions.Blocked` (utils/questions.ts:56-93): `HourRules`.
- `PlanDisplay.IsHttpUrl` (components/PlanDisplay.tsx:51):
  `HttpSchemesAccepted`, `HttpUrlStartsWithHttp`.
- `PlanDisplay.IsRecommended` (components/PlanDisplay.tsx:282):
  `RecommendedTitleShape`, `RecommendedBetweenColons`.
- `CostMedians.MedianCost` (components/PlanDisplay.tsx:320-322):
  `MedianOfArrangement`, `MedianRank`, `MedianWithinRange`,
  `MedianOrderFree`.
- `CostMedians.EntryContribution`, `CostMedians.GroupCosts` and
  `CostMedians.MediansOf` (components/PlanDisplay.tsx:309-323): `EntryCost`,
  `GroupedByCategory`, `MediansByCategory`, `MedianCategoriesSupported`.
- `Questionnaire.IsReviewStep` (components/screens/Questionnaire.tsx:325-332):
  `EditLeavesReview`.
- `AppShell.InitialDark` (App.tsx:49-52): `SavedThemeWins`,
  `App.constructor`.

## Left out

- Network, AI and payment calls: the plan generator, the travel lookup and
  the payment provider. Their results enter the model as parameters
  (`ReceiveOptions`, `LocationSubmit`, `PaymentVerified`). Of
  `handlePaymentInitiation`, the model keeps what happens once the
  verification request returns (`PaymentVerified`); the price table it
  hands to the payment provider, the provider's modal, its `onClose`
  branch and the `alert`s are left out.
- `handleSurpriseMe`: it picks a random option and then calls the modelled
  option select. Randomness is outside the model.
- `handleFindCloser`: geolocation and a network request.
- `handleRegenerate`: it only calls `handleSubmit` again, whose outcome
  `ReceiveOptions` models.
- Timers: the 300 ms transition delay and the countdown interval. Each
  handler is modelled as the state change after its delay. The transition
  flag and the per-second countdown are not modelled.
- The missing-API-key check at mount, and the `isRequestingLocation` flag.
- Dates and locales:
  - `Date.now()`, the ISO timestamps and today's date are parameters. The
    saved plan's `id` and `savedAt` come from two separate clock readings
    and are two parameters of `LocationSubmit`;
  - the `toLocaleTimeString` / `toLocaleString` formatting is not modelled;
  - `formatIntendedTime` returns the pieces it would format, and a
    `Sometime This Week` date is handed over as is; the invalid-date check is
    not modelled;
  - `parseSpecificDateTime`, the calendar links and the progress percentage
    (floating point) are not modelled.
- The time normaliser and the planning-date formatter that the hook and the
  review screen call are not part of this model. Their outputs are
  parameters.
- The option catalogues that the question builder reads are not part of this
  model. They are a `Catalog` parameter.
- JSON encoding of the history. The history is stored as a typed list, and an
  unreadable or absent stored history is the `None` the app shell starts
  from.
- `parseInt` on numbers too large for a double: integers are unbounded here,
  so no precision is lost.
- `toLowerCase` beyond ASCII letters.
- The option-select value is `any` in the source. The model types each
  answer by its key (`Hangout.Fits`).
- Clipboard, sharing, image download, `alert` and console logging.
- Theme switching on the page's class list: the model keeps the mode
  and the persisted word only.
- The saved history: in the app the hook's history and the shell's
  `planHistory` are one state, and the hook writes it to the history storage
  key. Here the planner (`Planner.history`, `Planner.savedHistory`) and the
  shell (`App.planHistory`, `App.savedHistory`) keep separate copies. The
  stored copy is the `savedHistory` field, not an entry of the storage map.
- CostMedians.MedianCost: carries no contract of its own. What it computes
  is stated by `MedianOfArrangement` and `MedianRank`, and its bounds and
  order independence by `MedianWithinRange` and `MedianOrderFree`.
