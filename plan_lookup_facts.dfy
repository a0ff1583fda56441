/** What the line-level helpers and the direct field lookups of the plan
    parser read out of a concrete line. */
module PlanLookupFacts {
  import opened Basics
  import opened Text
  import opened PlanParser
  import opened PlanParserFacts

  // ---------------------------------------------------------------------
  // Key and value of one line

  /** A line without a colon is all key and has an empty value. */
  lemma {:induction false} KeyValueNoColon(line: string)
    requires !Contains(line, ":")
    ensures KeyPart(line) == line && ValuePart(line) == ""
  {
    assert Split(line, ":") == [line];
    assert Trim("") == "";
  }

  /** The key is the text before the first colon and the value the trimmed
      text after it, later colons included. */
  lemma {:induction false} KeyValueAtColon(line: string, i: nat)
    requires IndexOf(line, ":") == Some(i)
    ensures KeyPart(line) == line[..i] && ValuePart(line) == Trim(line[i + 1..])
  {
    SplitAtFirst(line, ":", i);
  }

  // ---------------------------------------------------------------------
  // A clean `Key: value` line

  /** A value the model can carry through a line unchanged: not empty, no
      surrounding whitespace, no emphasis stars and no line break. */
  predicate CleanValueText(v: string) {
    v != "" && Trim(v) == v && '*' !in v && '\n' !in v
  }

  /** A key that cleaning leaves alone: no colon, no star, no line break, no list marker
      in front and no surrounding whitespace. */
  predicate PlainKey(key: string) {
    && key != [] && ':' !in key && '*' !in key && '\n' !in key
    && key[0] != '-' && key[0] != '*'
    && !IsSpace(key[0]) && !IsSpace(key[|key| - 1])
  }

  /** The first colon of `key: v` is the one after the key. */
  lemma {:induction false} ColonAfterKey(key: string, v: string)
    requires ':' !in key
    ensures IndexOf(key + ": " + v, ":") == Some(|key|)
  {
    var line := key + ": " + v;
    assert OccursAt(line, ":", |key|);
    forall j: nat | j < |key| ensures !OccursAt(line, ":", j) {
      assert line[j] == key[j];
      assert line[j..j + 1] == [key[j]];
      MismatchNoOccurrence(line, ":", j, 0, 1);
    }
    IndexOfIs(line, ":", |key|);
  }

  lemma {:induction false} AfterColon(key: string, v: string)
    requires CleanValueText(v)
    ensures (key + ": " + v)[|key| + 1..] == " " + v
    ensures (key + ": " + v)[..|key|] == key
    ensures Trim(" " + v) == v
  {
    SlicesOfThree(key, ": ", v, 1);
    assert ": "[1..] == " ";
    TrimAfterBlank(v);
  }

  /** `key: v` splits into the key `key` and the value `v`. */
  lemma {:induction false} KeyLineParts(key: string, v: string)
    requires PlainKey(key) && CleanValueText(v)
    ensures KeyPart(key + ": " + v) == key && ValuePart(key + ": " + v) == v
  {
    ColonAfterKey(key, v);
    KeyValueAtColon(key + ": " + v, |key|);
    AfterColon(key, v);
  }

  lemma {:induction false} PlainKeyClean(line: string, key: string)
    requires KeyPart(line) == key && PlainKey(key)
    ensures CleanKey(line) == key
  {
    assert StripMarkers(key) == key;
    TrimKeeps(key);
  }

  /** A clean line `key: v` is no list item, announces what `key` classifies
      as, carries the value `v`, and is an option header exactly when the key
      mentions "option". */
  lemma {:induction false} KeyLineAnalysis(key: string, v: string)
    requires PlainKey(key) && CleanValueText(v)
    ensures var info := Analyze(key + ": " + v);
      && info.isOption == Contains(Lower(key), "option")
      && !info.isList && info.key == Classify(key) && info.value == v
  {
    var line := key + ": " + v;
    KeyLineParts(key, v);
    PlainKeyClean(line, key);
    AnalyzeParts(line);
    OptionKey(line, key);
    KeyLineNotList(key, v);
    CleanValueOf(line, v);
  }

  lemma {:induction false} OptionKey(line: string, key: string)
    requires KeyPart(line) == key && PlainKey(key)
    ensures IsOptionLine(line) == Contains(Lower(key), "option")
  {
    TrimKeeps(key);
  }

  /** A clean `key: v` line is no list item. */
  lemma {:induction false} KeyLineNotList(key: string, v: string)
    requires PlainKey(key) && CleanValueText(v)
    ensures !IsListLine(key + ": " + v)
  {
    var line := key + ": " + v;
    assert line[0] == key[0];
    assert line[|line| - 1] == v[|v| - 1];
    TrimKeeps(line);
  }

  lemma {:induction false} CleanValueOf(line: string, v: string)
    requires ValuePart(line) == v && CleanValueText(v)
    ensures CleanValue(line) == v
  {
  }

  lemma {:induction false} TitleKey()
    ensures PlainKey("Title") && Classify("Title") == Top(Title)
    ensures !Contains(Lower("Title"), "option")
  {
    assert Lower("Title") == "title";
  }

  /** A line without a line break is the only line of its text. */
  lemma {:induction false} SingleLine(line: string)
    requires '\n' !in line
    ensures Split(line, "\n") == [line]
  {
    CharFreeNotContains(line, '\n');
  }

  /** Two lines joined by one line break split back into those two. */
  lemma {:induction false} TwoLines(a: string, b: string)
    requires '\n' !in a && '\n' !in b
    ensures Split(a + "\n" + b, "\n") == [a, b]
  {
    var s := a + "\n" + b;
    assert OccursAt(s, "\n", |a|);
    forall j: nat | j < |a| ensures !OccursAt(s, "\n", j) {
      assert s[j] == a[j];
      MismatchNoOccurrence(s, "\n", j, 0, 1);
    }
    IndexOfIs(s, "\n", |a|);
    assert s[..|a|] == a;
    assert s[|a| + 1..] == b;
    SingleLine(b);
  }

  /** A clean line `key: v` is a line of its own, and not a blank one. */
  lemma {:induction false} KeyLineAlone(key: string, v: string)
    requires PlainKey(key) && CleanValueText(v)
    ensures LinesOf(key + ": " + v) == [key + ": " + v]
  {
    var line := key + ": " + v;
    assert '\n' !in line;
    SingleLine(line);
    TrimKeeps(line);
    assert NonBlankLines([line]) == [line] by {
      assert [line][1..] == [];
    }
  }

  /** When the first line is a clean `key: v`, `getPlanField` reads `v`,
      whatever follows. */
  lemma {:induction false} KeyOnFirstLine(rawPlan: string, key: string, v: string)
    requires PlainKey(key) && CleanValueText(v) && Split(rawPlan, "\n")[0] == key + ": " + v
    ensures GetPlanField(rawPlan, key) == v
  {
    var line := key + ": " + v;
    TrimKeeps(line);
    KeyLineShape(key, v);
    PlanFieldReadsFirstLine(rawPlan, key, 0);
    TrimAfterBlank(v);
  }

  /** `key: v` starts with `key:`, followed by a blank and `v`. */
  lemma {:induction false} KeyLineShape(key: string, v: string)
    ensures StartsWith(key + ": " + v, key + ":")
    ensures (key + ": " + v)[|key| + 1..] == " " + v
  {
    var line := key + ": " + v;
    var pat := key + ":";
    SlicesOfThree(key, ": ", v, 1);
    assert ": "[1..] == " ";
    assert line[..|pat|] == pat by {
      forall k | 0 <= k < |pat| ensures line[k] == pat[k] {
        if k < |key| {
          assert line[k] == key[k];
        }
      }
    }
  }

  /** The one clean line `key: v` is described by its own analysis. */
  lemma {:induction false} KeyLineInfos(key: string, v: string)
    requires PlainKey(key) && CleanValueText(v)
    ensures Infos(LinesOf(key + ": " + v)) == [Analyze(key + ": " + v)]
  {
    KeyLineAlone(key, v);
  }

  /** The scan of a plan made of one clean line `key: v`, whose key names a
      field `f` any line may set, records `v` for `f` and nothing else. */
  lemma {:induction false} KeyLineScan(key: string, v: string, f: Field)
    requires PlainKey(key) && CleanValueText(v)
    requires Classify(key) == Top(f) && !Contains(Lower(key), "option")
    ensures ScanAll(Infos(LinesOf(key + ": " + v))).data == map[f := v]
  {
    KeyLineAnalysis(key, v);
    KeyLineInfos(key, v);
    SingleTopLine(Analyze(key + ": " + v));
  }

  /** A lone line that sets a field leaves exactly that field set. */
  lemma {:induction false} SingleTopLine(info: LineInfo)
    requires !info.isOption && info.key.Top?
    ensures ScanAll([info]).data == map[info.key.field := info.value]
  {
    assert [info][..0] == [];
  }

  /** A plan made of the single line `Title: v` has the title `v`, and
      `getTitleFromPlan` reads the same title from it. */
  lemma {:induction false} TitleLineRoundTrip(v: string, index: nat)
    requires CleanValueText(v)
    ensures PlanOf("Title" + ": " + v, index).title == v
    ensures GetTitleFromPlan("Title" + ": " + v) == v
  {
    TitleLineParsed("Title", v, index);
    TitleLineRead("Title", v);
  }

  lemma {:induction false} TitleLineParsed(key: string, v: string, index: nat)
    requires key == "Title" && CleanValueText(v)
    ensures PlanOf(key + ": " + v, index).title == v
  {
    var line := key + ": " + v;
    TitleKey();
    KeyLineAnalysis(key, v);
    KeyLineInfos(key, v);
    PlanHeadline(line, index);
    assert LastTopValue([Analyze(line)], Title) == Some(v);
  }

  lemma {:induction false} TitleLineRead(key: string, v: string)
    requires key == "Title" && CleanValueText(v)
    ensures GetTitleFromPlan(key + ": " + v) == v
  {
    TitleKey();
    SingleLine(key + ": " + v);
    KeyOnFirstLine(key + ": " + v, key, v);
  }

  /** With two `Title:` lines the parsed plan keeps the second title, while
      `getTitleFromPlan` reads the first. */
  lemma {:induction false} TitleReadersDisagree(a: string, b: string, index: nat)
    requires CleanValueText(a) && CleanValueText(b)
    ensures var segment := ("Title" + ": " + a) + "\n" + ("Title" + ": " + b);
      PlanOf(segment, index).title == b && GetTitleFromPlan(segment) == a
  {
    TwoTitlesParsed("Title", a, b, index);
    TwoTitlesRead("Title", a, b);
  }

  /** Of two clean lines, the second is described last. */
  lemma {:induction false} TwoKeyLinesInfos(key: string, a: string, b: string)
    requires PlainKey(key) && CleanValueText(a) && CleanValueText(b)
    ensures var la, lb := key + ": " + a, key + ": " + b;
      var infos := Infos(LinesOf(la + "\n" + lb));
      |infos| == 2 && infos[1] == Analyze(lb)
  {
    var la, lb := key + ": " + a, key + ": " + b;
    assert '\n' !in la && '\n' !in lb;
    TrimKeeps(la);
    TrimKeeps(lb);
    TwoKeyLines(la, lb);
  }

  lemma {:induction false} TwoKeyLines(la: string, lb: string)
    requires '\n' !in la && '\n' !in lb && Trim(la) != "" && Trim(lb) != ""
    ensures LinesOf(la + "\n" + lb) == [la, lb]
  {
    TwoLines(la, lb);
    NonBlankPair(la, lb);
  }

  lemma {:induction false} NonBlankPair(x: string, y: string)
    requires Trim(x) != "" && Trim(y) != ""
    ensures NonBlankLines([x, y]) == [x, y]
  {
    var ys := [y];
    assert NonBlankLines(ys) == [y] by {
      assert ys[1..] == [];
      assert NonBlankLines(ys) == [y] + NonBlankLines([]);
    }
    assert [x, y][1..] == ys;
    assert NonBlankLines([x, y]) == [x] + NonBlankLines(ys);
  }

  lemma {:induction false} TwoTitlesParsed(key: string, a: string, b: string, index: nat)
    requires key == "Title" && CleanValueText(a) && CleanValueText(b)
    ensures PlanOf((key + ": " + a) + "\n" + (key + ": " + b), index).title == b
  {
    var la, lb := key + ": " + a, key + ": " + b;
    TitleKey();
    KeyLineAnalysis(key, b);
    TwoKeyLinesInfos(key, a, b);
    PlanHeadline(la + "\n" + lb, index);
    assert LastTopValue(Infos(LinesOf(la + "\n" + lb)), Title) == Some(b);
  }

  lemma {:induction false} TwoTitlesRead(key: string, a: string, b: string)
    requires key == "Title" && CleanValueText(a) && CleanValueText(b)
    ensures GetTitleFromPlan((key + ": " + a) + "\n" + (key + ": " + b)) == a
  {
    var la, lb := key + ": " + a, key + ": " + b;
    TitleKey();
    KeyLineUnbroken(key, a);
    KeyLineUnbroken(key, b);
    TwoLines(la, lb);
    KeyOnFirstLine(la + "\n" + lb, key, a);
  }

  /** A clean line `key: v` holds no line break. */
  lemma {:induction false} KeyLineUnbroken(key: string, v: string)
    requires PlainKey(key) && CleanValueText(v)
    ensures '\n' !in key + ": " + v
  {
  }

  // ---------------------------------------------------------------------
  // `getPlanField` in general

  /** On a line whose trimmed form starts with `pat`, the first `pat` sits
      right after the leading whitespace. */
  lemma {:induction false} PatternAfterIndent(line: string, pat: string)
    requires |pat| > 0 && !IsSpace(pat[0]) && StartsWith(Trim(line), pat)
    ensures IndexOf(line, pat) == Some(TrimOffset(line))
  {
    var a := TrimOffset(line);
    TrimSlice(line);
    TrimOffsetSpaces(line);
    assert line[a..a + |pat|] == Trim(line)[..|pat|];
    forall j: nat | j < a ensures !OccursAt(line, pat, j) {
      assert line[j] == line[..a][j];
      MismatchNoOccurrence(line, pat, j, 0, 1);
    }
    IndexOfIs(line, pat, a);
  }

  /** `replace` with a pattern found at `i` cuts it out there. */
  lemma {:induction false} ReplaceFirstAt(s: string, pat: string, i: nat)
    requires IndexOf(s, pat) == Some(i)
    ensures ReplaceFirst(s, pat, "") == s[..i] + s[i + |pat|..]
  {
  }

  /** Cutting `pat` out of a line that starts with it after its indentation
      leaves, once trimmed, the trimmed text after `pat`. */
  lemma {:induction false} ReadAfterPattern(line: string, pat: string)
    requires |pat| > 0 && !IsSpace(pat[0]) && StartsWith(Trim(line), pat)
    ensures |pat| <= |TrimStart(line)|
    ensures Trim(ReplaceFirst(line, pat, "")) == Trim(TrimStart(line)[|pat|..])
  {
    PatternAfterIndent(line, pat);
    var a := TrimOffset(line);
    ReplaceFirstAt(line, pat, a);
    var w := line[..a];
    TrimOffsetSpaces(line);
    assert TrimStart(line)[|pat|..] == line[a + |pat|..];
    TrimAfterSpace(w, line[a + |pat|..]);
  }

  /** The search finds line `k` when it is the first match from `from` on. */
  lemma {:induction false} FirstLineStartingIs(lines: seq<string>, prefix: string, from: nat, k: nat)
    requires from <= k < |lines| && StartsWith(Trim(lines[k]), prefix)
    requires forall j :: from <= j < k ==> !StartsWith(Trim(lines[j]), prefix)
    ensures FirstLineStarting(lines, prefix, from) == Some(k)
    decreases k - from
  {
    if from < k {
      assert !StartsWith(Trim(lines[from]), prefix);
      FirstLineStartingIs(lines, prefix, from + 1, k);
    } else {
      assert StartsWith(Trim(lines[from]), prefix);
    }
  }

  /** `getPlanField` gives the trimmed text after `key:` on the first line
      whose trimmed form starts with `key:`. */
  lemma {:induction false} PlanFieldReadsFirstLine(rawPlan: string, key: string, k: nat)
    requires key == [] || !IsSpace(key[0])
    requires var lines := Split(rawPlan, "\n");
      && k < |lines| && StartsWith(Trim(lines[k]), key + ":")
      && forall j :: 0 <= j < k ==> !StartsWith(Trim(lines[j]), key + ":")
    ensures GetPlanField(rawPlan, key) == Trim(TrimStart(Split(rawPlan, "\n")[k])[|key| + 1..])
  {
    var lines := Split(rawPlan, "\n");
    FirstLineStartingIs(lines, key + ":", 0, k);
    ReadAfterPattern(lines[k], key + ":");
  }

  /** Without a line that starts with `key:`, `getPlanField` gives "". */
  lemma {:induction false} PlanFieldAbsent(rawPlan: string, key: string)
    requires forall line :: line in Split(rawPlan, "\n") ==> !StartsWith(Trim(line), key + ":")
    ensures GetPlanField(rawPlan, key) == ""
  {
    var lines := Split(rawPlan, "\n");
    forall j | 0 <= j < |lines| ensures !StartsWith(Trim(lines[j]), key + ":") {
      assert lines[j] in lines;
    }
    FirstLineStartingSound(lines, key + ":", 0);
  }

  // ---------------------------------------------------------------------
  // The travel estimate

  /** Where `name:` first occurs, the detail is what follows it up to the end
      of the line, trimmed, once the blanks (line breaks included) after the
      colon are skipped. */
  lemma {:induction false} DetailReadsLine(content: string, name: string, i: nat, ws: string, v: string, rest: string)
    requires IndexOf(content, name + ":") == Some(i)
    requires content[i + |name| + 1..] == ws + v + rest
    requires AllSpace(ws) && v != [] && !IsSpace(v[0]) && '\n' !in v && '\r' !in v
    requires rest == [] || rest[0] == '\n' || rest[0] == '\r'
    ensures Detail(content, name) == Trim(v)
  {
    var key := name + ":";
    assert Detail(content, name) == DetailAfterKey(content, key);
    assert |key| == |name| + 1;
    DetailAt(content, key, i);
    LineAfterReads(ws, v, rest);
  }

  /** Blanks, then a line: the line, trimmed. */
  lemma {:induction false} LineAfterReads(ws: string, v: string, rest: string)
    requires AllSpace(ws) && v != [] && !IsSpace(v[0]) && '\n' !in v && '\r' !in v
    requires rest == [] || rest[0] == '\n' || rest[0] == '\r'
    ensures LineAfter(ws + v + rest) == Trim(v)
  {
    var tail := v + rest;
    assert ws + v + rest == ws + tail;
    LineAfterIsTrim(ws + tail);
    TrimStartAfterSpace(ws, tail);
    TrimStartKeeps(tail);
    RestOfLineStops(v, rest);
  }

  /** When only blanks follow the first `name:`, the detail is empty: the
      pattern matches with an empty capture, which trims to nothing. */
  lemma {:induction false} DetailBlankAfterColon(content: string, name: string, i: nat)
    requires IndexOf(content, name + ":") == Some(i)
    requires i + |name| + 1 <= |content| && AllSpace(content[i + |name| + 1..])
    ensures Detail(content, name) == ""
  {
    var key := name + ":";
    assert Detail(content, name) == DetailAfterKey(content, key);
    DetailAt(content, key, i);
    LineAfterBlank(content[i + |key|..]);
  }

  lemma {:induction false} LineAfterBlank(s: string)
    requires AllSpace(s)
    ensures LineAfter(s) == ""
    decreases |s|
  {
    if s != [] {
      assert AllSpace(s[1..]) by {
        assert forall k :: 0 <= k < |s| - 1 ==> s[1..][k] == s[k + 1];
      }
      LineAfterBlank(s[1..]);
    }
  }

  /** `name: v` and a line break after colon-free text is read as `v`. */
  lemma {:induction false} DetailAfterColonFreeText(w: string, name: string, v: string, rest: string)
    requires ':' !in w && ':' !in name
    requires v != "" && Trim(v) == v && '\n' !in v && '\r' !in v
    ensures Detail(w + name + ": " + v + "\n" + rest, name) == v
  {
    var content := w + name + ": " + v + "\n" + rest;
    NameFirstAt(w, name, v + "\n" + rest);
    assert content == w + name + ":" + " " + (v + "\n" + rest);
    assert content[|w| + |name| + 1..] == " " + v + ("\n" + rest);
    DetailReadsLine(content, name, |w|, " ", v, "\n" + rest);
  }

  /** In colon-free text followed by `name:`, the first `name:` is that one. */
  lemma {:induction false} NameFirstAt(w: string, name: string, tail: string)
    requires ':' !in w && ':' !in name
    ensures IndexOf(w + name + ":" + " " + tail, name + ":") == Some(|w|)
  {
    var pat := name + ":";
    var content := w + name + ":" + " " + tail;
    var i := |w|;
    assert content[i..i + |pat|] == pat;
    forall j: nat | j < i ensures !OccursAt(content, pat, j) {
      var p := j + |name|;
      assert content[p] == (w + name)[p];
      assert (w + name)[p] in w + name;
      assert content[p..p + 1] == [content[p]];
      assert pat[|name|..|name| + 1] == [':'];
      MismatchNoOccurrence(content, pat, j, |name|, 1);
    }
    IndexOfIs(content, pat, i);
  }

  /** The rest of a line ends at the first line break. */
  lemma {:induction false} RestOfLineStops(v: string, rest: string)
    requires '\n' !in v && '\r' !in v
    requires rest == [] || rest[0] == '\n' || rest[0] == '\r'
    ensures RestOfLine(v + rest) == v
  {
    if v != [] {
      assert (v + rest)[1..] == v[1..] + rest;
      RestOfLineStops(v[1..], rest);
    } else {
      assert v + rest == rest;
    }
  }

  // ---------------------------------------------------------------------
  // The recommended title

  /** The recommended title is the trimmed text between the first and the
      second colon (or the end), and there is none without a colon or when
      that text is blank. */
  lemma {:induction false} RecommendedTitleBetweenColons(s: string)
    ensures !Contains(s, ":") ==> GetRecommendedPlanTitle(Some(s)).None?
    ensures Contains(s, ":") ==>
      var i := IndexOf(s, ":").value;
      var t := Trim(UpTo(s[i + 1..], ":"));
      GetRecommendedPlanTitle(Some(s)) == if t == "" then None else Some(t)
  {
    if Contains(s, ":") {
      var i := IndexOf(s, ":").value;
      var rest := s[i + 1..];
      assert Split(s, ":") == [s[..i]] + Split(rest, ":");
      SplitFirstPiece(rest, ":");
    }
  }
}
