/** The median cost per category over the saved plans: the first parsed
    plan of each saved entry with a numeric cost contributes that cost under
    its category, and each category gets the median of its costs. */
module CostMedians {
  import opened Basics
  import opened Hangout
  import opened PlanParser
  import opened PlanDisplay
  import PlanParserFacts

  // ---------------------------------------------------------------------
  // Sorting and the median

  predicate Sorted(s: seq<nat>) {
    forall i, j :: 0 <= i < j < |s| ==> s[i] <= s[j]
  }

  /** `x` placed before the first element not smaller than it. */
  function Insert(x: nat, s: seq<nat>): (r: seq<nat>)
    requires Sorted(s)
    ensures Sorted(r) && multiset(r) == multiset(s) + multiset{x}
  {
    if s == [] || x <= s[0] then
      InsertFront(x, s);
      [x] + s
    else
      var t := Insert(x, s[1..]);
      InsertBehind(x, s, t);
      [s[0]] + t
  }

  lemma {:induction false} InsertFront(x: nat, s: seq<nat>)
    requires Sorted(s) && (s == [] || x <= s[0])
    ensures Sorted([x] + s) && multiset([x] + s) == multiset(s) + multiset{x}
  {
    var r := [x] + s;
    forall i, j | 0 <= i < j < |r| ensures r[i] <= r[j] {
      if i > 0 {
        assert r[i] == s[i - 1] && r[j] == s[j - 1];
      } else {
        assert r[j] == s[j - 1];
      }
    }
  }

  /** The first element stays in front when `x` goes into the rest. */
  lemma {:induction false} InsertBehind(x: nat, s: seq<nat>, t: seq<nat>)
    requires Sorted(s) && s != [] && s[0] < x
    requires Sorted(t) && multiset(t) == multiset(s[1..]) + multiset{x}
    ensures Sorted([s[0]] + t) && multiset([s[0]] + t) == multiset(s) + multiset{x}
  {
    assert s == [s[0]] + s[1..];
    var r := [s[0]] + t;
    forall k | 0 <= k < |t| ensures s[0] <= t[k] {
      assert t[k] in multiset(t);
      if t[k] != x {
        assert t[k] in multiset(s[1..]);
        var i :| 0 <= i < |s[1..]| && s[1..][i] == t[k];
        assert s[i + 1] == t[k];
      }
    }
    forall i, j | 0 <= i < j < |r| ensures r[i] <= r[j] {
      if i > 0 {
        assert r[i] == t[i - 1] && r[j] == t[j - 1];
      } else {
        assert r[j] == t[j - 1];
      }
    }
  }

  /** `[...costs].sort((a, b) => a - b)`. */
  function SortAsc(s: seq<nat>): (r: seq<nat>)
    ensures Sorted(r) && multiset(r) == multiset(s)
  {
    if s == [] then []
    else
      assert s == [s[0]] + s[1..];
      Insert(s[0], SortAsc(s[1..]))
  }

  /** Two sorted sequences with the same elements are the same sequence. */
  lemma {:induction false} SortedUnique(a: seq<nat>, b: seq<nat>)
    requires Sorted(a) && Sorted(b) && multiset(a) == multiset(b)
    ensures a == b
    decreases |a|
  {
    assert |a| == |multiset(a)| == |multiset(b)| == |b|;
    if a != [] {
      SameHead(a, b);
      SortedTail(a);
      SortedTail(b);
      SortedUnique(a[1..], b[1..]);
      assert a == [a[0]] + a[1..] && b == [b[0]] + b[1..];
    }
  }

  /** Sorted sequences with the same non-empty contents start alike. */
  lemma {:induction false} SameHead(a: seq<nat>, b: seq<nat>)
    requires Sorted(a) && Sorted(b) && multiset(a) == multiset(b) && a != []
    ensures b != [] && a[0] == b[0]
  {
    assert a[0] in multiset(b);
    assert b[0] in multiset(a);
    HeadIsLeast(a, b[0]);
    HeadIsLeast(b, a[0]);
  }

  lemma {:induction false} HeadIsLeast(s: seq<nat>, x: nat)
    requires Sorted(s) && x in s
    ensures s[0] <= x
  {
  }

  lemma {:induction false} SortedTail(a: seq<nat>)
    requires Sorted(a) && a != []
    ensures Sorted(a[1..]) && multiset(a[1..]) == multiset(a) - multiset{a[0]}
  {
    assert a == [a[0]] + a[1..];
  }

  /** The middle of a sorted run; for an even count, the mean of the two
      middle values rounded half up (`Math.round` on a non-negative half). */
  function MedianOfSorted(s: seq<nat>): nat
    requires |s| > 0
  {
    var mid := |s| / 2;
    if |s| % 2 == 0 then (s[mid - 1] + s[mid] + 1) / 2 else s[mid]
  }

  /** `medians[category]` for a group of costs. */
  function MedianCost(costs: seq<nat>): nat
    requires costs != []
  {
    MedianOfSorted(SortAsc(costs))
  }

  /** The median of a group is never below its smallest cost nor above its
      largest, and is one of the costs for an odd count. */
  lemma {:induction false} MedianWithinRange(costs: seq<nat>)
    requires costs != []
    ensures exists c :: c in costs && c <= MedianCost(costs)
    ensures exists c :: c in costs && MedianCost(costs) <= c
    ensures |costs| % 2 == 1 ==> MedianCost(costs) in costs
  {
    var sorted := SortAsc(costs);
    var mid := |sorted| / 2;
    var r := MedianOfSorted(sorted);
    assert sorted[mid] in multiset(costs);
    assert sorted[mid] in costs;
    if |sorted| % 2 == 0 {
      assert sorted[mid - 1] in multiset(costs);
      assert sorted[mid - 1] in costs;
      assert sorted[mid - 1] <= r <= sorted[mid];
    }
  }

  /** The median does not depend on the order of the costs. */
  lemma {:induction false} MedianOrderFree(a: seq<nat>, b: seq<nat>)
    requires a != [] && multiset(a) == multiset(b)
    ensures b != [] && MedianCost(a) == MedianCost(b)
  {
    assert |a| == |multiset(a)| == |multiset(b)| == |b|;
    SortedUnique(SortAsc(a), SortAsc(b));
  }

  /** The median is read off any ascending arrangement of the costs: its
      middle element for an odd count, the half-up mean of its two middle
      elements for an even count. */
  lemma {:induction false} MedianOfArrangement(costs: seq<nat>, s: seq<nat>)
    requires costs != [] && Sorted(s) && multiset(s) == multiset(costs)
    ensures |s| == |costs|
    ensures |s| % 2 == 1 ==> MedianCost(costs) == s[|s| / 2]
    ensures |s| % 2 == 0 ==> MedianCost(costs) == (s[|s| / 2 - 1] + s[|s| / 2] + 1) / 2
  {
    SameLength(s, costs);
    SortedUnique(SortAsc(costs), s);
  }

  /** How many elements are smaller than `x`. */
  function Below(s: seq<nat>, x: nat): (n: nat)
    ensures n <= |s|
  {
    if s == [] then 0 else (if s[0] < x then 1 else 0) + Below(s[1..], x)
  }

  /** How many elements are larger than `x`. */
  function Above(s: seq<nat>, x: nat): (n: nat)
    ensures n <= |s|
  {
    if s == [] then 0 else (if s[0] > x then 1 else 0) + Above(s[1..], x)
  }

  lemma {:induction false} CountsAppend(a: seq<nat>, b: seq<nat>, x: nat)
    ensures Below(a + b, x) == Below(a, x) + Below(b, x)
    ensures Above(a + b, x) == Above(a, x) + Above(b, x)
  {
    if a == [] {
      assert a + b == b;
    } else {
      assert (a + b)[1..] == a[1..] + b;
      CountsAppend(a[1..], b, x);
    }
  }

  /** The counts depend only on the elements, not on their order. */
  lemma {:induction false} CountsPermutation(a: seq<nat>, b: seq<nat>, x: nat)
    requires multiset(a) == multiset(b)
    ensures Below(a, x) == Below(b, x) && Above(a, x) == Above(b, x)
    decreases |a|
  {
    SameLength(a, b);
    if a != [] {
      assert a[0] in multiset(a);
      var j :| 0 <= j < |b| && b[j] == a[0];
      var rest := b[..j] + b[j + 1..];
      RemoveOne(b, j);
      assert a == [a[0]] + a[1..];
      assert multiset(a[1..]) == multiset(a) - multiset{a[0]};
      CountsPermutation(a[1..], rest, x);
      CountsRemove(b, j, x);
    }
  }

  lemma {:induction false} SameLength(a: seq<nat>, b: seq<nat>)
    requires multiset(a) == multiset(b)
    ensures |a| == |b|
  {
    assert |a| == |multiset(a)| && |b| == |multiset(b)|;
  }

  lemma {:induction false} RemoveOne(b: seq<nat>, j: nat)
    requires j < |b|
    ensures multiset(b[..j] + b[j + 1..]) == multiset(b) - multiset{b[j]}
  {
    assert b == b[..j] + [b[j]] + b[j + 1..];
  }

  lemma {:induction false} CountsRemove(b: seq<nat>, j: nat, x: nat)
    requires j < |b|
    ensures Below(b, x) == Below(b[..j] + b[j + 1..], x) + (if b[j] < x then 1 else 0)
    ensures Above(b, x) == Above(b[..j] + b[j + 1..], x) + (if b[j] > x then 1 else 0)
  {
    assert b == b[..j] + ([b[j]] + b[j + 1..]);
    CountsAppend(b[..j], [b[j]] + b[j + 1..], x);
    CountsAppend([b[j]], b[j + 1..], x);
    CountsAppend(b[..j], b[j + 1..], x);
  }

  /** In an ascending sequence, no element at or after `k` is below `s[k]`,
      and none at or before it is above. */
  lemma {:induction false} SortedRanks(s: seq<nat>, k: nat, x: nat)
    requires Sorted(s) && k < |s|
    ensures s[k] >= x ==> Below(s, x) <= k
    ensures s[k] <= x ==> Above(s, x) <= |s| - 1 - k
  {
    assert s == s[..k] + s[k..];
    assert s == s[..k + 1] + s[k + 1..];
    CountsAppend(s[..k], s[k..], x);
    CountsAppend(s[..k + 1], s[k + 1..], x);
    if s[k] >= x {
      NoneBelow(s[k..], x);
    }
    if s[k] <= x {
      NoneAbove(s[..k + 1], x);
    }
  }

  lemma {:induction false} NoneBelow(s: seq<nat>, x: nat)
    requires forall i :: 0 <= i < |s| ==> s[i] >= x
    ensures Below(s, x) == 0
  {
    if s != [] {
      NoneBelow(s[1..], x);
    }
  }

  lemma {:induction false} NoneAbove(s: seq<nat>, x: nat)
    requires forall i :: 0 <= i < |s| ==> s[i] <= x
    ensures Above(s, x) == 0
  {
    if s != [] {
      NoneAbove(s[1..], x);
    }
  }

  /** The median splits the costs in half: at most half of them are smaller
      than it and at most half are larger. */
  lemma {:induction false} MedianRank(costs: seq<nat>)
    requires costs != []
    ensures Below(costs, MedianCost(costs)) <= |costs| / 2
    ensures Above(costs, MedianCost(costs)) <= |costs| / 2
  {
    var s := SortAsc(costs);
    var m := MedianCost(costs);
    SameLength(s, costs);
    CountsPermutation(s, costs, m);
    SortedMedianRank(s);
  }

  lemma {:induction false} SortedMedianRank(s: seq<nat>)
    requires Sorted(s) && s != []
    ensures Below(s, MedianOfSorted(s)) <= |s| / 2
    ensures Above(s, MedianOfSorted(s)) <= |s| / 2
  {
    var mid := |s| / 2;
    var m := MedianOfSorted(s);
    SortedRanks(s, mid, m);
    if |s| % 2 == 0 {
      assert s[mid - 1] <= s[mid];
      SortedRanks(s, mid - 1, m);
    }
  }

  // ---------------------------------------------------------------------
  // Grouping

  type Contribution = Option<(string, nat)>

  /** What one saved entry adds: its first parsed plan's category and cost,
      when it has a plan whose cost holds a number. */
  function EntryContribution(entry: SavedPlan): Contribution {
    var plans := PlansOf(entry.planContent).plans;
    if plans == [] then None
    else match CostToNumber(plans[0].cost)
      case None => None
      case Some(cost) => Some((plans[0].category, cost))
  }

  /** The entries' contributions, in history order. */
  function Contributions(history: seq<SavedPlan>): seq<Contribution> {
    if history == [] then []
    else Contributions(history[..|history| - 1]) + [EntryContribution(history[|history| - 1])]
  }

  /** `grouped[category].push(cost)`, creating the group when needed. */
  function AddCost(grouped: map<string, seq<nat>>, c: Contribution): map<string, seq<nat>> {
    match c
    case None => grouped
    case Some((category, cost)) =>
      grouped[category := (if category in grouped then grouped[category] else []) + [cost]]
  }

  function GroupCosts(cs: seq<Contribution>): map<string, seq<nat>> {
    if cs == [] then map[] else AddCost(GroupCosts(cs[..|cs| - 1]), cs[|cs| - 1])
  }

  /** The costs contributed under `category`, in history order. */
  function CostsIn(cs: seq<Contribution>, category: string): seq<nat> {
    if cs == [] then []
    else
      var last := cs[|cs| - 1];
      CostsIn(cs[..|cs| - 1], category)
        + (if last.Some? && last.value.0 == category then [last.value.1] else [])
  }

  /** Each group holds exactly the costs contributed under its category, in
      order, and there is a group for every category with a cost. */
  lemma {:induction false} GroupedByCategory(cs: seq<Contribution>, category: string)
    ensures category in GroupCosts(cs) <==> CostsIn(cs, category) != []
    ensures category in GroupCosts(cs) ==> GroupCosts(cs)[category] == CostsIn(cs, category)
  {
    if cs != [] {
      GroupedByCategory(cs[..|cs| - 1], category);
    }
  }

  /** The medians map: one entry per non-empty group. */
  function MediansOf(grouped: map<string, seq<nat>>): map<string, nat> {
    map category | category in grouped && grouped[category] != [] :: MedianCost(grouped[category])
  }

  /** A category has a median exactly when some saved entry contributes a
      cost to it, and the median is that of its costs. */
  lemma {:induction false} MediansByCategory(history: seq<SavedPlan>, category: string)
    ensures var cs := Contributions(history);
      var medians := MediansOf(GroupCosts(cs));
      (category in medians <==> CostsIn(cs, category) != [])
      && (category in medians ==> medians[category] == MedianCost(CostsIn(cs, category)))
  {
    GroupedByCategory(Contributions(history), category);
  }

  /** An entry contributes under its first plan's category, which the parser
      only ever sets to a supported vibe or leaves empty. */
  lemma {:induction false} ContributedCategorySupported(entry: SavedPlan)
    ensures EntryContribution(entry).Some? ==> EntryContribution(entry).value.0 in SupportedVibes
  {
    if PlansOf(entry.planContent).plans != [] {
      FirstPlanCategory(entry.planContent);
    }
  }

  lemma {:induction false} FirstPlanCategory(content: string)
    requires PlansOf(content).plans != []
    ensures PlansOf(content).plans[0].category in SupportedVibes
  {
    PlanParserFacts.PlansInOrder(content);
    PlanParserFacts.PlanCategory(Segments(content)[0], 0);
  }

  predicate CategoriesSupported(cs: seq<Contribution>) {
    forall j :: 0 <= j < |cs| && cs[j].Some? ==> cs[j].value.0 in SupportedVibes
  }

  lemma {:induction false} ContributionsSupported(history: seq<SavedPlan>)
    ensures CategoriesSupported(Contributions(history))
  {
    if history != [] {
      ContributionsSupported(history[..|history| - 1]);
      ContributedCategorySupported(history[|history| - 1]);
    }
  }

  lemma {:induction false} GroupKeysSupported(cs: seq<Contribution>)
    requires CategoriesSupported(cs)
    ensures forall category :: category in GroupCosts(cs) ==> category in SupportedVibes
  {
    if cs != [] {
      GroupKeysSupported(cs[..|cs| - 1]);
    }
  }

  /** Medians are only ever shown under supported categories. */
  lemma {:induction false} MedianCategoriesSupported(history: seq<SavedPlan>)
    ensures forall category :: category in MediansOf(GroupCosts(Contributions(history))) ==> category in SupportedVibes
  {
    ContributionsSupported(history);
    GroupKeysSupported(Contributions(history));
  }

  // ---------------------------------------------------------------------
  // The computation as the effect performs it

  /** One entry's contribution, from the parsed plans. */
  method EntryCost(entry: SavedPlan) returns (c: Contribution)
    ensures c == EntryContribution(entry)
  {
    var parsed := ParsePlans(entry.planContent);
    if parsed.plans == [] {
      return None;
    }
    var first := parsed.plans[0];
    var cost := CostToNumber(first.cost);
    if cost.None? {
      return None;
    }
    return Some((first.category, cost.value));
  }

  /** The `forEach` over the history: fills the groups entry by entry. */
  method GroupHistory(history: seq<SavedPlan>) returns (grouped: map<string, seq<nat>>)
    ensures grouped == GroupCosts(Contributions(history))
  {
    grouped := map[];
    ghost var seen: seq<Contribution> := [];
    var i := 0;
    while i < |history|
      invariant 0 <= i <= |history|
      invariant seen == Contributions(history[..i])
      invariant grouped == GroupCosts(seen)
    {
      var c := EntryCost(history[i]);
      ContributionsStep(history, i);
      GroupStep(seen, c);
      seen := seen + [c];
      if c.Some? {
        var category := c.value.0;
        var costs := if category in grouped then grouped[category] else [];
        grouped := grouped[category := costs + [c.value.1]];
      }
      i := i + 1;
    }
    TakeAll(history);
  }

  lemma {:induction false} ContributionsStep(history: seq<SavedPlan>, i: nat)
    requires i < |history|
    ensures Contributions(history[..i + 1]) == Contributions(history[..i]) + [EntryContribution(history[i])]
  {
    assert history[..i + 1][..i] == history[..i];
  }

  lemma {:induction false} GroupStep(cs: seq<Contribution>, c: Contribution)
    ensures GroupCosts(cs + [c]) == AddCost(GroupCosts(cs), c)
  {
    assert (cs + [c])[..|cs|] == cs;
  }

  /** The `forEach` over the groups: one median per group. */
  method GroupMedians(grouped: map<string, seq<nat>>) returns (medians: map<string, nat>)
    requires forall category :: category in grouped ==> grouped[category] != []
    ensures medians == MediansOf(grouped)
  {
    medians := map[];
    var pending := grouped.Keys;
    while pending != {}
      invariant pending <= grouped.Keys
      invariant medians.Keys == grouped.Keys - pending
      invariant forall category :: category in medians ==> medians[category] == MedianCost(grouped[category])
      decreases pending
    {
      var category :| category in pending;
      medians := medians[category := MedianCost(grouped[category])];
      pending := pending - {category};
    }
    MediansAgree(grouped, medians);
  }

  /** A map with the groups' keys holding each group's median is the medians map. */
  lemma {:induction false} MediansAgree(grouped: map<string, seq<nat>>, medians: map<string, nat>)
    requires forall category :: category in grouped ==> grouped[category] != []
    requires medians.Keys == grouped.Keys
    requires forall category :: category in medians ==> medians[category] == MedianCost(grouped[category])
    ensures medians == MediansOf(grouped)
  {
    var m := MediansOf(grouped);
    assert medians.Keys == m.Keys;
    forall category | category in m ensures medians[category] == m[category] {
    }
  }

  /** The effect's computation over the saved history. */
  method HistoryMedians(history: seq<SavedPlan>) returns (medians: map<string, nat>)
    ensures medians == MediansOf(GroupCosts(Contributions(history)))
  {
    var grouped := GroupHistory(history);
    GroupsNonEmpty(Contributions(history));
    medians := GroupMedians(grouped);
  }

  lemma {:induction false} GroupsNonEmpty(cs: seq<Contribution>)
    ensures forall category :: category in GroupCosts(cs) ==> GroupCosts(cs)[category] != []
  {
    if cs != [] {
      GroupsNonEmpty(cs[..|cs| - 1]);
    }
  }
}
