/** The application shell's own state: the plan history it shows and keeps
    in storage, rated from the history panel, and the light or dark theme,
    chosen at start-up and switched by the header button. */
module AppShell {
  import opened Basics
  import opened Hangout
  import CostMedians

  // ---------------------------------------------------------------------
  // Rating a saved plan

  /** The saved plan with its rating set. */
  function Rated(plan: SavedPlan, rating: int): (r: SavedPlan)
    ensures r.id == plan.id && r.planContent == plan.planContent && r.savedAt == plan.savedAt
    ensures r.rating == Some(rating)
  {
    plan.(rating := Some(rating))
  }

  /** `handleRatePlan`'s update: every entry with the given id gets the
      rating, every other entry stays as it is, in the same order. */
  function RateHistory(history: seq<SavedPlan>, id: string, rating: int): (r: seq<SavedPlan>)
    ensures |r| == |history|
    ensures forall k :: 0 <= k < |history| && history[k].id == id ==> r[k] == Rated(history[k], rating)
    ensures forall k :: 0 <= k < |history| && history[k].id != id ==> r[k] == history[k]
  {
    if history == [] then []
    else
      var head := if history[0].id == id then Rated(history[0], rating) else history[0];
      [head] + RateHistory(history[1..], id, rating)
  }

  /** Rating an id that no entry has changes nothing. */
  lemma {:induction false} RateUnknownId(history: seq<SavedPlan>, id: string, rating: int)
    requires forall k :: 0 <= k < |history| ==> history[k].id != id
    ensures RateHistory(history, id, rating) == history
  {
  }

  /** Only the latest rating of an entry counts, and rating it again with
      the same value changes nothing. */
  lemma {:induction false} LatestRatingWins(history: seq<SavedPlan>, id: string, first: int, second: int)
    ensures RateHistory(RateHistory(history, id, first), id, second) == RateHistory(history, id, second)
    ensures RateHistory(RateHistory(history, id, first), id, first) == RateHistory(history, id, first)
  {
  }

  /** Ratings of different ids do not interfere. */
  lemma {:induction false} RatingsCommute(history: seq<SavedPlan>, id1: string, r1: int, id2: string, r2: int)
    requires id1 != id2
    ensures RateHistory(RateHistory(history, id1, r1), id2, r2) == RateHistory(RateHistory(history, id2, r2), id1, r1)
  {
  }

  /** Two histories that hold the same plan texts, entry by entry, give the
      same cost contributions. */
  lemma {:induction false} SameContentsSameContributions(a: seq<SavedPlan>, b: seq<SavedPlan>)
    requires |a| == |b|
    requires forall k :: 0 <= k < |a| ==> a[k].planContent == b[k].planContent
    ensures CostMedians.Contributions(a) == CostMedians.Contributions(b)
  {
    if a != [] {
      SameContentsSameContributions(a[..|a| - 1], b[..|b| - 1]);
    }
  }

  /** Rating a plan never moves the median costs shown per category. */
  lemma {:induction false} RatingKeepsMedians(history: seq<SavedPlan>, id: string, rating: int)
    ensures var after := RateHistory(history, id, rating);
      CostMedians.MediansOf(CostMedians.GroupCosts(CostMedians.Contributions(after)))
      == CostMedians.MediansOf(CostMedians.GroupCosts(CostMedians.Contributions(history)))
  {
    SameContentsSameContributions(RateHistory(history, id, rating), history);
  }

  // ---------------------------------------------------------------------
  // The theme

  /** The start-up theme: dark when the saved theme is `dark`, or when no
      theme is saved (absent or empty) and the system prefers dark. */
  function InitialDark(savedTheme: Option<string>, prefersDark: bool): bool {
    savedTheme == Some("dark") || (prefersDark && (savedTheme.None? || savedTheme == Some("")))
  }

  /** The theme word persisted for a mode. */
  function ThemeName(dark: bool): (name: string)
    ensures name == "dark" <==> dark
    ensures name != ""
  {
    if dark then "dark" else "light"
  }

  /** A persisted theme decides the start-up theme whatever the system
      prefers; the system preference only counts without one. */
  lemma {:induction false} SavedThemeWins(dark: bool, prefersDark: bool, savedTheme: Option<string>)
    ensures InitialDark(Some(ThemeName(dark)), prefersDark) == dark
    ensures savedTheme.Some? && savedTheme.value != "" ==> InitialDark(savedTheme, prefersDark) == (savedTheme.value == "dark")
    ensures savedTheme.None? ==> InitialDark(savedTheme, prefersDark) == prefersDark
  {
  }

  // ---------------------------------------------------------------------
  // The shell's state

  class App {
    var isDarkMode: bool
    var savedTheme: Option<string>
    /** The history shown in the panel, and the copy kept in storage. */
    var planHistory: seq<SavedPlan>
    var savedHistory: seq<SavedPlan>

    /** The mount effect: the theme from the saved theme and the system
        preference, and the stored history when there is one (`storedHistory`
        is what the stored JSON reads as; an absent or empty entry reads as
        `None`). */
    constructor(theme: Option<string>, prefersDark: bool, storedHistory: Option<seq<SavedPlan>>)
      ensures isDarkMode == InitialDark(theme, prefersDark) && savedTheme == theme
      ensures planHistory == storedHistory.GetOr([])
      ensures savedHistory == storedHistory.GetOr([])
    {
      isDarkMode := theme == Some("dark") || (!(theme.Some? && theme.value != "") && prefersDark);
      savedTheme := theme;
      if storedHistory.Some? {
        planHistory := storedHistory.value;
      } else {
        planHistory := [];
      }
      savedHistory := storedHistory.GetOr([]);
    }

    /** `toggleDarkMode`: flips the mode and persists the new one. */
    method ToggleDarkMode()
      modifies this
      ensures isDarkMode == !old(isDarkMode)
      ensures savedTheme == Some(ThemeName(isDarkMode))
      ensures planHistory == old(planHistory) && savedHistory == old(savedHistory)
    {
      var newMode := !isDarkMode;
      if newMode {
        savedTheme := Some("dark");
      } else {
        savedTheme := Some("light");
      }
      isDarkMode := newMode;
    }

    /** `handleRatePlan`: rates the entries with the id and stores the
        updated history. */
    method RatePlan(id: string, rating: int)
      modifies this
      ensures planHistory == RateHistory(old(planHistory), id, rating)
      ensures savedHistory == planHistory
      ensures isDarkMode == old(isDarkMode) && savedTheme == old(savedTheme)
    {
      var updated := RateHistory(planHistory, id, rating);
      savedHistory := updated;
      planHistory := updated;
    }
  }
}
