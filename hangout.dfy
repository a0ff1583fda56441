/** The questionnaire's answers (`HangoutParams`) and a saved plan, shared by
    the question builder, the planner hook, the review screen and the app
    shell. */
module Hangout {
  import opened Basics

  /** A latitude/longitude pair. */
  datatype Coordinates = Coordinates(latitude: real, longitude: real)

  /** The answers gathered so far. */
  datatype HangoutParams = HangoutParams(
    planningMode: string,
    vibe: string,
    timeWindow: string,
    budget: string,
    audience: string,
    timing: string,
    location: Option<Coordinates>,
    proximity: string,
    dateMeal: string,
    specificDateTime: string,
    groupSize: Option<int>,
    travelPreference: string,
    mustHaves: seq<string>,
    openNowOnly: bool)

  /** The name of one answer (`keyof HangoutParams`). */
  datatype ParamKey =
    | PlanningMode | Vibe | TimeWindow | Budget | Audience | Timing | Location
    | Proximity | DateMeal | SpecificDateTime | GroupSize | TravelPreference
    | MustHaves | OpenNowOnly

  /** A value stored under a key, by its shape. */
  datatype ParamValue =
    | Text(text: string)
    | Place(place: Option<Coordinates>)
    | Count(count: Option<int>)
    | Items(items: seq<string>)
    | Flag(flag: bool)

  /** The shape of value each key holds. */
  predicate Fits(key: ParamKey, value: ParamValue) {
    match key
    case Location => value.Place?
    case GroupSize => value.Count?
    case MustHaves => value.Items?
    case OpenNowOnly => value.Flag?
    case _ => value.Text?
  }

  /** `params[key]`. */
  function Param(p: HangoutParams, key: ParamKey): (v: ParamValue)
    ensures Fits(key, v)
  {
    match key
    case PlanningMode => Text(p.planningMode)
    case Vibe => Text(p.vibe)
    case TimeWindow => Text(p.timeWindow)
    case Budget => Text(p.budget)
    case Audience => Text(p.audience)
    case Timing => Text(p.timing)
    case Location => Place(p.location)
    case Proximity => Text(p.proximity)
    case DateMeal => Text(p.dateMeal)
    case SpecificDateTime => Text(p.specificDateTime)
    case GroupSize => Count(p.groupSize)
    case TravelPreference => Text(p.travelPreference)
    case MustHaves => Items(p.mustHaves)
    case OpenNowOnly => Flag(p.openNowOnly)
  }

  /** `{ ...params, [key]: value }`: the one answer replaced, every other kept. */
  function WithParam(p: HangoutParams, key: ParamKey, value: ParamValue): (r: HangoutParams)
    requires Fits(key, value)
    ensures Param(r, key) == value
    ensures forall k :: k != key ==> Param(r, k) == Param(p, k)
  {
    match key
    case PlanningMode => p.(planningMode := value.text)
    case Vibe => p.(vibe := value.text)
    case TimeWindow => p.(timeWindow := value.text)
    case Budget => p.(budget := value.text)
    case Audience => p.(audience := value.text)
    case Timing => p.(timing := value.text)
    case Location => p.(location := value.place)
    case Proximity => p.(proximity := value.text)
    case DateMeal => p.(dateMeal := value.text)
    case SpecificDateTime => p.(specificDateTime := value.text)
    case GroupSize => p.(groupSize := value.count)
    case TravelPreference => p.(travelPreference := value.text)
    case MustHaves => p.(mustHaves := value.items)
    case OpenNowOnly => p.(openNowOnly := value.flag)
  }

  /** Two answer records that agree on every key are the same record. */
  lemma {:induction false} ParamsExtensional(p: HangoutParams, q: HangoutParams)
    requires forall k :: Param(p, k) == Param(q, k)
    ensures p == q
  {
    assert Param(p, PlanningMode) == Param(q, PlanningMode);
    assert Param(p, Vibe) == Param(q, Vibe);
    assert Param(p, TimeWindow) == Param(q, TimeWindow);
    assert Param(p, Budget) == Param(q, Budget);
    assert Param(p, Audience) == Param(q, Audience);
    assert Param(p, Timing) == Param(q, Timing);
    assert Param(p, Location) == Param(q, Location);
    assert Param(p, Proximity) == Param(q, Proximity);
    assert Param(p, DateMeal) == Param(q, DateMeal);
    assert Param(p, SpecificDateTime) == Param(q, SpecificDateTime);
    assert Param(p, GroupSize) == Param(q, GroupSize);
    assert Param(p, TravelPreference) == Param(q, TravelPreference);
    assert Param(p, MustHaves) == Param(q, MustHaves);
    assert Param(p, OpenNowOnly) == Param(q, OpenNowOnly);
  }

  /** Writing back the value an answer already has changes nothing. */
  lemma {:induction false} WithOwnParam(p: HangoutParams, key: ParamKey)
    ensures WithParam(p, key, Param(p, key)) == p
  {
    ParamsExtensional(WithParam(p, key, Param(p, key)), p);
  }

  /** Of two writes to the same key, the later one wins. */
  lemma {:induction false} WithParamTwice(p: HangoutParams, key: ParamKey, v: ParamValue, w: ParamValue)
    requires Fits(key, v) && Fits(key, w)
    ensures WithParam(WithParam(p, key, v), key, w) == WithParam(p, key, w)
  {
    ParamsExtensional(WithParam(WithParam(p, key, v), key, w), WithParam(p, key, w));
  }

  /** The answers the planner starts from and returns to on restart. */
  const InitialParams := HangoutParams(
    planningMode := "", vibe := "", timeWindow := "", budget := "", audience := "",
    timing := "", location := None, proximity := "any", dateMeal := "",
    specificDateTime := "", groupSize := None, travelPreference := "",
    mustHaves := [], openNowOnly := false)

  /** A plan kept in the history. */
  datatype SavedPlan = SavedPlan(id: string, planContent: string, savedAt: string, rating: Option<int>)
}
