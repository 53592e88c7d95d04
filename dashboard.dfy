/**
 * The dashboard's simulated conditions (components/dashboard.tsx): one
 * `WeatherConditions` record, set from the control panel through
 * `updateConditions`, which spreads a partial record over the previous one.
 */
module Dashboard {
  import opened Wrappers

  datatype WeatherConditions = WeatherConditions(
    windSpeed: real,
    windDirection: real,
    sunIntensity: real,
    sunAngle: real,
    cloudCover: real)

  /** `Partial<WeatherConditions>`: a field is either present with a value or absent. */
  datatype Patch = Patch(
    windSpeed: Option<real>,
    windDirection: Option<real>,
    sunIntensity: Option<real>,
    sunAngle: Option<real>,
    cloudCover: Option<real>)

  const EMPTY_PATCH := Patch(None, None, None, None, None)

  /** The ranges of the control panel's five sliders. */
  predicate InSliderRanges(c: WeatherConditions) {
    && 0.0 <= c.windSpeed <= 50.0
    && 0.0 <= c.windDirection <= 360.0
    && 0.0 <= c.sunIntensity <= 100.0
    && 0.0 <= c.sunAngle <= 90.0
    && 0.0 <= c.cloudCover <= 100.0
  }

  /** A patch whose present fields are all within their sliders' ranges. */
  predicate PatchInRanges(p: Patch) {
    && (p.windSpeed.Some? ==> 0.0 <= p.windSpeed.value <= 50.0)
    && (p.windDirection.Some? ==> 0.0 <= p.windDirection.value <= 360.0)
    && (p.sunIntensity.Some? ==> 0.0 <= p.sunIntensity.value <= 100.0)
    && (p.sunAngle.Some? ==> 0.0 <= p.sunAngle.value <= 90.0)
    && (p.cloudCover.Some? ==> 0.0 <= p.cloudCover.value <= 100.0)
  }

  /** The initial state of `conditions`. */
  const INITIAL_CONDITIONS := WeatherConditions(5.0, 45.0, 85.0, 60.0, 10.0)

  lemma InitialInSliderRanges()
    ensures InSliderRanges(INITIAL_CONDITIONS)
  {
  }

  /** `{ ...prev, ...patch }` */
  function Merge(prev: WeatherConditions, p: Patch): WeatherConditions {
    WeatherConditions(
      p.windSpeed.GetOr(prev.windSpeed),
      p.windDirection.GetOr(prev.windDirection),
      p.sunIntensity.GetOr(prev.sunIntensity),
      p.sunAngle.GetOr(prev.sunAngle),
      p.cloudCover.GetOr(prev.cloudCover))
  }

  /** `{ ...p, ...q }`: one patch with q's present fields winning. */
  function Combine(p: Patch, q: Patch): Patch {
    Patch(
      if q.windSpeed.Some? then q.windSpeed else p.windSpeed,
      if q.windDirection.Some? then q.windDirection else p.windDirection,
      if q.sunIntensity.Some? then q.sunIntensity else p.sunIntensity,
      if q.sunAngle.Some? then q.sunAngle else p.sunAngle,
      if q.cloudCover.Some? then q.cloudCover else p.cloudCover)
  }

  /**
   * Every field present in the patch takes the patch's value, and every
   * absent field keeps its previous value.
   */
  lemma MergeFields(prev: WeatherConditions, p: Patch)
    ensures var c := Merge(prev, p);
      && (if p.windSpeed.Some? then c.windSpeed == p.windSpeed.value else c.windSpeed == prev.windSpeed)
      && (if p.windDirection.Some? then c.windDirection == p.windDirection.value else c.windDirection == prev.windDirection)
      && (if p.sunIntensity.Some? then c.sunIntensity == p.sunIntensity.value else c.sunIntensity == prev.sunIntensity)
      && (if p.sunAngle.Some? then c.sunAngle == p.sunAngle.value else c.sunAngle == prev.sunAngle)
      && (if p.cloudCover.Some? then c.cloudCover == p.cloudCover.value else c.cloudCover == prev.cloudCover)
  {
  }

  /** An empty patch leaves the conditions as they were. */
  lemma MergeEmpty(prev: WeatherConditions)
    ensures Merge(prev, EMPTY_PATCH) == prev
  {
  }

  /** Applying p and then q is applying the one patch that combines them. */
  lemma MergeTwice(prev: WeatherConditions, p: Patch, q: Patch)
    ensures Merge(Merge(prev, p), q) == Merge(prev, Combine(p, q))
  {
  }

  /** Merging a patch that sets every field yields exactly the patch's values. */
  lemma MergeFullPatch(prev: WeatherConditions, next: WeatherConditions)
    ensures Merge(prev, Patch(Some(next.windSpeed), Some(next.windDirection), Some(next.sunIntensity),
      Some(next.sunAngle), Some(next.cloudCover))) == next
  {
  }

  /** Slider updates keep the conditions within the sliders' ranges. */
  lemma MergeKeepsRanges(prev: WeatherConditions, p: Patch)
    requires InSliderRanges(prev) && PatchInRanges(p)
    ensures InSliderRanges(Merge(prev, p))
  {
  }

  /** The dashboard's state: the conditions shared by every section. */
  class Dashboard {
    var conditions: WeatherConditions

    constructor ()
      ensures conditions == INITIAL_CONDITIONS
      ensures InSliderRanges(conditions)
    {
      conditions := INITIAL_CONDITIONS;
    }

    /** updateConditions */
    method UpdateConditions(p: Patch)
      modifies this
      ensures conditions == Merge(old(conditions), p)
      ensures InSliderRanges(old(conditions)) && PatchInRanges(p) ==> InSliderRanges(conditions)
    {
      var prev := conditions;
      conditions := Merge(prev, p);
    }
  }
}
