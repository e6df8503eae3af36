/** The deterministic parts of AIService: the range refinement, which
    multiplies a rated range by four table-driven condition factors and
    rounds to two decimals, and the keyword dispatch of the placeholder reply,
    which answers with the entry for the first table key found in the
    lowercased prompt. */
module RangeEstimator {
  import opened Optional
  import opened Text
  import opened Rounding

  /** The conditions dictionary: `acUsage` is the truthiness of "ac_usage";
      an absent string key is None. */
  datatype Conditions = Conditions(
    acUsage: bool,
    drivingStyle: Option<string>,
    temperature: Option<string>,
    cityType: Option<string>)

  function AcFactor(acUsage: bool): real
  {
    if acUsage then 0.90 else 1.0
  }

  /** The style table; a value missing from it has factor 1.0. */
  function StyleFactor(style: string): real
  {
    if style == "aggressive" then 0.85
    else if style == "moderate" then 1.0
    else if style == "eco" then 1.15
    else 1.0
  }

  /** The temperature table; a value missing from it has factor 1.0. */
  function TemperatureFactor(temperature: string): real
  {
    if temperature == "cold" then 0.80
    else if temperature == "normal" then 1.0
    else if temperature == "hot" then 0.95
    else 1.0
  }

  /** The route ("city_type") table; a value missing from it has factor 1.0. */
  function RouteFactor(cityType: string): real
  {
    if cityType == "highway" then 1.1
    else if cityType == "city" then 0.85
    else if cityType == "mix" then 0.95
    else 1.0
  }

  /** The combined multiplier, absent keys read as "moderate", "normal" and "mix". */
  function Multiplier(c: Conditions): real
  {
    AcFactor(c.acUsage)
      * StyleFactor(c.drivingStyle.GetOr("moderate"))
      * TemperatureFactor(c.temperature.GetOr("normal"))
      * RouteFactor(c.cityType.GetOr("mix"))
  }

  /** The refined range as returned: rounded to two decimals. */
  function AdjustedRange(baseRange: real, c: Conditions): real
  {
    Round2(baseRange * Multiplier(c))
  }

  /** refine_range_prediction: the adjustment starts at 1.0 and each condition
      multiplies it in turn. */
  method RefineRangePrediction(baseRange: real, conditions: Conditions) returns (r: real)
    ensures r == Round2(baseRange * Multiplier(conditions))
  {
    var adjustments := 1.0;
    if conditions.acUsage {
      adjustments := adjustments * 0.90;
    }
    assert adjustments == AcFactor(conditions.acUsage);
    var style := conditions.drivingStyle.GetOr("moderate");
    adjustments := adjustments * StyleFactor(style);
    var temp := conditions.temperature.GetOr("normal");
    adjustments := adjustments * TemperatureFactor(temp);
    var cityType := conditions.cityType.GetOr("mix");
    adjustments := adjustments * RouteFactor(cityType);
    assert adjustments == Multiplier(conditions);
    var adjusted := baseRange * adjustments;
    assert adjusted == baseRange * Multiplier(conditions);
    r := Round2(adjusted);
  }

  /** The multiplier lies between the worst case (AC, aggressive, cold, city)
      and the best (no AC, eco, normal, highway). */
  lemma MultiplierBounds(c: Conditions)
    ensures 0.5202 <= Multiplier(c) <= 1.265
  {
    var a := AcFactor(c.acUsage);
    var s := StyleFactor(c.drivingStyle.GetOr("moderate"));
    var t := TemperatureFactor(c.temperature.GetOr("normal"));
    var r := RouteFactor(c.cityType.GetOr("mix"));
    assert 0.9 <= a <= 1.0 && 0.85 <= s <= 1.15 && 0.8 <= t <= 1.0 && 0.85 <= r <= 1.1;
    assert 0.765 <= a * s <= 1.15;
    assert 0.612 <= a * s * t <= 1.15;
  }

  /** Turning the AC on scales the multiplier by exactly 0.9. */
  lemma AcScalesMultiplier(c: Conditions)
    ensures Multiplier(c.(acUsage := true)) == 0.9 * Multiplier(c.(acUsage := false))
  {
  }

  /** AC strictly reduces the exact range for a positive base, by more than
      a hundredth of a km once the base is at least 1 km. */
  lemma AcReducesRange(baseRange: real, c: Conditions)
    requires baseRange > 0.0
    ensures baseRange * Multiplier(c.(acUsage := true)) < baseRange * Multiplier(c.(acUsage := false))
    ensures baseRange >= 1.0 ==>
      baseRange * Multiplier(c.(acUsage := true)) + 0.01 < baseRange * Multiplier(c.(acUsage := false))
  {
    var m := Multiplier(c.(acUsage := false));
    MultiplierBounds(c.(acUsage := false));
    AcScalesMultiplier(c);
    ScaleBy(baseRange, m, 0.5202);
    assert baseRange * (0.9 * m) == 0.9 * (baseRange * m);
  }

  /** AC strictly reduces the reported (rounded) range once the base is at least 1 km. */
  lemma AcReducesReportedRange(baseRange: real, c: Conditions)
    requires baseRange >= 1.0
    ensures AdjustedRange(baseRange, c.(acUsage := true)) < AdjustedRange(baseRange, c.(acUsage := false))
  {
    AcReducesRange(baseRange, c);
    Round2Separates(baseRange * Multiplier(c.(acUsage := true)), baseRange * Multiplier(c.(acUsage := false)));
  }

  /** A product of a positive base and a factor at least `low` (positive) is
      positive, and at least `low` once the base is at least 1. */
  lemma ScaleBy(baseRange: real, factor: real, low: real)
    requires baseRange > 0.0 && low > 0.0 && factor >= low
    ensures baseRange * factor > 0.0
    ensures baseRange >= 1.0 ==> baseRange * factor >= low
  {
    if baseRange >= 1.0 {
      assert baseRange * factor - factor == (baseRange - 1.0) * factor;
    }
  }

  /** Rounding can hide the AC penalty on a tiny base: at 0.01 km both round to 0.01. */
  lemma AcPenaltyHiddenOnTinyBase()
    ensures AdjustedRange(0.01, Conditions(true, None, None, None))
         == AdjustedRange(0.01, Conditions(false, None, None, None))
  {
    assert Multiplier(Conditions(true, None, None, None)) == 0.855;
    assert Multiplier(Conditions(false, None, None, None)) == 0.95;
    assert (0.01 * 0.855 * 100.0).Floor == 0;
    assert (0.01 * 0.95 * 100.0).Floor == 0;
  }

  /** Eco driving on the highway beats aggressive driving in the city, other
      conditions equal: the exact range by a margin above a hundredth of a km
      once the base is at least 1 km. */
  lemma EcoHighwayGap(baseRange: real, acUsage: bool, temperature: Option<string>)
    requires baseRange > 0.0
    ensures var eco := Conditions(acUsage, Some("eco"), temperature, Some("highway"));
      var aggressive := Conditions(acUsage, Some("aggressive"), temperature, Some("city"));
      && baseRange * Multiplier(eco) > baseRange * Multiplier(aggressive)
      && (baseRange >= 1.0 ==> baseRange * Multiplier(aggressive) + 0.01 < baseRange * Multiplier(eco))
  {
    var eco := Conditions(acUsage, Some("eco"), temperature, Some("highway"));
    var aggressive := Conditions(acUsage, Some("aggressive"), temperature, Some("city"));
    var k := AcFactor(acUsage) * TemperatureFactor(temperature.GetOr("normal"));
    assert k >= 0.72;
    assert Multiplier(eco) == k * 1.265;
    assert Multiplier(aggressive) == k * 0.7225;
    var x := baseRange * k;
    ScaleBy(baseRange, k, 0.72);
    assert baseRange * Multiplier(eco) == x * 1.265;
    assert baseRange * Multiplier(aggressive) == x * 0.7225;
  }

  /** The same ordering holds of the reported (rounded) range for a base of at least 1 km. */
  lemma EcoHighwayBeatsAggressiveCity(baseRange: real, acUsage: bool, temperature: Option<string>)
    requires baseRange >= 1.0
    ensures AdjustedRange(baseRange, Conditions(acUsage, Some("eco"), temperature, Some("highway")))
          > AdjustedRange(baseRange, Conditions(acUsage, Some("aggressive"), temperature, Some("city")))
  {
    EcoHighwayGap(baseRange, acUsage, temperature);
    Round2Separates(baseRange * Multiplier(Conditions(acUsage, Some("aggressive"), temperature, Some("city"))),
                    baseRange * Multiplier(Conditions(acUsage, Some("eco"), temperature, Some("highway"))));
  }

  /** An absent key and an unrecognised value differ only for the route: the
      absent route reads as "mix" (0.95), an unknown one as 1.0. */
  lemma AbsentVersusUnknown(style: string, temperature: string, cityType: string)
    requires style !in {"aggressive", "moderate", "eco"}
    requires temperature !in {"cold", "normal", "hot"}
    requires cityType !in {"highway", "city", "mix"}
    ensures Multiplier(Conditions(false, None, None, None)) == 0.95
    ensures Multiplier(Conditions(false, Some(style), Some(temperature), Some(cityType))) == 1.0
  {
  }

  /** The placeholder reply: a canned entry chosen by its key, or the default text. */
  datatype Reply = Canned(key: string) | DefaultReply

  /** The keys of the reply table, in its insertion order. */
  const ResponseKeys: seq<string> := ["range", "charging", "cost", "comparison", "recommendation"]

  /** The first key, scanning `keys` in order, that occurs in `text`. */
  function FirstKeyIn(keys: seq<string>, text: string): (r: Option<string>)
    ensures r.Some? ==> exists i :: (0 <= i < |keys| && keys[i] == r.value && Contains(text, keys[i])
      && forall j :: 0 <= j < i ==> !Contains(text, keys[j]))
    ensures r.None? <==> forall i :: 0 <= i < |keys| ==> !Contains(text, keys[i])
  {
    if keys == [] then None
    else if Contains(text, keys[0]) then Some(keys[0])
    else
      var rest := FirstKeyIn(keys[1..], text);
      if rest.Some? then
        var i :| 0 <= i < |keys[1..]| && keys[1..][i] == rest.value && Contains(text, keys[1..][i])
          && forall j :: 0 <= j < i ==> !Contains(text, keys[1..][j]);
        assert keys[i + 1] == rest.value;
        rest
      else rest
  }

  /** _generate_mock_response, reduced to the choice of entry. */
  method GenerateMockResponse(prompt: string) returns (r: Reply)
    ensures FirstKeyIn(ResponseKeys, Lower(prompt)).Some? ==>
      r == Canned(FirstKeyIn(ResponseKeys, Lower(prompt)).value)
    ensures FirstKeyIn(ResponseKeys, Lower(prompt)).None? ==> r == DefaultReply
  {
    var promptLower := Lower(prompt);
    var i := 0;
    while i < |ResponseKeys|
      invariant 0 <= i <= |ResponseKeys|
      invariant forall j :: 0 <= j < i ==> !Contains(promptLower, ResponseKeys[j])
      invariant FirstKeyIn(ResponseKeys, promptLower) == FirstKeyIn(ResponseKeys[i..], promptLower)
    {
      if Contains(promptLower, ResponseKeys[i]) {
        return Canned(ResponseKeys[i]);
      }
      assert ResponseKeys[i..][1..] == ResponseKeys[i + 1..];
      i := i + 1;
    }
    return DefaultReply;
  }

  /** A prompt mentioning "range" always gets the range entry, whatever else it mentions. */
  lemma RangeKeyWins(prompt: string)
    requires Contains(Lower(prompt), "range")
    ensures FirstKeyIn(ResponseKeys, Lower(prompt)) == Some("range")
  {
  }

  /** "recommendation" is tried last: it is chosen only when none of the other keys occurs. */
  lemma RecommendationChosenLast(prompt: string)
    requires FirstKeyIn(ResponseKeys, Lower(prompt)) == Some("recommendation")
    ensures forall k :: k in ResponseKeys[..4] ==> !Contains(Lower(prompt), k)
  {
    var text := Lower(prompt);
    var i :| 0 <= i < |ResponseKeys| && ResponseKeys[i] == "recommendation" && Contains(text, ResponseKeys[i])
      && forall j :: 0 <= j < i ==> !Contains(text, ResponseKeys[j]);
    RecommendationIsLastKey(i);
    forall k | k in ResponseKeys[..4]
      ensures !Contains(text, k)
    {
      var j :| 0 <= j < 4 && ResponseKeys[..4][j] == k;
      assert ResponseKeys[j] == k;
    }
  }

  /** The other keys are all shorter than "recommendation". */
  lemma RecommendationIsLastKey(i: int)
    requires 0 <= i < |ResponseKeys| && ResponseKeys[i] == "recommendation"
    ensures i == 4
  {
    assert |"recommendation"| == 14;
    assert |ResponseKeys[0]| == 5 && |ResponseKeys[1]| == 8 && |ResponseKeys[2]| == 4 && |ResponseKeys[3]| == 10;
  }
}
