/** The EV catalog and the recommendation engine (EVModelsDatabase): every
    catalog model is scored against the user's criteria (budget 40, range 30,
    usage 20, charging access 10 points), the scored list is stably sorted by
    score, descending, and the top entry is recommended with up to two
    alternatives. Also the case-insensitive lookup of a model by name. */
module EvModels {
  import opened Optional
  import opened Text
  import opened Sorting

  datatype ChargingTime = ChargingTime(ac7kw: real, dc50kw: real)

  datatype EvModel = EvModel(
    name: string,
    basePrice: real,
    rangeKm: real,
    chargingTime: ChargingTime,
    bestFor: seq<string>)

  /** The catalog built by EVModelsDatabase.__init__, in dictionary insertion order. */
  function ReferenceCatalog(): seq<EvModel>
  {
    [ EvModel("Tata Punch EV", 850000.0, 315.0, ChargingTime(9.5, 0.75),
              ["city_commute", "budget_conscious", "daily_driving"]),
      EvModel("Tata Nexon EV", 1500000.0, 440.0, ChargingTime(12.0, 1.0),
              ["highway", "comfort", "performance"]),
      EvModel("Tata Nexon EV Plus", 1850000.0, 480.0, ChargingTime(14.0, 1.2),
              ["long_distance", "highway", "premium_comfort"]),
      EvModel("Tata Tigor EV", 900000.0, 360.0, ChargingTime(8.0, 0.65),
              ["sedan_lovers", "city_driving", "space_conscious"]),
      EvModel("Tata Harrier EV (Upcoming)", 2500000.0, 500.0, ChargingTime(16.0, 1.3),
              ["luxury_segment", "large_family", "premium_experience"]) ]
  }

  /** The criteria dictionary; an absent key is None. */
  datatype Criteria = Criteria(
    dailyKm: Option<real>,
    usageType: Option<string>,
    budget: Option<real>,
    chargingAccess: Option<string>)

  /** The criteria after the defaults for absent keys are filled in. */
  datatype Settings = Settings(dailyKm: real, usageType: string, budget: real, chargingAccess: string)

  function Resolve(c: Criteria): (s: Settings)
    ensures c.dailyKm.None? ==> s.dailyKm == 50.0
    ensures c.usageType.None? ==> s.usageType == "city"
    ensures c.budget.None? ==> s.budget == 1500000.0
    ensures c.chargingAccess.None? ==> s.chargingAccess == "public"
    ensures c.dailyKm.Some? ==> s.dailyKm == c.dailyKm.value
    ensures c.usageType.Some? ==> s.usageType == c.usageType.value
    ensures c.budget.Some? ==> s.budget == c.budget.value
    ensures c.chargingAccess.Some? ==> s.chargingAccess == c.chargingAccess.value
  {
    Settings(c.dailyKm.GetOr(50.0), c.usageType.GetOr("city"),
             c.budget.GetOr(1500000.0), c.chargingAccess.GetOr("public"))
  }

  /** The reasoning strings, as opaque tokens (their number formatting is not modelled). */
  datatype Reason =
    | WithinBudget(budget: real)
    | AboveBudget
    | ExcellentRange(dailyKm: real)
    | AdequateRange
    | FrequentCharging
    | PerfectFor(usageType: string)
    | PublicCharging

  predicate IsBudgetReason(r: Reason) { r.WithinBudget? || r.AboveBudget? }
  predicate IsRangeReason(r: Reason) { r.ExcellentRange? || r.AdequateRange? || r.FrequentCharging? }

  /** A catalog model with its score, its reasoning and its catalog position. */
  datatype Scored = Scored(model: EvModel, score: real, reasoning: seq<Reason>, position: nat)

  function Max(a: real, b: real): real { if a >= b then a else b }

  /** Budget weight: full marks within budget, otherwise a linear decay of one
      point per 50,000 over budget, never below zero. */
  function BudgetPoints(price: real, budget: real): (p: real)
    ensures 0.0 <= p <= 40.0
    ensures p == 40.0 <==> price <= budget
    ensures budget < price <= budget + 2000000.0 ==> p == 40.0 - (price - budget) / 50000.0
    ensures price >= budget + 2000000.0 ==> p == 0.0
  {
    if price <= budget then 40.0 else Max(0.0, 40.0 - (price - budget) / 50000.0)
  }

  /** Range weight, a step function of the model's range against the daily distance. */
  function RangePoints(rangeKm: real, dailyKm: real): (p: real)
    ensures p == 10.0 || p == 20.0 || p == 30.0
    ensures p == 30.0 <==> rangeKm >= dailyKm * 1.5
    ensures p >= 20.0 <==> rangeKm >= dailyKm || rangeKm >= dailyKm * 1.5
  {
    if rangeKm >= dailyKm * 1.5 then 30.0
    else if rangeKm >= dailyKm then 20.0
    else 10.0
  }

  /** Usage weight, with the source's two 15-point branches. Both are dead: each
      one's guard implies the first branch's membership test. */
  function UsagePoints(bestFor: seq<string>, usageType: string): (p: real)
    ensures p == 0.0 || p == 20.0
    ensures p == 20.0 <==> usageType in bestFor
  {
    if usageType in bestFor then 20.0
    else if "city" in bestFor && usageType == "city" then 15.0
    else if "highway" in bestFor && usageType == "highway" then 15.0
    else 0.0
  }

  /** Charging-access weight: home charging alone earns nothing. */
  function AccessPoints(chargingAccess: string): (p: real)
    ensures p == 0.0 || p == 10.0
    ensures p == 10.0 <==> chargingAccess in {"public", "both"}
  {
    if chargingAccess == "public" || chargingAccess == "both" then 10.0 else 0.0
  }

  function Score(m: EvModel, s: Settings): (score: real)
    ensures 10.0 <= score <= 100.0
    ensures score >= 10.0 + BudgetPoints(m.basePrice, s.budget)
  {
    BudgetPoints(m.basePrice, s.budget) + RangePoints(m.rangeKm, s.dailyKm)
      + UsagePoints(m.bestFor, s.usageType) + AccessPoints(s.chargingAccess)
  }

  /** The reasoning list, in this order: one budget entry, one range entry for
      the band the daily distance falls in, then the usage entry and last the
      access entry, each present exactly when its weight scored. */
  function Reasoning(m: EvModel, s: Settings): (rs: seq<Reason>)
    ensures 2 <= |rs| <= 4
    ensures IsBudgetReason(rs[0]) && IsRangeReason(rs[1])
    ensures rs[0].WithinBudget? <==> m.basePrice <= s.budget
    ensures rs[0].WithinBudget? ==> rs[0].budget == s.budget
    ensures rs[1].ExcellentRange? <==> m.rangeKm >= s.dailyKm * 1.5
    ensures rs[1].ExcellentRange? ==> rs[1].dailyKm == s.dailyKm
    ensures rs[1].AdequateRange? <==> s.dailyKm <= m.rangeKm < s.dailyKm * 1.5
    ensures rs[1].FrequentCharging? <==> m.rangeKm < s.dailyKm && m.rangeKm < s.dailyKm * 1.5
    ensures forall i :: 2 <= i < |rs| ==> rs[i] == PerfectFor(s.usageType) || rs[i] == PublicCharging
    ensures PerfectFor(s.usageType) in rs ==> rs[2] == PerfectFor(s.usageType)
    ensures PublicCharging in rs ==> rs[|rs| - 1] == PublicCharging
    ensures (PerfectFor(s.usageType) in rs) <==> UsagePoints(m.bestFor, s.usageType) == 20.0
    ensures (PublicCharging in rs) <==> AccessPoints(s.chargingAccess) == 10.0
    ensures |rs| == 2 + (if s.usageType in m.bestFor then 1 else 0)
                      + (if s.chargingAccess in {"public", "both"} then 1 else 0)
  {
    [BudgetReason(m, s), RangeReason(m, s)] + UsageReasons(m, s) + AccessReasons(s)
  }

  function BudgetReason(m: EvModel, s: Settings): Reason
  {
    if m.basePrice <= s.budget then WithinBudget(s.budget) else AboveBudget
  }

  function RangeReason(m: EvModel, s: Settings): Reason
  {
    if m.rangeKm >= s.dailyKm * 1.5 then ExcellentRange(s.dailyKm)
    else if m.rangeKm >= s.dailyKm then AdequateRange
    else FrequentCharging
  }

  function UsageReasons(m: EvModel, s: Settings): seq<Reason>
  {
    if s.usageType in m.bestFor then [PerfectFor(s.usageType)] else []
  }

  function AccessReasons(s: Settings): seq<Reason>
  {
    if s.chargingAccess == "public" || s.chargingAccess == "both" then [PublicCharging] else []
  }

  /** Every catalog model scored, in catalog order. */
  function ScoreAll(catalog: seq<EvModel>, s: Settings): (r: seq<Scored>)
    ensures |r| == |catalog|
    ensures forall i :: 0 <= i < |r| ==>
      r[i] == Scored(catalog[i], Score(catalog[i], s), Reasoning(catalog[i], s), i)
  {
    seq(|catalog|, i requires 0 <= i < |catalog| =>
      Scored(catalog[i], Score(catalog[i], s), Reasoning(catalog[i], s), i))
  }

  function NegScore(x: Scored): real { -x.score }
  function Position(x: Scored): int { x.position }

  /** `recommendations.sort(key=score, reverse=True)`: stable, so it is the
      ascending stable sort on the negated score. */
  function Ranking(catalog: seq<EvModel>, s: Settings): (r: seq<Scored>)
    ensures |r| == |catalog|
    ensures multiset(r) == multiset(ScoreAll(catalog, s))
  {
    SortBy(ScoreAll(catalog, s), NegScore)
  }

  datatype Recommendation =
    | Recommended(model: EvModel, score: real, reasoning: seq<Reason>, alternatives: seq<EvModel>)
    | NoModelsFound

  /** The body of the scoring loop: one model's score, accumulated weight by
      weight, and its reasoning, appended in evaluation order. */
  method ScoreModel(model: EvModel, s: Settings, position: nat) returns (r: Scored)
    ensures r == Scored(model, Score(model, s), Reasoning(model, s), position)
  {
    var score := 0.0;
    var reasoning: seq<Reason> := [];

    var budgetScore: real;
    if model.basePrice <= s.budget {
      budgetScore := 40.0;
      reasoning := reasoning + [WithinBudget(s.budget)];
    } else {
      budgetScore := Max(0.0, 40.0 - (model.basePrice - s.budget) / 50000.0);
      reasoning := reasoning + [AboveBudget];
    }
    score := score + budgetScore;
    assert score == BudgetPoints(model.basePrice, s.budget);

    var requiredRange := s.dailyKm * 1.5;
    var rangeScore: real;
    if model.rangeKm >= requiredRange {
      rangeScore := 30.0;
      reasoning := reasoning + [ExcellentRange(s.dailyKm)];
    } else if model.rangeKm >= s.dailyKm {
      rangeScore := 20.0;
      reasoning := reasoning + [AdequateRange];
    } else {
      rangeScore := 10.0;
      reasoning := reasoning + [FrequentCharging];
    }
    score := score + rangeScore;
    assert rangeScore == RangePoints(model.rangeKm, s.dailyKm);
    assert reasoning == [BudgetReason(model, s), RangeReason(model, s)];

    if s.usageType in model.bestFor {
      score := score + 20.0;
      reasoning := reasoning + [PerfectFor(s.usageType)];
    } else if "city" in model.bestFor && s.usageType == "city" {
      score := score + 15.0;
    } else if "highway" in model.bestFor && s.usageType == "highway" {
      score := score + 15.0;
    }

    assert score == BudgetPoints(model.basePrice, s.budget) + RangePoints(model.rangeKm, s.dailyKm)
      + UsagePoints(model.bestFor, s.usageType);
    assert reasoning == [BudgetReason(model, s), RangeReason(model, s)] + UsageReasons(model, s);

    if s.chargingAccess == "public" || s.chargingAccess == "both" {
      score := score + 10.0;
      reasoning := reasoning + [PublicCharging];
    }

    r := Scored(model, score, reasoning, position);
  }

  /** The scoring loop: one scored record per catalog model, in catalog order. */
  method ScoreEach(catalog: seq<EvModel>, settings: Settings) returns (recommendations: seq<Scored>)
    ensures recommendations == ScoreAll(catalog, settings)
  {
    recommendations := [];
    var i := 0;
    while i < |catalog|
      invariant 0 <= i <= |catalog|
      invariant recommendations == ScoreAll(catalog, settings)[..i]
    {
      var scored := ScoreModel(catalog[i], settings, i);
      recommendations := recommendations + [scored];
      i := i + 1;
    }
  }

  /** Scores every catalog model, ranks them and reports the best with up to
      two alternatives. */
  method RecommendModel(catalog: seq<EvModel>, criteria: Criteria) returns (r: Recommendation)
    ensures r.NoModelsFound? <==> |catalog| == 0
    ensures r.Recommended? ==>
      var ranked := Ranking(catalog, Resolve(criteria));
      && r.model == ranked[0].model
      && r.score == ranked[0].score
      && r.reasoning == ranked[0].reasoning
      && |r.alternatives| == (if |ranked| < 3 then |ranked| - 1 else 2)
      && forall k :: 0 <= k < |r.alternatives| ==> r.alternatives[k] == ranked[k + 1].model
  {
    var settings := Resolve(criteria);
    var recommendations := ScoreEach(catalog, settings);
    var ranked := SortBy(recommendations, NegScore);
    assert ranked == Ranking(catalog, settings);
    r := Summarize(ranked);
  }

  /** The reply built from the ranked records: the best one and the models of
      the next two. */
  method Summarize(ranked: seq<Scored>) returns (r: Recommendation)
    ensures r.NoModelsFound? <==> |ranked| == 0
    ensures r.Recommended? ==>
      && r.model == ranked[0].model
      && r.score == ranked[0].score
      && r.reasoning == ranked[0].reasoning
      && |r.alternatives| == (if |ranked| < 3 then |ranked| - 1 else 2)
      && forall k :: 0 <= k < |r.alternatives| ==> r.alternatives[k] == ranked[k + 1].model
  {
    if |ranked| > 0 {
      var best := ranked[0];
      var top := if |ranked| < 3 then |ranked| else 3;
      var alternatives := seq(top - 1, j requires 0 <= j < top - 1 => ranked[j + 1].model);
      r := Recommended(best.model, best.score, best.reasoning, alternatives);
    } else {
      r := NoModelsFound;
    }
  }

  /** The ranking is a strict order on (score descending, catalog position). */
  lemma RankingOrdered(catalog: seq<EvModel>, s: Settings)
    ensures StrictlyOrdered(Ranking(catalog, s), NegScore, Position)
  {
    var scored := ScoreAll(catalog, s);
    assert PositionsIncrease(scored, Position) by {
      forall i, j | 0 <= i < j < |scored| ensures Position(scored[i]) < Position(scored[j]) {
      }
    }
    SortByStable(scored, NegScore, Position);
  }

  /** Each ranked entry is the scored record of the catalog model at its position. */
  lemma RankedEntry(catalog: seq<EvModel>, s: Settings, k: int)
    requires 0 <= k < |catalog|
    ensures var e := Ranking(catalog, s)[k];
      e.position < |catalog| && e == ScoreAll(catalog, s)[e.position]
  {
    var ranked, scored := Ranking(catalog, s), ScoreAll(catalog, s);
    assert ranked[k] in multiset(scored);
    var i :| 0 <= i < |scored| && scored[i] == ranked[k];
  }

  /** Every catalog model appears in the ranking. */
  lemma ModelRanked(catalog: seq<EvModel>, s: Settings, i: int) returns (k: int)
    requires 0 <= i < |catalog|
    ensures 0 <= k < |catalog| && Ranking(catalog, s)[k] == ScoreAll(catalog, s)[i]
  {
    var ranked, scored := Ranking(catalog, s), ScoreAll(catalog, s);
    assert scored[i] in multiset(ranked);
    k :| 0 <= k < |ranked| && ranked[k] == scored[i];
  }

  /** The recommended model scores at least as much as every catalog model,
      and every model listed before it in the catalog scores strictly less. */
  lemma BestIsFirstMaximum(catalog: seq<EvModel>, s: Settings)
    requires |catalog| > 0
    ensures var best := Ranking(catalog, s)[0];
      && best.position < |catalog|
      && (forall i :: 0 <= i < |catalog| ==> Score(catalog[i], s) <= best.score)
      && (forall i :: 0 <= i < best.position ==> Score(catalog[i], s) < best.score)
  {
    var ranked, scored := Ranking(catalog, s), ScoreAll(catalog, s);
    RankingOrdered(catalog, s);
    RankedEntry(catalog, s, 0);
    forall i | 0 <= i < |catalog|
      ensures Score(catalog[i], s) <= ranked[0].score
      ensures i < ranked[0].position ==> Score(catalog[i], s) < ranked[0].score
    {
      var k := ModelRanked(catalog, s, i);
      StrictlyOrderedAscending(ranked, NegScore, Position, 0, k);
      if k > 0 {
        assert Precedes(ranked[0], ranked[k], NegScore, Position);
      }
    }
  }

  /** The alternatives are later ranked entries, never the recommended model. */
  lemma AlternativesExcludeBest(catalog: seq<EvModel>, s: Settings, k: int)
    requires 0 < k < |catalog|
    ensures Ranking(catalog, s)[k].position != Ranking(catalog, s)[0].position
    ensures Ranking(catalog, s)[k].score <= Ranking(catalog, s)[0].score
  {
    var ranked := Ranking(catalog, s);
    RankingOrdered(catalog, s);
    RankedEntry(catalog, s, 0);
    RankedEntry(catalog, s, k);
    assert Precedes(ranked[0], ranked[k], NegScore, Position);
  }

  /** With the reference catalog's tags, usage type "city" earns no usage
      points for any model: no model lists the bare tag "city". */
  lemma CityUsageEarnsNothing()
    ensures forall m :: m in ReferenceCatalog() ==> UsagePoints(m.bestFor, "city") == 0.0
  {
  }

  /** get_model_by_name: the first catalog model, in insertion order, whose
      lowercased name contains the lowercased query. */
  method GetModelByName(catalog: seq<EvModel>, name: string) returns (r: Option<EvModel>)
    ensures r.Some? ==> exists i :: (0 <= i < |catalog| && catalog[i] == r.value
      && Contains(Lower(catalog[i].name), Lower(name))
      && forall j :: 0 <= j < i ==> !Contains(Lower(catalog[j].name), Lower(name)))
    ensures r.None? <==> forall i :: 0 <= i < |catalog| ==> !Contains(Lower(catalog[i].name), Lower(name))
  {
    var query := Lower(name);
    var i := 0;
    while i < |catalog|
      invariant 0 <= i <= |catalog|
      invariant forall j :: 0 <= j < i ==> !Contains(Lower(catalog[j].name), query)
    {
      if Contains(Lower(catalog[i].name), query) {
        return Some(catalog[i]);
      }
      i := i + 1;
    }
    return None;
  }
}
