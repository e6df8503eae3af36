# Tata EV advisor: decision and cost logic in Dafny

This project models the deterministic core of the Tata Motors EV advisor web
application and proves properties of it. The core has five parts:

- **EvModels** (`ev_models.py`): the EV catalog and the recommendation
  engine. Every model earns budget (40), range (30), usage (20) and
  charging-access (10) points. The scored list is stably sorted by score,
  descending, and the top entry is recommended with up to two alternatives.
  A case-insensitive lookup finds a model by name.
- **CostModel** (`cost_calculator.py`): monthly running cost, the multi-year
  EV-versus-petrol comparison, breakeven and total cost of ownership (TCO),
  all over exact reals.
- **Stations** (`charging_stations.py`): the charging-station directory. It
  has the speed category, the city and fast-charger queries, the conjunctive
  `filter_stations` pipeline and the radius search sorted by distance.
- **RangeEstimator** (`ai_service.py`): the range refinement, which applies
  four condition factors and rounds to two decimals. It also has the keyword
  dispatch of the placeholder reply: the first table key found in the
  lowercased prompt wins.
- **Frontend** (`main.js`): `formatNumber`, `isValidEmail`, `isValidPhone`
  and `validateForm`.

Shared helper modules:

- `Optional`: an Option type with `GetOr`.
- `Text`: ASCII case mapping and Python's substring `in`.
- `Rounding`: Python's `round(x, 2)` as round-half-even to hundredths on
  reals.
- `Sorting`: a stable insertion sort by a real key. It is proved to be a
  permutation, and to be strictly ordered on (key, original position).

Each part keeps the source's form:

- The scoring loop, the scoring of one model, the name lookup, the radius
  search, the range refinement, the reply dispatch and `validateForm` are
  methods. They have the source's loops and step-by-step updates, and each is
  proved against a specification function.
- The cost formulas, the station queries and the string validators are
  functions with lemmas about them.
- Catalogs are sequences in the source's insertion order. No query changes
  them.

## Model

| member | source | states |
|---|---|---|
| EvModels.Resolve | tata-ev-app/backend/modules/ev_models.py:98-101 | An absent criterion defaults to 50 km, "city", a budget of 1,500,000 and "public"; a present one is used as given |
| EvModels.BudgetPoints | tata-ev-app/backend/modules/ev_models.py:111-117 | Budget points are 40 exactly when the price is within budget; above it they fall by one per 50,000 over and reach 0 at 2,000,000 over; always in [0, 40] |
| EvModels.RangePoints | tata-ev-app/backend/modules/ev_models.py:120-130 | Range points are 10, 20 or 30: 30 exactly when the range is at least 1.5 times the daily distance, and at least 20 exactly when the range is at least the daily distance or at least 1.5 times it (the second test matters only for a negative daily distance) |
| EvModels.UsagePoints | tata-ev-app/backend/modules/ev_models.py:132-139 | Usage points are only ever 0 or 20, and 20 exactly when the usage type is one of the model's tags; the two 15-point branches can never fire |
| EvModels.AccessPoints | tata-ev-app/backend/modules/ev_models.py:141-144 | Access points are 10 exactly for "public" or "both", otherwise 0 |
| EvModels.Score | tata-ev-app/backend/modules/ev_models.py:107-145 | A model's total score lies in [10, 100] and is at least 10 plus its budget points |
| EvModels.Reasoning | tata-ev-app/backend/modules/ev_models.py:108-144 | The reasoning has 2 to 4 entries in a fixed order: first the budget entry (within budget, carrying the budget, exactly when the price is within it); second the range entry, which is "excellent" exactly when the range is at least 1.5 times the daily distance, "adequate" exactly when it is at least the daily distance but below 1.5 times it, and "frequent charging" otherwise; then the usage entry, exactly when usage scored; and last the public-charging entry, exactly when access scored |
| EvModels.ScoreModel | tata-ev-app/backend/modules/ev_models.py:107-150 | Accumulating the four weights and appending the reasons step by step yields exactly the model's Score and Reasoning |
| EvModels.ScoreEach | tata-ev-app/backend/modules/ev_models.py:103-150 | The scoring loop yields one record per catalog model, in catalog order, each with its score, reasoning and position |
| EvModels.Ranking | tata-ev-app/backend/modules/ev_models.py:153 | The ranking is a permutation of the scored records |
| EvModels.RecommendModel | tata-ev-app/backend/modules/ev_models.py:98-164 | "No models found" exactly when the catalog is empty; otherwise the best-ranked model with its score and reasoning, and the models of the next one or two ranked entries as alternatives |
| EvModels.Summarize | tata-ev-app/backend/modules/ev_models.py:155-164 | From a ranked list: an error exactly when it is empty, else its head and up to two following entries |
| EvModels.RankingOrdered | tata-ev-app/backend/modules/ev_models.py:153 | The sort is stable and descending: scores never increase along the ranking, and equal scores keep catalog order |
| EvModels.RankedEntry | tata-ev-app/backend/modules/ev_models.py:146-153 | Every ranked entry is the scored record of the catalog model at its position |
| EvModels.ModelRanked | tata-ev-app/backend/modules/ev_models.py:146-153 | Every catalog model occurs in the ranking |
| EvModels.BestIsFirstMaximum | tata-ev-app/backend/modules/ev_models.py:153-158 | The recommended model scores at least as much as every catalog model, and every model before it in the catalog scores strictly less (ties go to the earliest entry) |
| EvModels.AlternativesExcludeBest | tata-ev-app/backend/modules/ev_models.py:153-161 | Each later ranked entry is a different catalog model from the recommended one and scores no more |
| EvModels.CityUsageEarnsNothing | tata-ev-app/backend/modules/ev_models.py:46-82 | With the reference catalog's tags, usage type "city" earns no usage points for any model |
| EvModels.GetModelByName | tata-ev-app/backend/modules/ev_models.py:170-175 | Returns the first catalog model whose lowercased name contains the lowercased query, and none exactly when no name contains it |
| CostModel.CalculateMonthlyCost | tata-ev-app/backend/modules/cost_calculator.py:17-56 | A result exactly for "petrol" or "ev" in any case. Monthly distance is 30 days of driving. Energy is distance/18 litres or distance/5 kWh, and cost is energy times price. Cost per km times distance is the cost when the distance is positive, else 0 |
| CostModel.MonthlyCostPerKm | tata-ev-app/backend/modules/cost_calculator.py:32-55 | For a positive distance the cost per km is the fuel price/18 or the electricity rate/5, whatever the distance |
| CostModel.CompareCosts | tata-ev-app/backend/modules/cost_calculator.py:59-112 | Period distance is daily km times 365 times years. Petrol maintenance is distance/500. The EV maintenance credit is distance/2000, taken off the electricity cost. Savings are petrol fuel cost minus the EV total. Monthly and yearly savings divide by 12 times years and by years, and are 0 when years is at most 0. The percentage divides by the petrol fuel cost, and is 0 when that is at most 0 |
| CostModel.SavingsPositiveIff | tata-ev-app/backend/modules/cost_calculator.py:73-88 | Over a positive distance the savings are positive exactly when fuel price/18 + 0.0005 exceeds electricity rate/5 |
| CostModel.SavingsOmitPetrolMaintenance | tata-ev-app/backend/modules/cost_calculator.py:88-98 | The savings are the difference of the two reported totals less the petrol maintenance cost |
| CostModel.ReferenceComparisonSaves | tata-ev-app/backend/test_app.py:180-189 | At 60 km a day, fuel 105, electricity 8, over 5 years, total savings and savings percentage are positive |
| CostModel.ComparisonScalesMonthlyCost | tata-ev-app/backend/modules/cost_calculator.py:32-81 | The comparison's petrol fuel cost and EV electricity cost are the monthly costs scaled from a 30-day month to the period of 365-day years |
| CostModel.CalculateBreakeven | tata-ev-app/backend/modules/cost_calculator.py:130-150 | Not possible exactly when the daily saving is at most 0, and then there is no division. Otherwise the days times the daily saving equal the price difference, years are days/365 and km are days times daily km |
| CostModel.DailySavings | tata-ev-app/backend/modules/cost_calculator.py:130-132 | The daily saving is the daily distance times the petrol-minus-EV energy price per km |
| CostModel.BreakevenPossibleIff | tata-ev-app/backend/modules/cost_calculator.py:130-141 | Breakeven is possible exactly when the daily distance and the EV's per-km saving have the same strict sign. So for a car that is driven it is possible exactly when the EV is cheaper per km, and for a distance of 0 it is never possible. A positive premium takes a positive number of days |
| CostModel.BreakevenAgreesWithComparison | tata-ev-app/backend/modules/cost_calculator.py:130-132 | The daily saving over the comparison period is the comparison's petrol fuel cost minus its electricity cost |
| CostModel.TotalCostOfOwnership | tata-ev-app/backend/modules/cost_calculator.py:155-201 | Only "ev" in any case selects the EV branch; every other type is costed as petrol. The total is price + energy + maintenance + insurance (3% or 5% of the price per year) + 12% tax. Cost per km is 0 when the distance is at most 0 |
| CostModel.TcoAgreesWithComparison | tata-ev-app/backend/modules/cost_calculator.py:173-183 | The TCO's distance, energy and maintenance figures are those of compare_costs; the EV maintenance the comparison credits is the amount the TCO charges |
| CostModel.TcoClosedForm | tata-ev-app/backend/modules/cost_calculator.py:173-187 | The TCO is 1.12 times the price plus a fixed running cost per year of ownership |
| CostModel.TcoGrowsWithYears | tata-ev-app/backend/modules/cost_calculator.py:173-187 | With non-negative inputs, owning longer never costs less |
| CostModel.CompareTco | tata-ev-app/backend/modules/cost_calculator.py:205-225 | The EV entry is the EV total cost of ownership and the petrol entry the petrol one, both for the same usage. "EV cheaper" compares the totals rounded to two decimals. The savings are the rounded petrol total minus the rounded EV total, rounded. The per-km difference is the rounded petrol cost per km minus the rounded EV cost per km, rounded |
| CostModel.CompareTcoVerdict | tata-ev-app/backend/modules/cost_calculator.py:221-222 | The verdict holds exactly when the reported savings are positive. It implies that the exact EV total is lower, and follows from it whenever the totals differ by more than a hundredth |
| Stations.ReferenceStationsWellFormed | tata-ev-app/backend/modules/charging_stations.py:71-107 | The reference directory has at least 20 stations, each "AC" or "DC" with positive power |
| Stations.SpeedCategoryOf | tata-ev-app/backend/modules/charging_stations.py:56-63 | Slow exactly below 10 kW, Fast exactly from 10 up to below 50 kW, Ultra-Fast exactly from 50 kW |
| Stations.SpeedCategoryMonotone | tata-ev-app/backend/modules/charging_stations.py:56-63 | More power never gives a slower category |
| Stations.Filter | tata-ev-app/backend/modules/charging_stations.py:155-170 | A comprehension keeps exactly the elements that pass, each as many times as it occurs in the input, as an order-preserving subsequence |
| Stations.StationsByCity | tata-ev-app/backend/modules/charging_stations.py:113-116 | Exactly the stations whose city equals the query case-insensitively, with their multiplicities, in catalog order |
| Stations.FastChargers | tata-ev-app/backend/modules/charging_stations.py:118-121 | Exactly the DC stations of at least 50 kW, with their multiplicities, in catalog order |
| Stations.FilterStations | tata-ev-app/backend/modules/charging_stations.py:155-170 | The successive comprehensions equal one filter by the conjunction of the supplied criteria. The city matches case-insensitively, the type matches the uppercased filter, power is at least the minimum and cost at most the maximum. Empty city and type filters are ignored |
| Stations.FilterStationsNoCriteria | tata-ev-app/backend/modules/charging_stations.py:155-170 | With no criteria every station is returned, in catalog order |
| Stations.CityQueryIsCityFilter | tata-ev-app/backend/modules/charging_stations.py:113-116 | The city query is filter_stations with only a non-empty city criterion |
| Stations.FastChargersIsTypeAndPowerFilter | tata-ev-app/backend/modules/charging_stations.py:118-121 | The fast-charger query is filter_stations with type "dc" and a 50 kW minimum |
| Stations.Candidates | tata-ev-app/backend/modules/charging_stations.py:131-140 | The search loop appends only catalog stations within the radius, with their distance, in catalog order |
| Stations.CandidatesCover | tata-ev-app/backend/modules/charging_stations.py:131-140 | Every station within the radius is appended |
| Stations.GetNearbyStations | tata-ev-app/backend/modules/charging_stations.py:123-142 | The result holds exactly the stations within the radius (inclusive, none for a negative radius), sorted by distance with ties in catalog order |
| Stations.NearbyStationsProperties | tata-ev-app/backend/modules/charging_stations.py:129-142 | The sorted search result is sound, complete and ordered by distance, with ties in catalog order |
| Stations.MumbaiSearchFindsStations | tata-ev-app/backend/modules/charging_stations.py:123-142 | On the reference directory, a 15 km search around central Mumbai (19.0760, 72.8777) finds at least one station, the Worli hub among them. These are the inputs of the nearby-chargers test in test_app.py, which itself checks only that the response has a `stations` key |
| RangeEstimator.RefineRangePrediction | tata-ev-app/backend/modules/ai_service.py:81-114 | Multiplying the adjustment condition by condition yields the base range times the product of the four factors, rounded to two decimals |
| RangeEstimator.MultiplierBounds | tata-ev-app/backend/modules/ai_service.py:93-112 | The combined multiplier lies between 0.5202 and 1.265 |
| RangeEstimator.AcScalesMultiplier | tata-ev-app/backend/modules/ai_service.py:96-97 | Turning the AC on scales the multiplier by exactly 0.9 |
| RangeEstimator.AcReducesRange | tata-ev-app/backend/modules/ai_service.py:96-114 | For a positive base, AC strictly lowers the exact range, and by more than 0.01 km once the base is at least 1 km |
| RangeEstimator.AcReducesReportedRange | tata-ev-app/backend/modules/ai_service.py:96-114 | For a base of at least 1 km, AC strictly lowers the returned (rounded) range |
| RangeEstimator.AcPenaltyHiddenOnTinyBase | tata-ev-app/backend/modules/ai_service.py:96-114 | For a base of 0.01 km the returned range is the same with and without AC |
| RangeEstimator.EcoHighwayGap | tata-ev-app/backend/modules/ai_service.py:99-112 | Eco on the highway gives a strictly larger exact range than aggressive in the city, by more than 0.01 km once the base is at least 1 km |
| RangeEstimator.EcoHighwayBeatsAggressiveCity | tata-ev-app/backend/modules/ai_service.py:99-114 | The same ordering holds for the returned (rounded) range when the base is at least 1 km |
| RangeEstimator.AbsentVersusUnknown | tata-ev-app/backend/modules/ai_service.py:100-112 | Unrecognised style, temperature and route values have factor 1.0. Absent keys read as moderate, normal and mix, so the absent route costs 5% |
| RangeEstimator.FirstKeyIn | tata-ev-app/backend/modules/ai_service.py:74-79 | The first key, in table order, that occurs in the text, and none exactly when no key occurs |
| RangeEstimator.GenerateMockResponse | tata-ev-app/backend/modules/ai_service.py:57-79 | The reply is the entry of the first table key found in the lowercased prompt, or the default reply when none is found |
| RangeEstimator.RangeKeyWins | tata-ev-app/backend/modules/ai_service.py:65-76 | A prompt mentioning "range" always gets the range entry |
| RangeEstimator.RecommendationChosenLast | tata-ev-app/backend/modules/ai_service.py:65-76 | The recommendation entry is chosen only when none of the other four keys occurs |
| Frontend.Digits | tata-ev-app/backend/static/js/main.js:25 | toString on a non-negative integer below 10^21 gives at least one decimal digit and denotes the number. It starts with "0" only when it is exactly "0", so there is no leading zero |
| Frontend.FormatNumberIsRegexReplace | tata-ev-app/backend/static/js/main.js:24-26 | formatNumber on an integer of magnitude below 10^21 is exactly the global replacement of /\B(?=(\d{3})+(?!\d))/ by "," in its toString |
| Frontend.FormatNumberRemovesToString | tata-ev-app/backend/static/js/main.js:24-26 | Removing the commas from formatNumber's output gives toString back |
| Frontend.CommaScanGroups | tata-ev-app/backend/static/js/main.js:24-26 | On the digits of a non-negative number, the output has one comma per full group of three after the first. A comma stands exactly at the non-first positions a multiple of four before the end, so the first group has 1 to 3 digits and every later group 3 |
| Frontend.FormatNumberThousands | tata-ev-app/backend/static/js/main.js:24-26 | 1500000 is formatted "1,500,000" (thousands grouping) |
| Frontend.PhoneNumberRange | tata-ev-app/backend/static/js/main.js:270-273 | A phone is valid exactly when it has ten digits once non-digits are dropped, and those digits read as a number are at least 6,000,000,000 |
| Frontend.PhoneIgnoresSeparators | tata-ev-app/backend/static/js/main.js:272 | A non-digit inserted anywhere never changes the verdict |
| Frontend.PhoneStrippedFirst | tata-ev-app/backend/static/js/main.js:272 | Dropping the non-digits first gives the same verdict |
| Frontend.CountryCodeRejected | tata-ev-app/backend/static/js/main.js:270-273 | A valid number with "+91 " or "0" in front is rejected |
| Frontend.EmailIsPattern | tata-ev-app/backend/static/js/main.js:262-265 | isValidEmail holds exactly when /^[^\s@]+@[^\s@]+\.[^\s@]+$/ matches: one '@' with something before it, no white space, and a '.' after the '@' with something on both sides |
| Frontend.JsNumber | tata-ev-app/backend/static/js/main.js:290 | In `value < rule.min` the empty string compares as 0, a digit string as its decimal value, and anything else as NaN |
| Frontend.ValidateForm | tata-ev-app/backend/static/js/main.js:278-296 | Errors are reported only for fields named in the rules, one per field. A field has an error exactly when the first failing check, in the source's order, fails for it, and the error is that check's |
| Frontend.FieldPassesIff | tata-ev-app/backend/static/js/main.js:284-292 | A field passes exactly when all of these hold: a required field is truthy; a truthy email field is a valid e-mail; a truthy phone field is a valid phone; with a non-zero minimum, the value is not below it |
| Frontend.FieldErrorMeaning | tata-ev-app/backend/static/js/main.js:284-292 | "Required" is reported exactly for a required falsy field, and no other check runs for it. "Invalid" is reported only for a truthy value that fails its email or phone check. "Too small" is reported only under a non-zero minimum the value is below, and only after the required, email and phone checks have passed |
| Frontend.EmptyOptionalFieldBelowMinimum | tata-ev-app/backend/static/js/main.js:282-290 | An optional field with a positive minimum passes when missing, but fails as "too small" when present and empty, because "" compares as 0 |
| Frontend.NumericFieldAgainstMinimum | tata-ev-app/backend/static/js/main.js:290-291 | A filled digit-string field under a non-zero minimum fails exactly when its number is below the minimum |
| Rounding.Round2 | tata-ev-app/backend/modules/ai_service.py:114 | round(x, 2) is a multiple of a hundredth within 0.005 of x |
| Rounding.Round2Separates | tata-ev-app/backend/modules/cost_calculator.py:221 | Values more than a hundredth apart stay strictly ordered after rounding |
| Rounding.Round2Reflects | tata-ev-app/backend/modules/cost_calculator.py:221 | Rounded values in strict order come from values in strict order |
| Sorting.SortBy | tata-ev-app/backend/modules/ev_models.py:153 | The sort returns a permutation of its input |
| Sorting.SortByStable | tata-ev-app/backend/modules/charging_stations.py:142 | Sorting elements whose positions increase yields a strict order on (key, position): the sort is ascending and stable |
| Text.Lower | tata-ev-app/backend/modules/ev_models.py:173 | str.lower keeps the length and maps each character: A to Z become a to z, all else is unchanged |
| Text.ContainsFrom | tata-ev-app/backend/modules/ev_models.py:173 | Substring search from a position holds exactly when the substring occurs at some position from there on |

## Left out

- `EVModel.to_dict` and `get_all_models` only copy a model's fields into a
  dictionary, so `EvModels.EvModel` stands for that dictionary.
  `charging_time` is carried along as plain data (`EvModels.ChargingTime`).
- `ChargingStation.to_dict` and `get_all_stations` copy a station's fields
  and add two more keys. `Stations.Station` stands for the copied fields.
  The added `charging_speed` is the computed category, modelled by
  `Stations.SpeedCategoryOf`. The added `availability` is always the
  constant "Available" (charging_stations.py:38), and the model drops it.
- The reasoning strings, the breakeven summary and the f-string number
  formatting (`:.1f`, `:.0f`) are opaque tokens (`EvModels.Reason`).
- EvModels.RecommendModel: `list.sort` works in place on the Python list;
  here it is `Sorting.SortBy` on the sequence value, so no aliasing of the
  list is modelled.
- CostModel.CalculateMonthlyCost, CostModel.CompareCosts,
  CostModel.CalculateBreakeven and CostModel.TotalCostOfOwnership report
  exact reals. The source rounds each reported figure to two decimals.
  Rounding is modelled only where a rounded figure feeds a decision (the
  `compare_tco` verdict and savings) and in the range refinement's returned
  value.
- Rounding.Round2: round-half-even on exact reals. Python rounds the binary
  floating-point value, which can differ on inputs that are not exactly
  representable.
- Stations.GetNearbyStations: Dafny has no square root on reals, so
  inclusion compares the squared distance (dlat² + dlon²)·111² with the
  squared radius. The result is sorted by that exact squared distance, not
  by the distance rounded to two decimals. Stations whose rounded distances
  tie but whose exact distances differ may therefore come out in a different
  order. The reported `distance_km` field is not computed.
- Text.Lower and Text.Upper map only the ASCII letters. Python's
  `str.lower`/`str.upper` also map other Unicode letters.
- RangeEstimator.GenerateMockResponse returns the chosen table key, not the
  canned answer text. `generate_ai_response`, its exception wrapper,
  `chat_assistant` and `get_model_comparison` are placeholders around an
  external language model and are not modelled.
- RangeEstimator.Conditions carries `ac_usage` as its truthiness (a bool).
  A style, temperature or route given as a non-string value is not modelled.
- RangeEstimator.AcReducesReportedRange requires a base of at least 1 km:
  for smaller bases rounding can hide the AC penalty, as
  `RangeEstimator.AcPenaltyHiddenOnTinyBase` shows for 0.01 km.
- Frontend.FormatNumberIsRegexReplace covers integers only. formatNumber on
  a number with a fraction, an exponent or NaN is not modelled.
- Frontend.Digits, Frontend.IntegerString and Frontend.FormatNumber write
  every integer as plain decimal digits. JavaScript's toString switches to
  exponent form at 10^21 (`(1e21).toString()` is "1e+21"), and integers
  above 2^53 are not exact doubles. So the model agrees with the source only
  for magnitudes below 10^21, and for exactly represented integers.
- CostModel.CalculateMonthlyCost, CostModel.CompareCosts,
  CostModel.TotalCostOfOwnership and Stations.GetNearbyStations take every
  argument explicitly. The Python defaults are not modelled:
  `vehicle_type="petrol"` (cost_calculator.py:19 and :158), `years=1`
  (cost_calculator.py:60) and `radius_km=10` (charging_stations.py:124).
  A call that omits one of them is the model's call with the default value
  written out.
- Frontend.JsNumber converts only the empty string and strings of ASCII
  digits. JavaScript's Number conversion also accepts surrounding white
  space, signs, fractions, exponents and hexadecimal, which are not modelled
  (such values are treated as NaN).
- Frontend.ValidateForm: form values are strings and `rule.min` is an
  integer; numeric form values and string or fractional minimums are not
  modelled. Its message texts are the `FieldError` constructors with the
  label and minimum. The rules are a sequence of entries with distinct
  field names, as `Object.entries` gives.
- The Flask application (`app.py`), its routes, JSON handling, the
  test-drive booking log, the deployment entry points and the browser-only
  code of `main.js` (DOM, fetch, `debounce`, `formatCurrency` with the `Intl`
  library) are not part of this model.
