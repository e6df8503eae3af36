/** The charging-station directory (ChargingStationsDatabase): the speed
    category of a station, order-preserving queries by city, by fast charging
    and by conjunctive optional criteria, and the radius search that returns
    the stations within reach sorted by distance. The catalog is a value, so
    no query can change it. */
module Stations {
  import opened Optional
  import opened Text
  import opened Sorting

  datatype Station = Station(
    stationId: string,
    name: string,
    location: string,
    city: string,
    chargerType: string,
    powerKw: real,
    costPerKwh: real,
    latitude: real,
    longitude: real)

  function ReferenceStations(): seq<Station>
  {
    [ Station("MH001", "Tata Power Charging Hub", "Worli, Mumbai", "Mumbai", "DC", 50.0, 8.0, 19.0176, 72.8194),
      Station("MH002", "Nexon Care Center", "Vile Parle, Mumbai", "Mumbai", "AC", 7.0, 10.0, 19.1136, 72.8481),
      Station("MH003", "EV Fast Charge", "Andheri, Mumbai", "Mumbai", "DC", 50.0, 8.5, 19.1136, 72.8697),
      Station("MH004", "Green Hub Station", "Thane, Mumbai", "Mumbai", "AC", 7.0, 9.5, 19.2183, 72.9781),
      Station("DL001", "Delhi EV Hub", "Connaught Place, Delhi", "Delhi", "DC", 50.0, 7.5, 28.6328, 77.2197),
      Station("DL002", "Power Station Alpha", "Gurgaon, Delhi", "Delhi", "DC", 50.0, 8.0, 28.4595, 77.0266),
      Station("DL003", "EV Home Charger", "Noida, Delhi", "Delhi", "AC", 7.0, 9.0, 28.5921, 77.3869),
      Station("DL004", "Fast Charge Network", "Dwarka, Delhi", "Delhi", "DC", 50.0, 8.0, 28.5355, 77.0411),
      Station("KA001", "Nexon Energy Hub", "Whitefield, Bangalore", "Bangalore", "DC", 50.0, 7.0, 13.0827, 77.6208),
      Station("KA002", "Punching Point", "Indiranagar, Bangalore", "Bangalore", "AC", 7.0, 9.0, 13.0344, 77.6245),
      Station("KA003", "Ultra Charge Station", "Koramangala, Bangalore", "Bangalore", "DC", 50.0, 7.5, 12.9352, 77.6245),
      Station("KA004", "Eco Charging Zone", "Marathahalli, Bangalore", "Bangalore", "AC", 7.0, 8.5, 13.0211, 77.6997),
      Station("MH005", "Tata Charging Point", "Hinjewadi, Pune", "Pune", "DC", 50.0, 7.0, 18.5912, 73.7499),
      Station("MH006", "Smart Charge Hub", "Baner, Pune", "Pune", "AC", 7.0, 9.0, 18.5596, 73.8140),
      Station("MH007", "Quick Charge Corner", "Viman Nagar, Pune", "Pune", "DC", 50.0, 7.5, 18.5672, 73.9108),
      Station("TG001", "Hyderabad EV Hub", "Hitech City, Hyderabad", "Hyderabad", "DC", 50.0, 7.0, 17.3850, 78.4867),
      Station("TG002", "Power Nexus", "Uppal, Hyderabad", "Hyderabad", "AC", 7.0, 9.0, 17.3915, 78.5145),
      Station("TG003", "Charge Station Pro", "Gachibowli, Hyderabad", "Hyderabad", "DC", 50.0, 7.5, 17.4404, 78.4489),
      Station("GJ001", "Ahmedabad Charging Network", "Iscon, Ahmedabad", "Ahmedabad", "AC", 7.0, 8.5, 23.0225, 72.5714),
      Station("GJ002", "Fast Charge Zone", "Satellite, Ahmedabad", "Ahmedabad", "DC", 50.0, 7.5, 23.1815, 72.6369),
      Station("TN001", "Chennai EV Hub", "T. Nagar, Chennai", "Chennai", "AC", 7.0, 9.0, 13.0411, 80.2383),
      Station("TN002", "Quick Charge", "Anna Nagar, Chennai", "Chennai", "DC", 50.0, 7.5, 13.0856, 80.2103) ]
  }

  /** The reference directory has at least 20 stations, each AC or DC with a positive power rating. */
  lemma ReferenceStationsWellFormed()
    ensures |ReferenceStations()| >= 20
    ensures forall i :: 0 <= i < |ReferenceStations()| ==> WellFormedStation(ReferenceStations()[i])
  {
    var r := ReferenceStations();
    forall i | 0 <= i < |r|
      ensures WellFormedStation(r[i])
    {
      assert r[i].chargerType == "DC" || r[i].chargerType == "AC";
    }
  }

  predicate WellFormedStation(s: Station)
  {
    (s.chargerType == "AC" || s.chargerType == "DC") && s.powerKw > 0.0
  }

  datatype SpeedCategory = Slow | Fast | UltraFast

  function SpeedCategoryOf(powerKw: real): (c: SpeedCategory)
    ensures c == Slow <==> powerKw < 10.0
    ensures c == Fast <==> 10.0 <= powerKw < 50.0
    ensures c == UltraFast <==> 50.0 <= powerKw
  {
    if powerKw < 10.0 then Slow
    else if powerKw < 50.0 then Fast
    else UltraFast
  }

  function SpeedRank(c: SpeedCategory): nat
  {
    match c
    case Slow => 0
    case Fast => 1
    case UltraFast => 2
  }

  /** More power never gives a slower category. */
  lemma SpeedCategoryMonotone(p: real, q: real)
    requires p <= q
    ensures SpeedRank(SpeedCategoryOf(p)) <= SpeedRank(SpeedCategoryOf(q))
  {
  }

  /** `r` occurs in `xs` in the same order, possibly with gaps. */
  ghost predicate IsSubsequence(r: seq<Station>, xs: seq<Station>)
  {
    if r == [] then true
    else if xs == [] then false
    else if r[0] == xs[0] then IsSubsequence(r[1..], xs[1..])
    else IsSubsequence(r, xs[1..])
  }

  /** A list comprehension `[s for s in xs if p(s)]`. */
  function Filter(xs: seq<Station>, p: Station -> bool): (r: seq<Station>)
    ensures |r| <= |xs|
    ensures forall x :: x in r <==> x in xs && p(x)
    ensures forall x :: multiset(r)[x] == if p(x) then multiset(xs)[x] else 0
    ensures IsSubsequence(r, xs)
  {
    if xs == [] then []
    else
      assert xs == [xs[0]] + xs[1..];
      if p(xs[0]) then [xs[0]] + Filter(xs[1..], p)
      else
        var rest := Filter(xs[1..], p);
        assert rest != [] ==> rest[0] in rest && rest[0] != xs[0];
        rest
  }

  /** Filtering only looks at the predicate's values on the elements. */
  lemma {:induction false} FilterExtensional(xs: seq<Station>, p: Station -> bool, q: Station -> bool)
    requires forall x :: x in xs ==> p(x) == q(x)
    ensures Filter(xs, p) == Filter(xs, q)
  {
    if xs != [] {
      FilterExtensional(xs[1..], p, q);
    }
  }

  /** Filtering twice is filtering once by the conjunction. */
  lemma {:induction false} FilterFuse(xs: seq<Station>, p: Station -> bool, q: Station -> bool,
                                      pq: Station -> bool)
    requires forall x :: pq(x) == (p(x) && q(x))
    ensures Filter(Filter(xs, p), q) == Filter(xs, pq)
  {
    if xs != [] {
      FilterFuse(xs[1..], p, q, pq);
    }
  }

  /** A filter that every element passes keeps the whole list. */
  lemma {:induction false} FilterKeepsAll(xs: seq<Station>, p: Station -> bool)
    requires forall x :: x in xs ==> p(x)
    ensures Filter(xs, p) == xs
  {
    if xs != [] {
      FilterKeepsAll(xs[1..], p);
    }
  }

  /** get_stations_by_city: the stations whose city equals the query, ignoring case. */
  function StationsByCity(stations: seq<Station>, city: string): (r: seq<Station>)
    ensures forall s :: s in r <==> s in stations && Lower(s.city) == Lower(city)
    ensures forall s :: multiset(r)[s] == if Lower(s.city) == Lower(city) then multiset(stations)[s] else 0
    ensures IsSubsequence(r, stations)
  {
    Filter(stations, (s: Station) => Lower(s.city) == Lower(city))
  }

  /** get_fast_chargers: the DC stations of at least 50 kW. */
  function FastChargers(stations: seq<Station>): (r: seq<Station>)
    ensures forall s :: s in r <==> s in stations && s.chargerType == "DC" && s.powerKw >= 50.0
    ensures forall s :: multiset(r)[s] ==
                        if s.chargerType == "DC" && s.powerKw >= 50.0 then multiset(stations)[s] else 0
    ensures IsSubsequence(r, stations)
  {
    Filter(stations, (s: Station) => s.chargerType == "DC" && s.powerKw >= 50.0)
  }

  /** filter_stations' dictionary; an absent key is None. The city and
      charger-type filters are also ignored when empty (falsy); the numeric
      ones apply whenever the key is present, zero included. */
  datatype StationFilters = StationFilters(
    city: Option<string>,
    chargerType: Option<string>,
    minPowerKw: Option<real>,
    maxCostPerKwh: Option<real>)

  predicate CityActive(f: StationFilters) { f.city.Some? && f.city.value != "" }
  predicate TypeActive(f: StationFilters) { f.chargerType.Some? && f.chargerType.value != "" }

  predicate CityOk(s: Station, f: StationFilters)
  {
    CityActive(f) ==> Lower(s.city) == Lower(f.city.value)
  }

  predicate TypeOk(s: Station, f: StationFilters)
  {
    TypeActive(f) ==> s.chargerType == Upper(f.chargerType.value)
  }

  predicate PowerOk(s: Station, f: StationFilters)
  {
    f.minPowerKw.Some? ==> s.powerKw >= f.minPowerKw.value
  }

  predicate CostOk(s: Station, f: StationFilters)
  {
    f.maxCostPerKwh.Some? ==> s.costPerKwh <= f.maxCostPerKwh.value
  }

  /** The conjunction of every supplied criterion. */
  predicate MeetsAll(s: Station, f: StationFilters)
  {
    CityOk(s, f) && TypeOk(s, f) && PowerOk(s, f) && CostOk(s, f)
  }

  /** filter_stations: the criteria applied one after another, each to the previous result. */
  function FilterStations(stations: seq<Station>, f: StationFilters): (r: seq<Station>)
    ensures r == Filter(stations, (s: Station) => MeetsAll(s, f))
    ensures forall s :: s in r <==> s in stations && MeetsAll(s, f)
    ensures IsSubsequence(r, stations)
  {
    var r0 := stations;
    var r1 := if CityActive(f) then Filter(r0, (s: Station) => Lower(s.city) == Lower(f.city.value)) else r0;
    var r2 := if TypeActive(f) then Filter(r1, (s: Station) => s.chargerType == Upper(f.chargerType.value)) else r1;
    var r3 := if f.minPowerKw.Some? then Filter(r2, (s: Station) => s.powerKw >= f.minPowerKw.value) else r2;
    var r4 := if f.maxCostPerKwh.Some? then Filter(r3, (s: Station) => s.costPerKwh <= f.maxCostPerKwh.value) else r3;
    PipelineIsConjunction(stations, f, r1, r2, r3, r4);
    r4
  }

  lemma PipelineIsConjunction(stations: seq<Station>, f: StationFilters,
                              r1: seq<Station>, r2: seq<Station>, r3: seq<Station>, r4: seq<Station>)
    requires r1 == if CityActive(f) then Filter(stations, (s: Station) => Lower(s.city) == Lower(f.city.value)) else stations
    requires r2 == if TypeActive(f) then Filter(r1, (s: Station) => s.chargerType == Upper(f.chargerType.value)) else r1
    requires r3 == if f.minPowerKw.Some? then Filter(r2, (s: Station) => s.powerKw >= f.minPowerKw.value) else r2
    requires r4 == if f.maxCostPerKwh.Some? then Filter(r3, (s: Station) => s.costPerKwh <= f.maxCostPerKwh.value) else r3
    ensures r4 == Filter(stations, (s: Station) => MeetsAll(s, f))
  {
    var c1: Station -> bool := (s: Station) => CityOk(s, f);
    var c2: Station -> bool := (s: Station) => CityOk(s, f) && TypeOk(s, f);
    var c3: Station -> bool := (s: Station) => CityOk(s, f) && TypeOk(s, f) && PowerOk(s, f);
    var c4: Station -> bool := (s: Station) => MeetsAll(s, f);
    if CityActive(f) {
      FilterExtensional(stations, (s: Station) => Lower(s.city) == Lower(f.city.value), c1);
    } else {
      FilterKeepsAll(stations, c1);
    }
    assert r1 == Filter(stations, c1);
    if TypeActive(f) {
      FilterFuse(stations, c1, (s: Station) => s.chargerType == Upper(f.chargerType.value), c2);
    } else {
      FilterExtensional(stations, c1, c2);
    }
    assert r2 == Filter(stations, c2);
    if f.minPowerKw.Some? {
      FilterFuse(stations, c2, (s: Station) => s.powerKw >= f.minPowerKw.value, c3);
    } else {
      FilterExtensional(stations, c2, c3);
    }
    assert r3 == Filter(stations, c3);
    if f.maxCostPerKwh.Some? {
      FilterFuse(stations, c3, (s: Station) => s.costPerKwh <= f.maxCostPerKwh.value, c4);
    } else {
      FilterExtensional(stations, c3, c4);
    }
  }

  /** With no criteria every station is returned, in catalog order. */
  lemma FilterStationsNoCriteria(stations: seq<Station>)
    ensures FilterStations(stations, StationFilters(None, None, None, None)) == stations
  {
    FilterKeepsAll(stations, (s: Station) => MeetsAll(s, StationFilters(None, None, None, None)));
  }

  /** The city query is filter_stations with only a (non-empty) city criterion. */
  lemma CityQueryIsCityFilter(stations: seq<Station>, city: string)
    requires city != ""
    ensures StationsByCity(stations, city) == FilterStations(stations, StationFilters(Some(city), None, None, None))
  {
    var f := StationFilters(Some(city), None, None, None);
    FilterExtensional(stations, (s: Station) => Lower(s.city) == Lower(city), (s: Station) => MeetsAll(s, f));
  }

  /** The fast-charger query is filter_stations with type "dc" (uppercased to
      "DC") and a 50 kW minimum. */
  lemma FastChargersIsTypeAndPowerFilter(stations: seq<Station>)
    ensures FastChargers(stations) == FilterStations(stations, StationFilters(None, Some("dc"), Some(50.0), None))
  {
    var f := StationFilters(None, Some("dc"), Some(50.0), None);
    assert Upper("dc") == "DC";
    FilterExtensional(stations, (s: Station) => s.chargerType == "DC" && s.powerKw >= 50.0, (s: Station) => MeetsAll(s, f));
  }

  /** A station within reach of the query point, with its squared distance and
      its position in the catalog. */
  datatype NearbyStation = NearbyStation(station: Station, squaredDistanceKm: real, position: nat)

  /** The square of the source's distance sqrt(dlat^2 + dlon^2) * 111. */
  function SquaredDistanceKm(s: Station, latitude: real, longitude: real): (d: real)
    ensures d >= 0.0
  {
    var dLat := s.latitude - latitude;
    var dLon := s.longitude - longitude;
    (dLat * dLat + dLon * dLon) * 111.0 * 111.0
  }

  /** distance <= radius_km, squared: a negative radius admits nothing,
      since a distance is never negative. */
  predicate WithinRadius(s: Station, latitude: real, longitude: real, radiusKm: real)
  {
    radiusKm >= 0.0 && SquaredDistanceKm(s, latitude, longitude) <= radiusKm * radiusKm
  }

  /** The stations the search loop appends, in catalog order. */
  function Candidates(stations: seq<Station>, latitude: real, longitude: real, radiusKm: real): (r: seq<NearbyStation>)
    ensures forall k :: 0 <= k < |r| ==>
      && r[k].position < |stations|
      && r[k].station == stations[r[k].position]
      && r[k].squaredDistanceKm == SquaredDistanceKm(r[k].station, latitude, longitude)
      && WithinRadius(r[k].station, latitude, longitude, radiusKm)
    ensures forall k, j :: 0 <= k < j < |r| ==> r[k].position < r[j].position
  {
    if stations == [] then []
    else
      var n := |stations| - 1;
      var init := stations[..n];
      var prev := Candidates(init, latitude, longitude, radiusKm);
      var s := stations[n];
      assert forall i :: 0 <= i < n ==> init[i] == stations[i];
      var r := if WithinRadius(s, latitude, longitude, radiusKm)
               then prev + [NearbyStation(s, SquaredDistanceKm(s, latitude, longitude), n)]
               else prev;
      r
  }

  /** Every station within reach is among the candidates. */
  lemma {:induction false} CandidatesCover(stations: seq<Station>, latitude: real, longitude: real,
                                           radiusKm: real, i: int)
    requires 0 <= i < |stations| && WithinRadius(stations[i], latitude, longitude, radiusKm)
    ensures exists k :: (0 <= k < |Candidates(stations, latitude, longitude, radiusKm)|
      && Candidates(stations, latitude, longitude, radiusKm)[k].position == i)
  {
    var n := |stations| - 1;
    var prev := Candidates(stations[..n], latitude, longitude, radiusKm);
    var r := Candidates(stations, latitude, longitude, radiusKm);
    if i < n {
      assert stations[..n][i] == stations[i];
      CandidatesCover(stations[..n], latitude, longitude, radiusKm, i);
      var k :| 0 <= k < |prev| && prev[k].position == i;
      assert r[k] == prev[k];
    } else {
      assert r[|prev|].position == i;
    }
  }

  function DistanceKey(x: NearbyStation): real { x.squaredDistanceKm }
  function StationPosition(x: NearbyStation): int { x.position }

  /** `sorted(nearby, key=distance)`, stable. */
  function NearbyStations(stations: seq<Station>, latitude: real, longitude: real, radiusKm: real): seq<NearbyStation>
  {
    SortBy(Candidates(stations, latitude, longitude, radiusKm), DistanceKey)
  }

  /** get_nearby_stations: appends every station within the radius, then sorts
      by distance, ties in catalog order. */
  method GetNearbyStations(stations: seq<Station>, latitude: real, longitude: real, radiusKm: real)
    returns (r: seq<NearbyStation>)
    ensures r == NearbyStations(stations, latitude, longitude, radiusKm)
    ensures forall k :: 0 <= k < |r| ==>
      && r[k].position < |stations|
      && r[k].station == stations[r[k].position]
      && r[k].squaredDistanceKm == SquaredDistanceKm(r[k].station, latitude, longitude)
      && WithinRadius(r[k].station, latitude, longitude, radiusKm)
    ensures forall i :: 0 <= i < |stations| && WithinRadius(stations[i], latitude, longitude, radiusKm) ==>
      exists k :: 0 <= k < |r| && r[k].position == i
    ensures StrictlyOrdered(r, DistanceKey, StationPosition)
  {
    var nearby: seq<NearbyStation> := [];
    var i := 0;
    while i < |stations|
      invariant 0 <= i <= |stations|
      invariant nearby == Candidates(stations[..i], latitude, longitude, radiusKm)
    {
      var station := stations[i];
      var distance := SquaredDistanceKm(station, latitude, longitude);
      assert stations[..i + 1][..i] == stations[..i];
      if radiusKm >= 0.0 && distance <= radiusKm * radiusKm {
        nearby := nearby + [NearbyStation(station, distance, i)];
      }
      i := i + 1;
    }
    assert stations[..i] == stations;
    r := SortBy(nearby, DistanceKey);
    NearbyStationsProperties(stations, latitude, longitude, radiusKm);
  }

  /** The sorted result keeps every candidate and orders them by distance,
      ties in catalog order. */
  lemma NearbyStationsProperties(stations: seq<Station>, latitude: real, longitude: real, radiusKm: real)
    ensures var r := NearbyStations(stations, latitude, longitude, radiusKm);
      && (forall k :: 0 <= k < |r| ==>
        && r[k].position < |stations|
        && r[k].station == stations[r[k].position]
        && r[k].squaredDistanceKm == SquaredDistanceKm(r[k].station, latitude, longitude)
        && WithinRadius(r[k].station, latitude, longitude, radiusKm))
      && (forall i :: 0 <= i < |stations| && WithinRadius(stations[i], latitude, longitude, radiusKm) ==>
        exists k :: 0 <= k < |r| && r[k].position == i)
      && StrictlyOrdered(r, DistanceKey, StationPosition)
  {
    var c := Candidates(stations, latitude, longitude, radiusKm);
    var r := NearbyStations(stations, latitude, longitude, radiusKm);
    assert PositionsIncrease(c, StationPosition) by {
      forall k, j | 0 <= k < j < |c| ensures StationPosition(c[k]) < StationPosition(c[j]) {
      }
    }
    SortByStable(c, DistanceKey, StationPosition);
    forall k | 0 <= k < |r|
      ensures r[k].position < |stations| && r[k].station == stations[r[k].position]
      ensures r[k].squaredDistanceKm == SquaredDistanceKm(r[k].station, latitude, longitude)
      ensures WithinRadius(r[k].station, latitude, longitude, radiusKm)
    {
      assert r[k] in multiset(c);
      var j :| 0 <= j < |c| && c[j] == r[k];
    }
    forall i | 0 <= i < |stations| && WithinRadius(stations[i], latitude, longitude, radiusKm)
      ensures exists k :: 0 <= k < |r| && r[k].position == i
    {
      CandidatesCover(stations, latitude, longitude, radiusKm, i);
      var j :| 0 <= j < |c| && c[j].position == i;
      assert c[j] in multiset(r);
      var k :| 0 <= k < |r| && r[k] == c[j];
    }
  }

  /** Around central Mumbai (19.0760, 72.8777) a 15 km search finds a station. */
  lemma MumbaiSearchFindsStations()
    ensures |NearbyStations(ReferenceStations(), 19.0760, 72.8777, 15.0)| > 0
    ensures ReferenceStations()[0].stationId == "MH001"
    ensures var r := NearbyStations(ReferenceStations(), 19.0760, 72.8777, 15.0);
      exists k :: 0 <= k < |r| && r[k].station == ReferenceStations()[0]
  {
    var stations := ReferenceStations();
    assert WithinRadius(stations[0], 19.0760, 72.8777, 15.0);
    NearbyStationsProperties(stations, 19.0760, 72.8777, 15.0);
  }
}
