/** The cost model (CostCalculator and compare_tco): monthly running cost,
    multi-year EV-versus-petrol comparison, breakeven point and total cost of
    ownership. All figures are exact reals; the source rounds each reported
    figure to two decimals, which is modelled (Round2) only where a rounded
    figure feeds a decision, in CompareTco. */
module CostModel {
  import opened Optional
  import opened Text
  import opened Rounding

  /** Average petrol-car efficiency, km per litre. */
  const FuelEfficiencyKmPerLiter: real := 18.0
  /** Average EV efficiency, km per kWh. */
  const EvEfficiencyKmPerKwh: real := 5.0

  datatype VehicleKind = Petrol | Ev

  /** calculate_monthly_cost's result; `energyUsed` is litres for petrol and
      kWh for an EV, `unitPrice` the price per litre or per kWh. */
  datatype MonthlyCost = MonthlyCost(
    kind: VehicleKind,
    monthlyKm: real,
    energyUsed: real,
    unitPrice: real,
    monthlyCost: real,
    costPerKm: real)

  /** The per-distance energy price of each kind of vehicle. */
  function EnergyCostPerKm(kind: VehicleKind, fuelPrice: real, electricityRate: real): real
  {
    match kind
    case Petrol => fuelPrice / FuelEfficiencyKmPerLiter
    case Ev => electricityRate / EvEfficiencyKmPerKwh
  }

  /** Monthly cost over a 30-day month. A vehicle type other than "petrol" or
      "ev" (case-insensitively) gives no result, as the source falls through
      both branches. */
  function CalculateMonthlyCost(dailyKm: real, fuelPrice: real, electricityRate: real,
                                vehicleType: string): (r: Option<MonthlyCost>)
    ensures r.Some? <==> Lower(vehicleType) == "petrol" || Lower(vehicleType) == "ev"
    ensures r.Some? ==> r.value.kind == (if Lower(vehicleType) == "petrol" then Petrol else Ev)
    ensures r.Some? ==> r.value.monthlyKm == 30.0 * dailyKm
    ensures r.Some? && r.value.kind == Petrol ==>
      r.value.energyUsed * 18.0 == r.value.monthlyKm && r.value.unitPrice == fuelPrice
    ensures r.Some? && r.value.kind == Ev ==>
      r.value.energyUsed * 5.0 == r.value.monthlyKm && r.value.unitPrice == electricityRate
    ensures r.Some? ==> r.value.monthlyCost == r.value.energyUsed * r.value.unitPrice
    ensures r.Some? && dailyKm > 0.0 ==> r.value.costPerKm * r.value.monthlyKm == r.value.monthlyCost
    ensures r.Some? && dailyKm <= 0.0 ==> r.value.costPerKm == 0.0
  {
    var monthlyKm := dailyKm * 30.0;
    if Lower(vehicleType) == "petrol" then
      var litersNeeded := monthlyKm / FuelEfficiencyKmPerLiter;
      var monthlyCost := litersNeeded * fuelPrice;
      Some(MonthlyCost(Petrol, monthlyKm, litersNeeded, fuelPrice, monthlyCost,
                       if monthlyKm > 0.0 then monthlyCost / monthlyKm else 0.0))
    else if Lower(vehicleType) == "ev" then
      var kwhNeeded := monthlyKm / EvEfficiencyKmPerKwh;
      var monthlyCost := kwhNeeded * electricityRate;
      Some(MonthlyCost(Ev, monthlyKm, kwhNeeded, electricityRate, monthlyCost,
                       if monthlyKm > 0.0 then monthlyCost / monthlyKm else 0.0))
    else
      None
  }

  /** For a positive distance the reported cost per km does not depend on the
      distance: it is the fuel price over 18 km/l, or the electricity rate over 5 km/kWh. */
  lemma MonthlyCostPerKm(dailyKm: real, fuelPrice: real, electricityRate: real, vehicleType: string)
    requires dailyKm > 0.0
    requires CalculateMonthlyCost(dailyKm, fuelPrice, electricityRate, vehicleType).Some?
    ensures var m := CalculateMonthlyCost(dailyKm, fuelPrice, electricityRate, vehicleType).value;
      m.costPerKm == EnergyCostPerKm(m.kind, fuelPrice, electricityRate)
      && m.monthlyCost == m.monthlyKm * EnergyCostPerKm(m.kind, fuelPrice, electricityRate)
  {
    var m := CalculateMonthlyCost(dailyKm, fuelPrice, electricityRate, vehicleType).value;
    var c := EnergyCostPerKm(m.kind, fuelPrice, electricityRate);
    assert m.monthlyCost == m.monthlyKm * c;
    assert m.costPerKm * m.monthlyKm == c * m.monthlyKm;
  }

  datatype PetrolTotals = PetrolTotals(litersRequired: real, fuelCost: real, maintenanceCost: real, totalCost: real)
  datatype EvTotals = EvTotals(kwhRequired: real, electricityCost: real, maintenanceSavings: real, totalCost: real)
  datatype Savings = Savings(totalSavings: real, monthlySavings: real, yearlySavings: real, savingsPercentage: real)
  datatype CostComparison = CostComparison(
    periodYears: int, totalKm: real, petrol: PetrolTotals, ev: EvTotals, savings: Savings)

  /** compare_costs over 365-day years. Petrol maintenance costs 2 per 1000 km
      and EV maintenance is a credit of 0.5 per 1000 km taken off the
      electricity cost; the savings are measured against the petrol FUEL cost
      only, so petrol maintenance is reported but never saved. */
  function CompareCosts(dailyKm: real, fuelPrice: real, electricityRate: real, years: int): (c: CostComparison)
    ensures c.periodYears == years && c.totalKm == dailyKm * 365.0 * years as real
    ensures c.petrol.litersRequired * 18.0 == c.totalKm
    ensures c.petrol.fuelCost == c.totalKm * EnergyCostPerKm(Petrol, fuelPrice, electricityRate)
    ensures c.petrol.maintenanceCost * 500.0 == c.totalKm
    ensures c.petrol.totalCost == c.petrol.fuelCost + c.petrol.maintenanceCost
    ensures c.ev.kwhRequired * 5.0 == c.totalKm
    ensures c.ev.electricityCost == c.totalKm * EnergyCostPerKm(Ev, fuelPrice, electricityRate)
    ensures c.ev.maintenanceSavings * 2000.0 == c.totalKm
    ensures c.ev.totalCost == c.ev.electricityCost - c.ev.maintenanceSavings
    ensures c.savings.totalSavings == c.petrol.fuelCost - c.ev.totalCost
    ensures years > 0 ==> c.savings.monthlySavings * 12.0 * years as real == c.savings.totalSavings
    ensures years > 0 ==> c.savings.yearlySavings * years as real == c.savings.totalSavings
    ensures years <= 0 ==> c.savings.monthlySavings == 0.0 && c.savings.yearlySavings == 0.0
    ensures c.petrol.fuelCost > 0.0 ==>
      c.savings.savingsPercentage * c.petrol.fuelCost == c.savings.totalSavings * 100.0
    ensures c.petrol.fuelCost <= 0.0 ==> c.savings.savingsPercentage == 0.0
  {
    var totalKm := dailyKm * 365.0 * years as real;
    var petrolLiters := totalKm / FuelEfficiencyKmPerLiter;
    var petrolCost := petrolLiters * fuelPrice;
    var evKwh := totalKm / EvEfficiencyKmPerKwh;
    var evElectricityCost := evKwh * electricityRate;
    var evMaintenanceSavings := totalKm * 0.5 / 1000.0;
    var evTotalCost := evElectricityCost - evMaintenanceSavings;
    var totalSavings := petrolCost - evTotalCost;
    var monthlySavings := if years > 0 then totalSavings / (years as real * 12.0) else 0.0;
    CostComparison(
      years, totalKm,
      PetrolTotals(petrolLiters, petrolCost, totalKm * 2.0 / 1000.0, petrolCost + totalKm * 2.0 / 1000.0),
      EvTotals(evKwh, evElectricityCost, evMaintenanceSavings, evTotalCost),
      Savings(totalSavings, monthlySavings,
              if years > 0 then totalSavings / years as real else 0.0,
              if petrolCost > 0.0 then totalSavings / petrolCost * 100.0 else 0.0))
  }

  /** Savings are positive over a positive distance exactly when petrol fuel
      per km plus the EV maintenance credit per km exceeds electricity per km. */
  lemma SavingsPositiveIff(dailyKm: real, fuelPrice: real, electricityRate: real, years: int)
    requires dailyKm * 365.0 * years as real > 0.0
    ensures CompareCosts(dailyKm, fuelPrice, electricityRate, years).savings.totalSavings > 0.0
        <==> fuelPrice / 18.0 + 0.0005 > electricityRate / 5.0
  {
    var c := CompareCosts(dailyKm, fuelPrice, electricityRate, years);
    var k := c.totalKm;
    var perKm := fuelPrice / 18.0 + 0.0005 - electricityRate / 5.0;
    assert c.savings.totalSavings == k * perKm;
    if perKm > 0.0 {
      assert k * perKm > 0.0;
    } else {
      assert k * perKm <= 0.0;
    }
  }

  /** The savings leave petrol maintenance out: they are the difference of the
      two reported totals less the petrol maintenance cost. */
  lemma SavingsOmitPetrolMaintenance(dailyKm: real, fuelPrice: real, electricityRate: real, years: int)
    ensures var c := CompareCosts(dailyKm, fuelPrice, electricityRate, years);
      c.savings.totalSavings == c.petrol.totalCost - c.ev.totalCost - c.petrol.maintenanceCost
  {
  }

  /** The reference comparison: 60 km a day, fuel at 105, electricity at 8,
      over five years; the EV saves money. */
  lemma ReferenceComparisonSaves()
    ensures var c := CompareCosts(60.0, 105.0, 8.0, 5);
      c.savings.totalSavings > 0.0 && c.savings.savingsPercentage > 0.0
  {
    var c := CompareCosts(60.0, 105.0, 8.0, 5);
    assert c.totalKm == 109500.0;
    assert c.petrol.fuelCost == 638750.0;
    assert c.ev.totalCost == 175145.25;
    assert c.savings.totalSavings == 463604.75;
  }

  /** The comparison's fuel cost is the monthly petrol cost scaled from a
      30-day month to the whole period of 365-day years. */
  lemma ComparisonScalesMonthlyCost(dailyKm: real, fuelPrice: real, electricityRate: real, years: int)
    ensures var m := CalculateMonthlyCost(dailyKm, fuelPrice, electricityRate, "petrol");
      var e := CalculateMonthlyCost(dailyKm, fuelPrice, electricityRate, "ev");
      var c := CompareCosts(dailyKm, fuelPrice, electricityRate, years);
      && m.Some? && e.Some?
      && c.petrol.fuelCost * 30.0 == m.value.monthlyCost * 365.0 * years as real
      && c.ev.electricityCost * 30.0 == e.value.monthlyCost * 365.0 * years as real
  {
    PetrolScales(dailyKm, fuelPrice, electricityRate, years);
    EvScales(dailyKm, fuelPrice, electricityRate, years);
  }

  lemma PetrolScales(dailyKm: real, fuelPrice: real, electricityRate: real, years: int)
    ensures var m := CalculateMonthlyCost(dailyKm, fuelPrice, electricityRate, "petrol");
      && m.Some?
      && CompareCosts(dailyKm, fuelPrice, electricityRate, years).petrol.fuelCost * 30.0
         == m.value.monthlyCost * 365.0 * years as real
  {
    var monthly := PetrolMonthly(dailyKm, fuelPrice, electricityRate);
    var total := PetrolTotal(dailyKm, fuelPrice, electricityRate, years);
    var y := years as real;
    assert total * 30.0 == monthly * 365.0 * y by {
      Rescale(dailyKm, y, fuelPrice / 18.0, monthly, total);
    }
  }

  /** The monthly petrol cost is the monthly distance at the fuel price per km. */
  lemma PetrolMonthly(dailyKm: real, fuelPrice: real, electricityRate: real) returns (monthly: real)
    ensures var m := CalculateMonthlyCost(dailyKm, fuelPrice, electricityRate, "petrol");
      && m.Some? && m.value.monthlyCost == monthly
      && monthly == (dailyKm * 30.0) * (fuelPrice / 18.0)
  {
    assert Lower("petrol") == "petrol";
    var m := CalculateMonthlyCost(dailyKm, fuelPrice, electricityRate, "petrol").value;
    monthly := m.monthlyCost;
    assert monthly == ((dailyKm * 30.0) / 18.0) * fuelPrice;
  }

  lemma EvScales(dailyKm: real, fuelPrice: real, electricityRate: real, years: int)
    ensures var e := CalculateMonthlyCost(dailyKm, fuelPrice, electricityRate, "ev");
      && e.Some?
      && CompareCosts(dailyKm, fuelPrice, electricityRate, years).ev.electricityCost * 30.0
         == e.value.monthlyCost * 365.0 * years as real
  {
    var monthly := EvMonthly(dailyKm, fuelPrice, electricityRate);
    var total := EvTotal(dailyKm, fuelPrice, electricityRate, years);
    var y := years as real;
    assert total * 30.0 == monthly * 365.0 * y by {
      Rescale(dailyKm, y, electricityRate / 5.0, monthly, total);
    }
  }

  /** The monthly EV cost is the monthly distance at the electricity price per km. */
  lemma EvMonthly(dailyKm: real, fuelPrice: real, electricityRate: real) returns (monthly: real)
    ensures var e := CalculateMonthlyCost(dailyKm, fuelPrice, electricityRate, "ev");
      && e.Some? && e.value.monthlyCost == monthly
      && monthly == (dailyKm * 30.0) * (electricityRate / 5.0)
  {
    assert Lower("ev") == "ev";
    var e := CalculateMonthlyCost(dailyKm, fuelPrice, electricityRate, "ev").value;
    monthly := e.monthlyCost;
    assert monthly == ((dailyKm * 30.0) / 5.0) * electricityRate;
  }

  /** The comparison's fuel cost is the whole distance at the fuel price per km. */
  lemma PetrolTotal(dailyKm: real, fuelPrice: real, electricityRate: real, years: int) returns (total: real)
    ensures total == CompareCosts(dailyKm, fuelPrice, electricityRate, years).petrol.fuelCost
    ensures total == (dailyKm * 365.0 * years as real) * (fuelPrice / 18.0)
  {
    var c := CompareCosts(dailyKm, fuelPrice, electricityRate, years);
    total := c.petrol.fuelCost;
    assert EnergyCostPerKm(Petrol, fuelPrice, electricityRate) == fuelPrice / 18.0;
  }

  /** The comparison's electricity cost is the whole distance at the electricity price per km. */
  lemma EvTotal(dailyKm: real, fuelPrice: real, electricityRate: real, years: int) returns (total: real)
    ensures total == CompareCosts(dailyKm, fuelPrice, electricityRate, years).ev.electricityCost
    ensures total == (dailyKm * 365.0 * years as real) * (electricityRate / 5.0)
  {
    var c := CompareCosts(dailyKm, fuelPrice, electricityRate, years);
    total := c.ev.electricityCost;
    assert EnergyCostPerKm(Ev, fuelPrice, electricityRate) == electricityRate / 5.0;
  }

  /** A cost per km over a period of 365-day years, against 30-day months. */
  lemma Rescale(dailyKm: real, y: real, perKm: real, monthly: real, total: real)
    requires monthly == (dailyKm * 30.0) * perKm
    requires total == (dailyKm * 365.0 * y) * perKm
    ensures total * 30.0 == monthly * 365.0 * y
  {
    assert (dailyKm * 365.0 * y) * perKm * 30.0 == ((dailyKm * 30.0) * perKm) * 365.0 * y;
  }

  datatype Breakeven =
    | NotPossible
    | Breakeven(priceDifference: real, dailySavings: real, daysToBreakeven: real,
                yearsToBreakeven: real, kmToBreakeven: real)

  /** Daily running-cost saving of the EV over petrol (energy only). */
  function DailySavings(dailyKm: real, fuelPrice: real, electricityRate: real): (d: real)
    ensures d == dailyKm * (EnergyCostPerKm(Petrol, fuelPrice, electricityRate)
                            - EnergyCostPerKm(Ev, fuelPrice, electricityRate))
  {
    (dailyKm / FuelEfficiencyKmPerLiter) * fuelPrice - (dailyKm / EvEfficiencyKmPerKwh) * electricityRate
  }

  /** calculate_breakeven: no division happens unless the daily saving is positive;
      then the days to breakeven are those over which the savings repay the price difference. */
  function CalculateBreakeven(priceDiff: real, dailyKm: real, fuelPrice: real, electricityRate: real): (r: Breakeven)
    ensures r.NotPossible? <==> DailySavings(dailyKm, fuelPrice, electricityRate) <= 0.0
    ensures r.Breakeven? ==>
      && r.priceDifference == priceDiff
      && r.dailySavings == DailySavings(dailyKm, fuelPrice, electricityRate)
      && r.daysToBreakeven * r.dailySavings == priceDiff
      && r.yearsToBreakeven * 365.0 == r.daysToBreakeven
      && r.kmToBreakeven == r.daysToBreakeven * dailyKm
  {
    var dailySavings := DailySavings(dailyKm, fuelPrice, electricityRate);
    if dailySavings <= 0.0 then NotPossible
    else
      var days := priceDiff / dailySavings;
      Breakeven(priceDiff, dailySavings, days, days / 365.0, days * dailyKm)
  }

  /** Breakeven is possible exactly when the daily distance and the per-km
      saving of the EV have the same strict sign: for a car that is driven,
      exactly when the EV is cheaper per km to run, and never for a car that is
      not driven. A positive price premium then takes a positive number of days
      to recover. */
  lemma BreakevenPossibleIff(priceDiff: real, dailyKm: real, fuelPrice: real, electricityRate: real)
    ensures var r := CalculateBreakeven(priceDiff, dailyKm, fuelPrice, electricityRate);
      var perKm := fuelPrice / 18.0 - electricityRate / 5.0;
      && (r.Breakeven? <==> (dailyKm > 0.0 && perKm > 0.0) || (dailyKm < 0.0 && perKm < 0.0))
      && (r.Breakeven? && priceDiff > 0.0 ==> r.daysToBreakeven > 0.0)
  {
    var d := DailySavings(dailyKm, fuelPrice, electricityRate);
    var perKm := fuelPrice / 18.0 - electricityRate / 5.0;
    assert d == dailyKm * perKm;
    SignOfProduct(dailyKm, perKm);
  }

  /** A product is positive exactly when its factors are both positive or both negative. */
  lemma SignOfProduct(a: real, b: real)
    ensures a * b > 0.0 <==> (a > 0.0 && b > 0.0) || (a < 0.0 && b < 0.0)
  {
    if a > 0.0 && b <= 0.0 {
      assert a * b <= 0.0;
    } else if a < 0.0 && b >= 0.0 {
      assert a * b <= 0.0;
    } else if a == 0.0 {
      assert a * b == 0.0;
    }
  }

  /** The breakeven daily saving, over the comparison's period, is the
      comparison's fuel-versus-electricity difference (before the maintenance credit). */
  lemma BreakevenAgreesWithComparison(dailyKm: real, fuelPrice: real, electricityRate: real, years: int)
    ensures var c := CompareCosts(dailyKm, fuelPrice, electricityRate, years);
      DailySavings(dailyKm, fuelPrice, electricityRate) * 365.0 * years as real
        == c.petrol.fuelCost - c.ev.electricityCost
  {
    var y := years as real;
    var perKm := fuelPrice / 18.0 - electricityRate / 5.0;
    assert DailySavings(dailyKm, fuelPrice, electricityRate) * 365.0 * y == dailyKm * 365.0 * y * perKm;
  }

  /** get_total_cost_of_ownership's result. */
  datatype Tco = Tco(
    vehicleType: string,
    kind: VehicleKind,
    ownershipYears: int,
    totalKm: real,
    vehiclePrice: real,
    fuelCost: real,
    maintenanceCost: real,
    insuranceCost: real,
    registrationTax: real,
    totalTco: real,
    costPerKm: real)

  /** Yearly insurance as a fraction of the price: 3% for an EV, 5% for petrol. */
  function InsuranceRate(kind: VehicleKind): real
  {
    match kind
    case Ev => 0.03
    case Petrol => 0.05
  }

  /** Maintenance per km: 0.5 per 1000 km for an EV, 2 per 1000 km for petrol. */
  function MaintenancePerKm(kind: VehicleKind): real
  {
    match kind
    case Ev => 0.0005
    case Petrol => 0.002
  }

  /** Total cost of ownership over 365-day years. Only "ev" (case-insensitively)
      selects the EV branch; every other vehicle type is costed as petrol. */
  function TotalCostOfOwnership(vehiclePrice: real, years: int, dailyKm: real, fuelPrice: real,
                                electricityRate: real, vehicleType: string): (t: Tco)
    ensures t.kind == (if Lower(vehicleType) == "ev" then Ev else Petrol)
    ensures t.vehicleType == Upper(vehicleType) && t.ownershipYears == years
    ensures t.vehiclePrice == vehiclePrice
    ensures t.totalKm == dailyKm * 365.0 * years as real
    ensures t.fuelCost == t.totalKm * EnergyCostPerKm(t.kind, fuelPrice, electricityRate)
    ensures t.maintenanceCost == t.totalKm * MaintenancePerKm(t.kind)
    ensures t.insuranceCost == InsuranceRate(t.kind) * vehiclePrice * years as real
    ensures t.registrationTax == 0.12 * vehiclePrice
    ensures t.totalTco == vehiclePrice + t.fuelCost + t.maintenanceCost + t.insuranceCost + t.registrationTax
    ensures t.totalKm > 0.0 ==> t.costPerKm * t.totalKm == t.totalTco
    ensures t.totalKm <= 0.0 ==> t.costPerKm == 0.0
  {
    var totalKm := dailyKm * 365.0 * years as real;
    var kind := if Lower(vehicleType) == "ev" then Ev else Petrol;
    var fuelCost := if kind == Ev then totalKm / EvEfficiencyKmPerKwh * electricityRate
                    else totalKm / FuelEfficiencyKmPerLiter * fuelPrice;
    var maintenanceCost := if kind == Ev then totalKm * 0.5 / 1000.0 else totalKm * 2.0 / 1000.0;
    var insuranceCost := if kind == Ev then 0.03 * vehiclePrice * years as real
                         else 0.05 * vehiclePrice * years as real;
    var registrationTax := 0.12 * vehiclePrice;
    var totalTco := vehiclePrice + fuelCost + maintenanceCost + insuranceCost + registrationTax;
    Tco(Upper(vehicleType), kind, years, totalKm, vehiclePrice, fuelCost, maintenanceCost,
        insuranceCost, registrationTax, totalTco,
        if totalKm > 0.0 then totalTco / totalKm else 0.0)
  }

  /** The TCO's energy and maintenance figures are those of the comparison:
      petrol fuel and maintenance cost, EV electricity cost, and the EV
      maintenance amount that the comparison credits and the TCO charges. */
  lemma TcoAgreesWithComparison(price: real, years: int, dailyKm: real, fuelPrice: real, electricityRate: real)
    ensures var c := CompareCosts(dailyKm, fuelPrice, electricityRate, years);
      var p := TotalCostOfOwnership(price, years, dailyKm, fuelPrice, electricityRate, "petrol");
      var e := TotalCostOfOwnership(price, years, dailyKm, fuelPrice, electricityRate, "ev");
      && p.kind == Petrol && e.kind == Ev
      && p.totalKm == c.totalKm == e.totalKm
      && p.fuelCost == c.petrol.fuelCost && p.maintenanceCost == c.petrol.maintenanceCost
      && e.fuelCost == c.ev.electricityCost && e.maintenanceCost == c.ev.maintenanceSavings
  {
    assert Lower("ev") == "ev";
    assert Lower("petrol") != "ev";
  }

  /** What a year of ownership adds to the TCO besides the one-off price and tax. */
  function YearlyRunningCost(kind: VehicleKind, price: real, dailyKm: real, fuelPrice: real,
                             electricityRate: real): real
  {
    dailyKm * 365.0 * (EnergyCostPerKm(kind, fuelPrice, electricityRate) + MaintenancePerKm(kind))
      + InsuranceRate(kind) * price
  }

  /** The TCO is the price with its 12% tax plus a fixed cost per year of ownership. */
  lemma TcoClosedForm(price: real, years: int, dailyKm: real, fuelPrice: real,
                      electricityRate: real, vehicleType: string)
    ensures var t := TotalCostOfOwnership(price, years, dailyKm, fuelPrice, electricityRate, vehicleType);
      t.totalTco == 1.12 * price
        + years as real * YearlyRunningCost(t.kind, price, dailyKm, fuelPrice, electricityRate)
  {
    var t := TotalCostOfOwnership(price, years, dailyKm, fuelPrice, electricityRate, vehicleType);
    var y := years as real;
    var perKm := EnergyCostPerKm(t.kind, fuelPrice, electricityRate) + MaintenancePerKm(t.kind);
    assert t.fuelCost + t.maintenanceCost == (dailyKm * 365.0 * y) * perKm;
    Distribute(dailyKm * 365.0, y, perKm, InsuranceRate(t.kind) * price);
  }

  lemma Distribute(a: real, y: real, b: real, c: real)
    ensures (a * y) * b + c * y == y * (a * b + c)
  {
  }

  /** With non-negative inputs, owning longer never costs less. */
  lemma TcoGrowsWithYears(price: real, y1: int, y2: int, dailyKm: real, fuelPrice: real,
                          electricityRate: real, vehicleType: string)
    requires 0 <= y1 <= y2
    requires price >= 0.0 && dailyKm >= 0.0 && fuelPrice >= 0.0 && electricityRate >= 0.0
    ensures TotalCostOfOwnership(price, y1, dailyKm, fuelPrice, electricityRate, vehicleType).totalTco
         <= TotalCostOfOwnership(price, y2, dailyKm, fuelPrice, electricityRate, vehicleType).totalTco
  {
    var kind := TotalCostOfOwnership(price, y1, dailyKm, fuelPrice, electricityRate, vehicleType).kind;
    var perYear := YearlyRunningCost(kind, price, dailyKm, fuelPrice, electricityRate);
    assert perYear >= 0.0;
    TcoClosedForm(price, y1, dailyKm, fuelPrice, electricityRate, vehicleType);
    TcoClosedForm(price, y2, dailyKm, fuelPrice, electricityRate, vehicleType);
    assert (y2 - y1) as real * perYear >= 0.0;
  }

  datatype TcoComparison = TcoComparison(
    ev: Tco, petrol: Tco, evCheaper: bool, savings: real, costPerKmDifference: real)

  /** compare_tco: both vehicles are costed with the same usage; the verdict
      and the savings are taken from the totals as reported, rounded to two decimals. */
  function CompareTco(evPrice: real, petrolPrice: real, years: int, dailyKm: real,
                      fuelPrice: real, electricityRate: real): (c: TcoComparison)
    ensures c.ev == TotalCostOfOwnership(evPrice, years, dailyKm, fuelPrice, electricityRate, "ev")
    ensures c.petrol == TotalCostOfOwnership(petrolPrice, years, dailyKm, fuelPrice, electricityRate, "petrol")
    ensures c.ev.kind == Ev && c.petrol.kind == Petrol
    ensures c.ev.vehiclePrice == evPrice && c.petrol.vehiclePrice == petrolPrice
    ensures c.ev.ownershipYears == c.petrol.ownershipYears == years
    ensures c.ev.totalKm == c.petrol.totalKm == dailyKm * 365.0 * years as real
    ensures c.evCheaper <==> Round2(c.ev.totalTco) < Round2(c.petrol.totalTco)
    ensures c.savings == Round2(Round2(c.petrol.totalTco) - Round2(c.ev.totalTco))
    ensures c.costPerKmDifference == Round2(Round2(c.petrol.costPerKm) - Round2(c.ev.costPerKm))
  {
    assert Lower("ev") == "ev";
    assert Lower("petrol") != "ev";
    var ev := TotalCostOfOwnership(evPrice, years, dailyKm, fuelPrice, electricityRate, "ev");
    var petrol := TotalCostOfOwnership(petrolPrice, years, dailyKm, fuelPrice, electricityRate, "petrol");
    var evTotal, petrolTotal := Round2(ev.totalTco), Round2(petrol.totalTco);
    TcoComparison(ev, petrol, evTotal < petrolTotal,
                  Round2(petrolTotal - evTotal),
                  Round2(Round2(petrol.costPerKm) - Round2(ev.costPerKm)))
  }

  /** A value already on the hundredths grid is left unchanged by rounding. */
  lemma Round2OnGrid(k: int)
    ensures Round2(k as real / 100.0) == k as real / 100.0
  {
    assert (k as real / 100.0) * 100.0 == k as real;
  }

  /** The verdict agrees with the reported savings, and with the exact totals
      except where they lie within a hundredth of each other. */
  lemma CompareTcoVerdict(evPrice: real, petrolPrice: real, years: int, dailyKm: real,
                          fuelPrice: real, electricityRate: real)
    ensures var c := CompareTco(evPrice, petrolPrice, years, dailyKm, fuelPrice, electricityRate);
      && (c.evCheaper <==> c.savings > 0.0)
      && (c.evCheaper ==> c.ev.totalTco < c.petrol.totalTco)
      && (c.ev.totalTco + 0.01 < c.petrol.totalTco ==> c.evCheaper)
  {
    var c := CompareTco(evPrice, petrolPrice, years, dailyKm, fuelPrice, electricityRate);
    var a, b := HundredthsOf(c.ev.totalTco), HundredthsOf(c.petrol.totalTco);
    assert Round2(c.petrol.totalTco) - Round2(c.ev.totalTco) == (b - a) as real / 100.0;
    Round2OnGrid(b - a);
    if c.evCheaper {
      Round2Reflects(c.ev.totalTco, c.petrol.totalTco);
    }
    if c.ev.totalTco + 0.01 < c.petrol.totalTco {
      Round2Separates(c.ev.totalTco, c.petrol.totalTco);
    }
  }
}
