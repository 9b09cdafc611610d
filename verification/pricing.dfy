/**
 The pricing engine: one service record and the global rates in, an itemized
 cost breakdown out. Pure and deterministic; it validates nothing, so
 negative inputs simply flow through the arithmetic.
 */
module Pricing {
  import opened LineItem
  import opened RateConfig

  /** The derived cost components of one service. Never stored; recomputed
      from a record and the rates whenever needed. */
  datatype Breakdown = Breakdown(
    labor: real,
    travel: real,
    airfare: real,
    carRental: real,
    parking: real,
    lodging: real,
    meals: real,
    mileageCost: real,
    subtotal: real,
    tax: real,
    profit: real,
    expenses: real,
    comp: real,
    compensationMinusExpenses: real,
    total: real
  )

  /** The eight direct cost components of one service, each a per-trip
      amount multiplied by the number of trips. */
  datatype Costs = Costs(
    labor: real,
    travel: real,
    airfare: real,
    carRental: real,
    parking: real,
    lodging: real,
    meals: real,
    mileageCost: real
  )

  /** Itemizes the direct costs of one service. An optional expense whose
      inclusion flag is off costs nothing, whatever its raw amount. */
  function Itemize(t: Task, r: Rates): (c: Costs)
    ensures !t.includeAirfare ==> c.airfare == 0.0
    ensures !t.includeCarRental ==> c.carRental == 0.0
    ensures !t.includeHotel ==> c.lodging == 0.0
  {
    Costs(
      t.techs * t.days * t.hoursPerDay * t.rate * t.trips,
      t.travelRate * t.travelTime * t.days * t.trips,
      if t.includeAirfare then t.airfare * t.trips else 0.0,
      if t.includeCarRental then t.carRental * t.trips else 0.0,
      t.parking * t.trips,
      if t.includeHotel then t.days * t.trips * t.hotelCost else 0.0,
      t.days * t.trips * t.mealCost,
      t.mileage * t.trips * r.irsRate)
  }

  /** Sums the direct costs and splits the subtotal into tax, profit and
      owner compensation. The three shares account for the subtotal exactly,
      and `total` adds them on top of the subtotal, so it is twice the
      subtotal. */
  function Summarize(c: Costs, r: Rates): (b: Breakdown)
    ensures b.labor == c.labor && b.travel == c.travel && b.airfare == c.airfare
    ensures b.carRental == c.carRental && b.parking == c.parking && b.lodging == c.lodging
    ensures b.meals == c.meals && b.mileageCost == c.mileageCost
    ensures b.expenses == b.lodging + b.airfare + b.carRental + b.parking + b.meals + b.mileageCost
    ensures b.subtotal == b.labor + b.travel + b.expenses
    ensures b.tax == b.subtotal * r.taxRate / 100.0
    ensures b.profit == b.subtotal * r.profitRate / 100.0
    ensures b.tax + b.profit + b.comp == b.subtotal
    ensures b.comp == b.subtotal * CompensationRate(r) / 100.0
    ensures b.compensationMinusExpenses == b.comp - b.expenses
    ensures b.total == 2.0 * b.subtotal
  {
    var subtotal := c.labor + c.travel + c.airfare + c.carRental + c.parking + c.lodging + c.meals + c.mileageCost;
    var tax := subtotal * (r.taxRate / 100.0);
    var profit := subtotal * (r.profitRate / 100.0);
    var comp := subtotal * ((100.0 - r.taxRate - r.profitRate) / 100.0);
    var expenses := c.lodging + c.airfare + c.carRental + c.parking + c.meals + c.mileageCost;
    var compensationMinusExpenses := comp - expenses;
    var total := subtotal + tax + profit + comp;
    Breakdown(c.labor, c.travel, c.airfare, c.carRental, c.parking, c.lodging, c.meals, c.mileageCost,
              subtotal, tax, profit, expenses, comp, compensationMinusExpenses, total)
  }

  /** Prices one service: the itemized direct costs, their subtotal, and the
      tax, profit and compensation shares of it. */
  function Calculate(t: Task, r: Rates): (b: Breakdown)
    ensures !t.includeAirfare ==> b.airfare == 0.0
    ensures !t.includeCarRental ==> b.carRental == 0.0
    ensures !t.includeHotel ==> b.lodging == 0.0
    ensures b.expenses == b.lodging + b.airfare + b.carRental + b.parking + b.meals + b.mileageCost
    ensures b.subtotal == b.labor + b.travel + b.expenses
    ensures b.tax == b.subtotal * r.taxRate / 100.0
    ensures b.profit == b.subtotal * r.profitRate / 100.0
    ensures b.tax + b.profit + b.comp == b.subtotal
    ensures b.comp == b.subtotal * CompensationRate(r) / 100.0
    ensures b.compensationMinusExpenses == b.comp - b.expenses
    ensures b.total == 2.0 * b.subtotal
  {
    Summarize(Itemize(t, r), r)
  }

  /** Reference definition: what one trip of a service costs, component by
      component. */
  function PerTripCosts(t: Task, r: Rates): Costs {
    Costs(
      t.techs * t.days * t.hoursPerDay * t.rate,
      t.travelRate * t.travelTime * t.days,
      if t.includeAirfare then t.airfare else 0.0,
      if t.includeCarRental then t.carRental else 0.0,
      t.parking,
      if t.includeHotel then t.days * t.hotelCost else 0.0,
      t.days * t.mealCost,
      t.mileage * r.irsRate)
  }

  /** Every component multiplied by `n`. */
  function Scale(c: Costs, n: real): Costs {
    Costs(n * c.labor, n * c.travel, n * c.airfare, n * c.carRental,
          n * c.parking, n * c.lodging, n * c.meals, n * c.mileageCost)
  }

  /** The sum of the eight direct cost components. */
  function Sum(c: Costs): real {
    c.labor + c.travel + c.airfare + c.carRental + c.parking + c.lodging + c.meals + c.mileageCost
  }

  /** The subtotal is the sum of the itemized direct costs. */
  lemma SubtotalIsSum(t: Task, r: Rates)
    ensures Calculate(t, r).subtotal == Sum(Itemize(t, r))
  {
  }

  /** Every direct cost is its per-trip amount times the number of trips. */
  lemma ItemizeIsScaledPerTrip(t: Task, r: Rates)
    ensures Itemize(t, r) == Scale(PerTripCosts(t, r), t.trips)
  {
    LaborAndTravelPerTrip(t, r);
    LodgingMealsMileagePerTrip(t, r);
  }

  lemma LaborAndTravelPerTrip(t: Task, r: Rates)
    ensures Itemize(t, r).labor == t.trips * PerTripCosts(t, r).labor
    ensures Itemize(t, r).travel == t.trips * PerTripCosts(t, r).travel
  {
    Rotate5(t.techs, t.days, t.hoursPerDay, t.rate, t.trips);
    Rotate4(t.travelRate, t.travelTime, t.days, t.trips);
  }

  lemma LodgingMealsMileagePerTrip(t: Task, r: Rates)
    ensures Itemize(t, r).lodging == t.trips * PerTripCosts(t, r).lodging
    ensures Itemize(t, r).meals == t.trips * PerTripCosts(t, r).meals
    ensures Itemize(t, r).mileageCost == t.trips * PerTripCosts(t, r).mileageCost
  {
    Swap3(t.days, t.trips, t.hotelCost);
    Swap3(t.days, t.trips, t.mealCost);
    Swap3(t.mileage, t.trips, r.irsRate);
  }

  lemma Rotate5(a: real, b: real, c: real, d: real, n: real)
    ensures a * b * c * d * n == n * (a * b * c * d)
  {
  }

  lemma Rotate4(a: real, b: real, c: real, n: real)
    ensures a * b * c * n == n * (a * b * c)
  {
  }

  lemma Swap3(a: real, n: real, c: real)
    ensures a * n * c == n * (a * c)
  {
  }

  /** Scaling every component scales their sum. */
  lemma SumScale(c: Costs, n: real)
    ensures Sum(Scale(c, n)) == n * Sum(c)
  {
  }

  /** Every direct cost in the breakdown is that component of the per-trip
      cost times the number of trips. */
  lemma CalculateIsScaledPerTrip(t: Task, r: Rates)
    ensures var b := Calculate(t, r);
      Costs(b.labor, b.travel, b.airfare, b.carRental, b.parking, b.lodging, b.meals, b.mileageCost)
      == Scale(PerTripCosts(t, r), t.trips)
  {
    ItemizeIsScaledPerTrip(t, r);
  }

  /** The subtotal is the number of trips times the per-trip cost. */
  lemma SubtotalScalesWithTrips(t: Task, r: Rates)
    ensures Calculate(t, r).subtotal == t.trips * Sum(PerTripCosts(t, r))
  {
    SubtotalIsSum(t, r);
    ItemizeIsScaledPerTrip(t, r);
    SumScale(PerTripCosts(t, r), t.trips);
  }

  /** A service with no trips costs nothing: every component, the subtotal,
      the three shares and the total are all zero. */
  lemma ZeroTripsCostNothing(t: Task, r: Rates)
    requires t.trips == 0.0
    ensures var b := Calculate(t, r);
      && b.labor == 0.0 && b.travel == 0.0 && b.airfare == 0.0 && b.carRental == 0.0
      && b.parking == 0.0 && b.lodging == 0.0 && b.meals == 0.0 && b.mileageCost == 0.0
      && b.subtotal == 0.0 && b.tax == 0.0 && b.profit == 0.0 && b.comp == 0.0
      && b.expenses == 0.0 && b.total == 0.0
  {
    SubtotalScalesWithTrips(t, r);
  }

  /** Switching an optional expense on changes that one direct cost, from 0
      to its raw per-trip amount times the trips, and no other; the raw amount
      stays in the record while the flag is off. */
  lemma AirfareFlagEffect(t: Task, r: Rates)
    ensures Itemize(t.(includeAirfare := true), r)
         == Itemize(t.(includeAirfare := false), r).(airfare := t.airfare * t.trips)
  {
  }

  lemma CarRentalFlagEffect(t: Task, r: Rates)
    ensures Itemize(t.(includeCarRental := true), r)
         == Itemize(t.(includeCarRental := false), r).(carRental := t.carRental * t.trips)
  {
  }

  lemma HotelFlagEffect(t: Task, r: Rates)
    ensures Itemize(t.(includeHotel := true), r)
         == Itemize(t.(includeHotel := false), r).(lodging := t.days * t.trips * t.hotelCost)
  {
  }

  /** The tax and profit percentages only redistribute the subtotal: changing
      them leaves every cost component, the subtotal, the expenses and even
      the total as they were. */
  lemma MarkupRatesOnlyRedistribute(t: Task, r: Rates, r': Rates)
    requires r'.irsRate == r.irsRate
    ensures var b, b' := Calculate(t, r), Calculate(t, r');
      && b'.labor == b.labor && b'.travel == b.travel && b'.airfare == b.airfare
      && b'.carRental == b.carRental && b'.parking == b.parking && b'.lodging == b.lodging
      && b'.meals == b.meals && b'.mileageCost == b.mileageCost
      && b'.subtotal == b.subtotal && b'.expenses == b.expenses && b'.total == b.total
  {
  }

  /** The name and notes of a service play no part in its price. */
  lemma CalculateIgnoresNameAndNotes(t: Task, name: string, notes: string, r: Rates)
    ensures Calculate(t.(name := name, notes := notes), r) == Calculate(t, r)
  {
    assert Itemize(t.(name := name, notes := notes), r) == Itemize(t, r);
  }

  /** All numeric inputs of a record are non-negative. */
  predicate NonNegative(t: Task) {
    && t.techs >= 0.0 && t.days >= 0.0 && t.trips >= 0.0 && t.hoursPerDay >= 0.0
    && t.rate >= 0.0 && t.travelRate >= 0.0 && t.travelTime >= 0.0 && t.mealCost >= 0.0
    && t.hotelCost >= 0.0 && t.airfare >= 0.0 && t.carRental >= 0.0 && t.parking >= 0.0
    && t.mileage >= 0.0
  }

  lemma ProductNonNegative(x: real, y: real)
    requires x >= 0.0 && y >= 0.0
    ensures x * y >= 0.0
  {
  }

  /** Non-negative inputs and a non-negative mileage rate give a
      non-negative subtotal and total. */
  lemma NonNegativeInputsCostNonNegative(t: Task, r: Rates)
    requires NonNegative(t) && r.irsRate >= 0.0
    ensures Calculate(t, r).subtotal >= 0.0 && Calculate(t, r).total >= 0.0
  {
    ProductNonNegative(t.techs, t.days);
    ProductNonNegative(t.techs * t.days, t.hoursPerDay);
    ProductNonNegative(t.techs * t.days * t.hoursPerDay, t.rate);
    ProductNonNegative(t.travelRate, t.travelTime);
    ProductNonNegative(t.travelRate * t.travelTime, t.days);
    ProductNonNegative(t.days, t.hotelCost);
    ProductNonNegative(t.days, t.mealCost);
    ProductNonNegative(t.mileage, r.irsRate);
    ProductNonNegative(t.trips, Sum(PerTripCosts(t, r)));
    SubtotalScalesWithTrips(t, r);
  }

  // Worked examples of the formulas.

  /** Two techs, three days, one trip, eight hours at 100: labor 4800. */
  lemma LaborExample(r: Rates)
    ensures Calculate(DefaultTask.(techs := 2.0, days := 3.0, trips := 1.0, hoursPerDay := 8.0, rate := 100.0), r).labor == 4800.0
  {
  }

  /** 100 miles on each of two trips at 0.67: mileage cost 134. */
  lemma MileageExample(r: Rates)
    requires r.irsRate == 0.67
    ensures Calculate(DefaultTask.(mileage := 100.0, trips := 2.0), r).mileageCost == 134.0
  {
  }

  /** A subtotal of 1000 at 20 percent tax and 10 percent profit: tax 200,
      profit 100, compensation 700 and total 2000. */
  lemma MarkupExample(c: Costs, r: Rates)
    requires Sum(c) == 1000.0 && r.taxRate == 20.0 && r.profitRate == 10.0
    ensures var b := Summarize(c, r);
      b.subtotal == 1000.0 && b.tax == 200.0 && b.profit == 100.0 && b.comp == 700.0 && b.total == 2000.0
  {
  }

  /** Airfare of 500 over three trips with airfare excluded contributes
      nothing, and the record still holds the 500. */
  lemma ExcludedAirfareExample(r: Rates)
    ensures var t := DefaultTask.(includeAirfare := false, airfare := 500.0, trips := 3.0);
      Calculate(t, r).airfare == 0.0 && t.airfare == 500.0
  {
  }
}
