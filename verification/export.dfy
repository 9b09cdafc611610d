/**
 The rows the two exports are built from: one spreadsheet record and one
 document table row per service, in list order. An unnamed service is
 exported as "Service " followed by its 1-based position. Writing the files
 themselves is not modelled; only the rows handed to the writers are.
 */
module Export {
  import opened LineItem
  import opened RateConfig
  import opened Pricing
  import opened ServiceCollection

  // ---------------------------------------------------------------------------
  // Decimal rendering of positions

  predicate IsDigit(c: char) {
    '0' <= c <= '9'
  }

  predicate AllDigits(s: string) {
    forall k :: 0 <= k < |s| ==> IsDigit(s[k])
  }

  function DigitChar(d: int): (c: char)
    requires 0 <= d < 10
    ensures IsDigit(c) && c as int - '0' as int == d
  {
    (d + '0' as int) as char
  }

  function DigitValue(c: char): (d: int)
    requires IsDigit(c)
    ensures 0 <= d < 10
  {
    c as int - '0' as int
  }

  /** The decimal digits of `n`, most significant first, without leading
      zeros, as a number is rendered into text. */
  function DecimalString(n: nat): (s: string)
    ensures |s| > 0 && AllDigits(s)
    ensures s[0] == '0' ==> n == 0
    decreases n
  {
    if n < 10 then [DigitChar(n)] else DecimalString(n / 10) + [DigitChar(n % 10)]
  }

  /** Reads a string of decimal digits back as a number. */
  function ParseDecimal(s: string): nat
    requires AllDigits(s)
    decreases |s|
  {
    if |s| == 0 then 0 else ParseDecimal(s[..|s| - 1]) * 10 + DigitValue(s[|s| - 1])
  }

  /** Reading the rendering of a number gives the number back. */
  lemma {:induction false} ParseDecimalString(n: nat)
    ensures ParseDecimal(DecimalString(n)) == n
    decreases n
  {
    var s := DecimalString(n);
    if n >= 10 {
      ParseDecimalString(n / 10);
      assert s[..|s| - 1] == DecimalString(n / 10);
    }
  }

  /** Distinct numbers render differently. */
  lemma DecimalStringInjective(m: nat, n: nat)
    requires DecimalString(m) == DecimalString(n)
    ensures m == n
  {
    ParseDecimalString(m);
    ParseDecimalString(n);
  }

  // ---------------------------------------------------------------------------
  // Service names

  const DefaultNamePrefix: string := "Service "

  /** The name a service is exported under: its own name, or "Service "
      followed by its 1-based position when the name is empty. The suffix of
      a default name reads back as the position. */
  function ServiceName(t: Task, i: nat): (name: string)
    ensures name != ""
    ensures t.name != "" ==> name == t.name
    ensures t.name == "" ==>
      && |name| > |DefaultNamePrefix|
      && name[..|DefaultNamePrefix|] == DefaultNamePrefix
      && AllDigits(name[|DefaultNamePrefix|..])
      && name[|DefaultNamePrefix|] != '0'
      && ParseDecimal(name[|DefaultNamePrefix|..]) == i + 1
  {
    if t.name != "" then t.name
    else
      ParseDecimalString(i + 1);
      assert (DefaultNamePrefix + DecimalString(i + 1))[|DefaultNamePrefix|..] == DecimalString(i + 1);
      DefaultNamePrefix + DecimalString(i + 1)
  }

  /** Two unnamed services at different positions are exported under
      different names. */
  lemma DefaultNamesDistinct(t: Task, u: Task, i: nat, j: nat)
    requires t.name == "" && u.name == "" && i != j
    ensures ServiceName(t, i) != ServiceName(u, j)
  {
  }

  // ---------------------------------------------------------------------------
  // Spreadsheet export

  /** One spreadsheet record. The columns are the record's keys, in this order. */
  datatype SheetRow = SheetRow(
    service: string,
    techs: real, days: real, trips: real, hoursPerDay: real, rate: real,
    travelRate: real, travelTime: real, mealCost: real, hotelCost: real,
    airfare: real, carRental: real, parking: real, mileage: real,
    notes: string,
    labor: real, travel: real, airfareTotal: real, carRentalTotal: real,
    hotel: real, meals: real, mileageCost: real,
    subtotal: real, tax: real, profit: real, compensation: real, total: real
  )

  const SheetColumns: seq<string> := [
    "Service", "Techs", "Days", "Trips", "HoursPerDay", "Rate", "TravelRate",
    "TravelTime", "MealCost", "HotelCost", "Airfare", "CarRental", "Parking",
    "Mileage", "Notes", "Labor", "Travel", "AirfareTotal", "CarRentalTotal",
    "Hotel", "Meals", "MileageCost", "Subtotal", "Tax", "Profit",
    "Compensation", "Total"]

  /** The spreadsheet record of service `i`: its export name, its raw inputs
      (the inclusion flags are not exported) and its priced breakdown. */
  function SheetRowOf(t: Task, i: nat, r: Rates): SheetRow {
    SheetRecord(t, ServiceName(t, i), Calculate(t, r))
  }

  function SheetRecord(t: Task, name: string, b: Breakdown): SheetRow {
    SheetRow(
      name,
      t.techs, t.days, t.trips, t.hoursPerDay, t.rate,
      t.travelRate, t.travelTime, t.mealCost, t.hotelCost,
      t.airfare, t.carRental, t.parking, t.mileage,
      t.notes,
      b.labor, b.travel, b.airfare, b.carRental,
      b.lodging, b.meals, b.mileageCost,
      b.subtotal, b.tax, b.profit, b.comp, b.total)
  }

  /** The spreadsheet: one record per service, in list order, each named as
      `ServiceName` names it and carrying that service's breakdown. */
  function SheetRows(tasks: seq<Task>, r: Rates): (rows: seq<SheetRow>)
    ensures |rows| == |tasks|
    ensures forall i :: 0 <= i < |rows| ==>
      && rows[i].service == ServiceName(tasks[i], i)
      && TaskOfSheetRow(rows[i])
         == tasks[i].(name := rows[i].service, includeHotel := true, includeAirfare := true, includeCarRental := true)
      && rows[i].labor == Calculate(tasks[i], r).labor
      && rows[i].travel == Calculate(tasks[i], r).travel
      && rows[i].airfareTotal == Calculate(tasks[i], r).airfare
      && rows[i].carRentalTotal == Calculate(tasks[i], r).carRental
      && rows[i].hotel == Calculate(tasks[i], r).lodging
      && rows[i].meals == Calculate(tasks[i], r).meals
      && rows[i].mileageCost == Calculate(tasks[i], r).mileageCost
      && rows[i].subtotal == Calculate(tasks[i], r).subtotal
      && rows[i].tax == Calculate(tasks[i], r).tax
      && rows[i].profit == Calculate(tasks[i], r).profit
      && rows[i].compensation == Calculate(tasks[i], r).comp
      && rows[i].total == Calculate(tasks[i], r).total
      && rows[i].total == 2.0 * rows[i].subtotal
      && rows[i].tax + rows[i].profit + rows[i].compensation == rows[i].subtotal
  {
    seq(|tasks|, i requires 0 <= i < |tasks| => SheetRowOf(tasks[i], i, r))
  }

  /** The Subtotal column of the spreadsheet adds up to the grand total shown
      on screen. */
  lemma SheetSubtotalsSumToGrandTotal(tasks: seq<Task>, r: Rates)
    ensures SumLeft(seq(|tasks|, i requires 0 <= i < |tasks| => SheetRows(tasks, r)[i].subtotal))
         == GrandTotal(tasks, r)
  {
    assert seq(|tasks|, i requires 0 <= i < |tasks| => SheetRows(tasks, r)[i].subtotal) == Subtotals(tasks, r);
  }

  /** Rebuilds a service from its spreadsheet record. The inclusion flags are
      not in the record, so every optional expense is taken as included. */
  function TaskOfSheetRow(row: SheetRow): Task {
    Task(row.service, row.techs, row.days, row.trips, row.hoursPerDay, row.rate,
         row.travelRate, row.travelTime, row.mealCost, row.hotelCost,
         row.airfare, row.carRental, row.parking, row.mileage,
         true, true, true, row.notes)
  }

  /** Pricing a service rebuilt from its spreadsheet record, at the same
      rates, reproduces the breakdown of the exported service whenever all three
      optional expenses were included. */
  lemma SheetRoundTrip(t: Task, i: nat, r: Rates)
    requires t.includeHotel && t.includeAirfare && t.includeCarRental
    ensures Calculate(TaskOfSheetRow(SheetRowOf(t, i, r)), r) == Calculate(t, r)
  {
    var u := TaskOfSheetRow(SheetRowOf(t, i, r));
    assert u == t.(name := u.name);
    CalculateIgnoresNameAndNotes(t, u.name, t.notes, r);
    assert t.(name := u.name, notes := t.notes) == u;
  }

  /** Without the inclusion flags the round trip fails: an airfare of 500
      that was excluded comes back included in the rebuilt service. */
  lemma SheetRoundTripNeedsFlags(r: Rates)
    ensures var t := DefaultTask.(includeAirfare := false, airfare := 500.0);
      && Calculate(t, r).airfare == 0.0
      && Calculate(TaskOfSheetRow(SheetRowOf(t, 0, r)), r).airfare == 500.0
  {
  }

  // ---------------------------------------------------------------------------
  // Document export

  /** A table cell of the document: text, a raw input number, or an amount
      shown with exactly two decimals. */
  datatype Cell = TextCell(s: string) | NumberCell(x: real) | TwoDecimals(amount: real)

  const DocumentColumns: seq<string> := [
    "Service", "Techs", "Days", "Trips", "HoursPerDay", "Rate", "TravelRate",
    "TravelTime", "MealCost", "HotelCost", "Airfare", "CarRental", "Parking",
    "Mileage", "Labor", "Travel", "AirfareTotal", "CarRentalTotal", "Hotel",
    "Meals", "MileageCost", "Subtotal", "Notes"]

  /** The document row of service `i`: its raw inputs, its direct costs and
      subtotal, and its notes. Tax, profit, compensation and total are not
      part of the document. */
  function DocumentRow(t: Task, i: nat, r: Rates): (row: seq<Cell>)
    ensures |row| == |DocumentColumns|
    ensures row[0] == TextCell(ServiceName(t, i))
    ensures row[1] == NumberCell(t.techs) && row[2] == NumberCell(t.days) && row[3] == NumberCell(t.trips)
    ensures row[4] == NumberCell(t.hoursPerDay) && row[5] == NumberCell(t.rate)
    ensures row[6] == NumberCell(t.travelRate) && row[7] == NumberCell(t.travelTime)
    ensures row[8] == NumberCell(t.mealCost) && row[9] == NumberCell(t.hotelCost)
    ensures row[10] == NumberCell(t.airfare) && row[11] == NumberCell(t.carRental)
    ensures row[12] == NumberCell(t.parking) && row[13] == NumberCell(t.mileage)
    ensures row[14] == TwoDecimals(Calculate(t, r).labor)
    ensures row[15] == TwoDecimals(Calculate(t, r).travel)
    ensures row[16] == TwoDecimals(Calculate(t, r).airfare)
    ensures row[17] == TwoDecimals(Calculate(t, r).carRental)
    ensures row[18] == TwoDecimals(Calculate(t, r).lodging)
    ensures row[19] == TwoDecimals(Calculate(t, r).meals)
    ensures row[20] == TwoDecimals(Calculate(t, r).mileageCost)
    ensures row[21] == TwoDecimals(Calculate(t, r).subtotal)
    ensures row[22] == TextCell(t.notes)
  {
    DocumentCells(t, ServiceName(t, i), Calculate(t, r))
  }

  /** The cells of a document row for a service with the given export name
      and breakdown, one per document column. */
  function DocumentCells(t: Task, name: string, b: Breakdown): (row: seq<Cell>)
    ensures |row| == |DocumentColumns|
    ensures row[0] == TextCell(name)
    ensures row[1] == NumberCell(t.techs) && row[2] == NumberCell(t.days) && row[3] == NumberCell(t.trips)
    ensures row[4] == NumberCell(t.hoursPerDay) && row[5] == NumberCell(t.rate)
    ensures row[6] == NumberCell(t.travelRate) && row[7] == NumberCell(t.travelTime)
    ensures row[8] == NumberCell(t.mealCost) && row[9] == NumberCell(t.hotelCost)
    ensures row[10] == NumberCell(t.airfare) && row[11] == NumberCell(t.carRental)
    ensures row[12] == NumberCell(t.parking) && row[13] == NumberCell(t.mileage)
    ensures row[14] == TwoDecimals(b.labor) && row[15] == TwoDecimals(b.travel)
    ensures row[16] == TwoDecimals(b.airfare) && row[17] == TwoDecimals(b.carRental)
    ensures row[18] == TwoDecimals(b.lodging) && row[19] == TwoDecimals(b.meals)
    ensures row[20] == TwoDecimals(b.mileageCost) && row[21] == TwoDecimals(b.subtotal)
    ensures row[22] == TextCell(t.notes)
  {
    seq(|DocumentColumns|, k requires 0 <= k < |DocumentColumns| => DocumentCell(t, name, b, k))
  }

  /** The cell of document column `k`. */
  function DocumentCell(t: Task, name: string, b: Breakdown, k: nat): Cell
    requires k < |DocumentColumns|
  {
    match k
    case 0 => TextCell(name)
    case 1 => NumberCell(t.techs)
    case 2 => NumberCell(t.days)
    case 3 => NumberCell(t.trips)
    case 4 => NumberCell(t.hoursPerDay)
    case 5 => NumberCell(t.rate)
    case 6 => NumberCell(t.travelRate)
    case 7 => NumberCell(t.travelTime)
    case 8 => NumberCell(t.mealCost)
    case 9 => NumberCell(t.hotelCost)
    case 10 => NumberCell(t.airfare)
    case 11 => NumberCell(t.carRental)
    case 12 => NumberCell(t.parking)
    case 13 => NumberCell(t.mileage)
    case 14 => TwoDecimals(b.labor)
    case 15 => TwoDecimals(b.travel)
    case 16 => TwoDecimals(b.airfare)
    case 17 => TwoDecimals(b.carRental)
    case 18 => TwoDecimals(b.lodging)
    case 19 => TwoDecimals(b.meals)
    case 20 => TwoDecimals(b.mileageCost)
    case 21 => TwoDecimals(b.subtotal)
    case _ => TextCell(t.notes)
  }

  /** The document table body: one row per service, in list order. */
  function DocumentRows(tasks: seq<Task>, r: Rates): (rows: seq<seq<Cell>>)
    ensures |rows| == |tasks|
    ensures forall i :: 0 <= i < |rows| ==> rows[i] == DocumentRow(tasks[i], i, r)
  {
    seq(|tasks|, i requires 0 <= i < |tasks| => DocumentRow(tasks[i], i, r))
  }

  /** The spreadsheet record as cells, in the order of its columns. */
  function SheetCells(row: SheetRow): (cells: seq<Cell>)
    ensures |cells| == |SheetColumns|
    ensures cells[23] == NumberCell(row.tax) && cells[24] == NumberCell(row.profit)
    ensures cells[25] == NumberCell(row.compensation) && cells[26] == NumberCell(row.total)
  {
    seq(|SheetColumns|, j requires 0 <= j < |SheetColumns| => SheetCell(row, j))
  }

  /** The cell of spreadsheet column `j`. */
  function SheetCell(row: SheetRow, j: nat): Cell
    requires j < |SheetColumns|
  {
    match j
    case 0 => TextCell(row.service)
    case 1 => NumberCell(row.techs)
    case 2 => NumberCell(row.days)
    case 3 => NumberCell(row.trips)
    case 4 => NumberCell(row.hoursPerDay)
    case 5 => NumberCell(row.rate)
    case 6 => NumberCell(row.travelRate)
    case 7 => NumberCell(row.travelTime)
    case 8 => NumberCell(row.mealCost)
    case 9 => NumberCell(row.hotelCost)
    case 10 => NumberCell(row.airfare)
    case 11 => NumberCell(row.carRental)
    case 12 => NumberCell(row.parking)
    case 13 => NumberCell(row.mileage)
    case 14 => TextCell(row.notes)
    case 15 => NumberCell(row.labor)
    case 16 => NumberCell(row.travel)
    case 17 => NumberCell(row.airfareTotal)
    case 18 => NumberCell(row.carRentalTotal)
    case 19 => NumberCell(row.hotel)
    case 20 => NumberCell(row.meals)
    case 21 => NumberCell(row.mileageCost)
    case 22 => NumberCell(row.subtotal)
    case 23 => NumberCell(row.tax)
    case 24 => NumberCell(row.profit)
    case 25 => NumberCell(row.compensation)
    case _ => NumberCell(row.total)
  }

  /** Where each document column sits among the spreadsheet columns. */
  const DocumentColumnInSheet: seq<int> :=
    [0, 1, 2, 3, 4, 5, 6, 7, 8, 9, 10, 11, 12, 13, 15, 16, 17, 18, 19, 20, 21, 22, 14]

  /** Two cells carry the same content, whatever the display format. */
  predicate SameContent(a: Cell, b: Cell) {
    match (a, b)
    case (TextCell(x), TextCell(y)) => x == y
    case (NumberCell(x), NumberCell(y)) => x == y
    case (TwoDecimals(x), NumberCell(y)) => x == y
    case _ => false
  }

  /** Every document column is also a spreadsheet column of the same name. */
  lemma DocumentColumnsInSheet()
    ensures |DocumentColumnInSheet| == |DocumentColumns|
    ensures forall k :: 0 <= k < |DocumentColumns| ==>
      && 0 <= DocumentColumnInSheet[k] < |SheetColumns|
      && SheetColumns[DocumentColumnInSheet[k]] == DocumentColumns[k]
  {
  }

  /** The two exports agree: for every service, each document column shows
      what the spreadsheet holds in the column of the same name. */
  lemma DocumentAgreesWithSheet(t: Task, i: nat, r: Rates)
    ensures forall k :: 0 <= k < |DocumentColumns| ==>
      && 0 <= DocumentColumnInSheet[k] < |SheetColumns|
      && SameContent(DocumentRow(t, i, r)[k], SheetCells(SheetRowOf(t, i, r))[DocumentColumnInSheet[k]])
  {
    CellsAgree(t, ServiceName(t, i), Calculate(t, r));
  }

  lemma CellsAgree(t: Task, name: string, b: Breakdown)
    ensures forall k :: 0 <= k < |DocumentColumns| ==>
      && 0 <= DocumentColumnInSheet[k] < |SheetColumns|
      && SameContent(DocumentCells(t, name, b)[k], SheetCells(SheetRecord(t, name, b))[DocumentColumnInSheet[k]])
  {
    var row := SheetRecord(t, name, b);
    forall k | 0 <= k < |DocumentColumns|
      ensures 0 <= DocumentColumnInSheet[k] < |SheetColumns|
      ensures SameContent(DocumentCells(t, name, b)[k], SheetCells(row)[DocumentColumnInSheet[k]])
    {
      var j := DocumentColumnInSheet[k];
      assert j == if k < 14 then k else if k < 22 then k + 1 else 14;
      assert DocumentCells(t, name, b)[k] == DocumentCell(t, name, b, k);
      assert SheetCells(row)[j] == SheetCell(row, j);
    }
  }

  /** The two exports agree row by row: for every service of the list, each
      document cell carries what the spreadsheet record of the same service
      holds in the column of the same name. */
  lemma ExportsAgree(tasks: seq<Task>, r: Rates)
    ensures |DocumentRows(tasks, r)| == |SheetRows(tasks, r)| == |tasks|
    ensures forall i, k :: 0 <= i < |tasks| && 0 <= k < |DocumentColumns| ==>
      && 0 <= DocumentColumnInSheet[k] < |SheetColumns|
      && SameContent(DocumentRows(tasks, r)[i][k], SheetCells(SheetRows(tasks, r)[i])[DocumentColumnInSheet[k]])
  {
    forall i | 0 <= i < |tasks|
      ensures forall k :: 0 <= k < |DocumentColumns| ==>
        && 0 <= DocumentColumnInSheet[k] < |SheetColumns|
        && SameContent(DocumentRows(tasks, r)[i][k], SheetCells(SheetRows(tasks, r)[i])[DocumentColumnInSheet[k]])
    {
      DocumentAgreesWithSheet(tasks[i], i, r);
      assert SheetRows(tasks, r)[i] == SheetRowOf(tasks[i], i, r);
    }
  }
}
