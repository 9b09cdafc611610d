# Quote builder pricing core, in Dafny

A model of the pricing engine and service-list operations of a client-side
quote calculator. A quote is a list of services ("line items"): each records
how many technicians work how many days on how many trips, at what labor and
travel rates, and which per-trip expenses (hotel, airfare, car rental,
parking, meals, mileage) apply. Three global rates are shared by every
service: the mileage reimbursement rate, chosen at startup from a per-year
table, and the tax and profit percentages. The owner-compensation percentage
is whatever tax and profit leave of 100.

The model has five modules:

- `LineItem` (`line_item.dfy`): the service record `Task`, its default
  values, and field-level reads and writes (`Get`, `Set`), as used by the
  editing form.
- `RateConfig` (`rate_config.dfy`): the rates, the year table for the
  mileage rate, and the derived compensation percentage.
- `Pricing` (`pricing.dfy`): `Calculate`, which maps one service and the
  rates to the 15-field `Breakdown`. It is split into `Itemize` (the eight
  direct costs) and `Summarize` (subtotal, tax, profit, compensation,
  expenses and total).
- `ServiceCollection` (`service_collection.dfy`): the quote state, adding a
  service as a copy of the first, editing one field of one service, and the
  grand total.
- `Export` (`export.dfy`): the rows handed to the spreadsheet and document
  writers, including the default name `Service <position>` for an unnamed
  service.

Money is modelled as `real`. The formulas are reproduced as written. In
particular, `total = subtotal + tax + profit + comp`. Tax, profit and
compensation always split the subtotal exactly, so `total` is twice the
subtotal. The grand total adds subtotals, not totals.

New services copy the current first service, not a separate template. The
model follows that code behaviour.

## Model

| member | source | states |
|---|---|---|
| LineItem.Get | src/App.jsx:95 | reading a field (`task[field]`) gives a value of that field's kind: text for name and notes, a yes/no for the inclusion flags, a number otherwise |
| LineItem.Set | src/App.jsx:95 | writing a field makes it read back as the written value, and every other field reads as before |
| LineItem.SetRestore | src/App.jsx:93-97 | writing back a field's earlier value after an edit restores the record exactly |
| RateConfig.InitialIrsRate | src/App.jsx:51-59 | the startup mileage rate is 0.655 for 2023, 0.67 for 2024, 0.7 for 2025, and 0.7 for every other year; it is always positive |
| RateConfig.InitialRates | src/App.jsx:51-61 | startup rates: the year's mileage rate, tax 20 percent, profit 10 percent |
| RateConfig.CompensationRate | src/App.jsx:42 | tax + profit + compensation percentages make 100; compensation is negative exactly when tax + profit exceed 100 |
| Pricing.Itemize | src/App.jsx:176-183 | airfare, car rental and lodging are zero when their inclusion flag is off, whatever the raw amount |
| Pricing.Summarize | src/App.jsx:184-191 | expenses are the six non-labor, non-travel costs; subtotal = labor + travel + expenses; tax = subtotal x tax rate / 100; profit = subtotal x profit rate / 100; tax + profit + comp = subtotal; comp = subtotal x compensation percentage / 100; total = 2 x subtotal |
| Pricing.Calculate | src/App.jsx:175-192 | gated costs are zero when their flag is off; subtotal = labor + travel + expenses; tax = subtotal x tax rate / 100; profit = subtotal x profit rate / 100; tax + profit + comp = subtotal; comp = subtotal x compensation percentage / 100; total = 2 x subtotal; compensationMinusExpenses = comp - expenses |
| Pricing.SubtotalIsSum | src/App.jsx:184 | the subtotal is the sum of the eight itemized direct costs |
| Pricing.ItemizeIsScaledPerTrip | src/App.jsx:176-183 | every direct cost equals the independently defined per-trip cost times the number of trips |
| Pricing.SumScale | src/App.jsx:184 | scaling every direct cost by a factor scales their sum by that factor |
| Pricing.CalculateIsScaledPerTrip | src/App.jsx:176-183 | each of the eight direct costs in the breakdown (labor, travel, airfare, car rental, parking, lodging, meals, mileage) is its own per-trip cost times the number of trips |
| Pricing.SubtotalScalesWithTrips | src/App.jsx:176-184 | subtotal = trips x the per-trip cost of the service |
| Pricing.ZeroTripsCostNothing | src/App.jsx:176-190 | with zero trips, every cost component, the subtotal, tax, profit, comp, expenses and total are all 0 |
| Pricing.AirfareFlagEffect | src/App.jsx:178 | turning airfare on changes only the airfare cost, from 0 to airfare x trips; every other direct cost stays the same |
| Pricing.CarRentalFlagEffect | src/App.jsx:179 | turning car rental on changes only the car rental cost, from 0 to carRental x trips; every other direct cost stays the same |
| Pricing.HotelFlagEffect | src/App.jsx:181 | turning the hotel on changes only the lodging cost, from 0 to days x trips x hotelCost; every other direct cost stays the same |
| Pricing.MarkupRatesOnlyRedistribute | src/App.jsx:176-190 | changing the tax and profit rates leaves every cost component, the subtotal, the expenses and the total unchanged |
| Pricing.CalculateIgnoresNameAndNotes | src/App.jsx:175-192 | the name and notes of a service do not affect its breakdown |
| Pricing.NonNegativeInputsCostNonNegative | src/App.jsx:176-190 | non-negative inputs and mileage rate give a non-negative subtotal and total |
| Pricing.LaborExample | src/App.jsx:176 | 2 techs, 3 days, 1 trip, 8 hours at 100 give labor 4800 |
| Pricing.MileageExample | src/App.jsx:183 | 100 miles on 2 trips at 0.67 give a mileage cost of 134 |
| Pricing.MarkupExample | src/App.jsx:184-190 | a subtotal of 1000 at 20 percent tax and 10 percent profit gives tax 200, profit 100, compensation 700 and total 2000 |
| Pricing.ExcludedAirfareExample | src/App.jsx:178 | an excluded airfare of 500 over 3 trips costs 0, and the record still holds 500 |
| ServiceCollection.InitialQuote | src/App.jsx:51-84 | the initial quote holds exactly the default service, expanded at index 0, at the year's initial rates; it is valid and its compensation percentage is 70 |
| ServiceCollection.DefaultTaskSubtotal | src/App.jsx:62-83 | whatever the rates, the default service's direct costs are 880 labor, 200 travel, 200 lodging, 100 meals and nothing else, and its subtotal is 1380 |
| ServiceCollection.GrandTotalSingle | src/App.jsx:329 | the grand total of a one-service list is that service's subtotal |
| ServiceCollection.InitialGrandTotal | src/App.jsx:62-83 | the default service is quoted at 1380 |
| ServiceCollection.GrandTotal | src/App.jsx:329 | the subtotals added first to last from 0, as `reduce` does, equal the independently defined head-first sum of the subtotals |
| ServiceCollection.SumLeft | src/App.jsx:329 | a left-to-right sum of non-negative amounts is non-negative |
| ServiceCollection.SumLeftAppend | src/App.jsx:329 | the left-to-right sum is additive over concatenation |
| ServiceCollection.SumLeftIsSumRight | src/App.jsx:329 | the left-to-right sum equals the independently defined head-first sum |
| ServiceCollection.SumLeftReplace | src/App.jsx:329 | replacing one amount changes the sum by exactly the difference |
| ServiceCollection.SumRightDoubled | src/App.jsx:329 | doubling every amount doubles the sum |
| ServiceCollection.GrandTotalIsSumOfSubtotals | src/App.jsx:329 | the grand total is 0 for no services, is additive under appending, and equals the sum of the subtotals |
| ServiceCollection.SumOfTotalsIsTwiceGrandTotal | src/App.jsx:329 | adding up the per-service totals would give twice the grand total, so the grand total uses subtotals |
| ServiceCollection.GrandTotalReplace | src/App.jsx:329 | replacing one service changes the grand total by exactly the change in its subtotal |
| ServiceCollection.GrandTotalIgnoresMarkupRates | src/App.jsx:329 | the tax and profit rates do not affect the grand total |
| ServiceCollection.AddTask | src/App.jsx:87-91 | the list grows by one; the earlier services are unchanged; the new last service equals the first; the active index is the new last index; the rates are unchanged |
| ServiceCollection.AddTaskGrandTotal | src/App.jsx:87-91 | adding a service adds the first service's subtotal to the grand total |
| ServiceCollection.UpdateTask | src/App.jsx:93-97 | an out-of-range index yields no update; otherwise only field f of service i changes, and it now holds v |
| ServiceCollection.UpdateTaskPreservesValid | src/App.jsx:93-97 | an edit keeps a valid quote valid |
| ServiceCollection.UndoEdit | src/App.jsx:93-97 | writing back a field's earlier value restores the quote; a flag switched off and on again brings the hidden raw amount back |
| ServiceCollection.UpdateTaskGrandTotal | src/App.jsx:93-97 | an edit changes the grand total by exactly the change in the edited service's subtotal |
| ServiceCollection.EditNameOrNotesKeepsPrices | src/App.jsx:93-97 | editing a name or notes leaves the service's breakdown and the grand total unchanged |
| Export.DecimalString | src/App.jsx:107 | the rendered position is a non-empty string of digits with no leading zero |
| Export.ParseDecimalString | src/App.jsx:107 | reading a rendered position gives the position back |
| Export.DecimalStringInjective | src/App.jsx:107 | different positions render differently |
| Export.ServiceName | src/App.jsx:140 | a named service keeps its name; an unnamed one is "Service " followed by digits, without a leading zero, that read back as its 1-based position |
| Export.DefaultNamesDistinct | src/App.jsx:137-140 | unnamed services at different positions get different export names |
| Export.SheetRows | src/App.jsx:136-168 | one spreadsheet record per service, named by ServiceName; its input columns and notes are the service's own (rebuilding from them gives the service back with the flags on); Labor through Total are the service's breakdown, column by column; its Total is twice its Subtotal, and its Tax + Profit + Compensation equal its Subtotal |
| Export.SheetSubtotalsSumToGrandTotal | src/App.jsx:162 | the spreadsheet's Subtotal column adds up to the on-screen grand total |
| Export.SheetRoundTrip | src/App.jsx:136-168 | pricing a service rebuilt from its spreadsheet record reproduces its breakdown when all inclusion flags are on |
| Export.SheetRoundTripNeedsFlags | src/App.jsx:136-168 | the flags are not exported, so an excluded airfare of 500 costs 0 in the exported service but 500 in the service rebuilt from its record |
| Export.DocumentRow | src/App.jsx:104-131 | one cell per document column: the export name, the thirteen raw inputs as entered, labor through subtotal of the service's breakdown as two-decimal amounts, and the notes |
| Export.DocumentRows | src/App.jsx:104-131 | one document row per service, in list order; row i is the document row of service i at position i, so each of its cells is pinned by Export.DocumentRow |
| Export.DocumentColumnsInSheet | src/App.jsx:101-103 | every document column header names a spreadsheet column |
| Export.SheetCells | src/App.jsx:163-166 | the last four spreadsheet cells are Tax, Profit, Compensation and Total, in that order |
| Export.ExportsAgree | src/App.jsx:101-167 | for the whole list, row i of the document and record i of the spreadsheet agree in every shared column, before two-decimal rounding |
| Export.DocumentAgreesWithSheet | src/App.jsx:101-167 | every document column is also a spreadsheet column of the same name, and for each service the document cell holds the same amount or text as the spreadsheet cell, before two-decimal rounding |

## Left out

- The React rendering, the settings and expand/collapse toggles, and choosing the expanded service by clicking its header. These are UI state with nothing computed.
- The rate inputs. Editing a rate replaces one field of `Rates`; the model takes the rates as given.
- The display labels ('Untitled' for an unnamed service on screen, the compensation percentage shown with two decimals). These only format values for display.
- Writing the spreadsheet and PDF files, which is done by external libraries. Only the rows handed to them are modelled.
- Number formatting (fixed two decimals, locale separators). A `TwoDecimals` cell records the unrounded amount that the document prints to two decimals.
- Pricing.Calculate: computes in exact real arithmetic, not IEEE doubles. The identities it states (tax + profit + comp = subtotal, total = 2 x subtotal) hold exactly here but only up to rounding in the application. NaN and Infinity from unparsable input are out of scope.
- RateConfig.InitialIrsRate: takes the calendar year as a parameter instead of reading the clock.
- ServiceCollection.AddTask: requires a non-empty list. On an empty list the application would append an empty record, but the list starts with one service and nothing removes one (`Valid` is established by `InitialQuote` and kept by `AddTask` and `UpdateTask`).
- ServiceCollection.UpdateTask: requires the value to be of the field's kind (text, number or flag). The typed record cannot hold, for example, text in a numeric field, and the form only ever writes matching kinds. Writing to field names outside the record is not representable either.
- ServiceCollection.UpdateTask: an out-of-range index makes the application throw a TypeError when it writes to `undefined`. The model returns `NoSuchTask` for that case instead.
- The application writes the edited field into the record object in place, after copying only the list. Modelling records as values is equivalent: `addTask` copies the first record with `{ ...tasks[0] }`, so no two entries share an object.
