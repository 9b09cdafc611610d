/**
 The global rates every service is priced with: the mileage reimbursement
 rate, the tax and profit percentages, and the owner-compensation percentage
 derived from the last two.
 */
module RateConfig {

  datatype Rates = Rates(irsRate: real, taxRate: real, profitRate: real)

  /** Published mileage rates per calendar year, currency per mile. */
  const IrsRateByYear: map<int, real> := map[2023 := 0.655, 2024 := 0.67, 2025 := 0.7]

  /** The rate used for a year the table does not list. */
  const FallbackIrsRate: real := 0.7

  const InitialTaxRate: real := 20.0
  const InitialProfitRate: real := 10.0

  /** The mileage rate selected at startup for the current calendar year. The
      table entry is used when present and non-zero (a falsy lookup falls
      through to the fallback). */
  function InitialIrsRate(year: int): (rate: real)
    ensures year == 2023 ==> rate == 0.655
    ensures year == 2024 ==> rate == 0.67
    ensures year == 2025 ==> rate == 0.7
    ensures year != 2023 && year != 2024 && year != 2025 ==> rate == 0.7
    ensures rate > 0.0
  {
    if year in IrsRateByYear && IrsRateByYear[year] != 0.0 then IrsRateByYear[year] else FallbackIrsRate
  }

  /** The rates the application starts with in a given year. */
  function InitialRates(year: int): (r: Rates)
    ensures r.irsRate == InitialIrsRate(year)
    ensures r.taxRate == 20.0 && r.profitRate == 10.0
  {
    Rates(InitialIrsRate(year), InitialTaxRate, InitialProfitRate)
  }

  /** The owner-compensation percentage: whatever tax and profit leave of
      100 percent. Nothing keeps it in range; it is negative once tax and
      profit exceed 100 together. */
  function CompensationRate(r: Rates): (pct: real)
    ensures r.taxRate + r.profitRate + pct == 100.0
    ensures pct < 0.0 <==> r.taxRate + r.profitRate > 100.0
  {
    100.0 - r.taxRate - r.profitRate
  }
}
