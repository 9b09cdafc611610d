/**
 The quote being edited: the shared rates, the ordered list of services and
 the index of the service whose form is expanded. Services are appended as
 copies of the first one and edited one field at a time; the grand total
 sums their subtotals.
 */
module ServiceCollection {
  import opened LineItem
  import opened RateConfig
  import opened Pricing

  datatype Quote = Quote(rates: Rates, tasks: seq<Task>, activeIndex: int)

  /** The list is never empty and the expanded service is one of its
      elements. No operation removes a service. */
  predicate Valid(q: Quote) {
    |q.tasks| > 0 && 0 <= q.activeIndex < |q.tasks|
  }

  /** The quote the application opens with: one default service, expanded,
      priced at the rates for the given calendar year. */
  function InitialQuote(year: int): (q: Quote)
    ensures Valid(q)
    ensures q.tasks == [DefaultTask] && q.activeIndex == 0
    ensures q.rates == InitialRates(year)
    ensures CompensationRate(q.rates) == 70.0
  {
    Quote(InitialRates(year), [DefaultTask], 0)
  }

  /** The default service costs 1380 before markup: 880 of labor, 200 of
      travel, 200 of lodging and 100 of meals. */
  lemma DefaultTaskSubtotal(r: Rates)
    ensures Itemize(DefaultTask, r) == Costs(880.0, 200.0, 0.0, 0.0, 0.0, 200.0, 100.0, 0.0)
    ensures Calculate(DefaultTask, r).subtotal == 1380.0
  {
    SubtotalIsSum(DefaultTask, r);
  }

  /** The initial quote's grand total is the default service's 1380. */
  lemma InitialGrandTotal(year: int)
    ensures var q := InitialQuote(year); GrandTotal(q.tasks, q.rates) == 1380.0
  {
    var r := InitialRates(year);
    DefaultTaskSubtotal(r);
    GrandTotalSingle(DefaultTask, r);
  }

  /** The grand total of one service is its subtotal. */
  lemma GrandTotalSingle(t: Task, r: Rates)
    ensures GrandTotal([t], r) == Calculate(t, r).subtotal
  {
    var sub := Calculate(t, r).subtotal;
    assert Subtotals([t], r) == [sub];
    assert [sub][..0] == [];
    assert SumLeft([sub]) == SumLeft([]) + sub;
  }

  /** Adds up a list of amounts from the first to the last, starting at 0,
      as an array reduction does. */
  function SumLeft(s: seq<real>): (total: real)
    ensures (forall i :: 0 <= i < |s| ==> s[i] >= 0.0) ==> total >= 0.0
    decreases |s|
  {
    if |s| == 0 then 0.0 else SumLeft(s[..|s| - 1]) + s[|s| - 1]
  }

  /** Reference definition: the first amount plus the sum of the rest. */
  function SumRight(s: seq<real>): real
    decreases |s|
  {
    if |s| == 0 then 0.0 else s[0] + SumRight(s[1..])
  }

  /** The sum of two lists one after the other is the sum of their sums. */
  lemma {:induction false} SumLeftAppend(a: seq<real>, b: seq<real>)
    ensures SumLeft(a + b) == SumLeft(a) + SumLeft(b)
    decreases |b|
  {
    if |b| == 0 {
      assert a + b == a;
    } else {
      var b' := b[..|b| - 1];
      assert (a + b)[..|a + b| - 1] == a + b';
      SumLeftAppend(a, b');
    }
  }

  /** Accumulating from the left gives the same sum as the reference. */
  lemma {:induction false} SumLeftIsSumRight(s: seq<real>)
    ensures SumLeft(s) == SumRight(s)
    decreases |s|
  {
    if |s| > 0 {
      SumLeftIsSumRight(s[1..]);
      assert s == [s[0]] + s[1..];
      SumLeftAppend([s[0]], s[1..]);
      assert [s[0]][..0] == [];
    }
  }

  /** Replacing one amount changes the sum by exactly the difference. */
  lemma {:induction false} SumLeftReplace(s: seq<real>, i: int, x: real)
    requires 0 <= i < |s|
    ensures SumLeft(s[i := x]) == SumLeft(s) - s[i] + x
    decreases |s|
  {
    var n := |s|;
    if i == n - 1 {
      assert s[i := x][..n - 1] == s[..n - 1];
    } else {
      assert s[i := x][..n - 1] == s[..n - 1][i := x];
      SumLeftReplace(s[..n - 1], i, x);
    }
  }

  /** Doubling every amount doubles the sum. */
  lemma {:induction false} SumRightDoubled(s: seq<real>, d: seq<real>)
    requires |d| == |s| && forall i :: 0 <= i < |s| ==> d[i] == 2.0 * s[i]
    ensures SumRight(d) == 2.0 * SumRight(s)
    decreases |s|
  {
    if |s| > 0 {
      SumRightDoubled(s[1..], d[1..]);
    }
  }

  /** The subtotal of every service, in list order. */
  function Subtotals(tasks: seq<Task>, r: Rates): seq<real> {
    seq(|tasks|, i requires 0 <= i < |tasks| => Calculate(tasks[i], r).subtotal)
  }

  /** The per-service `total` of every service, in list order. */
  function Totals(tasks: seq<Task>, r: Rates): seq<real> {
    seq(|tasks|, i requires 0 <= i < |tasks| => Calculate(tasks[i], r).total)
  }

  /** The grand total: the subtotals of all services accumulated from the
      first to the last. It adds subtotals, not the per-service totals. */
  function GrandTotal(tasks: seq<Task>, r: Rates): (total: real)
    ensures total == SumRight(Subtotals(tasks, r))
  {
    SumLeftIsSumRight(Subtotals(tasks, r));
    SumLeft(Subtotals(tasks, r))
  }

  /** The grand total is 0 for no services, the sum of the subtotals of the
      services in any split of the list, and the sum of the subtotals in the
      reference order. */
  lemma GrandTotalIsSumOfSubtotals(a: seq<Task>, b: seq<Task>, r: Rates)
    ensures GrandTotal([], r) == 0.0
    ensures GrandTotal(a + b, r) == GrandTotal(a, r) + GrandTotal(b, r)
    ensures GrandTotal(a, r) == SumRight(Subtotals(a, r))
  {
    assert Subtotals(a + b, r) == Subtotals(a, r) + Subtotals(b, r);
    SumLeftAppend(Subtotals(a, r), Subtotals(b, r));
    SumLeftIsSumRight(Subtotals(a, r));
  }

  /** Every service's total is twice its subtotal, so adding up the totals
      would have given twice the grand total. */
  lemma SumOfTotalsIsTwiceGrandTotal(tasks: seq<Task>, r: Rates)
    ensures SumRight(Totals(tasks, r)) == 2.0 * GrandTotal(tasks, r)
  {
    SumLeftIsSumRight(Subtotals(tasks, r));
    SumRightDoubled(Subtotals(tasks, r), Totals(tasks, r));
  }

  /** Replacing one service changes the grand total by exactly the change in
      that service's subtotal. */
  lemma GrandTotalReplace(tasks: seq<Task>, i: int, x: Task, r: Rates)
    requires 0 <= i < |tasks|
    ensures GrandTotal(tasks[i := x], r)
         == GrandTotal(tasks, r) - Calculate(tasks[i], r).subtotal + Calculate(x, r).subtotal
  {
    assert Subtotals(tasks[i := x], r) == Subtotals(tasks, r)[i := Calculate(x, r).subtotal];
    SumLeftReplace(Subtotals(tasks, r), i, Calculate(x, r).subtotal);
  }

  /** The tax and profit rates do not affect the grand total. */
  lemma GrandTotalIgnoresMarkupRates(tasks: seq<Task>, r: Rates, r': Rates)
    requires r'.irsRate == r.irsRate
    ensures GrandTotal(tasks, r') == GrandTotal(tasks, r)
  {
    forall i | 0 <= i < |tasks|
      ensures Calculate(tasks[i], r').subtotal == Calculate(tasks[i], r).subtotal
    {
      MarkupRatesOnlyRedistribute(tasks[i], r, r');
    }
    assert Subtotals(tasks, r') == Subtotals(tasks, r);
  }

  /** Adds a service: a copy of the first service is appended, every
      existing service stays as it was, and the new one is expanded. */
  function AddTask(q: Quote): (q': Quote)
    requires |q.tasks| > 0
    ensures |q'.tasks| == |q.tasks| + 1
    ensures q'.tasks[..|q.tasks|] == q.tasks
    ensures q'.tasks[|q.tasks|] == q.tasks[0]
    ensures q'.activeIndex == |q'.tasks| - 1
    ensures q'.rates == q.rates
    ensures Valid(q')
  {
    var tasks := q.tasks + [q.tasks[0]];
    Quote(q.rates, tasks, |tasks| - 1)
  }

  /** Adding a service adds the first service's subtotal to the grand total. */
  lemma AddTaskGrandTotal(q: Quote)
    requires |q.tasks| > 0
    ensures GrandTotal(AddTask(q).tasks, q.rates)
         == GrandTotal(q.tasks, q.rates) + Calculate(q.tasks[0], q.rates).subtotal
  {
    GrandTotalIsSumOfSubtotals(q.tasks, [q.tasks[0]], q.rates);
    assert Subtotals([q.tasks[0]], q.rates) == [Calculate(q.tasks[0], q.rates).subtotal];
  }

  /** What an edit of one field of one service comes to: the edited quote, or
      no quote at all when the index names no service (the record to write
      into does not exist). */
  datatype UpdateOutcome = Updated(quote: Quote) | NoSuchTask

  /** Writes `v` into field `f` of service `index`. Only that field of that
      service changes; the list length, the other services, the rates and
      the expanded index stay as they were. */
  function UpdateTask(q: Quote, index: int, f: Field, v: Value): (res: UpdateOutcome)
    requires Fits(f, v)
    ensures res.NoSuchTask? <==> !(0 <= index < |q.tasks|)
    ensures res.Updated? ==>
      && |res.quote.tasks| == |q.tasks|
      && res.quote.rates == q.rates
      && res.quote.activeIndex == q.activeIndex
      && (forall j :: 0 <= j < |q.tasks| && j != index ==> res.quote.tasks[j] == q.tasks[j])
      && Get(res.quote.tasks[index], f) == v
      && (forall g :: g != f ==> Get(res.quote.tasks[index], g) == Get(q.tasks[index], g))
  {
    if 0 <= index < |q.tasks| then
      Updated(q.(tasks := q.tasks[index := Set(q.tasks[index], f, v)]))
    else
      NoSuchTask
  }

  /** Edits keep a valid quote valid. */
  lemma UpdateTaskPreservesValid(q: Quote, index: int, f: Field, v: Value)
    requires Valid(q) && Fits(f, v)
    ensures UpdateTask(q, index, f, v).Updated? ==> Valid(UpdateTask(q, index, f, v).quote)
  {
  }

  /** Writing back the value a field held before an edit restores the quote
      exactly. In particular, switching an inclusion flag off and on again
      brings back the raw amount it hid. */
  lemma UndoEdit(q: Quote, index: int, f: Field, v: Value)
    requires 0 <= index < |q.tasks| && Fits(f, v)
    ensures var edited := UpdateTask(q, index, f, v).quote;
      UpdateTask(edited, index, f, Get(q.tasks[index], f)) == Updated(q)
  {
    SetRestore(q.tasks[index], f, v);
    var t := q.tasks[index];
    assert q.tasks[index := Set(t, f, v)][index := Set(Set(t, f, v), f, Get(t, f))] == q.tasks;
  }

  /** An edit changes the grand total by exactly the change in the edited
      service's subtotal. */
  lemma UpdateTaskGrandTotal(q: Quote, index: int, f: Field, v: Value)
    requires 0 <= index < |q.tasks| && Fits(f, v)
    ensures var q' := UpdateTask(q, index, f, v).quote;
      GrandTotal(q'.tasks, q'.rates)
        == GrandTotal(q.tasks, q.rates)
           - Calculate(q.tasks[index], q.rates).subtotal
           + Calculate(q'.tasks[index], q.rates).subtotal
  {
    GrandTotalReplace(q.tasks, index, Set(q.tasks[index], f, v), q.rates);
  }

  /** Renaming a service or editing its notes leaves every price as it was. */
  lemma EditNameOrNotesKeepsPrices(q: Quote, index: int, f: Field, v: Value)
    requires 0 <= index < |q.tasks| && Fits(f, v) && (f == Name || f == Notes)
    ensures var q' := UpdateTask(q, index, f, v).quote;
      && Calculate(q'.tasks[index], q'.rates) == Calculate(q.tasks[index], q.rates)
      && GrandTotal(q'.tasks, q'.rates) == GrandTotal(q.tasks, q.rates)
  {
    var t := q.tasks[index];
    var x := Set(t, f, v);
    CalculateIgnoresNameAndNotes(t, x.name, x.notes, q.rates);
    assert x == t.(name := x.name, notes := x.notes);
    GrandTotalReplace(q.tasks, index, x, q.rates);
  }
}
