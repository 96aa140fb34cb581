/** The arithmetic behind the retirement drawdown calculator
    (src/retirement/index.tsx): a year-by-year schedule of a fund that pays out
    an inflation-indexed withdrawal and grows at a fixed rate, the search for the
    largest withdrawal (in steps of 500) the fund can sustain to the end age, and
    the inclusive integer range used for the chart's labels.

    Money is `real` (exact); ages and step counts are `int`. */
module Retirement {
  import opened Wrappers

  /** One row of the schedule: the year in which the person is `age`. */
  datatype Row = Row(
    age: int,
    capital: real,     // balance at the start of the year
    withdraw: real,    // amount taken out during the year
    balance: real,     // what is left after the withdrawal
    growth: real,      // return earned on that balance
    eoyBalance: real,  // balance at the end of the year
    gross: real)       // change of the fund over the year

  /** The options of `calculate`; `superBalance` is accepted and never read. */
  datatype CalculateOptions = CalculateOptions(
    fundSize: real,
    growth: real,
    superBalance: real,
    inflation: real,
    withdraw: real,
    startingAge: int,
    endAge: int)

  /** The row pushed in place of a year whose end balance would be negative. */
  function ZeroRow(age: int): Row {
    Row(age, 0.0, 0.0, 0.0, 0.0, 0.0, 0.0)
  }

  predicate IsZeroed(r: Row) {
    r == ZeroRow(r.age)
  }

  /** The four derived fields of a row agree with its capital and withdrawal. */
  predicate Balanced(r: Row, growthRate: real) {
    && r.balance == r.capital - r.withdraw
    && r.growth == r.balance * growthRate / 100.0
    && r.eoyBalance == r.balance + r.growth
    && r.gross == r.eoyBalance - r.capital
  }

  /** The end-of-year balance computed before the row is kept or zeroed. */
  function EndOfYear(capital: real, withdraw: real, growthRate: real): real {
    (capital - withdraw) + (capital - withdraw) * growthRate / 100.0
  }

  /** The row for one year, given the capital and withdrawal it opens with. */
  function YearRow(age: int, capital: real, withdraw: real, growthRate: real): (r: Row)
    ensures r.age == age && r.eoyBalance >= 0.0 && Balanced(r, growthRate)
    ensures EndOfYear(capital, withdraw, growthRate) >= 0.0 ==> r.capital == capital && r.withdraw == withdraw
    ensures EndOfYear(capital, withdraw, growthRate) < 0.0 ==> IsZeroed(r)
  {
    var balance := capital - withdraw;
    var growth := balance * growthRate / 100.0;
    var eoyBalance := balance + growth;
    if eoyBalance >= 0.0 then Row(age, capital, withdraw, balance, growth, eoyBalance, eoyBalance - capital)
    else ZeroRow(age)
  }

  /** Last year's withdrawal raised by the inflation percentage. */
  function NextWithdraw(withdraw: real, inflation: real): real {
    withdraw + withdraw * inflation / 100.0
  }

  /** The row for `age` given the previous row, if any: the first year opens with
      the fund size and the requested withdrawal, every later year with the
      previous end balance and the previous withdrawal indexed by inflation. */
  function RowAfter(o: CalculateOptions, last: Option<Row>, age: int): Row {
    match last
    case None => YearRow(age, o.fundSize, o.withdraw, o.growth)
    case Some(l) => YearRow(age, l.eoyBalance, NextWithdraw(l.withdraw, o.inflation), o.growth)
  }

  /** Number of years from the starting age to the end age, both included. */
  function Years(o: CalculateOptions): nat {
    if o.startingAge <= o.endAge then o.endAge - o.startingAge + 1 else 0
  }

  /** `rows` are the first |rows| years of the schedule: the first row opens
      the schedule and every row follows from the one before it. */
  ghost predicate IsSchedulePrefix(o: CalculateOptions, rows: seq<Row>) {
    && (|rows| > 0 ==> rows[0] == RowAfter(o, None, o.startingAge))
    && forall i, j {:trigger rows[i], rows[j]} :: 0 <= i < j < |rows| && j == i + 1 ==>
         rows[j] == RowAfter(o, Some(rows[i]), o.startingAge + j)
  }

  /** `rows` are the whole schedule: one row per age from start to end. */
  ghost predicate IsSchedule(o: CalculateOptions, rows: seq<Row>) {
    |rows| == Years(o) && IsSchedulePrefix(o, rows)
  }

  /** A schedule prefix extended by the row that follows its last one. */
  lemma SchedulePrefixExtends(o: CalculateOptions, rows: seq<Row>, next: Row)
    requires IsSchedulePrefix(o, rows)
    requires next == RowAfter(o, if rows == [] then None else Some(rows[|rows| - 1]), o.startingAge + |rows|)
    ensures IsSchedulePrefix(o, rows + [next])
  {
    var longer := rows + [next];
    forall i, j | 0 <= i < j < |longer| && j == i + 1
      ensures longer[j] == RowAfter(o, Some(longer[i]), o.startingAge + j)
    {
      if j < |rows| {
        assert longer[i] == rows[i] && longer[j] == rows[j];
      }
    }
  }

  function ScheduleFirst(o: CalculateOptions, n: nat): (rows: seq<Row>)
    ensures |rows| == n && IsSchedulePrefix(o, rows)
  {
    if n == 0 then []
    else
      var earlier := ScheduleFirst(o, n - 1);
      var next := RowAfter(o, if n == 1 then None else Some(earlier[n - 2]), o.startingAge + n - 1);
      SchedulePrefixExtends(o, earlier, next);
      earlier + [next]
  }

  /** The schedule `calculate` returns, as a function of its options. */
  function Schedule(o: CalculateOptions): (rows: seq<Row>)
    ensures IsSchedule(o, rows)
  {
    ScheduleFirst(o, Years(o))
  }

  /** Two prefixes of the schedule agree at every position they share. */
  lemma {:induction false} SchedulePrefixesAgree(o: CalculateOptions, a: seq<Row>, b: seq<Row>, k: nat)
    requires IsSchedulePrefix(o, a) && IsSchedulePrefix(o, b) && k < |a| && k < |b|
    ensures a[k] == b[k]
  {
    if k > 0 {
      SchedulePrefixesAgree(o, a, b, k - 1);
      assert a[k] == RowAfter(o, Some(a[k - 1]), o.startingAge + k);
      assert b[k] == RowAfter(o, Some(b[k - 1]), o.startingAge + k);
    }
  }

  /** The options determine the schedule: two prefixes of equal length are equal. */
  lemma ScheduleIsUnique(o: CalculateOptions, a: seq<Row>, b: seq<Row>)
    requires IsSchedulePrefix(o, a) && IsSchedulePrefix(o, b) && |a| == |b|
    ensures a == b
  {
    forall k | 0 <= k < |a| ensures a[k] == b[k] {
      SchedulePrefixesAgree(o, a, b, k);
    }
  }

  /** Every row of a schedule starts at the right age, never ends the year
      below zero, and has its derived fields consistent with capital and
      withdrawal (zeroed rows included). */
  lemma ScheduleRowsAreSound(o: CalculateOptions, rows: seq<Row>, k: nat)
    requires IsSchedulePrefix(o, rows) && k < |rows|
    ensures rows[k].age == o.startingAge + k
    ensures rows[k].eoyBalance >= 0.0
    ensures Balanced(rows[k], o.growth)
  {
    if k > 0 {
      assert rows[k] == RowAfter(o, Some(rows[k - 1]), o.startingAge + k);
    }
  }

  /** The row recurrence: a kept row opens with the fund size and requested
      withdrawal in the first year and with last year's end balance and indexed
      withdrawal afterwards; a row whose balance would go negative is zeroed. */
  lemma ScheduleRecurrence(o: CalculateOptions, rows: seq<Row>, k: nat)
    requires IsSchedulePrefix(o, rows) && k < |rows|
    ensures k == 0 && EndOfYear(o.fundSize, o.withdraw, o.growth) >= 0.0 ==>
      rows[0].capital == o.fundSize && rows[0].withdraw == o.withdraw
    ensures k > 0 && EndOfYear(rows[k - 1].eoyBalance, NextWithdraw(rows[k - 1].withdraw, o.inflation), o.growth) >= 0.0 ==>
      rows[k].capital == rows[k - 1].eoyBalance && rows[k].withdraw == NextWithdraw(rows[k - 1].withdraw, o.inflation)
    ensures k == 0 && EndOfYear(o.fundSize, o.withdraw, o.growth) < 0.0 ==> rows[0] == ZeroRow(o.startingAge)
    ensures k > 0 && EndOfYear(rows[k - 1].eoyBalance, NextWithdraw(rows[k - 1].withdraw, o.inflation), o.growth) < 0.0 ==>
      rows[k] == ZeroRow(o.startingAge + k)
  {
    if k > 0 {
      assert rows[k] == RowAfter(o, Some(rows[k - 1]), o.startingAge + k);
    }
  }

  /** Once a zeroed row appears, every later row is zeroed as well: capital 0 and
      withdrawal 0 reproduce zeros. */
  lemma {:induction false} ZeroRowIsAbsorbing(o: CalculateOptions, rows: seq<Row>, k: nat, j: nat)
    requires IsSchedulePrefix(o, rows)
    requires k <= j < |rows| && IsZeroed(rows[k])
    ensures rows[j] == ZeroRow(o.startingAge + j)
    decreases j
  {
    ScheduleRowsAreSound(o, rows, j);
    if j > k {
      ZeroRowIsAbsorbing(o, rows, k, j - 1);
      assert NextWithdraw(0.0, o.inflation) == 0.0;
      assert EndOfYear(0.0, 0.0, o.growth) == 0.0;
    }
  }

  /** The body of the loop at index.tsx:246-280: the row for `age` assembled
      field by field from the previous row (or the options in the first year),
      then replaced by a zeroed row if its end balance is negative. */
  method NextRow(o: CalculateOptions, last: Option<Row>, age: int) returns (row: Row)
    ensures row == RowAfter(o, last, age)
  {
    row := Row(
      age,
      if last.Some? then last.value.eoyBalance else o.fundSize,
      if last.Some? then last.value.withdraw + last.value.withdraw * o.inflation / 100.0 else o.withdraw,
      0.0, 0.0, 0.0, 0.0);
    row := row.(balance := row.capital - row.withdraw);
    row := row.(growth := row.balance * o.growth / 100.0);
    row := row.(eoyBalance := row.balance + row.growth);
    row := row.(gross := row.eoyBalance - row.capital);
    ghost var capital := if last.Some? then last.value.eoyBalance else o.fundSize;
    ghost var withdraw := if last.Some? then NextWithdraw(last.value.withdraw, o.inflation) else o.withdraw;
    assert RowAfter(o, last, age) == YearRow(age, capital, withdraw, o.growth);
    if row.eoyBalance < 0.0 {
      row := ZeroRow(age);
    }
  }

  /** `calculate`: one row per age from `startingAge` to `endAge`. */
  method Calculate(o: CalculateOptions) returns (rows: seq<Row>)
    ensures IsSchedule(o, rows) && rows == Schedule(o)
    ensures o.startingAge <= o.endAge ==> |rows| == o.endAge - o.startingAge + 1
    ensures o.startingAge > o.endAge ==> rows == []
    ensures forall k :: 0 <= k < |rows| ==> rows[k].age == o.startingAge + k && rows[k].eoyBalance >= 0.0
  {
    rows := [];
    var i := o.startingAge;
    while i <= o.endAge
      invariant o.startingAge <= i && (i <= o.endAge + 1 || i == o.startingAge)
      invariant |rows| == i - o.startingAge
      invariant IsSchedulePrefix(o, rows)
    {
      var yearsSinceStart := i - o.startingAge;
      var last := if yearsSinceStart - 1 >= 0 then Some(rows[yearsSinceStart - 1]) else None;
      var row := NextRow(o, last, i);
      SchedulePrefixExtends(o, rows, row);
      rows := rows + [row];
      i := i + 1;
    }
    ScheduleIsUnique(o, rows, Schedule(o));
    forall k | 0 <= k < |rows| ensures rows[k].age == o.startingAge + k && rows[k].eoyBalance >= 0.0 {
      ScheduleRowsAreSound(o, rows, k);
    }
  }

  /** The step between two candidate withdrawals, and the loop's circuit breaker. */
  const StepSize: real := 500.0
  const CircuitBreaker: nat := 4_000_000

  /** What `calculate` throws on when it returns no rows: `rows[rows.length - 1]`
      is undefined and reading its `eoyBalance` is a TypeError. */
  const UndefinedLastRow: string := "TypeError: rows[rows.length - 1] is undefined"

  /** The options of `calculateEndBalance`: those of `calculate` without
      `withdraw`, plus an `endBalance` that is destructured and never read. */
  datatype EndBalanceOptions = EndBalanceOptions(
    endBalance: real,
    fundSize: real,
    growth: real,
    superBalance: real,
    inflation: real,
    startingAge: int,
    endAge: int)

  function WithWithdraw(o: EndBalanceOptions, withdraw: real): CalculateOptions {
    CalculateOptions(o.fundSize, o.growth, o.superBalance, o.inflation, withdraw, o.startingAge, o.endAge)
  }

  /** The withdrawal tried at step `r`. */
  function StepWithdraw(r: nat): real {
    StepSize * r as real
  }

  /** The last row's end balance when the yearly withdrawal is that of step `r`. */
  function FinalBalance(o: EndBalanceOptions, r: nat): real
    requires o.startingAge <= o.endAge
  {
    var rows := Schedule(WithWithdraw(o, StepWithdraw(r)));
    rows[|rows| - 1].eoyBalance
  }

  /** The first step at or after `from` whose final balance is not positive, or
      the circuit breaker when every step up to it keeps the fund positive. */
  function FirstExhaustingStep(o: EndBalanceOptions, from: nat): (r: nat)
    requires o.startingAge <= o.endAge && from <= CircuitBreaker
    ensures from <= r <= CircuitBreaker
    ensures forall j :: from <= j < r ==> FinalBalance(o, j) > 0.0
    ensures r < CircuitBreaker ==> FinalBalance(o, r) <= 0.0
    decreases CircuitBreaker - from
  {
    if from == CircuitBreaker || FinalBalance(o, from) <= 0.0 then from
    else FirstExhaustingStep(o, from + 1)
  }

  /** The first exhausting step is the only step with its defining property. */
  lemma FirstExhaustingStepIsUnique(o: EndBalanceOptions, r: nat)
    requires o.startingAge <= o.endAge && r <= CircuitBreaker
    requires forall j :: 0 <= j < r ==> FinalBalance(o, j) > 0.0
    requires r < CircuitBreaker ==> FinalBalance(o, r) <= 0.0
    ensures FirstExhaustingStep(o, 0) == r
  {
  }

  /** What `calculateEndBalance` returns: the schedule of the step before the
      first exhausting step, no rows if step 0 already exhausts the fund, and a
      TypeError when the age range is empty. */
  function EndBalanceResult(o: EndBalanceOptions): (res: Result<seq<Row>>)
    ensures res.Err? <==> o.startingAge > o.endAge
    ensures res.Ok? && res.value != [] ==> res.value[|res.value| - 1].eoyBalance > 0.0
    ensures res.Ok? && res.value != [] ==> |res.value| == o.endAge - o.startingAge + 1
    ensures res.Ok? ==> (res.value == [] <==> FinalBalance(o, 0) <= 0.0)
  {
    if o.startingAge > o.endAge then Err(UndefinedLastRow)
    else
      var r := FirstExhaustingStep(o, 0);
      if r == 0 then Ok([])
      else
        var rows := Schedule(WithWithdraw(o, StepWithdraw(r - 1)));
        assert rows[|rows| - 1].eoyBalance == FinalBalance(o, r - 1);
        Ok(rows)
  }

  /** The kept schedule is that of the largest sustainable step: when steps 0
      to `s` all end the final year above zero and step `s + 1` does not (or
      is the circuit breaker), the result is the schedule of step `s`. */
  lemma EndBalanceIsLastSustainableStep(o: EndBalanceOptions, s: nat)
    requires o.startingAge <= o.endAge && s < CircuitBreaker
    requires forall j :: 0 <= j <= s ==> FinalBalance(o, j) > 0.0
    requires s + 1 < CircuitBreaker ==> FinalBalance(o, s + 1) <= 0.0
    ensures EndBalanceResult(o) == Ok(Schedule(WithWithdraw(o, StepWithdraw(s))))
  {
    FirstExhaustingStepIsUnique(o, s + 1);
  }

  /** `endBalance` plays no part in the search. */
  lemma {:induction false} FirstExhaustingStepIgnoresTarget(o: EndBalanceOptions, target: real, from: nat)
    requires o.startingAge <= o.endAge && from <= CircuitBreaker
    ensures FirstExhaustingStep(o.(endBalance := target), from) == FirstExhaustingStep(o, from)
    decreases CircuitBreaker - from
  {
    if from < CircuitBreaker {
      assert WithWithdraw(o.(endBalance := target), StepWithdraw(from)) == WithWithdraw(o, StepWithdraw(from));
      if FinalBalance(o, from) > 0.0 {
        FirstExhaustingStepIgnoresTarget(o, target, from + 1);
      }
    }
  }

  lemma EndBalanceIgnoresTarget(o: EndBalanceOptions, target: real)
    ensures EndBalanceResult(o.(endBalance := target)) == EndBalanceResult(o)
  {
    if o.startingAge <= o.endAge {
      FirstExhaustingStepIgnoresTarget(o, target, 0);
      var r := FirstExhaustingStep(o, 0);
      if r > 0 {
        assert WithWithdraw(o.(endBalance := target), StepWithdraw(r - 1)) == WithWithdraw(o, StepWithdraw(r - 1));
      }
    }
  }

  /** A withdrawal that zeroes any year exhausts the fund by the final year. */
  lemma ZeroedYearExhausts(o: EndBalanceOptions, r: nat, k: nat)
    requires o.startingAge <= o.endAge
    requires k < |Schedule(WithWithdraw(o, StepWithdraw(r)))|
    requires IsZeroed(Schedule(WithWithdraw(o, StepWithdraw(r)))[k])
    ensures FinalBalance(o, r) <= 0.0
  {
    var rows := Schedule(WithWithdraw(o, StepWithdraw(r)));
    ZeroRowIsAbsorbing(WithWithdraw(o, StepWithdraw(r)), rows, k, |rows| - 1);
  }

  /** `calculateEndBalance`: tries withdrawals 0, 500, 1000, ... and keeps the
      last schedule whose final year still ends with a positive balance. */
  method CalculateEndBalance(o: EndBalanceOptions) returns (res: Result<seq<Row>>)
    ensures res == EndBalanceResult(o)
  {
    var current: seq<Row> := [];
    var r: nat := 0;
    while r < CircuitBreaker
      invariant r <= CircuitBreaker
      invariant r > 0 ==> o.startingAge <= o.endAge
      invariant r > 0 ==> forall j :: 0 <= j < r ==> FinalBalance(o, j) > 0.0
      invariant current == if r == 0 then [] else Schedule(WithWithdraw(o, StepWithdraw(r - 1)))
    {
      var rows := Calculate(WithWithdraw(o, StepWithdraw(r)));
      if |rows| == 0 {
        return Err(UndefinedLastRow);
      }
      if rows[|rows| - 1].eoyBalance <= 0.0 {
        FirstExhaustingStepIsUnique(o, r);
        return Ok(current);
      }
      current := rows;
      r := r + 1;
    }
    FirstExhaustingStepIsUnique(o, r);
    res := Ok(current);
  }

  /** `range`: the integers from `from` to `to`, both included; no numbers when
      either bound is missing. */
  method Range(from: Option<int>, to: Option<int>) returns (arr: seq<int>)
    ensures from.None? || to.None? ==> arr == []
    ensures from.Some? && to.Some? ==>
      |arr| == (if from.value <= to.value then to.value - from.value + 1 else 0)
    ensures from.Some? ==> forall k :: 0 <= k < |arr| ==> arr[k] == from.value + k
  {
    if from.None? { return []; }
    if to.None? { return []; }
    arr := [];
    var i := from.value;
    while i <= to.value
      invariant from.value <= i && (i <= to.value + 1 || i == from.value)
      invariant |arr| == i - from.value
      invariant forall k :: 0 <= k < |arr| ==> arr[k] == from.value + k
    {
      arr := arr + [i];
      i := i + 1;
    }
  }
}
