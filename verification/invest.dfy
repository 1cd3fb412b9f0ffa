/**
  The loan-investment profit simulator.

  A lump investment is spread over four loan levels by a fixed allocation
  table. When the investment differs from the table's total, every share is
  rescaled in place by `investment / total` and rounded to a whole amount.
  For each loan rule, in table order, the simulator then counts how many
  whole loans the level's capital funds, how many repayment cycles fit in
  the horizon (30-day months), the profit of one loan over one cycle, and the
  level's total profit, and appends one record. The grand total is the sum
  of the records' displayed (rounded) profits, rounded again to cents.

  Amounts, loan counts and months are integers; the decimal fractions and
  divisions of the source are exact reals.
 */
module Invest {
  import opened Rounding
  import opened Scaling

  /** One loan product: a unit amount, an interest rate per cycle, a cycle length. */
  datatype LoanRule = LoanRule(loanType: string, amount: int, interest: real, durationDays: int)

  /** One row of the results table, with the fields the source displays. */
  datatype ResultRecord = ResultRecord(
    loanType: string,
    capital: int,        // "Capital Allocated"
    numLoans: int,       // "# Loans"
    profitPerLoan: real, // "Profit per Loan per Cycle"
    cyclesTotal: real,   // "Cycles Total", rounded to cents
    totalProfit: real    // "Total Profit", rounded to cents
  )

  /** The fixed loan rules, in table order. */
  const Loans: seq<LoanRule> := [
    LoanRule("Level_1", 2000, 0.05, 7),
    LoanRule("Level_2", 5000, 0.05, 15),
    LoanRule("Level_3", 10000, 0.10, 30),
    LoanRule("Level_4", 15000, 0.15, 60)
  ]

  /** Every rule can be divided by: a positive unit amount and cycle length. */
  predicate ValidRules(rules: seq<LoanRule>)
  {
    forall i :: 0 <= i < |rules| ==> rules[i].amount > 0 && rules[i].durationDays > 0
  }

  /**
    The rule table can be divided by, its rates are non-negative, and its
    loan types are the allocation keys in the same order.
   */
  lemma LoansValid()
    ensures ValidRules(Loans)
    ensures |Loans| == 4
    ensures forall i :: 0 <= i < |Loans| ==> Loans[i].loanType == DefaultKeys[i]
    ensures forall i :: 0 <= i < |Loans| ==> Loans[i].interest >= 0.0
  {
  }

  // ---------------------------------------------------------------------
  // Per-record arithmetic
  // ---------------------------------------------------------------------

  /** `allocation.get(loan_type, 0)`. */
  function CapitalOf(allocation: map<string, int>, loanType: string): int
  {
    if loanType in allocation then allocation[loanType] else 0
  }

  /** `capital // Amount`: the number of whole loans the capital funds. */
  function NumLoans(capital: int, amount: int): (n: int)
    requires amount > 0
    ensures n * amount <= capital < (n + 1) * amount
    ensures capital >= 0 <==> n >= 0
  {
    capital / amount
  }

  /** `(months * 30) / Duration_days`: repayment cycles over the horizon. */
  function CyclesTotal(months: int, durationDays: int): (c: real)
    requires durationDays > 0
    ensures c * durationDays as real == (months * 30) as real
  {
    (months * 30) as real / durationDays as real
  }

  /** `Amount * Interest`: the profit of one loan over one cycle. */
  function ProfitPerLoan(rule: LoanRule): real
  {
    rule.amount as real * rule.interest
  }

  /** `num_loans * profit_per_loan * cycles_total`, before rounding. */
  function UnroundedProfit(rule: LoanRule, allocation: map<string, int>, months: int): real
    requires rule.amount > 0 && rule.durationDays > 0
  {
    NumLoans(CapitalOf(allocation, rule.loanType), rule.amount) as real
      * ProfitPerLoan(rule) * CyclesTotal(months, rule.durationDays)
  }

  /** The record the loop appends for one rule. */
  function RecordFor(rule: LoanRule, allocation: map<string, int>, months: int): ResultRecord
    requires rule.amount > 0 && rule.durationDays > 0
  {
    var capital := CapitalOf(allocation, rule.loanType);
    ResultRecord(rule.loanType, capital, NumLoans(capital, rule.amount), ProfitPerLoan(rule),
                 Round2(CyclesTotal(months, rule.durationDays)), Round2(UnroundedProfit(rule, allocation, months)))
  }

  /**
    What a record says: it carries its rule's loan type, the level's capital
    (zero when the level has no share), the number of whole loans that capital
    funds, the profit of one loan per cycle, and the cycles and total profit
    to the nearest cent.
   */
  lemma RecordMeaning(rule: LoanRule, allocation: map<string, int>, months: int)
    requires rule.amount > 0 && rule.durationDays > 0
    ensures var r := RecordFor(rule, allocation, months);
      && r.loanType == rule.loanType
      && r.capital == (if rule.loanType in allocation then allocation[rule.loanType] else 0)
      && r.numLoans * rule.amount <= r.capital < (r.numLoans + 1) * rule.amount
      && r.profitPerLoan == rule.amount as real * rule.interest
      && r.cyclesTotal * 100.0 == (r.cyclesTotal * 100.0).Floor as real
      && -0.005 <= (months * 30) as real / rule.durationDays as real - r.cyclesTotal <= 0.005
      && -0.005 <= r.numLoans as real * r.profitPerLoan * ((months * 30) as real / rule.durationDays as real)
                   - r.totalProfit <= 0.005
  {
    var capital := CapitalOf(allocation, rule.loanType);
    var n := NumLoans(capital, rule.amount);
    var c := CyclesTotal(months, rule.durationDays);
    assert c == (months * 30) as real / rule.durationDays as real;
    var exact := UnroundedProfit(rule, allocation, months);
    assert exact == n as real * ProfitPerLoan(rule) * c;
    var r := RecordFor(rule, allocation, months);
    assert r == ResultRecord(rule.loanType, capital, n, ProfitPerLoan(rule), Round2(c), Round2(exact));
  }

  // ---------------------------------------------------------------------
  // Profit loop and grand total
  // ---------------------------------------------------------------------

  /** Build `results` by appending one record per rule, in rule order. */
  method ProjectProfits(rules: seq<LoanRule>, allocation: map<string, int>, months: int)
    returns (results: seq<ResultRecord>)
    requires ValidRules(rules)
    ensures |results| == |rules|
    ensures forall i :: 0 <= i < |rules| ==> results[i] == RecordFor(rules[i], allocation, months)
  {
    results := [];
    for i := 0 to |rules|
      invariant |results| == i
      invariant forall j :: 0 <= j < i ==> results[j] == RecordFor(rules[j], allocation, months)
    {
      var loan := rules[i];
      var capital := CapitalOf(allocation, loan.loanType);
      var numLoans := NumLoans(capital, loan.amount);
      var cyclesTotal := CyclesTotal(months, loan.durationDays);
      var profitPerLoan := ProfitPerLoan(loan);
      var totalProfit := numLoans as real * profitPerLoan * cyclesTotal;
      assert totalProfit == UnroundedProfit(loan, allocation, months);
      var record := ResultRecord(loan.loanType, capital, numLoans, profitPerLoan,
                                 Round2(cyclesTotal), Round2(totalProfit));
      assert record == RecordFor(loan, allocation, months);
      results := results + [record];
    }
  }

  /** `df["Total Profit"].sum()`: the sum of the displayed, rounded profits. */
  function SumDisplayed(results: seq<ResultRecord>): real
  {
    if results == [] then 0.0 else results[0].totalProfit + SumDisplayed(results[1..])
  }

  /** The sum of the unrounded profits of a rule table. */
  function SumUnrounded(rules: seq<LoanRule>, allocation: map<string, int>, months: int): real
    requires ValidRules(rules)
  {
    if rules == [] then 0.0
    else UnroundedProfit(rules[0], allocation, months) + SumUnrounded(rules[1..], allocation, months)
  }

  /** `round(total_profit_all, 2)`. */
  function GrandTotal(results: seq<ResultRecord>): real
  {
    Round2(SumDisplayed(results))
  }

  /** The records the loop produces, as a value. */
  function Records(rules: seq<LoanRule>, allocation: map<string, int>, months: int): (rs: seq<ResultRecord>)
    requires ValidRules(rules)
    ensures |rs| == |rules|
  {
    if rules == [] then []
    else [RecordFor(rules[0], allocation, months)] + Records(rules[1..], allocation, months)
  }

  /** Entry `i` of the record list is the record for rule `i`. */
  lemma {:induction false} RecordsAt(rules: seq<LoanRule>, allocation: map<string, int>, months: int, i: int)
    requires ValidRules(rules) && 0 <= i < |rules|
    ensures Records(rules, allocation, months)[i] == RecordFor(rules[i], allocation, months)
  {
    if i > 0 {
      RecordsAt(rules[1..], allocation, months, i - 1);
    }
  }

  /** Any list equal record by record to the loop's output is that output. */
  lemma {:induction false} RecordsUnique(rules: seq<LoanRule>, allocation: map<string, int>, months: int, results: seq<ResultRecord>)
    requires ValidRules(rules)
    requires |results| == |rules|
    requires forall i :: 0 <= i < |rules| ==> results[i] == RecordFor(rules[i], allocation, months)
    ensures results == Records(rules, allocation, months)
  {
    forall i | 0 <= i < |rules|
      ensures results[i] == Records(rules, allocation, months)[i]
    {
      RecordsAt(rules, allocation, months, i);
    }
  }

  /**
    Summing the rounded profits strays from the sum of the unrounded ones by
    at most half a cent per record.
   */
  lemma {:induction false} DisplayedSumError(rules: seq<LoanRule>, allocation: map<string, int>, months: int)
    requires ValidRules(rules)
    ensures -(|rules| as real) * 0.005
            <= SumUnrounded(rules, allocation, months) - SumDisplayed(Records(rules, allocation, months))
            <= |rules| as real * 0.005
  {
    if rules != [] {
      var rs := Records(rules, allocation, months);
      assert rs[1..] == Records(rules[1..], allocation, months);
      DisplayedSumError(rules[1..], allocation, months);
    }
  }

  /**
    The grand total the source shows lies within half a cent per record, plus
    the final rounding, of the exact sum of the unrounded profits.
   */
  lemma {:induction false} GrandTotalError(rules: seq<LoanRule>, allocation: map<string, int>, months: int)
    requires ValidRules(rules)
    ensures -(|rules| + 1) as real * 0.005
            <= SumUnrounded(rules, allocation, months) - GrandTotal(Records(rules, allocation, months))
            <= (|rules| + 1) as real * 0.005
  {
    DisplayedSumError(rules, allocation, months);
  }

  /** With a zero horizon there are no cycles, so every profit and the grand total are zero. */
  lemma {:induction false} ZeroHorizon(rules: seq<LoanRule>, allocation: map<string, int>)
    requires ValidRules(rules)
    ensures forall i :: 0 <= i < |rules| ==>
      Records(rules, allocation, 0)[i].cyclesTotal == 0.0 && Records(rules, allocation, 0)[i].totalProfit == 0.0
    ensures SumDisplayed(Records(rules, allocation, 0)) == 0.0
    ensures GrandTotal(Records(rules, allocation, 0)) == 0.0
  {
    RoundOfInteger(0);
    if rules != [] {
      var rs := Records(rules, allocation, 0);
      assert rs[1..] == Records(rules[1..], allocation, 0);
      ZeroHorizon(rules[1..], allocation);
      forall i | 0 <= i < |rules|
        ensures rs[i].cyclesTotal == 0.0 && rs[i].totalProfit == 0.0
      {
        if i > 0 {
          assert rs[i] == Records(rules[1..], allocation, 0)[i - 1];
        }
      }
    }
  }

  /** Cycles and unrounded profit grow linearly with the horizon. */
  lemma HorizonLinear(rule: LoanRule, allocation: map<string, int>, months: int, factor: int)
    requires rule.amount > 0 && rule.durationDays > 0
    ensures CyclesTotal(factor * months, rule.durationDays) == factor as real * CyclesTotal(months, rule.durationDays)
    ensures UnroundedProfit(rule, allocation, factor * months) == factor as real * UnroundedProfit(rule, allocation, months)
  {
    var d := rule.durationDays as real;
    assert ((factor * months) * 30) as real == factor as real * (months * 30) as real;
    var c1 := CyclesTotal(months, rule.durationDays);
    var c2 := CyclesTotal(factor * months, rule.durationDays);
    assert c2 * d == factor as real * c1 * d;
    var n := NumLoans(CapitalOf(allocation, rule.loanType), rule.amount) as real;
    var p := ProfitPerLoan(rule);
    assert n * p * c2 == factor as real * (n * p * c1);
  }

  /**
    The displayed, cent-rounded cycles are not linear in the horizon: one
    month of 7-day cycles shows 4.29, two months show 8.57 rather than 8.58.
   */
  lemma DisplayedCyclesNotLinear()
    ensures Round2(CyclesTotal(1, 7)) == 4.29
    ensures Round2(CyclesTotal(2, 7)) == 8.57
    ensures Round2(CyclesTotal(2, 7)) != 2.0 * Round2(CyclesTotal(1, 7))
  {
    RoundNearestUnique(30.0 / 7.0 * 100.0, 429);
    RoundNearestUnique(60.0 / 7.0 * 100.0, 857);
  }

  /** The profit of one loan per cycle depends on neither the investment nor the horizon. */
  lemma ProfitPerLoanIndependent(rule: LoanRule, a1: map<string, int>, m1: int, a2: map<string, int>, m2: int)
    requires rule.amount > 0 && rule.durationDays > 0
    ensures RecordFor(rule, a1, m1).profitPerLoan == RecordFor(rule, a2, m2).profitPerLoan
  {
  }

  /** Non-negative capital, interest and horizon give a non-negative profit, before and after rounding. */
  lemma ProfitNonNegative(rule: LoanRule, allocation: map<string, int>, months: int)
    requires rule.amount > 0 && rule.durationDays > 0 && rule.interest >= 0.0
    requires CapitalOf(allocation, rule.loanType) >= 0 && months >= 0
    ensures UnroundedProfit(rule, allocation, months) >= 0.0
    ensures RecordFor(rule, allocation, months).totalProfit >= 0.0
    ensures RecordFor(rule, allocation, months).numLoans >= 0
  {
    var n := NumLoans(CapitalOf(allocation, rule.loanType), rule.amount) as real;
    var p := ProfitPerLoan(rule);
    var c := CyclesTotal(months, rule.durationDays);
    assert n >= 0.0 && p >= 0.0 && c >= 0.0;
    assert n * p >= 0.0;
    assert n * p * c >= 0.0;
    Round2NonNegative(UnroundedProfit(rule, allocation, months));
  }

  // ---------------------------------------------------------------------
  // The whole simulation
  // ---------------------------------------------------------------------

  /** Scale the default table, run the profit loop over the loan rules, and total it. */
  method Simulate(totalInvestment: int, months: int) returns (results: seq<ResultRecord>, grandTotal: real)
    ensures results == Records(Loans, AllocationFor(totalInvestment), months)
    ensures grandTotal == GrandTotal(results)
  {
    LoansValid();
    DefaultTotal();
    var allocation := new Allocation.Default();
    allocation.ScaleTo(totalInvestment);
    results := ProjectProfits(Loans, allocation.shares, months);
    RecordsUnique(Loans, allocation.shares, months, results);
    grandTotal := GrandTotal(results);
  }

  /**
    The simulation yields one record per loan rule, in rule order, carrying
    that rule's loan type; its capital is the unscaled default share when the
    investment equals the table total and the rescaled share otherwise.
   */
  lemma SimulationShape(totalInvestment: int, months: int)
    ensures |Records(Loans, AllocationFor(totalInvestment), months)| == |Loans|
    ensures forall i :: 0 <= i < |Loans| ==>
      Records(Loans, AllocationFor(totalInvestment), months)[i].loanType == Loans[i].loanType
    ensures forall i :: 0 <= i < |Loans| ==>
      Records(Loans, AllocationFor(totalInvestment), months)[i].capital ==
        if totalInvestment == 150000 then DefaultShares[DefaultKeys[i]]
        else Scaled(DefaultShares[DefaultKeys[i]], ScaleFactor(totalInvestment, 150000))
  {
    LoansValid();
    DefaultTotal();
    var a := AllocationFor(totalInvestment);
    var rs := Records(Loans, a, months);
    forall i | 0 <= i < |Loans|
      ensures rs[i].loanType == Loans[i].loanType
      ensures rs[i].capital ==
        if totalInvestment == 150000 then DefaultShares[DefaultKeys[i]]
        else Scaled(DefaultShares[DefaultKeys[i]], ScaleFactor(totalInvestment, 150000))
    {
      RecordsAt(Loans, a, months, i);
      var k := DefaultKeys[i];
      assert k in DefaultShares;
      assert rs[i].capital == a[k];
      if totalInvestment != 150000 {
        assert a == ScaledShares(DefaultShares, ScaleFactor(totalInvestment, 150000));
      } else {
        assert a == DefaultShares;
      }
    }
  }

  /** The default run: 150000 over two months, first level. */
  lemma DefaultScenario()
    ensures RecordFor(Loans[0], AllocationFor(150000), 2)
            == ResultRecord("Level_1", 30000, 15, 100.0, 8.57, 12857.14)
  {
    DefaultTotal();
    RoundNearestUnique(60.0 / 7.0 * 100.0, 857);
    RoundNearestUnique(90000.0 / 7.0 * 100.0, 1285714);
  }

  /** Half the default investment halves every share exactly. */
  lemma HalfInvestmentScenario()
    ensures AllocationFor(75000) ==
      map["Level_1" := 15000, "Level_2" := 20000, "Level_3" := 20000, "Level_4" := 20000]
  {
    DefaultTotal();
    RoundOfInteger(15000);
    RoundOfInteger(20000);
    assert 30000.0 * (75000.0 / 150000.0) == 15000 as real;
    assert 40000.0 * (75000.0 / 150000.0) == 20000 as real;
  }
}
