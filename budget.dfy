/** The budget dashboard's figures: the jackpot converted to rand, its split
    over four spending categories by percentage, and the tax on the interest
    the fixed-deposit share earns, taxed at the rate of the single bracket
    the annual interest falls in. */
module Budget {
  import opened Common
  import opened JsText

  /** Rand per euro used while no live rate has been loaded. */
  const FallbackRate: real := 20.71

  /** The percentage given to each category. */
  datatype Allocation = Allocation(
    investecFixedDeposit: real,
    houses: real,
    cars: real,
    otherExpenses: real)

  /** The split the dashboard starts from: 60 / 25 / 10 / 5. */
  const DefaultAllocation: Allocation := Allocation(60.0, 25.0, 10.0, 5.0)

  datatype Category = InvestecFixedDeposit | Houses | Cars | OtherExpenses

  function Share(a: Allocation, c: Category): real {
    match c
    case InvestecFixedDeposit => a.investecFixedDeposit
    case Houses => a.houses
    case Cars => a.cars
    case OtherExpenses => a.otherExpenses
  }

  /** The sum of the four percentages (the `reduce` over the values). */
  function TotalAllocation(a: Allocation): real {
    a.investecFixedDeposit + a.houses + a.cars + a.otherExpenses
  }

  // ---------------------------------------------------------------------
  // Amounts

  /** The jackpot in rand: the euro amount times the live rate when one is
      loaded, else times the fallback rate. */
  function JackpotZar(jackpotEur: real, liveRate: Option<real>): (zar: real)
    ensures jackpotEur == 0.0 ==> zar == 0.0
    ensures liveRate.None? && jackpotEur > 0.0 ==> zar > jackpotEur
  {
    match liveRate
    case Some(rate) => jackpotEur * rate
    case None => jackpotEur * FallbackRate
  }

  /** The rand amount a percentage of the jackpot stands for. */
  function Amount(jackpotZar: real, percent: real): real {
    jackpotZar * percent / 100.0
  }

  /** The four category amounts add up to the jackpot scaled by the total
      percentage; for a non-zero jackpot they add up to the whole jackpot
      exactly when the percentages total 100. */
  lemma AmountsSum(jackpotZar: real, a: Allocation)
    ensures Amount(jackpotZar, a.investecFixedDeposit) + Amount(jackpotZar, a.houses)
          + Amount(jackpotZar, a.cars) + Amount(jackpotZar, a.otherExpenses)
         == jackpotZar * TotalAllocation(a) / 100.0
    ensures jackpotZar != 0.0 ==>
      (Amount(jackpotZar, a.investecFixedDeposit) + Amount(jackpotZar, a.houses)
       + Amount(jackpotZar, a.cars) + Amount(jackpotZar, a.otherExpenses) == jackpotZar
       <==> TotalAllocation(a) == 100.0)
  {
    var s := Amount(jackpotZar, a.investecFixedDeposit) + Amount(jackpotZar, a.houses)
           + Amount(jackpotZar, a.cars) + Amount(jackpotZar, a.otherExpenses);
    assert s == jackpotZar * TotalAllocation(a) / 100.0;
    if jackpotZar != 0.0 && s == jackpotZar {
      assert jackpotZar * (TotalAllocation(a) - 100.0) == 0.0;
    }
  }

  // ---------------------------------------------------------------------
  // Allocation editing and the badge

  /** `handleAllocationChange`, once the typed text is parsed: the edited
      category takes the value; the other three keep theirs. */
  function SetShare(a: Allocation, c: Category, v: real): (b: Allocation)
    ensures Share(b, c) == v
    ensures forall d :: d != c ==> Share(b, d) == Share(a, d)
  {
    match c
    case InvestecFixedDeposit => a.(investecFixedDeposit := v)
    case Houses => a.(houses := v)
    case Cars => a.(cars := v)
    case OtherExpenses => a.(otherExpenses := v)
  }

  /** `handleAllocationChange`: the typed text, 0 when it does not parse. */
  function HandleAllocationChange(a: Allocation, c: Category, value: string): Allocation {
    SetShare(a, c, ParseFloatOrZero(value))
  }

  /** After an edit the total moves by exactly the change in the edited share. */
  lemma SetShareTotal(a: Allocation, c: Category, v: real)
    ensures TotalAllocation(SetShare(a, c, v)) == TotalAllocation(a) - Share(a, c) + v
  {
    var b := SetShare(a, c, v);
    match c
    case InvestecFixedDeposit =>
      assert b.houses == a.houses && b.cars == a.cars && b.otherExpenses == a.otherExpenses by {
        assert Share(b, Houses) == Share(a, Houses);
        assert Share(b, Cars) == Share(a, Cars);
        assert Share(b, OtherExpenses) == Share(a, OtherExpenses);
      }
    case Houses =>
      assert b.investecFixedDeposit == a.investecFixedDeposit && b.cars == a.cars && b.otherExpenses == a.otherExpenses by {
        assert Share(b, InvestecFixedDeposit) == Share(a, InvestecFixedDeposit);
        assert Share(b, Cars) == Share(a, Cars);
        assert Share(b, OtherExpenses) == Share(a, OtherExpenses);
      }
    case Cars =>
      assert b.investecFixedDeposit == a.investecFixedDeposit && b.houses == a.houses && b.otherExpenses == a.otherExpenses by {
        assert Share(b, InvestecFixedDeposit) == Share(a, InvestecFixedDeposit);
        assert Share(b, Houses) == Share(a, Houses);
        assert Share(b, OtherExpenses) == Share(a, OtherExpenses);
      }
    case OtherExpenses =>
      assert b.investecFixedDeposit == a.investecFixedDeposit && b.houses == a.houses && b.cars == a.cars by {
        assert Share(b, InvestecFixedDeposit) == Share(a, InvestecFixedDeposit);
        assert Share(b, Houses) == Share(a, Houses);
        assert Share(b, Cars) == Share(a, Cars);
      }
  }

  /** The badge's variant: "default" when the split is complete, otherwise
      "destructive". */
  function BadgeVariant(a: Allocation): (variant: string)
    ensures variant == "default" <==> TotalAllocation(a) == 100.0
    ensures variant == "destructive" <==> TotalAllocation(a) != 100.0
  {
    if TotalAllocation(a) == 100.0 then "default" else "destructive"
  }

  /** The starting split is complete. */
  lemma DefaultAllocationComplete()
    ensures TotalAllocation(DefaultAllocation) == 100.0
    ensures BadgeVariant(DefaultAllocation) == "default"
  {
  }

  // ---------------------------------------------------------------------
  // Tax on the interest

  datatype TaxCalculation = TaxCalculation(
    monthlyInterest: real,
    annualInterest: real,
    taxableAmount: real,
    taxOwed: real,
    netMonthlyIncome: real)

  /** The rate of the bracket the annual interest falls in; each bound is
      inclusive. */
  function TaxRate(annualInterest: real): (r: real)
    ensures 0.18 <= r <= 0.45
    ensures annualInterest <= 237100.0 <==> r == 0.18
    ensures annualInterest > 1817000.0 <==> r == 0.45
  {
    if annualInterest <= 237100.0 then 0.18
    else if annualInterest <= 370500.0 then 0.26
    else if annualInterest <= 512800.0 then 0.31
    else if annualInterest <= 673000.0 then 0.36
    else if annualInterest <= 857900.0 then 0.39
    else if annualInterest <= 1817000.0 then 0.41
    else 0.45
  }

  /** More interest is never taxed at a lower rate. */
  lemma TaxRateMonotone(x: real, y: real)
    requires x <= y
    ensures TaxRate(x) <= TaxRate(y)
  {
  }

  /** `calculateTax`: the interest the invested amount earns at the typed
      yearly rate, per month and per year, the whole year's interest taxed
      at its bracket's rate, and what is left per month. */
  function CalculateTax(investmentAmount: real, rate: real): (t: TaxCalculation)
    ensures t.annualInterest == investmentAmount * rate / 100.0
    ensures t.annualInterest == t.monthlyInterest * 12.0
    ensures t.taxableAmount == t.annualInterest
    ensures t.taxOwed == t.annualInterest * TaxRate(t.annualInterest)
    ensures t.netMonthlyIncome == t.monthlyInterest * (1.0 - TaxRate(t.annualInterest))
  {
    var monthlyInterest := investmentAmount * rate / 100.0 / 12.0;
    var annualInterest := monthlyInterest * 12.0;
    var taxRate := TaxRate(annualInterest);
    var taxOwed := annualInterest * taxRate;
    var netMonthlyIncome := monthlyInterest - taxOwed / 12.0;
    TaxCalculation(monthlyInterest, annualInterest, annualInterest, taxOwed, netMonthlyIncome)
  }

  /** For non-negative interest, between 55 and 82 per cent of the monthly
      interest is kept, and the tax never exceeds the interest. */
  lemma NetIncomeShare(investmentAmount: real, rate: real)
    requires investmentAmount >= 0.0 && rate >= 0.0
    ensures var t := CalculateTax(investmentAmount, rate);
      && 0.55 * t.monthlyInterest <= t.netMonthlyIncome <= 0.82 * t.monthlyInterest
      && 0.0 <= t.taxOwed <= t.annualInterest
  {
    var t := CalculateTax(investmentAmount, rate);
    assert t.monthlyInterest >= 0.0 by {
      assert t.annualInterest >= 0.0;
    }
    var r := TaxRate(t.annualInterest);
    assert t.netMonthlyIncome == t.monthlyInterest * (1.0 - r);
  }

  /** The whole interest is taxed at one rate, not bracket by bracket, so
      crossing any bracket bound costs more than it earns: annual interest up
      to 3 per cent above a bound keeps less each month than interest exactly
      at the bound (at a yearly rate of 100 per cent the invested amount is
      the annual interest). */
  lemma BracketCliff(b: real, y: real)
    requires b in {237100.0, 370500.0, 512800.0, 673000.0, 857900.0, 1817000.0}
    requires b < y < b * 1.03
    ensures CalculateTax(y, 100.0).netMonthlyIncome < CalculateTax(b, 100.0).netMonthlyIncome
  {
  }

  // ---------------------------------------------------------------------
  // The dashboard

  datatype Figures = Figures(
    jackpotZar: real,
    investmentAmount: real,
    housesAmount: real,
    carsAmount: real,
    otherAmount: real,
    tax: TaxCalculation,
    totalAllocation: real)

  /** The figures for a jackpot in rand and a yearly interest rate. */
  function Render(zar: real, rate: real, a: Allocation): (f: Figures)
    ensures f.jackpotZar == zar && f.totalAllocation == TotalAllocation(a)
    ensures f.investmentAmount == Amount(zar, a.investecFixedDeposit)
    ensures f.investmentAmount + f.housesAmount + f.carsAmount + f.otherAmount
         == zar * TotalAllocation(a) / 100.0
    ensures f.tax == CalculateTax(f.investmentAmount, rate)
  {
    var investment := Amount(zar, a.investecFixedDeposit);
    AmountsSum(zar, a);
    Figures(zar, investment, Amount(zar, a.houses), Amount(zar, a.cars), Amount(zar, a.otherExpenses),
            CalculateTax(investment, rate), TotalAllocation(a))
  }

  /** What the dashboard derives from its inputs on each render; the two
      typed amounts count as 0 when they do not parse. */
  function Dashboard(jackpotAmount: string, interestRate: string, a: Allocation, liveRate: Option<real>): Figures {
    Render(JackpotZar(ParseFloatOrZero(jackpotAmount), liveRate), ParseFloatOrZero(interestRate), a)
  }
}
