/** Prospective rental properties and the screening formulas evaluated
    against a household's financial status: affordability by down payment
    and by debt-to-income limit, the FHA self-sufficiency test, cash-on-cash
    return and break-even rent. */
module PropertyFinder {
  import opened CreditCards
  import opened Finance

  datatype Option<T> = None | Some(value: T)

  /** A property as its constructor leaves it. */
  datatype Property = Property(
    name: string,
    sellingPrice: real,
    currentRentPerUnit: real,
    appraisedRentPerUnit: real,
    numUnits: int)

  /** The finder only reads the household's status it was built with. */
  datatype PropertyFinder = PropertyFinder(financialStatus: FinancialStatus)

  /** Default arguments of the screening methods. */
  const DefaultDownPaymentPercent: real := 0.035
  const DefaultClosingCostPercent: real := 0.03
  const DefaultReserveMonths: real := 3.0
  const DefaultDtiLimit: real := 0.43
  const DefaultApr: real := 0.07
  const DefaultLoanTermYears: nat := 30
  const DefaultPitiEstimate: real := 0.0
  const DefaultMonthlyTaxesInsurance: real := 0.0
  const DefaultAnnualExpenses: real := 0.0

  /** The constructor. The appraised rent falls back to the current rent when
      it is not given, and also when it is given as 0, since the source picks
      it with `or` and 0 is false there. */
  function NewProperty(name: string, sellingPrice: real, currentRentPerUnit: real,
                       numUnits: int, appraisedRentPerUnit: Option<real>): (p: Property)
    ensures appraisedRentPerUnit.None? || appraisedRentPerUnit == Some(0.0) ==>
      p.appraisedRentPerUnit == currentRentPerUnit
    ensures appraisedRentPerUnit.Some? && appraisedRentPerUnit.value != 0.0 ==>
      p.appraisedRentPerUnit == appraisedRentPerUnit.value
    ensures p.name == name && p.sellingPrice == sellingPrice
    ensures p.currentRentPerUnit == currentRentPerUnit && p.numUnits == numUnits
  {
    var appraised :=
      match appraisedRentPerUnit
      case Some(v) => if v != 0.0 then v else currentRentPerUnit
      case None => currentRentPerUnit;
    Property(name, sellingPrice, currentRentPerUnit, appraised, numUnits)
  }

  // ---- affordability from liquid cash ----

  /** Price whose down payment and closing costs, on top of a reserve of
      `reserveMonths` PITI payments, use up the household's liquid cash.
      Returns 0 when down payment, closing costs and reserve together are
      not positive. The source divides by down payment plus closing costs
      without checking that sum, so a zero sum with a positive reserve
      raises there; those arguments are excluded here. */
  function EstimatePriceByDownPayment(f: PropertyFinder, downPaymentPercent: real,
                                      closingCostPercent: real, reserveMonths: real,
                                      pitiEstimate: real): (r: real)
    requires (downPaymentPercent + closingCostPercent) * 1.0 + pitiEstimate * reserveMonths <= 0.0
          || downPaymentPercent + closingCostPercent != 0.0
    ensures r >= 0.0
    ensures (downPaymentPercent + closingCostPercent) * 1.0 + pitiEstimate * reserveMonths <= 0.0 ==> r == 0.0
    ensures r > 0.0 ==>
      r * (downPaymentPercent + closingCostPercent) + pitiEstimate * reserveMonths
        == TotalLiquidAccounts(f.financialStatus)
    ensures (downPaymentPercent + closingCostPercent > 0.0
             && (downPaymentPercent + closingCostPercent) * 1.0 + pitiEstimate * reserveMonths > 0.0) ==>
      (r > 0.0 <==> TotalLiquidAccounts(f.financialStatus) > pitiEstimate * reserveMonths)
    ensures (downPaymentPercent + closingCostPercent < 0.0
             && (downPaymentPercent + closingCostPercent) * 1.0 + pitiEstimate * reserveMonths > 0.0) ==>
      (r > 0.0 <==> TotalLiquidAccounts(f.financialStatus) < pitiEstimate * reserveMonths)
  {
    var liquidCash := TotalLiquidAccounts(f.financialStatus);
    var reserveRequirement := pitiEstimate * reserveMonths;
    var totalUpfrontNeeded := (downPaymentPercent + closingCostPercent) * 1.0 + reserveRequirement;
    if totalUpfrontNeeded <= 0.0 then 0.0
    else
      var divisor := downPaymentPercent + closingCostPercent;
      var estPrice := (liquidCash - reserveRequirement) / divisor;
      assert estPrice * divisor == liquidCash - reserveRequirement;
      assert divisor > 0.0 ==> (estPrice > 0.0 <==> liquidCash - reserveRequirement > 0.0);
      assert divisor < 0.0 ==> (estPrice > 0.0 <==> liquidCash - reserveRequirement < 0.0);
      Max(estPrice, 0.0)
  }

  // ---- affordability from a debt-to-income limit ----

  /** `base` raised to a natural power: 1 for the empty product, and positive
      for a positive base. */
  function Pow(base: real, n: nat): (r: real)
    ensures n == 0 ==> r == 1.0
    ensures base > 0.0 ==> r > 0.0
  {
    if n == 0 then 1.0 else base * Pow(base, n - 1)
  }

  lemma {:induction false} PowNonZero(base: real, n: nat)
    requires base != 0.0 || n == 0
    ensures Pow(base, n) != 0.0
  {
    if n > 0 {
      PowNonZero(base, n - 1);
    }
  }

  lemma {:induction false} PowAtLeastOne(base: real, n: nat)
    requires base >= 1.0
    ensures Pow(base, n) >= 1.0
  {
    if n > 0 {
      PowAtLeastOne(base, n - 1);
      assert base * Pow(base, n - 1) >= Pow(base, n - 1);
    }
  }

  lemma {:induction false} PowAboveOne(base: real, n: nat)
    requires base > 1.0 && n >= 1
    ensures Pow(base, n) > 1.0
  {
    PowAtLeastOne(base, n - 1);
    assert base * Pow(base, n - 1) > Pow(base, n - 1);
  }

  /** The inductive step of Bernoulli's inequality in plain numbers: with
      p = (1 + r)^k >= 1 and p * (1 - k*r) <= 1, one more factor keeps the
      bound. */
  lemma BernoulliStep(rate: real, p: real, k: real)
    requires rate >= 0.0 && p >= 1.0 && p * (1.0 - k * rate) <= 1.0
    ensures (1.0 + rate) * p * (1.0 - (k + 1.0) * rate) <= 1.0
  {
    calc {
      (1.0 + rate) * p * (1.0 - (k + 1.0) * rate);
      (1.0 + rate) * (p * (1.0 - k * rate)) - rate * (1.0 + rate) * p;
    <= { assert (1.0 + rate) * (p * (1.0 - k * rate)) <= (1.0 + rate) * 1.0; }
      (1.0 + rate) - rate * (1.0 + rate) * p;
    <= { assert rate * (1.0 + rate) * p >= rate * (1.0 + rate); }
      (1.0 + rate) - rate * (1.0 + rate);
    <= { assert rate * rate >= 0.0; }
      1.0;
    }
  }

  /** Bernoulli's inequality in the form the loan bound needs:
      (1 + r)^n * (1 - n*r) <= 1 for a rate r >= 0. */
  lemma {:induction false} PowBernoulli(rate: real, n: nat)
    requires rate >= 0.0
    ensures Pow(1.0 + rate, n) * (1.0 - (n as real) * rate) <= 1.0
  {
    if n > 0 {
      PowBernoulli(rate, n - 1);
      PowAtLeastOne(1.0 + rate, n - 1);
      BernoulliStep(rate, Pow(1.0 + rate, n - 1), (n - 1) as real);
    }
  }

  /** The housing payment the income leaves room for under the DTI limit,
      once taxes and insurance are paid. */
  function MaxHousingPayment(f: PropertyFinder, dtiLimit: real, monthlyTaxesInsurance: real): (r: real)
    ensures r + monthlyTaxesInsurance == f.financialStatus.employerIncome * dtiLimit
    ensures monthlyTaxesInsurance >= 0.0 ==> r <= f.financialStatus.employerIncome * dtiLimit
  {
    f.financialStatus.employerIncome * dtiLimit - monthlyTaxesInsurance
  }

  /** The monthly payment that amortises `principal` over `n` months at a
      positive monthly rate: the inverse of the principal formula below. */
  function AmortizedPayment(principal: real, monthlyRate: real, n: nat): (r: real)
    requires monthlyRate > 0.0 && n >= 1
    ensures principal > 0.0 ==> r > 0.0
  {
    PowAboveOne(1.0 + monthlyRate, n);
    var factor := 1.0 - 1.0 / Pow(1.0 + monthlyRate, n);
    assert factor > 0.0;
    principal * monthlyRate / factor
  }

  /** The largest loan whose fixed-rate payment fits the DTI limit, floored
      at 0. The loan term is a whole number of years; the power with a
      negative exponent is written as the reciprocal of a power. With a zero
      rate the loan is the payment times the number of months. The source's
      `math.pow(0, -n)` raises for a monthly rate of exactly -1, so that rate
      is excluded. */
  function EstimatePriceByDti(f: PropertyFinder, dtiLimit: real, apr: real,
                              loanTermYears: nat, monthlyTaxesInsurance: real): (r: real)
    requires 1.0 + apr / 12.0 != 0.0 || loanTermYears == 0
    ensures r >= 0.0
    ensures apr == 0.0 ==>
      r == Max(MaxHousingPayment(f, dtiLimit, monthlyTaxesInsurance) * ((loanTermYears * 12) as real), 0.0)
  {
    var maxHousingPayment := MaxHousingPayment(f, dtiLimit, monthlyTaxesInsurance);
    var monthlyRate := apr / 12.0;
    var totalPayments := loanTermYears * 12;
    PowNonZero(1.0 + monthlyRate, totalPayments);
    var loanAmount :=
      if monthlyRate == 0.0 then maxHousingPayment * (totalPayments as real)
      else maxHousingPayment * (1.0 - 1.0 / Pow(1.0 + monthlyRate, totalPayments)) / monthlyRate;
    Max(loanAmount, 0.0)
  }

  /** Division by a positive number keeps the sign and multiplies back. */
  lemma QuotientByPositive(a: real, b: real)
    requires b > 0.0
    ensures (a / b) * b == a
    ensures a / b > 0.0 <==> a > 0.0
  {
  }

  /** Dividing by a positive rate and then multiplying back by it, and the
      same with the discount factor, returns the payment. */
  lemma RoundTripAlgebra(payment: real, factor: real, rate: real)
    requires factor > 0.0 && rate > 0.0
    ensures (payment * factor / rate) * rate / factor == payment
  {
    var loan := payment * factor / rate;
    assert loan * rate == payment * factor;
  }

  /** The zero-rate bound in plain numbers: with (1 + r)^n = p >= 1 and
      p * (1 - n*r) <= 1, the discounted principal never exceeds payment
      times months, once both are floored at 0. */
  lemma DiscountBoundAlgebra(payment: real, p: real, rate: real, months: real)
    requires rate > 0.0 && p >= 1.0 && p * (1.0 - months * rate) <= 1.0
    ensures Max(payment * (1.0 - 1.0 / p) / rate, 0.0) <= Max(payment * months, 0.0)
  {
    var factor := 1.0 - 1.0 / p;
    assert 0.0 <= factor;
    assert 1.0 - months * rate <= 1.0 / p by {
      assert (1.0 - months * rate) * p <= 1.0;
    }
    assert factor <= months * rate;
    assert factor / rate <= months;
    assert payment * factor / rate == payment * (factor / rate);
    if payment > 0.0 {
      assert payment * (factor / rate) <= payment * months;
    } else {
      assert payment * (factor / rate) <= 0.0;
    }
  }

  /** Amortisation round trip: for a positive rate and a positive affordable
      payment, the payment that amortises the estimated loan over the term is
      exactly that affordable payment. */
  lemma DtiPriceRoundTrip(f: PropertyFinder, dtiLimit: real, apr: real,
                          loanTermYears: nat, monthlyTaxesInsurance: real)
    requires apr > 0.0 && loanTermYears >= 1
    requires MaxHousingPayment(f, dtiLimit, monthlyTaxesInsurance) > 0.0
    ensures AmortizedPayment(EstimatePriceByDti(f, dtiLimit, apr, loanTermYears, monthlyTaxesInsurance),
                             apr / 12.0, loanTermYears * 12)
         == MaxHousingPayment(f, dtiLimit, monthlyTaxesInsurance)
  {
    var payment := MaxHousingPayment(f, dtiLimit, monthlyTaxesInsurance);
    var rate := apr / 12.0;
    var n := loanTermYears * 12;
    PowAboveOne(1.0 + rate, n);
    var factor := 1.0 - 1.0 / Pow(1.0 + rate, n);
    assert factor > 0.0;
    var loan := payment * factor / rate;
    assert payment * factor > 0.0;
    QuotientByPositive(payment * factor, rate);
    assert EstimatePriceByDti(f, dtiLimit, apr, loanTermYears, monthlyTaxesInsurance) == loan;
    assert AmortizedPayment(loan, rate, n) == loan * rate / factor;
    RoundTripAlgebra(payment, factor, rate);
  }

  /** Interest only ever shrinks the loan: at a positive rate the estimate is
      no more than the zero-rate estimate (payment times months). */
  lemma InterestLowersDtiPrice(f: PropertyFinder, dtiLimit: real, apr: real,
                               loanTermYears: nat, monthlyTaxesInsurance: real)
    requires apr > 0.0
    ensures EstimatePriceByDti(f, dtiLimit, apr, loanTermYears, monthlyTaxesInsurance)
         <= EstimatePriceByDti(f, dtiLimit, 0.0, loanTermYears, monthlyTaxesInsurance)
  {
    var payment := MaxHousingPayment(f, dtiLimit, monthlyTaxesInsurance);
    var rate := apr / 12.0;
    var n := loanTermYears * 12;
    PowAtLeastOne(1.0 + rate, n);
    PowBernoulli(rate, n);
    DiscountBoundAlgebra(payment, Pow(1.0 + rate, n), rate, n as real);
  }

  // ---- screening a single property ----

  /** Rent the property brings in over a year at the appraised rent. */
  function AnnualIncome(p: Property): real
  {
    p.appraisedRentPerUnit * (p.numUnits as real) * 12.0
  }

  /** FHA self-sufficiency: 75% of the appraised gross rent covers the PITI. */
  function FhaSelfSufficiencyTest(f: PropertyFinder, p: Property, pitiEstimate: real): (ok: bool)
    ensures ok <==> 0.75 * p.appraisedRentPerUnit * (p.numUnits as real) >= pitiEstimate
  {
    var grossRent := p.appraisedRentPerUnit * (p.numUnits as real);
    var netRent := grossRent * 0.75;
    netRent >= pitiEstimate
  }

  /** A property that passes for some PITI passes for any smaller one. */
  lemma FhaTestMonotone(f: PropertyFinder, p: Property, piti1: real, piti2: real)
    requires piti2 <= piti1 && FhaSelfSufficiencyTest(f, p, piti1)
    ensures FhaSelfSufficiencyTest(f, p, piti2)
  {
  }

  /** Cash put into a purchase: the down payment plus a fixed 3% of the
      price for closing costs. */
  function Investment(p: Property, downPaymentPercent: real): real
  {
    p.sellingPrice * (downPaymentPercent + 0.03)
  }

  /** Annual rent less annual expenses, over the cash invested; 0 when
      nothing positive is invested. */
  function CashOnCashReturn(f: PropertyFinder, p: Property, downPaymentPercent: real,
                            annualExpenses: real): (r: real)
    ensures Investment(p, downPaymentPercent) <= 0.0 ==> r == 0.0
    ensures Investment(p, downPaymentPercent) > 0.0 ==>
      r * Investment(p, downPaymentPercent) == AnnualIncome(p) - annualExpenses
    ensures Investment(p, downPaymentPercent) > 0.0 ==>
      (r > 0.0 <==> AnnualIncome(p) > annualExpenses)
  {
    var annualIncome := AnnualIncome(p);
    var annualCashFlow := annualIncome - annualExpenses;
    var investment := Investment(p, downPaymentPercent);
    if investment > 0.0 then
      QuotientByPositive(annualCashFlow, investment);
      annualCashFlow / investment
    else 0.0
  }

  /** Rent per unit at which a year of rent pays a year of PITI plus the
      annual expenses; 0 for a property without units. */
  function BreakEvenRent(f: PropertyFinder, p: Property, pitiEstimate: real,
                         annualExpenses: real): (r: real)
    ensures p.numUnits <= 0 ==> r == 0.0
    ensures p.numUnits > 0 ==> r * (p.numUnits as real) * 12.0 == pitiEstimate * 12.0 + annualExpenses
  {
    var totalAnnualCost := pitiEstimate * 12.0 + annualExpenses;
    if p.numUnits > 0 then (totalAnnualCost / 12.0) / (p.numUnits as real) else 0.0
  }

  /** Appraised at the break-even rent, the property's annual income exactly
      pays a year of PITI plus the annual expenses. */
  lemma BreakEvenRentCoversCost(f: PropertyFinder, p: Property, pitiEstimate: real, annualExpenses: real)
    requires p.numUnits > 0
    ensures AnnualIncome(p.(appraisedRentPerUnit := BreakEvenRent(f, p, pitiEstimate, annualExpenses)))
         == pitiEstimate * 12.0 + annualExpenses
  {
    var r := BreakEvenRent(f, p, pitiEstimate, annualExpenses);
    assert r * (p.numUnits as real) * 12.0 == pitiEstimate * 12.0 + annualExpenses;
  }

  /** With no other expenses, the self-sufficiency test passes exactly when
      75% of the appraised rent reaches the break-even rent. */
  lemma FhaTestAgainstBreakEven(f: PropertyFinder, p: Property, pitiEstimate: real)
    requires p.numUnits > 0
    ensures FhaSelfSufficiencyTest(f, p, pitiEstimate)
        <==> 0.75 * p.appraisedRentPerUnit >= BreakEvenRent(f, p, pitiEstimate, 0.0)
  {
    var u := p.numUnits as real;
    var b := BreakEvenRent(f, p, pitiEstimate, 0.0);
    assert b * u * 12.0 == pitiEstimate * 12.0;
    assert b * u == pitiEstimate;
    assert 0.75 * p.appraisedRentPerUnit * u == (0.75 * p.appraisedRentPerUnit) * u;
    if 0.75 * p.appraisedRentPerUnit >= b {
      assert (0.75 * p.appraisedRentPerUnit) * u >= b * u;
    } else {
      assert (0.75 * p.appraisedRentPerUnit) * u < b * u;
    }
  }
}
