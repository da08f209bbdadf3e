/** A household's financial status: monthly income and fixed expenses
    against its credit cards and capital accounts, and the aggregates
    computed from them. Every aggregate is a sum over the collections taken
    in order, as Python's `sum` over a generator takes them. */
module Finance {
  import opened CreditCards
  import opened CapitalAccounts

  /** The cards and accounts are passed explicitly. (The source silently
      substitutes its module-level sample lists when it is given None or an
      EMPTY list, so a household with no cards cannot be described there;
      that fallback is not modelled.) */
  datatype FinancialStatus = FinancialStatus(
    employerIncome: real,
    fixedExpenses: real,
    creditCards: seq<CreditCard>,
    capitalAccounts: seq<CapitalAccount>)

  /** The record `summary()` returns. */
  datatype StatusSummary = StatusSummary(
    totalLiquidAccounts: real,
    totalRetirementAccounts: real,
    totalAccounts: real,
    employerIncome: real,
    fixedExpenses: real,
    totalCreditCardDebt: real,
    totalPlannedCreditPayments: real,
    monthlyCashFlow: real,
    dtiRatio: real)

  // ---- sums over the collections ----

  /** Cards that owe nothing cannot add up to a positive debt. */
  function SumCardBalances(cards: seq<CreditCard>): (r: real)
    ensures (forall i :: 0 <= i < |cards| ==> cards[i].balance <= 0.0) ==> r <= 0.0
  {
    if cards == [] then 0.0 else cards[0].balance + SumCardBalances(cards[1..])
  }

  /** The sum of the minimum payments is never negative, and it is 0 exactly
      when no card carries a balance. */
  function SumMinimumPayments(cards: seq<CreditCard>): (r: real)
    ensures r >= 0.0
    ensures r == 0.0 <==> forall i :: 0 <= i < |cards| ==> cards[i].balance <= 0.0
  {
    if cards == [] then 0.0
    else
      var rest := SumMinimumPayments(cards[1..]);
      assert forall i :: 1 <= i < |cards| ==> cards[i] == cards[1..][i - 1];
      MinimumPayment(cards[0]) + rest
  }

  /** The sum of the planned payments is never negative, and it is 0 exactly
      when no card has an override or a balance. */
  function SumPlannedPayments(cards: seq<CreditCard>): (r: real)
    ensures r >= 0.0
    ensures r == 0.0 <==> forall i :: 0 <= i < |cards| ==>
      cards[i].userPayment <= 0.0 && cards[i].balance <= 0.0
  {
    if cards == [] then 0.0
    else
      var rest := SumPlannedPayments(cards[1..]);
      assert forall i :: 1 <= i < |cards| ==> cards[i] == cards[1..][i - 1];
      PlannedPayment(cards[0]) + rest
  }

  function SumAccountBalances(accounts: seq<CapitalAccount>): real
  {
    if accounts == [] then 0.0 else accounts[0].balance + SumAccountBalances(accounts[1..])
  }

  /** Only liquid accounts contribute: with none, the sum is 0, and liquid
      accounts that are not overdrawn never sum below 0. */
  function SumLiquidBalances(accounts: seq<CapitalAccount>): (r: real)
    ensures (forall i :: 0 <= i < |accounts| ==> !IsLiquidAccount(accounts[i])) ==> r == 0.0
    ensures (forall i :: 0 <= i < |accounts| && IsLiquidAccount(accounts[i]) ==> accounts[i].balance >= 0.0)
            ==> r >= 0.0
  {
    if accounts == [] then 0.0
    else
      assert forall i :: 1 <= i < |accounts| ==> accounts[i] == accounts[1..][i - 1];
      (if IsLiquidAccount(accounts[0]) then accounts[0].balance else 0.0)
      + SumLiquidBalances(accounts[1..])
  }

  /** Only retirement accounts contribute: with none, the sum is 0, and
      retirement accounts that are not overdrawn never sum below 0. */
  function SumRetirementBalances(accounts: seq<CapitalAccount>): (r: real)
    ensures (forall i :: 0 <= i < |accounts| ==> !IsRetirementAccount(accounts[i])) ==> r == 0.0
    ensures (forall i :: 0 <= i < |accounts| && IsRetirementAccount(accounts[i]) ==> accounts[i].balance >= 0.0)
            ==> r >= 0.0
  {
    if accounts == [] then 0.0
    else
      assert forall i :: 1 <= i < |accounts| ==> accounts[i] == accounts[1..][i - 1];
      (if IsRetirementAccount(accounts[0]) then accounts[0].balance else 0.0)
      + SumRetirementBalances(accounts[1..])
  }

  /** The liquid and retirement filters partition the accounts, so the two
      filtered sums add up to the sum of every balance. */
  lemma {:induction false} PartitionSum(accounts: seq<CapitalAccount>)
    ensures SumLiquidBalances(accounts) + SumRetirementBalances(accounts)
         == SumAccountBalances(accounts)
  {
    if accounts != [] {
      PartitionSum(accounts[1..]);
      ClassificationPartition(accounts[0]);
    }
  }

  /** For the issuer variants, an override never raises what is planned above
      the minimum, so planned payments sum to no more than the minimums. */
  lemma {:induction false} VariantPlannedAtMostMinimum(cards: seq<CreditCard>)
    requires forall i :: 0 <= i < |cards| ==> cards[i].issuer != Base && cards[i].balance > 0.0
    ensures SumPlannedPayments(cards) <= SumMinimumPayments(cards)
  {
    if cards != [] {
      VariantMinimumCoversUserPayment(cards[0]);
      assert forall i :: 0 <= i < |cards[1..]| ==> cards[1..][i] == cards[i + 1];
      VariantPlannedAtMostMinimum(cards[1..]);
    }
  }

  // ---- the aggregates ----

  /** Whenever the cards owe something in total, some payment is due. */
  function TotalCreditCardDebt(s: FinancialStatus): (r: real)
    ensures r > 0.0 ==> TotalMinimumPayments(s) > 0.0
  {
    SumCardBalances(s.creditCards)
  }

  function TotalMinimumPayments(s: FinancialStatus): (r: real)
    ensures r >= 0.0
  {
    SumMinimumPayments(s.creditCards)
  }

  function TotalPlannedPayments(s: FinancialStatus): (r: real)
    ensures r >= 0.0
  {
    SumPlannedPayments(s.creditCards)
  }

  /** Fixed expenses plus planned card payments: never below the fixed expenses. */
  function TotalMonthlyDebt(s: FinancialStatus): (r: real)
    ensures r >= s.fixedExpenses
    ensures r - s.fixedExpenses == SumPlannedPayments(s.creditCards)
  {
    s.fixedExpenses + TotalPlannedPayments(s)
  }

  /** What is left of the income after the monthly debt; cards can only
      lower it below income minus fixed expenses. */
  function MonthlyCashFlow(s: FinancialStatus): (r: real)
    ensures r + s.fixedExpenses + SumPlannedPayments(s.creditCards) == s.employerIncome
    ensures r <= s.employerIncome - s.fixedExpenses
  {
    s.employerIncome - TotalMonthlyDebt(s)
  }

  /** Debt-to-income ratio. The source divides without a guard and raises on
      a zero income, so a zero income is excluded here. */
  function DtiRatio(s: FinancialStatus): (r: real)
    requires s.employerIncome != 0.0
    ensures r * s.employerIncome == TotalMonthlyDebt(s)
    ensures s.employerIncome > 0.0 ==> r * s.employerIncome >= s.fixedExpenses
  {
    var debt := TotalMonthlyDebt(s);
    DivisionMultipliesBack(debt, s.employerIncome);
    debt / s.employerIncome
  }

  lemma DivisionMultipliesBack(a: real, b: real)
    requires b != 0.0
    ensures (a / b) * b == a
  {
  }

  /** The liquid total is what the retirement accounts leave of the sum of
      every balance. */
  function TotalLiquidAccounts(s: FinancialStatus): (r: real)
    ensures r == SumAccountBalances(s.capitalAccounts) - SumRetirementBalances(s.capitalAccounts)
    ensures (forall i :: 0 <= i < |s.capitalAccounts| ==> s.capitalAccounts[i].balance >= 0.0) ==> r >= 0.0
  {
    PartitionSum(s.capitalAccounts);
    SumLiquidBalances(s.capitalAccounts)
  }

  /** The retirement total is what the liquid accounts leave of the sum of
      every balance. */
  function TotalRetirementAccounts(s: FinancialStatus): (r: real)
    ensures r == SumAccountBalances(s.capitalAccounts) - SumLiquidBalances(s.capitalAccounts)
    ensures (forall i :: 0 <= i < |s.capitalAccounts| ==> s.capitalAccounts[i].balance >= 0.0) ==> r >= 0.0
  {
    PartitionSum(s.capitalAccounts);
    SumRetirementBalances(s.capitalAccounts)
  }

  /** Liquid plus retirement is the sum of every account balance. */
  function TotalAccounts(s: FinancialStatus): (r: real)
    ensures r == SumAccountBalances(s.capitalAccounts)
  {
    PartitionSum(s.capitalAccounts);
    TotalLiquidAccounts(s) + TotalRetirementAccounts(s)
  }

  /** All the aggregates in one record; like `dti_ratio`, it fails on a zero
      income. */
  function Summary(s: FinancialStatus): (r: StatusSummary)
    requires s.employerIncome != 0.0
    ensures r.totalAccounts == r.totalLiquidAccounts + r.totalRetirementAccounts
    ensures r.totalAccounts == SumAccountBalances(s.capitalAccounts)
    ensures r.monthlyCashFlow + s.fixedExpenses + r.totalPlannedCreditPayments == r.employerIncome
    ensures r.dtiRatio * r.employerIncome == r.fixedExpenses + r.totalPlannedCreditPayments
    ensures r.employerIncome == s.employerIncome && r.fixedExpenses == s.fixedExpenses
    ensures r.totalPlannedCreditPayments == TotalPlannedPayments(s)
    ensures r.totalCreditCardDebt == TotalCreditCardDebt(s)
    ensures r.totalLiquidAccounts == TotalLiquidAccounts(s)
    ensures r.totalRetirementAccounts == TotalRetirementAccounts(s)
  {
    var liquid := TotalLiquidAccounts(s);
    var retirement := TotalRetirementAccounts(s);
    var total := TotalAccounts(s);
    var planned := TotalPlannedPayments(s);
    var cashFlow := MonthlyCashFlow(s);
    var debt := TotalMonthlyDebt(s);
    var dti := DtiRatio(s);
    assert debt == s.fixedExpenses + planned;
    assert dti * s.employerIncome == debt;
    assert total == liquid + retirement;
    assert cashFlow + s.fixedExpenses + planned == s.employerIncome;
    StatusSummary(liquid, retirement, total, s.employerIncome, s.fixedExpenses,
                  TotalCreditCardDebt(s), planned, cashFlow, dti)
  }

  /** One card like the sample Chase_1 (balance 4020.43, APR 0.1849) against
      the income of 8583 and fixed expenses of 256 of the example household:
      the monthly debt is the fixed expenses plus that card's minimum, and the
      ratio is that over income. */
  lemma SampleDtiRatio(s: FinancialStatus)
    requires s.employerIncome == 8583.0 && s.fixedExpenses == 256.0
    requires |s.creditCards| == 1
    requires s.creditCards[0].issuer == Chas && s.creditCards[0].balance == 4020.43
    requires s.creditCards[0].apr == 0.1849 && s.creditCards[0].fees == 0.0
    requires s.creditCards[0].userPayment == 0.0
    ensures TotalMonthlyDebt(s) == 256.0 + 40.2043 + 743.377507 / 12.0
    ensures DtiRatio(s) == (256.0 + 40.2043 + 743.377507 / 12.0) / 8583.0
  {
    SampleChasMinimum(s.creditCards[0]);
    assert SumPlannedPayments(s.creditCards) == PlannedPayment(s.creditCards[0]) + SumPlannedPayments([]);
  }
}
