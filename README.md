# Household finance engine, modelled in Dafny

This project models the calculation engine of a small personal-finance
tool. The engine works on a household's records, and none of it does I/O:

- **Credit cards** (`CreditCards.py`): a base card and four issuer variants
  (WELF, CHAS, CITI, AMEX), each with its own minimum-payment rule, plus
  monthly interest and the planned payment (the holder's override, or the
  minimum when there is none).
- **Capital accounts** (`CapitalAccounts.py`): checking, savings, 401k,
  Roth IRA, brokerage and any other type. The type is lower-cased when the
  account is built. An account is liquid when its type is checking or
  savings, and every other account counts as retirement.
- **Financial status, property screening and portfolios** (`main.py`):
  - the household aggregates (debt, planned payments, cash flow,
    debt-to-income ratio, liquid and retirement totals);
  - the `PropertyFinder` formulas (price from a down payment, loan from a
    DTI limit, the FHA 75% self-sufficiency test, cash-on-cash return,
    break-even rent);
  - a `Portfolio` that appends properties and analyses them into a table
    keyed by name.

Modules, one per component:

| file | module | models |
|---|---|---|
| `rounding.dfy` | `Rounding` | Python's `round(x)`: round half to even |
| `credit_cards.dfy` | `CreditCards` | cards, issuer variants, interest, minimum and planned payment |
| `capital_accounts.dfy` | `CapitalAccounts` | accounts, lower-casing, yield, liquid/retirement flags |
| `financial_status.dfy` | `Finance` | `FinancialStatus` aggregates and `summary()` |
| `property_finder.dfy` | `PropertyFinder` | `Property`, `PropertyFinder` formulas, amortisation |
| `portfolio.dfy` | `Portfolios` | `Portfolio` class: `add_property`, `analyze_portfolio` |

Modelling choices:

- **Money and rates.** They are `real`, so all arithmetic is exact. Python's
  floats round, and the model does not.
- **Issuer variants.** The subclasses become one `CreditCard` datatype with
  an `Issuer` tag, and `MinimumPayment` matches on that tag. Each variant's
  rule states that its result is Python's `max` of the same candidates:
  one of them, and at least all of them.
- **CITI rounding.** CITI's `round(balance * 0.01)` uses `RoundHalfEven`.
  That function is pinned down by two facts: it is within 1/2 of its
  argument, and a tie goes to the even neighbour.
- **Portfolio.** `Portfolio` is a class whose `properties` field is a
  sequence. `AddProperty` reassigns that field. `AnalyzePortfolio` is a loop,
  proved equal to the function `AnalysisOf`, which inserts the entries one
  after another.
- **Behaviour taken from the code as written:**
  - `total_upfront_needed` in `estimate_price_by_down_payment` is the guard at
    `main.py:78`: a non-positive sum of down payment, closing costs and
    reserve returns 0.
  - The appraised rent is chosen with `or` (`main.py:66`), so an appraised
    rent of exactly 0 falls back to the current rent, as a missing one does.
  - The amortisation formula at `main.py:90` is evaluated on reals, so the
    round trip through `AmortizedPayment` holds exactly.

## Model

| member | source | states |
|---|---|---|
| `Rounding.RoundHalfEven` | CreditCards.py:59 | the result is an integer within 1/2 of the argument; when the argument lies exactly halfway, the result is even |
| `Rounding.RoundHalfEvenUnique` | CreditCards.py:59 | any integer with those two properties is the rounding, so they define Python's `round` completely |
| `Rounding.RoundHalfEvenMonotone` | CreditCards.py:59 | rounding preserves order |
| `Rounding.RoundHalfEvenOfInteger` | CreditCards.py:59 | an integer rounds to itself |
| `CreditCards.MonthlyInterest` | CreditCards.py:9-10 | twelve months of interest equal apr × balance; the interest is 0 when the apr or the balance is 0 |
| `CreditCards.MonthlyInterestMonotone` | CreditCards.py:9-10 | with a non-negative apr, a higher balance never gives less interest |
| `CreditCards.BaseMinimumPayment` | CreditCards.py:12-15 | 0 when the balance is ≤ 0; otherwise the max of 25 and 2% of the balance |
| `CreditCards.WelfMinimumPayment` | CreditCards.py:33-42 | 0 when the balance is ≤ 0; otherwise the max of: the balance capped at 40, 3.5% of the balance, interest + fees + 1%, the user payment |
| `CreditCards.ChasMinimumPayment` | CreditCards.py:45-51 | 0 when the balance is ≤ 0; otherwise the max of: the balance capped at 35, 1% + interest + fees, the user payment |
| `CreditCards.CitiMinimumPayment` | CreditCards.py:54-60 | 0 when the balance is ≤ 0; otherwise the max of: the balance capped at 25, round-half-even(1%) + interest + fees, the user payment |
| `CreditCards.AmexMinimumPayment` | CreditCards.py:63-71 | 0 when the balance is ≤ 0; otherwise the max of: interest + 1%, 2%, the balance capped at 40, the user payment |
| `CreditCards.MinimumPayment` | CreditCards.py:12-71 | for every issuer, the result is 0 when the balance is ≤ 0 and positive when the balance is > 0 |
| `CreditCards.PlannedPayment` | CreditCards.py:17-18 | a user payment > 0 is returned as is; otherwise (0 included) the result is the minimum; it is never negative, and it is 0 exactly when there is no override and no balance |
| `CreditCards.BaseMinimumBounds` | CreditCards.py:12-15 | for a base card with a balance, the minimum is ≥ 25 and ≥ 2% of the balance, and equals one of the two |
| `CreditCards.VariantMinimumCoversUserPayment` | CreditCards.py:33-71 | for WELF, CHAS, CITI and AMEX with a balance > 0, the minimum is ≥ the user payment, so the planned payment is ≤ the minimum |
| `CreditCards.WelfMinimumBounds` | CreditCards.py:37-42 | the WELF minimum is ≥ min(balance, 40) and ≥ 3.5% of the balance; with apr 0 and fees 0 it is max(min(balance, 40), 3.5%, user payment) |
| `CreditCards.ChasMinimumBounds` | CreditCards.py:49-51 | the CHAS minimum is ≥ min(balance, 35) and ≥ interest + fees + 1% of the balance |
| `CreditCards.CitiMinimumBounds` | CreditCards.py:58-60 | the CITI minimum is ≥ min(balance, 25), ≥ the rounded 1% + interest + fees, and so ≥ 1% − 1/2 + interest + fees |
| `CreditCards.AmexMinimumBounds` | CreditCards.py:67-71 | the AMEX minimum is ≥ 2% of the balance, ≥ min(balance, 40), and ≥ interest + 1% of the balance |
| `CreditCards.MinimumPaymentMonotone` | CreditCards.py:12-71 | for every issuer, with a non-negative apr, a higher balance never lowers the minimum payment |
| `CreditCards.SampleWelfMinimum` | CreditCards.py:74 | WF_1 (balance 1563.99, apr 0) has no interest; its minimum is 3.5% of the balance, 54.73965 |
| `CreditCards.SampleCitiMinimum` | CreditCards.py:76 | Citi_1 (balance 2002.35, apr 0): 1% rounds to 20, so the floor of 25 decides |
| `CreditCards.SampleChasMinimum` | CreditCards.py:77 | Chase_1 (balance 4020.43, apr 0.1849): its minimum is 1% plus one month's interest |
| `CapitalAccounts.Lower` | CapitalAccounts.py:4 | the length is kept, and each character is the lower-case form of the input character |
| `CapitalAccounts.LowerIdempotent` | CapitalAccounts.py:4 | lower-casing twice gives the same text as lower-casing once |
| `CapitalAccounts.NewCapitalAccount` | CapitalAccounts.py:2-7 | the stored type has no upper-case letter, and each character is the argument's character or its lower-case form; the other fields are stored unchanged |
| `CapitalAccounts.MonthlyYield` | CapitalAccounts.py:9-10 | twelve months of yield equal balance × annual yield; the yield is 0 when either factor is 0 |
| `CapitalAccounts.SummaryFlags` | CapitalAccounts.py:25-26 | the summary's `is_liquid` and `is_retirement` flags always differ; `is_liquid` holds exactly for "checking" or "savings" |
| `CapitalAccounts.IsLiquidAccount` | CapitalAccounts.py:12-13 | an account is liquid exactly when its stored type is "checking" or "savings" |
| `CapitalAccounts.IsRetirementAccount` | CapitalAccounts.py:15-16 | an account is retirement exactly when its stored type is neither "checking" nor "savings" |
| `CapitalAccounts.ClassificationPartition` | CapitalAccounts.py:12-16 | every account is exactly one of liquid or retirement; liquid means the type is "checking" or "savings" |
| `CapitalAccounts.ClassificationIgnoresCase` | CapitalAccounts.py:4-13 | two type arguments that lower-case to the same text classify the same way |
| `CapitalAccounts.MixedCaseLiquid` | CapitalAccounts.py:4-13 | "Savings" and "CHECKING" are classified liquid |
| `CapitalAccounts.RothIraIsRetirement` | CapitalAccounts.py:4-16 | "rothIRA" is stored as "rothira" and is classified retirement |
| `CapitalAccounts.UnknownTypesAreRetirement` | CapitalAccounts.py:12-16 | "brokerage" and "401k" are classified retirement, with no error |
| `Finance.SumCardBalances` | main.py:16-17 | cards that all have a balance ≤ 0 sum to no positive debt |
| `Finance.SumMinimumPayments` | main.py:19-20 | the sum of minimum payments is ≥ 0, and it is 0 exactly when no card has a positive balance |
| `Finance.SumPlannedPayments` | main.py:22-23 | the sum of planned payments is ≥ 0, and it is 0 exactly when no card has an override or a balance |
| `Finance.PartitionSum` | main.py:34-41 | the liquid sum plus the retirement sum equals the sum of all account balances |
| `Finance.VariantPlannedAtMostMinimum` | main.py:19-23 | for issuer-variant cards with balances, total planned payments are ≤ total minimum payments |
| `Finance.TotalCreditCardDebt` | main.py:16-17 | whenever the total debt is positive, the total minimum payment is positive |
| `Finance.TotalMinimumPayments` | main.py:19-20 | the total minimum payment is never negative |
| `Finance.TotalPlannedPayments` | main.py:22-23 | the total planned payment is never negative |
| `Finance.TotalMonthlyDebt` | main.py:25-26 | the monthly debt is the fixed expenses plus the planned payments, so it is never below the fixed expenses |
| `Finance.MonthlyCashFlow` | main.py:28-29 | cash flow + fixed expenses + planned payments = income; the cash flow is ≤ income − fixed expenses |
| `Finance.DtiRatio` | main.py:31-32 | defined only for a non-zero income; ratio × income = monthly debt; with a positive income, ratio × income ≥ fixed expenses |
| `Finance.TotalAccounts` | main.py:40-41 | liquid plus retirement equals the sum of every account balance |
| `Finance.SumLiquidBalances` | main.py:34-35 | with no liquid account the sum is 0; liquid accounts with non-negative balances sum to ≥ 0 |
| `Finance.SumRetirementBalances` | main.py:37-38 | with no retirement account the sum is 0; retirement accounts with non-negative balances sum to ≥ 0 |
| `Finance.TotalLiquidAccounts` | main.py:34-35 | the liquid total is the sum of all balances minus the retirement sum; it is ≥ 0 when no account is overdrawn |
| `Finance.TotalRetirementAccounts` | main.py:37-38 | the retirement total is the sum of all balances minus the liquid sum; it is ≥ 0 when no account is overdrawn |
| `Finance.Summary` | main.py:43-54 | each field is the aggregate of the same name (planned payments, card debt, liquid and retirement totals, income and fixed expenses); total accounts = liquid + retirement = all balances; cash flow + fixed + planned = income; dti × income = fixed + planned |
| `Finance.SampleDtiRatio` | CreditCards.py:77 | a status holding only a card like Chase_1, with the income 8583 and fixed expenses 256 of the example household, has monthly debt 256 + that card's minimum and DTI ratio that debt over 8583 |
| `PropertyFinder.NewProperty` | main.py:61-67 | the appraised rent falls back to the current rent when it is absent or 0, and otherwise is the given value; the other fields are stored as given |
| `PropertyFinder.EstimatePriceByDownPayment` | main.py:74-81 | the result is ≥ 0; it is 0 when down + closing + reserve ≤ 0; a positive price × (down + closing) + reserve uses exactly the liquid cash; once that guard is passed, the price is positive iff the liquid cash exceeds the reserve (for a positive down + closing) or falls short of it (for a negative one) |
| `PropertyFinder.PowNonZero` | main.py:90 | a non-zero base raised to any power is non-zero |
| `PropertyFinder.PowAtLeastOne` | main.py:90 | a base ≥ 1 raised to any power is ≥ 1 |
| `PropertyFinder.PowAboveOne` | main.py:90 | a base > 1 raised to a positive power is > 1 |
| `PropertyFinder.PowBernoulli` | main.py:90 | (1 + r)^n × (1 − n·r) ≤ 1 for r ≥ 0 |
| `PropertyFinder.AmortizedPayment` | main.py:90 | the payment that amortises a positive principal at a positive rate is positive |
| `PropertyFinder.Pow` | main.py:90 | a power with exponent 0 is 1, and a positive base gives a positive power |
| `PropertyFinder.MaxHousingPayment` | main.py:84 | the payment plus taxes and insurance equals income × DTI limit, so with non-negative taxes it never exceeds income × DTI limit |
| `PropertyFinder.EstimatePriceByDti` | main.py:83-91 | the result is ≥ 0; with apr 0 it is max(payment × term_years × 12, 0) |
| `PropertyFinder.DtiPriceRoundTrip` | main.py:83-91 | for apr > 0, a term of at least one year and a positive affordable payment, amortising the estimated loan gives back exactly that payment |
| `PropertyFinder.InterestLowersDtiPrice` | main.py:83-91 | at a positive apr, the estimate never exceeds the zero-rate estimate |
| `PropertyFinder.FhaSelfSufficiencyTest` | main.py:93-96 | the test passes iff 0.75 × appraised rent × units ≥ the PITI estimate |
| `PropertyFinder.FhaTestMonotone` | main.py:93-96 | a property that passes for some PITI passes for every smaller PITI |
| `PropertyFinder.CashOnCashReturn` | main.py:98-102 | the result is 0 when price × (down + 0.03) ≤ 0; otherwise return × investment = annual rent − expenses, and the return is positive iff rent exceeds expenses |
| `PropertyFinder.BreakEvenRent` | main.py:104-106 | the result is 0 when there are no units; otherwise rent × units × 12 = 12 × PITI + expenses |
| `PropertyFinder.BreakEvenRentCoversCost` | main.py:104-106 | appraised at the break-even rent, a year of rent pays exactly a year of PITI plus expenses |
| `PropertyFinder.FhaTestAgainstBreakEven` | main.py:93-106 | with no other expenses, the FHA test passes iff 75% of the appraised rent reaches the break-even rent |
| `Portfolios.Lookup` | main.py:119-120 | a name in the map reads its value; an absent name reads 0 |
| `Portfolios.Analyze` | main.py:119-125 | the entry passes the FHA test iff 75% of the gross rent reaches the PITI looked up by name; its break-even rent × units × 12 is 12 × PITI + expenses (0 without units); its return × investment is annual rent − expenses when the investment is positive, and the return is 0 otherwise |
| `Portfolios.AnalysisOf` | main.py:117-126 | every key of the table is the name of some property, and the last property is always entered under its name with its own analysis |
| `Portfolios.AnalysisKeys` | main.py:116-126 | the analysis table's key set is exactly the set of property names |
| `Portfolios.AnalysisLastWins` | main.py:118-125 | under each name, the table holds the analysis of the last property with that name, so later duplicates overwrite earlier ones |
| `Portfolios.TwoPropertyAnalysis` | main.py:132-139 | two properties with distinct names, added in order, give a table with exactly their two names, each holding its own property's analysis |
| `Portfolios.MissingEstimatesDefaultToZero` | main.py:119-124 | a property with no PITI entry and no expense entry is analysed with both at 0 |
| `Portfolios.Portfolio.constructor` | main.py:110-111 | a new portfolio is empty |
| `Portfolios.Portfolio.AddProperty` | main.py:113-114 | appends one property at the end and leaves earlier ones unchanged |
| `Portfolios.Portfolio.AnalyzePortfolio` | main.py:116-126 | the loop builds exactly the table `AnalysisOf` describes, and its key set is the set of property names |

## Left out

- `summary()` of a card or an account: the rounding to 2 or 4 decimals and the `provider` class-name label are presentation. Only the account summary's two classification flags are modelled (`SummaryFlags`). The `__repr__` methods are left out for the same reason.
- Floating point: money and rates are exact reals, so no claim is made about float rounding error. `RoundHalfEven` rounds the exact real value of 1% of the balance, while Python rounds the float that `balance * 0.01` produces. The two can differ: a balance written 149.99999999999999 is read by Python as 150.0, so its 1% is the tie 1.5 and rounds to 2, while the exact real 1.4999999999999999 rounds to 1.
- `FinancialStatus.__init__` replaces a None or empty card or account list with the module's global sample lists (main.py:13-14). The model always takes explicit sequences, so a household with no cards keeps no cards.
- The module-level sample data and example usage (CreditCards.py:74-81, CapitalAccounts.py:34-45, main.py:130-139) appear only as lemmas about single cards like WF_1, Citi_1 and Chase_1, and about a status holding Chase_1 alone with the example household's income and fixed expenses. The status built at main.py:130 falls back to all five sample cards and all nine sample accounts; that status is not modelled. `TwoPropertyExample` covers any two distinct names.
- The persistence layer (`db.py`) is not part of this model. It only opens SQLite and creates tables.
- The commented-out table display at the end of `main.py` is left out.
- Field updates made to cards or accounts after construction (for example by the persistence layer) are left out. Cards, accounts, properties and statuses are values.
- `PropertyFinder` holds its status by reference in the source. Here it is a value that wraps the status.
- Lower: only ASCII letters A–Z are lower-cased. Python's `str.lower` also maps non-ASCII letters.
- NewCapitalAccount: the source accepts any object with a `lower()` method as the type. Here the type is a string.
- DtiRatio: a non-zero income is a precondition. For a zero income the source raises a division-by-zero error; `Summary` inherits this precondition.
- EstimatePriceByDownPayment: the precondition excludes down + closing = 0 with a positive reserve, where the source raises a division-by-zero error.
- EstimatePriceByDti: the loan term is a whole number of years (`nat`). The precondition excludes apr = −12 with a non-zero term, where `math.pow(0, -n)` raises. Negative or fractional terms are not modelled.
- NewProperty: the unit count is an integer. The source accepts any number there.
- Default arguments: Dafny functions have none, so every argument is passed explicitly. The Python defaults are recorded as constants: `DefaultCardApr`, `DefaultUserPayment` and `DefaultFees` of the card constructor (CreditCards.py:2); `DefaultAccountBalance`, `DefaultAnnualYield` and `DefaultNotes` of the account constructor (CapitalAccounts.py:2); `DefaultDownPaymentPercent`, `DefaultClosingCostPercent`, `DefaultReserveMonths` and `DefaultPitiEstimate` (main.py:74); `DefaultDtiLimit`, `DefaultApr`, `DefaultLoanTermYears` and `DefaultMonthlyTaxesInsurance` (main.py:83); `DefaultAnnualExpenses` (main.py:98). The reserve months, rates and percentages are reals. `Analyze` uses `DefaultDownPaymentPercent`, as `analyze_portfolio` does, and `SampleChasMinimum` uses `DefaultFees` and `DefaultUserPayment` for Chase_1's omitted arguments.
- The order of the table `analyze_portfolio` returns: a Python `dict` keeps the order in which names were first inserted, and the Dafny `map` has no order. The model states the keys and the value under each key, not their order.
