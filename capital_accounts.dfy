/** Capital accounts (checking, savings, 401k, Roth IRA, brokerage, ...):
    a balance with an annual yield, and the coarse liquid/retirement split
    the household aggregates rely on. */
module CapitalAccounts {

  /** An account's fields. `NewCapitalAccount` is the constructor and stores
      `accountType` in lower case; a record built directly keeps whatever
      type it is given. */
  datatype CapitalAccount = CapitalAccount(
    name: string,
    accountType: string,
    balance: real,
    annualYield: real,
    notes: string)

  /** Default arguments of the account constructor. */
  const DefaultAccountBalance: real := 0.0
  const DefaultAnnualYield: real := 0.0
  const DefaultNotes: string := ""

  /** The two `is_liquid` / `is_retirement` flags of an account's summary. */
  datatype ClassificationFlags = ClassificationFlags(isLiquid: bool, isRetirement: bool)

  predicate IsUpper(ch: char)
  {
    'A' <= ch <= 'Z'
  }

  /** Lower-casing of one character (ASCII letters). */
  function LowerChar(ch: char): (r: char)
    ensures !IsUpper(r)
    ensures IsUpper(ch) ==> r as int == ch as int + 32
    ensures !IsUpper(ch) ==> r == ch
  {
    if IsUpper(ch) then (ch as int + 32) as char else ch
  }

  /** `str.lower()`: every character lower-cased, the length kept. */
  function Lower(s: string): (r: string)
    ensures |r| == |s|
    ensures forall i :: 0 <= i < |s| ==> r[i] == LowerChar(s[i])
  {
    if s == [] then [] else [LowerChar(s[0])] + Lower(s[1..])
  }

  /** Lower-casing twice is lower-casing once. */
  lemma LowerIdempotent(s: string)
    ensures Lower(Lower(s)) == Lower(s)
  {
    assert forall i :: 0 <= i < |s| ==> Lower(Lower(s))[i] == LowerChar(LowerChar(s[i]));
  }

  /** The constructor: the account type is stored lower-cased, every other
      argument as given. */
  function NewCapitalAccount(name: string, accountType: string, balance: real,
                             annualYield: real, notes: string): (a: CapitalAccount)
    ensures |a.accountType| == |accountType|
    ensures forall i :: 0 <= i < |accountType| ==> !IsUpper(a.accountType[i])
    ensures forall i :: 0 <= i < |accountType| ==>
      a.accountType[i] == accountType[i] || (IsUpper(accountType[i]) && a.accountType[i] as int == accountType[i] as int + 32)
    ensures a.name == name && a.balance == balance && a.annualYield == annualYield && a.notes == notes
  {
    CapitalAccount(name, Lower(accountType), balance, annualYield, notes)
  }

  /** The yield earned in one month: a twelfth of the annual yield on the balance. */
  function MonthlyYield(a: CapitalAccount): (r: real)
    ensures 12.0 * r == a.balance * a.annualYield
    ensures a.balance == 0.0 || a.annualYield == 0.0 ==> r == 0.0
  {
    a.balance * (a.annualYield / 12.0)
  }

  /** Liquid means "checking" or "savings" exactly, after the lower-casing. */
  predicate IsLiquidAccount(a: CapitalAccount): (liquid: bool)
    ensures liquid <==> a.accountType == "checking" || a.accountType == "savings"
  {
    a.accountType in ["checking", "savings"]
  }

  /** Deliberately coarse: anything that is not liquid, "brokerage" and
      unknown types included, counts as retirement. */
  predicate IsRetirementAccount(a: CapitalAccount): (retirement: bool)
    ensures retirement <==> a.accountType != "checking" && a.accountType != "savings"
  {
    !IsLiquidAccount(a)
  }

  /** The flag fields of an account's summary; never both, never neither. */
  function SummaryFlags(a: CapitalAccount): (f: ClassificationFlags)
    ensures f.isLiquid != f.isRetirement
    ensures f.isLiquid <==> a.accountType == "checking" || a.accountType == "savings"
  {
    ClassificationFlags(IsLiquidAccount(a), IsRetirementAccount(a))
  }

  /** Every account is in exactly one of the two classes. */
  lemma ClassificationPartition(a: CapitalAccount)
    ensures IsLiquidAccount(a) != IsRetirementAccount(a)
    ensures IsLiquidAccount(a) <==> a.accountType == "checking" || a.accountType == "savings"
  {
  }

  /** Classification of a constructed account depends only on the type
      argument with case ignored: types that lower-case alike classify alike. */
  lemma ClassificationIgnoresCase(t1: string, t2: string, name: string, b: real, y: real, n: string)
    requires Lower(t1) == Lower(t2)
    ensures IsLiquidAccount(NewCapitalAccount(name, t1, b, y, n))
        == IsLiquidAccount(NewCapitalAccount(name, t2, b, y, n))
  {
  }

  lemma LowerSavings()
    ensures Lower("Savings") == "savings"
  {
    var r := Lower("Savings");
    assert |r| == 7 && r[0] == 's';
    assert r[1..] == Lower("avings");
  }

  lemma LowerChecking()
    ensures Lower("CHECKING") == "checking"
  {
    var r := Lower("CHECKING");
    assert |r| == 8 && r[0] == 'c';
    assert r[1..] == Lower("HECKING");
  }

  /** Mixed-case "Savings" and "CHECKING" are liquid because of the lower-casing. */
  lemma MixedCaseLiquid(name: string, b: real, y: real, n: string)
    ensures IsLiquidAccount(NewCapitalAccount(name, "Savings", b, y, n))
    ensures IsLiquidAccount(NewCapitalAccount(name, "CHECKING", b, y, n))
  {
    LowerSavings();
    LowerChecking();
  }

  /** "rothIRA" is stored as "rothira", which is not a liquid type. */
  lemma RothIraIsRetirement(name: string, b: real, y: real, n: string)
    ensures NewCapitalAccount(name, "rothIRA", b, y, n).accountType == "rothira"
    ensures IsRetirementAccount(NewCapitalAccount(name, "rothIRA", b, y, n))
  {
    assert Lower("rothIRA") == "rothira";
    assert "rothira"[0] != "savings"[0];
  }

  /** "brokerage" and "401k" land in the retirement class without error. */
  lemma UnknownTypesAreRetirement(name: string, b: real, y: real, n: string)
    ensures IsRetirementAccount(NewCapitalAccount(name, "brokerage", b, y, n))
    ensures IsRetirementAccount(NewCapitalAccount(name, "401k", b, y, n))
  {
    assert |Lower("brokerage")| == 9;
    assert |Lower("401k")| == 4;
  }
}
