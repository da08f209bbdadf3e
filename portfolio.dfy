/** A portfolio: properties kept in insertion order, analysed in one pass
    into a table keyed by property name. */
module Portfolios {
  import opened PropertyFinder

  /** The three results computed for one property. */
  datatype PropertyAnalysis = PropertyAnalysis(
    selfSufficiency: bool,
    cashOnCashReturn: real,
    breakEvenRentPerUnit: real)

  /** `dict.get(key, 0)`: an absent name reads as 0. */
  function Lookup(m: map<string, real>, key: string): (r: real)
    ensures key in m ==> r == m[key]
    ensures key !in m ==> r == 0.0
  {
    if key in m then m[key] else 0.0
  }

  /** One property's entry: the self-sufficiency test and break-even rent
      at its PITI estimate, and cash-on-cash return at the default down
      payment, both with its annual expenses. */
  function Analyze(finder: PropertyFinder, p: Property, pitiEstimates: map<string, real>,
                   annualExpenses: map<string, real>): (r: PropertyAnalysis)
    ensures r.selfSufficiency <==>
      0.75 * p.appraisedRentPerUnit * (p.numUnits as real) >= Lookup(pitiEstimates, p.name)
    ensures p.numUnits > 0 ==>
      r.breakEvenRentPerUnit * (p.numUnits as real) * 12.0
        == Lookup(pitiEstimates, p.name) * 12.0 + Lookup(annualExpenses, p.name)
    ensures p.numUnits <= 0 ==> r.breakEvenRentPerUnit == 0.0
    ensures Investment(p, DefaultDownPaymentPercent) > 0.0 ==>
      r.cashOnCashReturn * Investment(p, DefaultDownPaymentPercent)
        == AnnualIncome(p) - Lookup(annualExpenses, p.name)
    ensures Investment(p, DefaultDownPaymentPercent) <= 0.0 ==> r.cashOnCashReturn == 0.0
  {
    var piti := Lookup(pitiEstimates, p.name);
    var expenses := Lookup(annualExpenses, p.name);
    PropertyAnalysis(
      FhaSelfSufficiencyTest(finder, p, piti),
      CashOnCashReturn(finder, p, DefaultDownPaymentPercent, expenses),
      BreakEvenRent(finder, p, piti, expenses))
  }

  /** The table built by entering the properties one after another, each
      entry replacing any earlier one under the same name. */
  function AnalysisOf(finder: PropertyFinder, props: seq<Property>, pitiEstimates: map<string, real>,
                      annualExpenses: map<string, real>): (r: map<string, PropertyAnalysis>)
    ensures forall k :: k in r ==> exists i :: 0 <= i < |props| && props[i].name == k
    ensures props != [] ==> props[|props| - 1].name in r
    ensures props != [] ==> r[props[|props| - 1].name]
                              == Analyze(finder, props[|props| - 1], pitiEstimates, annualExpenses)
  {
    if props == [] then map[]
    else
      var last := props[|props| - 1];
      assert forall i :: 0 <= i < |props| - 1 ==> props[..|props| - 1][i] == props[i];
      AnalysisOf(finder, props[..|props| - 1], pitiEstimates, annualExpenses)
        [last.name := Analyze(finder, last, pitiEstimates, annualExpenses)]
  }

  function Names(props: seq<Property>): set<string>
  {
    set i | 0 <= i < |props| :: props[i].name
  }

  /** The table has exactly one key per distinct property name. */
  lemma {:induction false} AnalysisKeys(finder: PropertyFinder, props: seq<Property>,
                                        pitiEstimates: map<string, real>, annualExpenses: map<string, real>)
    ensures AnalysisOf(finder, props, pitiEstimates, annualExpenses).Keys == Names(props)
  {
    if props != [] {
      var init := props[..|props| - 1];
      AnalysisKeys(finder, init, pitiEstimates, annualExpenses);
      assert forall i :: 0 <= i < |init| ==> init[i] == props[i];
      assert Names(props) == Names(init) + {props[|props| - 1].name};
    }
  }

  /** Under a name, the table holds the analysis of the LAST property with
      that name: a property no later property shares its name with is the
      one reported. */
  lemma {:induction false} AnalysisLastWins(finder: PropertyFinder, props: seq<Property>,
                                            pitiEstimates: map<string, real>,
                                            annualExpenses: map<string, real>, i: nat)
    requires i < |props|
    requires forall j :: i < j < |props| ==> props[j].name != props[i].name
    ensures props[i].name in AnalysisOf(finder, props, pitiEstimates, annualExpenses)
    ensures AnalysisOf(finder, props, pitiEstimates, annualExpenses)[props[i].name]
         == Analyze(finder, props[i], pitiEstimates, annualExpenses)
  {
    if i < |props| - 1 {
      var init := props[..|props| - 1];
      assert forall j :: i < j < |init| ==> init[j] == props[j];
      AnalysisLastWins(finder, init, pitiEstimates, annualExpenses, i);
    }
  }

  /** The example usage's shape: two properties with distinct names, added
      in that order to a new portfolio, give a table with exactly their two
      names, each holding its own property's analysis. */
  lemma TwoPropertyAnalysis(finder: PropertyFinder, p1: Property, p2: Property,
                            pitiEstimates: map<string, real>, annualExpenses: map<string, real>)
    requires p1.name != p2.name
    ensures AnalysisOf(finder, [p1, p2], pitiEstimates, annualExpenses).Keys == {p1.name, p2.name}
    ensures AnalysisOf(finder, [p1, p2], pitiEstimates, annualExpenses)[p1.name]
         == Analyze(finder, p1, pitiEstimates, annualExpenses)
    ensures AnalysisOf(finder, [p1, p2], pitiEstimates, annualExpenses)[p2.name]
         == Analyze(finder, p2, pitiEstimates, annualExpenses)
  {
    AnalysisKeys(finder, [p1, p2], pitiEstimates, annualExpenses);
    assert Names([p1, p2]) == {p1.name, p2.name};
    AnalysisLastWins(finder, [p1, p2], pitiEstimates, annualExpenses, 0);
  }

  /** A property whose name has no PITI estimate and no expense entry is
      analysed as if both were 0. */
  lemma MissingEstimatesDefaultToZero(finder: PropertyFinder, props: seq<Property>,
                                      pitiEstimates: map<string, real>,
                                      annualExpenses: map<string, real>, i: nat)
    requires i < |props|
    requires forall j :: i < j < |props| ==> props[j].name != props[i].name
    requires props[i].name !in pitiEstimates && props[i].name !in annualExpenses
    ensures props[i].name in AnalysisOf(finder, props, pitiEstimates, annualExpenses)
    ensures AnalysisOf(finder, props, pitiEstimates, annualExpenses)[props[i].name]
         == PropertyAnalysis(
              FhaSelfSufficiencyTest(finder, props[i], 0.0),
              CashOnCashReturn(finder, props[i], DefaultDownPaymentPercent, 0.0),
              BreakEvenRent(finder, props[i], 0.0, 0.0))
  {
    AnalysisLastWins(finder, props, pitiEstimates, annualExpenses, i);
  }

  /** The portfolio: an append-only list of properties; names are not
      required to be distinct. */
  class Portfolio {
    var properties: seq<Property>

    constructor ()
      ensures properties == []
    {
      properties := [];
    }

    /** Appends one property at the end; the earlier ones are unchanged. */
    method AddProperty(p: Property)
      modifies this
      ensures properties == old(properties) + [p]
    {
      properties := properties + [p];
    }

    /** Looks up each property's PITI estimate and annual expenses by name
        (0 when absent) and enters its analysis under its name, in order. */
    method AnalyzePortfolio(finder: PropertyFinder, pitiEstimates: map<string, real>,
                            annualExpenses: map<string, real>)
      returns (results: map<string, PropertyAnalysis>)
      ensures results == AnalysisOf(finder, properties, pitiEstimates, annualExpenses)
      ensures results.Keys == Names(properties)
    {
      results := map[];
      var i := 0;
      while i < |properties|
        invariant 0 <= i <= |properties|
        invariant results == AnalysisOf(finder, properties[..i], pitiEstimates, annualExpenses)
      {
        var prop := properties[i];
        var piti := Lookup(pitiEstimates, prop.name);
        var expenses := Lookup(annualExpenses, prop.name);
        results := results[prop.name := PropertyAnalysis(
          FhaSelfSufficiencyTest(finder, prop, piti),
          CashOnCashReturn(finder, prop, DefaultDownPaymentPercent, expenses),
          BreakEvenRent(finder, prop, piti, expenses))];
        assert properties[..i + 1][..i] == properties[..i];
        i := i + 1;
      }
      assert properties[..i] == properties;
      AnalysisKeys(finder, properties, pitiEstimates, annualExpenses);
    }
  }

  /** Two properties with distinct names give exactly two entries, each the
      analysis of its own property. */
  method TwoPropertyExample(finder: PropertyFinder, p1: Property, p2: Property,
                            pitiEstimates: map<string, real>, annualExpenses: map<string, real>)
    requires p1.name != p2.name
  {
    var portfolio := new Portfolio();
    portfolio.AddProperty(p1);
    portfolio.AddProperty(p2);
    var analysis := portfolio.AnalyzePortfolio(finder, pitiEstimates, annualExpenses);
    assert portfolio.properties == [p1, p2];
    TwoPropertyAnalysis(finder, p1, p2, pitiEstimates, annualExpenses);
    assert analysis[p1.name] == Analyze(finder, p1, pitiEstimates, annualExpenses);
    assert analysis[p2.name] == Analyze(finder, p2, pitiEstimates, annualExpenses);
  }
}
