/**
 * Scenario comparison: three fixed plans (conservative, moderate,
 * aggressive) each compound the current savings yearly and add twelve
 * monthly contributions a year; the cards derive a final value, the total
 * contributed, the gains and a return percentage from each series.
 */
module ScenarioComparison {
  import opened Common

  /** One point of a scenario's series. */
  datatype Point = Point(year: int, value: int)

  datatype Scenario = Scenario(name: string, riskTolerance: real, monthlyContribution: real,
                               color: string, data: seq<Point>)

  /** The three presets, in display order, with empty series. */
  function Presets(): (r: seq<Scenario>)
    ensures |r| == 3
    ensures forall i :: 0 <= i < 3 ==> r[i].data == []
  {
    [Scenario("Conservative Plan", 3.0, 500.0, "#10b981", []),
     Scenario("Moderate Plan", 6.0, 1000.0, "#3b82f6", []),
     Scenario("Aggressive Plan", 9.0, 1500.0, "#ef4444", [])]
  }

  /** 4% plus up to 8% more by risk. */
  function AnnualReturn(risk: real): real {
    0.04 + (risk / 10.0) * 0.08
  }

  /** The "Expected Return" percentage a card shows. */
  function DisplayedReturnPercent(risk: real): real {
    4.0 + (risk / 10.0) * 8.0
  }

  /** The presets' returns are 6.4%, 8.8% and 11.2%, and the card shows the same rate as a percentage. */
  lemma PresetReturns()
    ensures AnnualReturn(Presets()[0].riskTolerance) == 0.064
    ensures AnnualReturn(Presets()[1].riskTolerance) == 0.088
    ensures AnnualReturn(Presets()[2].riskTolerance) == 0.112
    ensures forall risk: real :: DisplayedReturnPercent(risk) == 100.0 * AnnualReturn(risk)
  {
  }

  /** The carried, unrounded value after `year` years. */
  function Carried(savings: real, rate: real, contribution: real, year: nat): real {
    if year == 0 then savings
    else Grown(Carried(savings, rate, contribution, year - 1), rate) + contribution * 12.0
  }

  /** The series a scenario gets: one rounded point per year 0..timeHorizon. */
  function Series(savings: real, s: Scenario, timeHorizon: int): (r: seq<Point>)
    ensures |r| == if timeHorizon < 0 then 0 else timeHorizon + 1
    ensures forall y :: 0 <= y < |r| ==>
      r[y] == Point(y, Round(Carried(savings, AnnualReturn(s.riskTolerance), s.monthlyContribution, y)))
  {
    var n := if timeHorizon < 0 then 0 else timeHorizon + 1;
    seq(n, y requires 0 <= y < n =>
      Point(y, Round(Carried(savings, AnnualReturn(s.riskTolerance), s.monthlyContribution, y))))
  }

  /** The forEach callback: compounds one scenario's value year by year and pushes the rounded points. */
  method FillSeries(scenario: Scenario, currentSavings: real, timeHorizon: int) returns (data: seq<Point>)
    ensures data == Series(currentSavings, scenario, timeHorizon)
  {
    var value := currentSavings;
    var annualReturn := AnnualReturn(scenario.riskTolerance);
    data := [];
    var year := 0;
    while year <= timeHorizon
      invariant 0 <= year && |data| == year
      invariant timeHorizon >= 0 ==> year <= timeHorizon + 1
      invariant timeHorizon < 0 ==> year == 0
      invariant value == Carried(currentSavings, annualReturn, scenario.monthlyContribution,
                                 if year == 0 then 0 else year - 1)
      invariant forall y :: 0 <= y < year ==>
        data[y] == Point(y, Round(Carried(currentSavings, annualReturn, scenario.monthlyContribution, y)))
    {
      if year > 0 {
        value := Grown(value, annualReturn) + scenario.monthlyContribution * 12.0;
      }
      data := data + [Point(year, Round(value))];
      year := year + 1;
    }
  }

  /** generateScenarios. */
  method GenerateScenarios(currentSavings: real, timeHorizon: int) returns (scenarios: seq<Scenario>)
    ensures |scenarios| == 3
    ensures forall i :: 0 <= i < 3 ==>
      scenarios[i] == Presets()[i].(data := Series(currentSavings, Presets()[i], timeHorizon))
  {
    var presets := Presets();
    scenarios := [];
    var i := 0;
    while i < 3
      invariant 0 <= i <= 3 && |scenarios| == i
      invariant forall k :: 0 <= k < i ==>
        scenarios[k] == presets[k].(data := Series(currentSavings, presets[k], timeHorizon))
    {
      var data := FillSeries(presets[i], currentSavings, timeHorizon);
      scenarios := scenarios + [presets[i].(data := data)];
      i := i + 1;
    }
  }

  /** `data[data.length - 1]?.value || 0`: the last point, 0 for an empty series. */
  function FinalValue(s: Scenario): (r: int)
    ensures s.data == [] ==> r == 0
    ensures s.data != [] ==> r == s.data[|s.data| - 1].value
  {
    if s.data == [] then 0 else s.data[|s.data| - 1].value
  }

  /** The savings plus twelve contributions for each year of the horizon. */
  function TotalContributions(currentSavings: real, s: Scenario, timeHorizon: int): real {
    currentSavings + s.monthlyContribution * 12.0 * timeHorizon as real
  }

  function Gains(currentSavings: real, s: Scenario, timeHorizon: int): (r: real)
    ensures r + TotalContributions(currentSavings, s, timeHorizon) == FinalValue(s) as real
  {
    FinalValue(s) as real - TotalContributions(currentSavings, s, timeHorizon)
  }

  /**
   * (final / totalContributions - 1) * 100. The source divides without a
   * guard; a zero total, which JavaScript turns into Infinity or NaN, is None.
   */
  function ReturnPercent(currentSavings: real, s: Scenario, timeHorizon: int): (r: Option<real>)
    ensures r.None? <==> TotalContributions(currentSavings, s, timeHorizon) == 0.0
    ensures r.Some? ==> r.value * TotalContributions(currentSavings, s, timeHorizon)
                        == 100.0 * Gains(currentSavings, s, timeHorizon)
  {
    var total := TotalContributions(currentSavings, s, timeHorizon);
    if total == 0.0 then None
    else
      var p := (FinalValue(s) as real / total - 1.0) * 100.0;
      assert p * total == 100.0 * (FinalValue(s) as real - total);
      Some(p)
  }

  /** A generated scenario's final value is its carried value after the whole horizon, rounded. */
  lemma FinalValueOfSeries(currentSavings: real, s: Scenario, timeHorizon: nat)
    ensures FinalValue(s.(data := Series(currentSavings, s, timeHorizon)))
         == Round(Carried(currentSavings, AnnualReturn(s.riskTolerance), s.monthlyContribution, timeHorizon))
  {
  }

  /**
   * A fund with a rate and contribution no lower never falls behind, and
   * after a year is ahead by at least 12 x the extra contribution.
   */
  lemma {:induction false} CarriedGap(savings: real, r1: real, c1: real, r2: real, c2: real, year: nat)
    requires 0.0 <= savings && 0.0 <= r1 <= r2 && 0.0 <= c1 <= c2
    ensures 0.0 <= Carried(savings, r1, c1, year) <= Carried(savings, r2, c2, year)
    ensures year > 0 ==> Carried(savings, r1, c1, year) + 12.0 * (c2 - c1) <= Carried(savings, r2, c2, year)
  {
    if year > 0 {
      CarriedGap(savings, r1, c1, r2, c2, year - 1);
      var v1 := Carried(savings, r1, c1, year - 1);
      var v2 := Carried(savings, r2, c2, year - 1);
      GrowthNotLess(v1, r1);
      GrowthWidensGap(v1, r1, v2, r2);
    }
  }

  /** The larger balance at the larger rate gains at least as much. */
  lemma GrowthWidensGap(v1: real, r1: real, v2: real, r2: real)
    requires 0.0 <= v1 <= v2 && 0.0 <= r1 <= r2
    ensures v2 - v1 <= Grown(v2, r2) - Grown(v1, r1)
  {
    MulNonNegative(v2 - v1, r1);
    MulNonNegative(v2, r2 - r1);
    assert Grown(v2, r2) - Grown(v1, r1) == (v2 - v1) + (v2 - v1) * r1 + v2 * (r2 - r1);
  }

  /** With savings not negative and at least one year, Conservative < Moderate < Aggressive at the end. */
  lemma FinalValuesIncrease(currentSavings: real, timeHorizon: nat)
    requires 0.0 <= currentSavings && 1 <= timeHorizon
    ensures var p := Presets();
            var c := FinalValue(p[0].(data := Series(currentSavings, p[0], timeHorizon)));
            var m := FinalValue(p[1].(data := Series(currentSavings, p[1], timeHorizon)));
            var a := FinalValue(p[2].(data := Series(currentSavings, p[2], timeHorizon)));
            c < m < a
  {
    var p := Presets();
    FinalValueOfSeries(currentSavings, p[0], timeHorizon);
    FinalValueOfSeries(currentSavings, p[1], timeHorizon);
    FinalValueOfSeries(currentSavings, p[2], timeHorizon);
    var rc, rm, ra := AnnualReturn(3.0), AnnualReturn(6.0), AnnualReturn(9.0);
    assert 0.0 <= rc <= rm <= ra;
    CarriedGap(currentSavings, rc, 500.0, rm, 1000.0, timeHorizon);
    CarriedGap(currentSavings, rm, 1000.0, ra, 1500.0, timeHorizon);
    var vc := Carried(currentSavings, rc, 500.0, timeHorizon);
    var vm := Carried(currentSavings, rm, 1000.0, timeHorizon);
    var va := Carried(currentSavings, ra, 1500.0, timeHorizon);
    assert vc + 1.0 <= vm && vm + 1.0 <= va;
    RoundStrict(vc, vm);
    RoundStrict(vm, va);
  }
}
