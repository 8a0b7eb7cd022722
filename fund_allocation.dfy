/**
 * The fund-allocation planner: savings are split at year 0 into an
 * emergency fund and short-, medium- and long-term buckets by risk, and
 * each bucket then grows yearly at its own rate while the monthly
 * contribution is shared among them.
 */
module FundAllocation {
  import opened Common

  /** The unrounded balances the planner carries from year to year. */
  datatype Buckets = Buckets(emergency: real, short: real, medium: real, long: real)

  /** One emitted point of the plan. */
  datatype AllocationPlan = AllocationPlan(year: int, emergencyFund: int, shortTerm: int, mediumTerm: int, longTerm: int, total: int)

  /** monthlyExpenses * 6, with the expenses fixed at 3000. */
  const EmergencyFundTarget: real := 3000.0 * 6.0

  const EmergencyGrowth: real := 0.02
  const ShortTermGrowth: real := 0.04

  /** Risk in 1..10, 5 when unset (0). */
  function ValidRisk(riskTolerance: real): (r: real)
    ensures 1.0 <= r <= 10.0
    ensures riskTolerance == 0.0 ==> r == 5.0
    ensures riskTolerance != 0.0 ==> r == Clamp(1.0, 10.0, riskTolerance)
  {
    Max(1.0, Min(10.0, OrDefault(riskTolerance, 5.0)))
  }

  /** Savings floored at 0. */
  function ValidSavings(currentSavings: real): (r: real)
    ensures 0.0 <= r && currentSavings <= r
    ensures 0.0 <= currentSavings ==> r == currentSavings
    ensures currentSavings < 0.0 ==> r == 0.0
  {
    Max(0.0, OrDefault(currentSavings, 0.0))
  }

  /** Horizon in 1..30 years, 10 when unset (0). */
  function ValidHorizon(timeHorizon: int): (r: int)
    ensures 1 <= r <= 30
    ensures timeHorizon == 0 ==> r == 10
    ensures timeHorizon != 0 && 1 <= timeHorizon <= 30 ==> r == timeHorizon
    ensures timeHorizon > 30 ==> r == 30
    ensures timeHorizon < 0 ==> r == 1
  {
    var h := if timeHorizon == 0 then 10 else timeHorizon;
    if h < 1 then 1 else if h > 30 then 30 else h
  }

  function MediumTermGrowth(risk: real): real {
    0.06 + (risk / 10.0) * 0.02
  }

  function LongTermGrowth(risk: real): real {
    0.08 + (risk / 10.0) * 0.04
  }

  /** The medium and long rates stay within 6.2-8% and 8.4-12% over the risk scale. */
  lemma GrowthRateBounds(risk: real)
    requires 1.0 <= risk <= 10.0
    ensures 0.062 <= MediumTermGrowth(risk) <= 0.08
    ensures 0.084 <= LongTermGrowth(risk) <= 0.12
    ensures ShortTermGrowth < MediumTermGrowth(risk) < LongTermGrowth(risk)
  {
  }

  /** Year 0: 20% to the emergency fund up to the target; the rest split by risk. */
  function InitialBuckets(savings: real, risk: real): Buckets {
    var stockAllocation := risk / 10.0;
    var bondAllocation := 1.0 - stockAllocation;
    var emergency := Min(savings * 0.2, EmergencyFundTarget);
    var remaining := Max(0.0, savings - emergency);
    Buckets(emergency,
            remaining * 0.2 * bondAllocation,
            remaining * 0.3 * (stockAllocation * 0.5 + bondAllocation * 0.5),
            remaining * 0.5 * stockAllocation)
  }

  /** A later year: each bucket grows at its rate and takes its share of one monthly contribution. */
  function GrowBuckets(b: Buckets, monthlyContribution: real, risk: real, year: int): (r: Buckets)
    ensures r.emergency <= EmergencyFundTarget * (1.0 + EmergencyGrowth * year as real)
  {
    var stockAllocation := risk / 10.0;
    var bondAllocation := 1.0 - stockAllocation;
    Buckets(Min(Grown(b.emergency, EmergencyGrowth) + monthlyContribution * 0.1,
                EmergencyFundTarget * (1.0 + EmergencyGrowth * year as real)),
            Grown(b.short, ShortTermGrowth) + monthlyContribution * 0.2 * bondAllocation,
            Grown(b.medium, MediumTermGrowth(risk)) + monthlyContribution * 0.3,
            Grown(b.long, LongTermGrowth(risk)) + monthlyContribution * 0.5 * stockAllocation)
  }

  /** The carried balances after processing `year`. */
  function BucketsAt(savings: real, monthlyContribution: real, risk: real, year: nat): (r: Buckets)
    ensures r.emergency <= EmergencyFundTarget * (1.0 + EmergencyGrowth * year as real)
  {
    if year == 0 then InitialBuckets(savings, risk)
    else GrowBuckets(BucketsAt(savings, monthlyContribution, risk, year - 1), monthlyContribution, risk, year)
  }

  /** The pushed point: every field rounded after flooring at 0; the total from the unrounded sum. */
  function Emit(year: int, b: Buckets): (p: AllocationPlan)
    ensures p.year == year
    ensures p.emergencyFund >= 0 && p.shortTerm >= 0 && p.mediumTerm >= 0 && p.longTerm >= 0 && p.total >= 0
  {
    RoundNonNegative(Max(0.0, b.emergency));
    RoundNonNegative(Max(0.0, b.short));
    RoundNonNegative(Max(0.0, b.medium));
    RoundNonNegative(Max(0.0, b.long));
    RoundNonNegative(Max(0.0, b.emergency + b.short + b.medium + b.long));
    AllocationPlan(year,
                   Round(Max(0.0, b.emergency)), Round(Max(0.0, b.short)),
                   Round(Max(0.0, b.medium)), Round(Max(0.0, b.long)),
                   Round(Max(0.0, b.emergency + b.short + b.medium + b.long)))
  }

  /** Each entry of the history is the previous one grown by a year. */
  ghost predicate YearSteps(history: seq<Buckets>, monthlyContribution: real, risk: real) {
    forall y :: 0 < y < |history| ==> GrewAt(history, monthlyContribution, risk, y)
  }

  ghost predicate GrewAt(history: seq<Buckets>, monthlyContribution: real, risk: real, y: int)
    requires 0 < y < |history|
  {
    history[y] == GrowBuckets(history[y - 1], monthlyContribution, risk, y)
  }

  /** A history stays a run of yearly steps when the next year's growth is appended. */
  lemma YearStepsExtend(history: seq<Buckets>, next: Buckets, monthlyContribution: real, risk: real)
    requires 0 < |history| && YearSteps(history, monthlyContribution, risk)
    requires next == GrowBuckets(history[|history| - 1], monthlyContribution, risk, |history|)
    ensures YearSteps(history + [next], monthlyContribution, risk)
  {
    var longer := history + [next];
    forall y | 0 < y < |longer|
      ensures GrewAt(longer, monthlyContribution, risk, y)
    {
      if y < |history| {
        assert GrewAt(history, monthlyContribution, risk, y);
      }
    }
  }

  lemma {:induction false} HistoryIsBucketsAt(history: seq<Buckets>, savings: real, monthlyContribution: real, risk: real, y: nat)
    requires 0 < |history| && history[0] == InitialBuckets(savings, risk)
    requires YearSteps(history, monthlyContribution, risk) && y < |history|
    ensures history[y] == BucketsAt(savings, monthlyContribution, risk, y)
  {
    if y > 0 {
      HistoryIsBucketsAt(history, savings, monthlyContribution, risk, y - 1);
      assert GrewAt(history, monthlyContribution, risk, y);
    }
  }

  /** InitialBuckets spelled out with the shares computed once. */
  lemma InitialBucketsUnfolded(savings: real, risk: real, stockAllocation: real, bondAllocation: real,
                               emergency: real, remaining: real)
    requires stockAllocation == risk / 10.0 && bondAllocation == 1.0 - stockAllocation
    requires emergency == Min(savings * 0.2, EmergencyFundTarget) && remaining == Max(0.0, savings - emergency)
    ensures InitialBuckets(savings, risk)
         == Buckets(emergency, remaining * 0.2 * bondAllocation,
                    remaining * 0.3 * (stockAllocation * 0.5 + bondAllocation * 0.5),
                    remaining * 0.5 * stockAllocation)
  {
  }

  /** GrowBuckets spelled out with the rates and shares computed once. */
  lemma GrowBucketsUnfolded(b: Buckets, monthlyContribution: real, risk: real, year: int,
                            stockAllocation: real, bondAllocation: real, mediumTermGrowth: real, longTermGrowth: real)
    requires stockAllocation == risk / 10.0 && bondAllocation == 1.0 - stockAllocation
    requires mediumTermGrowth == MediumTermGrowth(risk) && longTermGrowth == LongTermGrowth(risk)
    ensures GrowBuckets(b, monthlyContribution, risk, year)
         == Buckets(Min(Grown(b.emergency, EmergencyGrowth) + monthlyContribution * 0.1,
                        EmergencyFundTarget * (1.0 + EmergencyGrowth * year as real)),
                    Grown(b.short, ShortTermGrowth) + monthlyContribution * 0.2 * bondAllocation,
                    Grown(b.medium, mediumTermGrowth) + monthlyContribution * 0.3,
                    Grown(b.long, longTermGrowth) + monthlyContribution * 0.5 * stockAllocation)
  {
  }

  /** The year-0 branch: the emergency fund first, then the rest split by the stock and bond shares. */
  method OpeningSplit(totalContributions: real, risk: real, stockAllocation: real, bondAllocation: real)
    returns (emergencyFund: real, shortTerm: real, mediumTerm: real, longTerm: real)
    requires stockAllocation == risk / 10.0 && bondAllocation == 1.0 - stockAllocation
    ensures Buckets(emergencyFund, shortTerm, mediumTerm, longTerm) == InitialBuckets(totalContributions, risk)
  {
    emergencyFund := Min(totalContributions * 0.2, EmergencyFundTarget);
    var remaining := Max(0.0, totalContributions - emergencyFund);
    InitialBucketsUnfolded(totalContributions, risk, stockAllocation, bondAllocation, emergencyFund, remaining);
    shortTerm := remaining * 0.2 * bondAllocation;
    mediumTerm := remaining * 0.3 * (stockAllocation * 0.5 + bondAllocation * 0.5);
    longTerm := remaining * 0.5 * stockAllocation;
  }

  /** A later year's branch: each bucket grows at its rate and takes its share of the contribution. */
  method YearGrowth(emergency: real, short: real, medium: real, long: real, monthlyContribution: real, risk: real,
                    year: int, stockAllocation: real, bondAllocation: real, mediumTermGrowth: real, longTermGrowth: real)
    returns (emergencyFund: real, shortTerm: real, mediumTerm: real, longTerm: real)
    requires stockAllocation == risk / 10.0 && bondAllocation == 1.0 - stockAllocation
    requires mediumTermGrowth == MediumTermGrowth(risk) && longTermGrowth == LongTermGrowth(risk)
    ensures Buckets(emergencyFund, shortTerm, mediumTerm, longTerm)
         == GrowBuckets(Buckets(emergency, short, medium, long), monthlyContribution, risk, year)
  {
    GrowBucketsUnfolded(Buckets(emergency, short, medium, long), monthlyContribution, risk, year,
                        stockAllocation, bondAllocation, mediumTermGrowth, longTermGrowth);
    emergencyFund := Min(Grown(emergency, EmergencyGrowth) + monthlyContribution * 0.1,
                         EmergencyFundTarget * (1.0 + EmergencyGrowth * year as real));
    shortTerm := Grown(short, ShortTermGrowth) + monthlyContribution * 0.2 * bondAllocation;
    mediumTerm := Grown(medium, mediumTermGrowth) + monthlyContribution * 0.3;
    longTerm := Grown(long, longTermGrowth) + monthlyContribution * 0.5 * stockAllocation;
  }

  /** calculateAllocation. */
  method CalculateAllocation(riskTolerance: real, currentSavings: real, monthlyContribution: real, timeHorizon: int)
    returns (data: seq<AllocationPlan>)
    ensures |data| == ValidHorizon(timeHorizon) + 1
    ensures forall y :: 0 <= y < |data| ==>
      data[y] == Emit(y, BucketsAt(ValidSavings(currentSavings), monthlyContribution, ValidRisk(riskTolerance), y))
    ensures forall y :: 0 <= y < |data| ==> data[y].year == y
  {
    var validRiskTolerance := ValidRisk(riskTolerance);
    var validSavings := ValidSavings(currentSavings);
    var validContribution := Max(0.0, OrDefault(monthlyContribution, 0.0));
    var validHorizon := ValidHorizon(timeHorizon);

    data := [];
    var stockAllocation := validRiskTolerance / 10.0;
    var bondAllocation := 1.0 - stockAllocation;
    var mediumTermGrowth := MediumTermGrowth(validRiskTolerance);
    var longTermGrowth := LongTermGrowth(validRiskTolerance);

    var emergencyFund, shortTerm, mediumTerm, longTerm := 0.0, 0.0, 0.0, 0.0;
    ghost var history: seq<Buckets> := [];
    var year := 0;
    while year <= validHorizon
      invariant 0 <= year <= validHorizon + 1
      invariant |data| == year && |history| == year
      invariant year > 0 ==> history[0] == InitialBuckets(validSavings, validRiskTolerance)
      invariant YearSteps(history, monthlyContribution, validRiskTolerance)
      invariant year > 0 ==> Buckets(emergencyFund, shortTerm, mediumTerm, longTerm) == history[year - 1]
      invariant forall y :: 0 <= y < year ==> data[y] == Emit(y, history[y])
    {
      if year == 0 {
        // savings plus year * 12 contributions, which at year 0 is the savings alone
        var totalContributions := validSavings + (year * 12) as real * validContribution;
        assert totalContributions == validSavings;
        emergencyFund, shortTerm, mediumTerm, longTerm :=
          OpeningSplit(totalContributions, validRiskTolerance, stockAllocation, bondAllocation);
        history := [InitialBuckets(validSavings, validRiskTolerance)];
        assert YearSteps(history, monthlyContribution, validRiskTolerance);
      } else {
        emergencyFund, shortTerm, mediumTerm, longTerm :=
          YearGrowth(emergencyFund, shortTerm, mediumTerm, longTerm, monthlyContribution, validRiskTolerance, year,
                     stockAllocation, bondAllocation, mediumTermGrowth, longTermGrowth);
        ghost var next := GrowBuckets(history[year - 1], monthlyContribution, validRiskTolerance, year);
        YearStepsExtend(history, next, monthlyContribution, validRiskTolerance);
        history := history + [next];
      }
      data := data + [Emit(year, Buckets(emergencyFund, shortTerm, mediumTerm, longTerm))];
      year := year + 1;
    }
    forall y | 0 <= y < |data|
      ensures history[y] == BucketsAt(validSavings, monthlyContribution, validRiskTolerance, y)
    {
      HistoryIsBucketsAt(history, validSavings, monthlyContribution, validRiskTolerance, y);
    }
  }

  /**
   * The year-0 split: the emergency fund takes 20% of the savings up to
   * 18000; of the rest, short, medium and long take (35 + 30 s)% where s is
   * the stock share, which never exceeds the rest.
   */
  lemma YearZeroSplit(savings: real, risk: real)
    requires 0.0 <= savings && 1.0 <= risk <= 10.0
    ensures BucketsAt(savings, 0.0, risk, 0).emergency == Min(0.2 * savings, 18000.0)
    ensures var b := BucketsAt(savings, 0.0, risk, 0);
            var remaining := Max(0.0, savings - b.emergency);
            b.medium == remaining * 0.15
            && b.short + b.medium + b.long == remaining * (0.35 + 0.3 * (risk / 10.0))
            && b.short + b.medium + b.long <= remaining
  {
    var b := InitialBuckets(savings, risk);
    var remaining := Max(0.0, savings - b.emergency);
    var s := risk / 10.0;
    assert b.short == remaining * 0.2 * (1.0 - s);
    assert b.long == remaining * 0.5 * s;
    assert 0.35 + 0.3 * s <= 0.65;
    assert remaining * (0.35 + 0.3 * s) <= remaining * 0.65;
  }

  /** Every balance after year 0 respects the growing emergency cap. */
  lemma EmergencyCapped(savings: real, contribution: real, risk: real, year: nat)
    requires year > 0
    ensures BucketsAt(savings, contribution, risk, year).emergency <= 18000.0 * (1.0 + 0.02 * year as real)
  {
  }

  /** With savings and contributions not negative, no carried balance is negative. */
  lemma {:induction false} BucketsNonNegative(savings: real, contribution: real, risk: real, year: nat)
    requires 0.0 <= savings && 0.0 <= contribution && 1.0 <= risk <= 10.0
    ensures var b := BucketsAt(savings, contribution, risk, year);
            0.0 <= b.emergency && 0.0 <= b.short && 0.0 <= b.medium && 0.0 <= b.long
  {
    if year > 0 {
      BucketsNonNegative(savings, contribution, risk, year - 1);
      var b := BucketsAt(savings, contribution, risk, year - 1);
      GrowthStepNonNegative(b, contribution, risk, year);
    } else {
      var remaining := Max(0.0, savings - Min(savings * 0.2, EmergencyFundTarget));
      MulNonNegative(remaining * 0.2, 1.0 - risk / 10.0);
      MulNonNegative(remaining * 0.5, risk / 10.0);
      MulNonNegative(remaining * 0.3, (risk / 10.0) * 0.5 + (1.0 - risk / 10.0) * 0.5);
    }
  }

  lemma GrowthStepNonNegative(b: Buckets, contribution: real, risk: real, year: int)
    requires 0.0 <= b.emergency && 0.0 <= b.short && 0.0 <= b.medium && 0.0 <= b.long
    requires 0.0 <= contribution && 1.0 <= risk <= 10.0 && 0 < year
    ensures var c := GrowBuckets(b, contribution, risk, year);
            b.short <= c.short && b.medium <= c.medium && b.long <= c.long
            && 0.0 <= c.emergency
  {
    GrowthNotLess(b.short, ShortTermGrowth);
    GrowthNotLess(b.medium, MediumTermGrowth(risk));
    GrowthNotLess(b.long, LongTermGrowth(risk));
    GrowthNotLess(b.emergency, EmergencyGrowth);
    MulNonNegative(contribution * 0.2, 1.0 - risk / 10.0);
    MulNonNegative(contribution * 0.5, risk / 10.0);
    MulNonNegative(EmergencyFundTarget, 1.0 + EmergencyGrowth * year as real);
  }

  /** The emergency fund never exceeds that year's cap, 18000 at year 0. */
  lemma {:induction false} EmergencyWithinCap(savings: real, contribution: real, risk: real, year: nat)
    ensures BucketsAt(savings, contribution, risk, year).emergency <= EmergencyFundTarget * (1.0 + EmergencyGrowth * year as real)
  {
  }

  /** With a non-negative contribution, no bucket ever shrinks from one year to the next. */
  lemma BucketsNondecreasing(savings: real, contribution: real, risk: real, year: nat)
    requires 0.0 <= savings && 0.0 <= contribution && 1.0 <= risk <= 10.0
    ensures var b := BucketsAt(savings, contribution, risk, year);
            var c := BucketsAt(savings, contribution, risk, year + 1);
            b.short <= c.short && b.medium <= c.medium && b.long <= c.long && b.emergency <= c.emergency
  {
    BucketsNonNegative(savings, contribution, risk, year);
    EmergencyWithinCap(savings, contribution, risk, year);
    var b := BucketsAt(savings, contribution, risk, year);
    GrowthStepNonNegative(b, contribution, risk, year + 1);
    GrowthNotLess(b.emergency, EmergencyGrowth);
  }

  /**
   * With non-negative balances the total, rounded once from the unrounded
   * sum, is within 2 of the sum of the four rounded fields.
   */
  lemma TotalNearFieldSum(year: int, b: Buckets)
    requires 0.0 <= b.emergency && 0.0 <= b.short && 0.0 <= b.medium && 0.0 <= b.long
    ensures var p := Emit(year, b);
            -2 <= p.total - (p.emergencyFund + p.shortTerm + p.mediumTerm + p.longTerm) <= 2
  {
  }
}
