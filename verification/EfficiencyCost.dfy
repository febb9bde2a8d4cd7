// What the efficiency report's money is: tokens of each kind at the rate of that kind.
module EfficiencyCost {
  import opened Prelude
  import opened Sums
  import opened Efficiency
  import B = EfficiencyBreakdown
  import R = EfficiencyReport

  datatype TokenKind = Input | Output | CacheRead | CacheWrite

  function TokensOf(k: TokenKind, t: Kinds): real {
    match k
    case Input => t.input
    case Output => t.output
    case CacheRead => t.cacheRead
    case CacheWrite => t.cacheWrite
  }

  // Dollars per million tokens of a kind.
  function RateOf(k: TokenKind, r: B.Rate): real {
    match k
    case Input => r.input
    case Output => r.output
    case CacheRead => r.cacheRead
    case CacheWrite => r.cacheWrite
  }

  // A model's part of an issue: by the days it ran, else by the number of its runs, else equal parts.
  function PartOf(uses: seq<ModelUse>, u: ModelUse): real {
    if Sum(uses, DaysOf) > 0.0 then u.days / Sum(uses, DaysOf)
    else if Sum(uses, CountOf) > 0.0 then u.n / Sum(uses, CountOf)
    else if uses == [] then 0.0
    else 1.0 / |uses| as real
  }

  // tokens of one kind times the selected fraction times the model's part, at that kind's rate
  function KindCost(k: TokenKind, row: IssueRow, e: Entry, rates: B.Rates, u: ModelUse): real {
    match rates(row.id, u.model)
    case None => 0.0
    case Some(rate) => Product(TokensOf(k, row.usage), e.fraction, PartOf(e.models, u), RateOf(k, rate))
  }

  function Product(tokens: real, fraction: real, part: real, rate: real): real { tokens * fraction * part * rate / 1000000.0 }

  function AllKinds(f: TokenKind -> real): real { f(Input) + f(Output) + f(CacheRead) + f(CacheWrite) }

  function KindCosts(row: IssueRow, e: Entry, rates: B.Rates, u: ModelUse): TokenKind -> real {
    (k: TokenKind) => KindCost(k, row, e, rates, u)
  }

  lemma PartIsTheWeight(uses: seq<ModelUse>, u: ModelUse)
    requires uses != []
    ensures PartOf(uses, u) == B.UseWeight(uses, u)
  {
  }

  lemma TermOf(tokens: real, fraction: real, part: real, rate: real)
    ensures (tokens * fraction * part) * rate / 1000000.0 == Product(tokens, fraction, part, rate)
  {
  }

  lemma DollarsOf(k: Kinds, r: B.Rate)
    ensures B.Dollars(k, r)
         == k.input * r.input / 1000000.0 + k.output * r.output / 1000000.0
            + k.cacheRead * r.cacheRead / 1000000.0 + k.cacheWrite * r.cacheWrite / 1000000.0
  {
  }

  // What a share costs: nothing is known for a model without a rate, and otherwise it is the sum over
  // the four kinds of that kind's tokens at that kind's rate.
  lemma ShareCosts(row: IssueRow, e: Entry, rates: B.Rates, u: ModelUse)
    requires u in e.models
    ensures var s := B.UseShare(row, e, rates, u);
      && (s.cost.None? <==> rates(row.id, u.model).None?)
      && (s.cost.Some? ==> s.cost.value == AllKinds(KindCosts(row, e, rates, u)))
      && B.CostOf(s) == AllKinds(KindCosts(row, e, rates, u))
  {
    if rates(row.id, u.model).Some? {
      var rate, w := rates(row.id, u.model).value, PartOf(e.models, u);
      PartIsTheWeight(e.models, u);
      DollarsOf(B.Scale(B.Scale(row.usage, e.fraction), w), rate);
      TermOf(row.usage.input, e.fraction, w, rate.input);
      TermOf(row.usage.output, e.fraction, w, rate.output);
      TermOf(row.usage.cacheRead, e.fraction, w, rate.cacheRead);
      TermOf(row.usage.cacheWrite, e.fraction, w, rate.cacheWrite);
    }
  }

  lemma NoTokensNoCost(fraction: real, part: real, rate: real)
    ensures Product(0.0, fraction, part, rate) == 0.0
  {
  }

  // So tokens of a single kind cost those tokens at the rate of that kind and of no other.
  lemma OneKindCosts(k: TokenKind, row: IssueRow, e: Entry, rates: B.Rates, u: ModelUse)
    requires u in e.models && rates(row.id, u.model).Some?
    requires forall j: TokenKind :: j != k ==> TokensOf(j, row.usage) == 0.0
    ensures B.UseShare(row, e, rates, u).cost
         == Some(Product(TokensOf(k, row.usage), e.fraction, PartOf(e.models, u), RateOf(k, rates(row.id, u.model).value)))
  {
    ShareCosts(row, e, rates, u);
    var rate := rates(row.id, u.model).value;
    forall j: TokenKind | j != k ensures KindCost(j, row, e, rates, u) == 0.0 {
      NoTokensNoCost(e.fraction, PartOf(e.models, u), RateOf(j, rate));
    }
    OneOfFour(k, KindCosts(row, e, rates, u));
    assert AllKinds(KindCosts(row, e, rates, u)) == KindCost(k, row, e, rates, u);
  }

  lemma OneOfFour(k: TokenKind, f: TokenKind -> real)
    requires forall j: TokenKind :: j != k ==> f(j) == 0.0
    ensures AllKinds(f) == f(k)
  {
    match k
    case Input => assert f(Output) == 0.0 && f(CacheRead) == 0.0 && f(CacheWrite) == 0.0;
    case Output => assert f(Input) == 0.0 && f(CacheRead) == 0.0 && f(CacheWrite) == 0.0;
    case CacheRead => assert f(Output) == 0.0 && f(Input) == 0.0 && f(CacheWrite) == 0.0;
    case CacheWrite => assert f(Output) == 0.0 && f(CacheRead) == 0.0 && f(Input) == 0.0;
  }

  lemma ProductAdds(x: real, y: real, fraction: real, part: real, rate: real)
    ensures Product(x + y, fraction, part, rate) == Product(x, fraction, part, rate) + Product(y, fraction, part, rate)
  {
    assert (x + y) * fraction * part * rate == x * fraction * part * rate + y * fraction * part * rate;
  }

  // ... and more tokens cost what they cost by themselves on top.
  lemma CostIsAdditive(row: IssueRow, more: Kinds, e: Entry, rates: B.Rates, u: ModelUse)
    requires u in e.models
    ensures B.CostOf(B.UseShare(row.(usage := B.Plus(row.usage, more)), e, rates, u))
         == B.CostOf(B.UseShare(row, e, rates, u)) + B.CostOf(B.UseShare(row.(usage := more), e, rates, u))
  {
    ShareCosts(row, e, rates, u);
    ShareCosts(row.(usage := more), e, rates, u);
    ShareCosts(row.(usage := B.Plus(row.usage, more)), e, rates, u);
    if rates(row.id, u.model).Some? {
      var rate, w := rates(row.id, u.model).value, PartOf(e.models, u);
      ProductAdds(row.usage.input, more.input, e.fraction, w, rate.input);
      ProductAdds(row.usage.output, more.output, e.fraction, w, rate.output);
      ProductAdds(row.usage.cacheRead, more.cacheRead, e.fraction, w, rate.cacheRead);
      ProductAdds(row.usage.cacheWrite, more.cacheWrite, e.fraction, w, rate.cacheWrite);
    }
  }

  // ---- the report ----

  // What one issue spends on one kind: the sum over its models.
  function IssueSpends(k: TokenKind, entries: B.Entries, rates: B.Rates): IssueRow -> real {
    (row: IssueRow) => if entries(row).Some? then Sum(entries(row).value.models, UseSpends(k, row, entries(row).value, rates)) else 0.0
  }

  function UseSpends(k: TokenKind, row: IssueRow, e: Entry, rates: B.Rates): ModelUse -> real {
    (u: ModelUse) => KindCost(k, row, e, rates, u)
  }

  function UseCosts(row: IssueRow, e: Entry, rates: B.Rates): ModelUse -> real {
    (u: ModelUse) => AllKinds(KindCosts(row, e, rates, u))
  }

  function UseTotals(uses: seq<ModelUse>, row: IssueRow, e: Entry, rates: B.Rates): TokenKind -> real {
    (k: TokenKind) => Sum(uses, UseSpends(k, row, e, rates))
  }

  lemma {:induction false} KindsApart(uses: seq<ModelUse>, row: IssueRow, e: Entry, rates: B.Rates)
    ensures Sum(uses, UseCosts(row, e, rates)) == AllKinds(UseTotals(uses, row, e, rates))
  {
    if uses != [] { KindsApart(uses[..|uses| - 1], row, e, rates); }
  }

  lemma WeightlessCostsNothing(row: IssueRow, e: Entry, rates: B.Rates, u: ModelUse)
    requires B.Measured(e) && u in e.models && B.UseWeight(e.models, u) <= 0.0
    ensures AllKinds(KindCosts(row, e, rates, u)) == 0.0
  {
    B.UseWeightsSum(e);
    PartIsTheWeight(e.models, u);
    assert PartOf(e.models, u) == 0.0;
    forall k: TokenKind ensures KindCost(k, row, e, rates, u) == 0.0 {
      if rates(row.id, u.model).Some? { NoPartNoCost(TokensOf(k, row.usage), e.fraction, RateOf(k, rates(row.id, u.model).value)); }
    }
  }

  lemma NoPartNoCost(tokens: real, fraction: real, rate: real)
    ensures Product(tokens, fraction, 0.0, rate) == 0.0
  {
  }

  lemma IssueCosts(row: IssueRow, e: Entry, rates: B.Rates)
    requires B.Measured(e)
    ensures Sum(B.SharesOf(row, e, rates), B.CostOf) == AllKinds(UseTotals(e.models, row, e, rates))
  {
    forall u | u in e.models && B.UseWeight(e.models, u) > 0.0
      ensures B.CostOf(B.UseShare(row, e, rates, u)) == UseCosts(row, e, rates)(u)
    {
      ShareCosts(row, e, rates, u);
    }
    forall u | u in e.models && B.UseWeight(e.models, u) <= 0.0 ensures UseCosts(row, e, rates)(u) == 0.0 {
      WeightlessCostsNothing(row, e, rates, u);
    }
    B.SharesFromSum(row, e, rates, e.models, B.CostOf, UseCosts(row, e, rates));
    KindsApart(e.models, row, e, rates);
  }

  function Spent(rows: seq<IssueRow>, entries: B.Entries, rates: B.Rates): TokenKind -> real {
    (k: TokenKind) => Sum(rows, IssueSpends(k, entries, rates))
  }

  lemma {:induction false} SharesCost(rows: seq<IssueRow>, entries: B.Entries, rates: B.Rates)
    requires B.AllMeasured(rows, entries)
    ensures Sum(B.AllShares(rows, entries, rates), B.CostOf) == AllKinds(Spent(rows, entries, rates))
  {
    if rows != [] {
      var n := |rows| - 1;
      var row := rows[n];
      assert row in rows;
      SharesCost(rows[..n], entries, rates);
      var mine := if entries(row).Some? then B.SharesOf(row, entries(row).value, rates) else [];
      SumConcat(B.AllShares(rows[..n], entries, rates), mine, B.CostOf);
      if entries(row).Some? { IssueCosts(row, entries(row).value, rates); }
    }
  }

  // The report's cost is the sum over kinds, issues and models of tokens times fraction times the
  // model's part at that kind's rate, per million.
  lemma ReportCosts(r: R.Report, rows: seq<IssueRow>, entries: B.Entries, rates: B.Rates)
    requires R.Says(r, rows, entries, rates) && B.AllMeasured(rows, entries)
    ensures r.cost == Sum(rows, IssueSpends(Input, entries, rates)) + Sum(rows, IssueSpends(Output, entries, rates))
                      + Sum(rows, IssueSpends(CacheRead, entries, rates)) + Sum(rows, IssueSpends(CacheWrite, entries, rates))
  {
    B.ClosedConserve(rows, entries, rates);
    SharesCost(rows, entries, rates);
  }

  // ---- the weighted figure ----

  // Dollars per active hour per story point of a fully priced issue.
  function PerHourAndPoint(c: B.Closed): real { if c.hours > 0.0 && c.points > 0.0 then c.cost / c.hours / c.points else 0.0 }

  predicate Compared(c: B.Closed) { c.priced && c.hours > 0.0 && c.points > 0.0 }

  function PointsCompared(c: B.Closed): real { if Compared(c) then c.points else 0.0 }
  function PointsTimesMetric(c: B.Closed): real { if Compared(c) then c.points * PerHourAndPoint(c) else 0.0 }

  lemma DivideAndMultiply(x: real, p: real)
    requires p > 0.0
    ensures p * (x / p) == x
  {
  }

  // The weighted efficiency is the mean of that figure over the fully priced issues, weighted by their
  // story points.
  lemma WeightedIsAMean(r: R.Report, rows: seq<IssueRow>, entries: B.Entries, rates: B.Rates)
    requires R.Says(r, rows, entries, rates)
    ensures var closed := B.AllClosed(rows, entries, rates);
      r.weightedNum == Sum(closed, PointsTimesMetric) && r.weightedDen == Sum(closed, PointsCompared)
  {
    var closed := B.AllClosed(rows, entries, rates);
    forall c: B.Closed ensures R.WeightedNum(c) == PointsTimesMetric(c) && R.WeightedDen(c) == PointsCompared(c) {
      if Compared(c) { DivideAndMultiply(c.cost / c.hours, c.points); }
    }
    SumSame(closed, R.WeightedNum, PointsTimesMetric);
    SumSame(closed, R.WeightedDen, PointsCompared);
  }
}
