// The accumulating loops of efficiency_breakdown, and what the report they leave behind says.
module EfficiencyReport {
  import opened Prelude
  import opened Sums
  import opened Efficiency
  import opened EfficiencyBreakdown

  datatype Report = Report(
    tokens: Kinds, points: real, cost: real, costPoints: real, hours: real, unpriced: real, hasUnpriced: bool,
    costIssues: nat, weightedNum: real, weightedDen: real, acceptedCost: real, acceptedPoints: real,
    models: map<Option<Id>, ModelRow>, lanes: map<Id, LaneRow>)

  const EMPTY := Report(NO_TOKENS, 0.0, 0.0, 0.0, 0.0, 0.0, false, 0, 0.0, 0.0, 0.0, 0.0, map[], map[])

  // With run filters an issue enters through the selection, otherwise whole with its lifetime statistics.
  function EntryOf(needs: bool, selection: map<Id, Entry>, stats: map<Id, seq<ModelUse>>): Entries {
    (row: IssueRow) =>
      if needs then (if row.id in selection then Some(selection[row.id]) else None)
      else Some(Entry(1.0, if row.id in stats then stats[row.id] else []))
  }

  // What one share does to the report while its issue is being split.
  function AddShare(at: Report, s: Share): Report {
    at.(models := at.models[s.model := AddToModel(ModelAt(at.models, s.model), s)],
        costPoints := at.costPoints + PricedPoints(s),
        unpriced := at.unpriced + UnpricedTokens(s),
        hasUnpriced := at.hasUnpriced || s.cost.None?)
  }

  function AddShares(at: Report, shares: seq<Share>): Report {
    if shares == [] then at else AddShare(AddShares(at, shares[..|shares| - 1]), shares[|shares| - 1])
  }

  lemma ScaleTotal(k: Kinds, c: real)
    ensures Total(Scale(k, c)) == Total(k) * c
  {
  }

  lemma PartTotal(row: IssueRow, fraction: real, u: ModelUse, weight: real, rate: Option<Rate>, issueTotal: real)
    requires issueTotal == Total(Scale(row.usage, fraction))
    ensures Total(ShareWith(row, fraction, u, weight, rate).tokens) == issueTotal * weight
  {
    ScaleTotal(Scale(row.usage, fraction), weight);
  }

  // One (model, weight) pair of positive weight; part is what the weight gives the model.
  method AddUse(part: Share, issueTotal: real, weight: real, at: Report) returns (next: Report)
    requires Total(part.tokens) == issueTotal * weight
    ensures next == AddShare(at, part)
  {
    var b := ModelAt(at.models, part.model);
    b := b.(tokens := Plus(b.tokens, part.tokens), points := b.points + part.points, hours := b.hours + part.hours);
    next := at;
    if part.cost.None? {
      next := next.(unpriced := next.unpriced + issueTotal * weight, hasUnpriced := true);
      b := b.(priced := false);
    } else {
      next := next.(costPoints := next.costPoints + part.points);
      b := b.(cost := b.cost + part.cost.value);
      if part.hours > 0.0 {
        b := b.(weightedNum := b.weightedNum + part.cost.value / part.hours, weightedDen := b.weightedDen + part.points);
      }
    }
    next := next.(models := next.models[part.model := b]);
  }

  // The inner loop: one attributable issue split over its models.
  method SplitIssue(row: IssueRow, e: Entry, rates: Rates, at: Report)
    returns (next: Report, issueCost: real, issuePriced: bool)
    requires e.models != []
    ensures next == AddShares(at, SharesOf(row, e, rates))
    ensures issueCost == Sum(SharesOf(row, e, rates), CostOf)
    ensures issuePriced == AllPriced(SharesOf(row, e, rates))
  {
    var issueTotal := Total(Scale(row.usage, e.fraction));
    next, issueCost, issuePriced := at, 0.0, true;
    for i := 0 to |e.models|
      invariant next == AddShares(at, SharesFrom(row, e, rates, e.models[..i]))
      invariant issueCost == Sum(SharesFrom(row, e, rates, e.models[..i]), CostOf)
      invariant issuePriced == AllPriced(SharesFrom(row, e, rates, e.models[..i]))
    {
      var u := e.models[i];
      var weight := UseWeight(e.models, u);
      SharesNext(row, e, rates, i, at);
      if weight > 0.0 {
        var part := ShareWith(row, e.fraction, u, weight, rates(row.id, u.model));
        PartTotal(row, e.fraction, u, weight, rates(row.id, u.model), issueTotal);
        next := AddUse(part, issueTotal, weight, next);
        if part.cost.Some? { issueCost := issueCost + part.cost.value; } else { issuePriced := false; }
      }
    }
    assert e.models[..|e.models|] == e.models;
  }

  lemma SharesNext(row: IssueRow, e: Entry, rates: Rates, i: nat, at: Report)
    requires i < |e.models|
    ensures var before, after := SharesFrom(row, e, rates, e.models[..i]), SharesFrom(row, e, rates, e.models[..i + 1]);
      var u := e.models[i];
      if UseWeight(e.models, u) > 0.0 then
        && AddShares(at, after) == AddShare(AddShares(at, before), UseShare(row, e, rates, u))
        && Sum(after, CostOf) == Sum(before, CostOf) + CostOf(UseShare(row, e, rates, u))
        && (AllPriced(after) <==> AllPriced(before) && UseShare(row, e, rates, u).cost.Some?)
      else after == before
  {
    assert e.models[..i + 1][..i] == e.models[..i];
    var before, u := SharesFrom(row, e, rates, e.models[..i]), e.models[i];
    if UseWeight(e.models, u) > 0.0 {
      var after := before + [UseShare(row, e, rates, u)];
      assert after[..|after| - 1] == before;
      assert AllPriced(after) <==> AllPriced(before) && UseShare(row, e, rates, u).cost.Some?;
    }
  }

  // ---- the outer loop ----

  function WeightedNum(c: Closed): real { if c.priced && c.hours > 0.0 && c.points > 0.0 then c.cost / c.hours else 0.0 }
  function WeightedDen(c: Closed): real { if c.priced && c.hours > 0.0 && c.points > 0.0 then c.points else 0.0 }
  function AcceptedCost(c: Closed): real { if c.priced && c.accepted.Some? then c.cost else 0.0 }
  function AcceptedPoints(c: Closed): real { if c.priced && c.accepted.Some? then c.accepted.value else 0.0 }

  // What closing an issue does to the report.
  function CloseIssue(at: Report, c: Closed): Report {
    at.(costIssues := at.costIssues + 1, hours := at.hours + c.hours, cost := at.cost + c.cost,
        weightedNum := at.weightedNum + WeightedNum(c), weightedDen := at.weightedDen + WeightedDen(c),
        acceptedCost := at.acceptedCost + AcceptedCost(c), acceptedPoints := at.acceptedPoints + AcceptedPoints(c),
        lanes := at.lanes[c.lane := AddToLane(LaneAt(at.lanes, c.lane), c)])
  }

  // Every issue with an entry counts toward tokens and story points, models or not.
  function CountWith(at: Report, row: IssueRow, fraction: real): Report {
    at.(points := at.points + row.points * fraction, tokens := Plus(at.tokens, Scale(row.usage, fraction)))
  }

  function CountIssue(at: Report, row: IssueRow, e: Entry): Report { CountWith(at, row, e.fraction) }

  function AddIssue(at: Report, row: IssueRow, e: Entry, rates: Rates): Report {
    var counted := CountIssue(at, row, e);
    if e.models == [] then counted
    else CloseIssue(AddShares(counted, SharesOf(row, e, rates)), Close(row, e, SharesOf(row, e, rates)))
  }

  function Reported(rows: seq<IssueRow>, entries: Entries, rates: Rates): Report {
    if rows == [] then EMPTY
    else
      var row, at := rows[|rows| - 1], Reported(rows[..|rows| - 1], entries, rates);
      if entries(row).None? then at else AddIssue(at, row, entries(row).value, rates)
  }

  method HoursOf(e: Entry) returns (hours: real)
    ensures hours == IssueHours(e)
  {
    var days := 0.0;
    for i := 0 to |e.models|
      invariant days == Sum(e.models[..i], DaysOf)
    {
      assert e.models[..i + 1][..i] == e.models[..i];
      days := days + e.models[i].days;
    }
    assert e.models[..|e.models|] == e.models;
    hours := days * 24.0;
  }

  // The statements after the inner loop.
  method CloseRow(at: Report, c: Closed) returns (next: Report)
    ensures next == CloseIssue(at, c)
  {
    next := at.(costIssues := at.costIssues + 1, hours := at.hours + c.hours, cost := at.cost + c.cost);
    if c.priced && c.hours > 0.0 && c.points > 0.0 {
      next := next.(weightedNum := next.weightedNum + c.cost / c.hours, weightedDen := next.weightedDen + c.points);
    }
    var lane := LaneAt(next.lanes, c.lane);
    lane := lane.(issues := lane.issues + 1, points := lane.points + c.points, cost := lane.cost + c.cost,
                  priced := lane.priced && c.priced);
    if c.priced && c.accepted.Some? {
      next := next.(acceptedCost := next.acceptedCost + c.cost, acceptedPoints := next.acceptedPoints + c.accepted.value);
      lane := lane.(acceptedCost := lane.acceptedCost + c.cost, acceptedPoints := lane.acceptedPoints + c.accepted.value);
    }
    next := next.(lanes := next.lanes[c.lane := lane]);
  }

  method DoIssue(at: Report, row: IssueRow, e: Entry, rates: Rates) returns (next: Report)
    ensures next == AddIssue(at, row, e, rates)
  {
    next := CountIssue(at, row, e);
    if e.models == [] { return; }
    var hours := HoursOf(e);
    var cost, priced;
    next, cost, priced := SplitIssue(row, e, rates, next);
    next := CloseRow(next, CloseWith(row, e.fraction, hours, cost, priced));
  }

  function CountedBy(entries: Entries, c: Column): IssueRow -> real {
    (row: IssueRow) => if entries(row).Some? then Offered(row, entries(row).value, c) else 0.0
  }

  // The figures of the report in terms of the issues, their shares and the closed issues.
  ghost predicate Says(r: Report, rows: seq<IssueRow>, entries: Entries, rates: Rates) {
    && SaysCounts(r, rows, entries)
    && SaysShares(r, AllShares(rows, entries, rates))
    && SaysClosed(r, AllClosed(rows, entries, rates))
  }

  ghost predicate SaysCounts(r: Report, rows: seq<IssueRow>, entries: Entries) {
    && r.points == Sum(rows, CountedBy(entries, Points))
    && r.tokens == Kinds(Sum(rows, CountedBy(entries, Input)), Sum(rows, CountedBy(entries, Output)),
                         Sum(rows, CountedBy(entries, CacheRead)), Sum(rows, CountedBy(entries, CacheWrite)))
  }

  ghost predicate SaysShares(r: Report, shares: seq<Share>) {
    && r.models == ModelsOf(shares)
    && r.costPoints == Sum(shares, PricedPoints)
    && r.unpriced == Sum(shares, UnpricedTokens)
    && (r.hasUnpriced <==> !AllPriced(shares))
  }

  ghost predicate SaysClosed(r: Report, closed: seq<Closed>) {
    && r.cost == Sum(closed, ClosedCost)
    && r.lanes == LanesOf(closed)
    && r.costIssues == |closed|
    && r.hours == Sum(closed, ClosedHours)
    && r.weightedNum == Sum(closed, WeightedNum) && r.weightedDen == Sum(closed, WeightedDen)
    && r.acceptedCost == Sum(closed, AcceptedCost) && r.acceptedPoints == Sum(closed, AcceptedPoints)
  }

  lemma {:induction false} AddSharesIs(at: Report, before: seq<Share>, shares: seq<Share>)
    requires at.models == ModelsOf(before)
    ensures AddShares(at, shares)
         == at.(models := ModelsOf(before + shares), costPoints := at.costPoints + Sum(shares, PricedPoints),
                unpriced := at.unpriced + Sum(shares, UnpricedTokens), hasUnpriced := at.hasUnpriced || !AllPriced(shares))
  {
    if shares == [] {
      assert before + shares == before;
    } else {
      var n := |shares| - 1;
      AddSharesIs(at, before, shares[..n]);
      assert (before + shares)[..|before + shares| - 1] == before + shares[..n];
      assert shares == shares[..n] + [shares[n]];
    }
  }

  // efficiency_breakdown up to the final ratios.
  method Breakdown(rows: seq<IssueRow>, needs: bool, selection: map<Id, Entry>, stats: map<Id, seq<ModelUse>>, rates: Rates)
    returns (r: Report)
    ensures r == Reported(rows, EntryOf(needs, selection, stats), rates)
    ensures Says(r, rows, EntryOf(needs, selection, stats), rates)
  {
    r := EMPTY;
    ghost var entries := EntryOf(needs, selection, stats);
    for i := 0 to |rows|
      invariant r == Reported(rows[..i], entries, rates)
    {
      assert rows[..i + 1][..i] == rows[..i];
      var row := rows[i];
      if needs {
        if row.id in selection { r := DoIssue(r, row, selection[row.id], rates); }
      } else {
        r := DoIssue(r, row, Entry(1.0, if row.id in stats then stats[row.id] else []), rates);
      }
    }
    assert rows[..|rows|] == rows;
    ReportSays(rows, entries, rates);
  }

  lemma IssueSaysShares(at: Report, before: seq<Share>, row: IssueRow, e: Entry, rates: Rates)
    requires SaysShares(at, before)
    ensures SaysShares(AddIssue(at, row, e, rates), before + SharesOf(row, e, rates))
  {
    var mine := SharesOf(row, e, rates);
    var counted := CountIssue(at, row, e);
    AddSharesIs(counted, before, mine);
    SumConcat(before, mine, PricedPoints);
    SumConcat(before, mine, UnpricedTokens);
    assert AllPriced(before + mine) <==> AllPriced(before) && AllPriced(mine) by {
      forall s | s in before ensures s in before + mine { }
      forall s | s in mine ensures s in before + mine { }
    }
    if e.models == [] { assert mine == [] && before + mine == before; }
  }

  lemma IssueSaysClosed(at: Report, before: seq<Closed>, row: IssueRow, e: Entry, rates: Rates)
    requires SaysClosed(at, before) && e.models != []
    ensures SaysClosed(AddIssue(at, row, e, rates), before + [Close(row, e, SharesOf(row, e, rates))])
  {
    var c := Close(row, e, SharesOf(row, e, rates));
    AddSharesKeep(CountIssue(at, row, e), SharesOf(row, e, rates));
    assert (before + [c])[..|before|] == before;
  }

  lemma {:induction false} AddSharesKeep(at: Report, shares: seq<Share>)
    ensures var r := AddShares(at, shares);
      r == at.(models := r.models, costPoints := r.costPoints, unpriced := r.unpriced, hasUnpriced := r.hasUnpriced)
  {
    if shares != [] { AddSharesKeep(at, shares[..|shares| - 1]); }
  }

  lemma IssueSaysCounts(at: Report, row: IssueRow, e: Entry, rates: Rates)
    ensures AddIssue(at, row, e, rates).points == at.points + row.points * e.fraction
    ensures AddIssue(at, row, e, rates).tokens == Plus(at.tokens, Scale(row.usage, e.fraction))
  {
    AddSharesKeep(CountIssue(at, row, e), SharesOf(row, e, rates));
  }

  lemma {:induction false} ReportSaysCounts(rows: seq<IssueRow>, entries: Entries, rates: Rates)
    ensures SaysCounts(Reported(rows, entries, rates), rows, entries)
  {
    if rows != [] {
      var n := |rows| - 1;
      ReportSaysCounts(rows[..n], entries, rates);
      if entries(rows[n]).Some? { IssueSaysCounts(Reported(rows[..n], entries, rates), rows[n], entries(rows[n]).value, rates); }
    }
  }

  lemma {:induction false} ReportSays(rows: seq<IssueRow>, entries: Entries, rates: Rates)
    ensures Says(Reported(rows, entries, rates), rows, entries, rates)
  {
    ReportSaysCounts(rows, entries, rates);
    ReportSaysSplit(rows, entries, rates);
  }

  lemma {:induction false} ReportSaysSplit(rows: seq<IssueRow>, entries: Entries, rates: Rates)
    ensures SaysShares(Reported(rows, entries, rates), AllShares(rows, entries, rates))
    ensures SaysClosed(Reported(rows, entries, rates), AllClosed(rows, entries, rates))
  {
    if rows != [] {
      var n := |rows| - 1;
      ReportSaysSplit(rows[..n], entries, rates);
      var at, row := Reported(rows[..n], entries, rates), rows[n];
      var shares, closed := AllShares(rows[..n], entries, rates), AllClosed(rows[..n], entries, rates);
      if entries(row).None? {
        assert shares + [] == shares && closed + [] == closed;
      } else {
        IssueSaysShares(at, shares, row, entries(row).value, rates);
        if entries(row).value.models == [] {
          assert closed + [] == closed;
        } else {
          IssueSaysClosed(at, closed, row, entries(row).value, rates);
        }
      }
    }
  }

  // The rows of the report add up: per model every column, per lane story points and cost.
  ghost predicate Conserves(r: Report, rows: seq<IssueRow>, entries: Entries, rates: Rates) {
    var models := FirstSeen(AllShares(rows, entries, rates), ModelKey, Always);
    var lanes := FirstSeen(AllClosed(rows, entries, rates), ClosedLane, AlwaysClosed);
    && Distinct(models) && (forall k :: k in models <==> k in r.models)
    && (forall c: Column :: Sum(models, ModelColumn(r.models, c)) == if c.Cost? then r.cost else Sum(rows, OfferedBy(entries, c)))
    && Distinct(lanes) && (forall k :: k in lanes <==> k in r.lanes)
    && Sum(lanes, LanePoints(r.lanes)) == Sum(rows, OfferedBy(entries, Points)) && Sum(lanes, LaneCost(r.lanes)) == r.cost
  }

  lemma ReportConserves(r: Report, rows: seq<IssueRow>, entries: Entries, rates: Rates)
    requires Says(r, rows, entries, rates) && AllMeasured(rows, entries)
    ensures Conserves(r, rows, entries, rates)
  {
    forall c: Column
      ensures Sum(FirstSeen(AllShares(rows, entries, rates), ModelKey, Always), ModelColumn(r.models, c))
        == if c.Cost? then Sum(AllShares(rows, entries, rates), CostOf) else Sum(rows, OfferedBy(entries, c))
    {
      ModelsConserve(rows, entries, rates, c);
    }
    ModelsConserve(rows, entries, rates, Points);
    LanesConserve(rows, entries, rates);
    ClosedConserve(rows, entries, rates);
  }

  // The entries without the models that get no weight.
  function Trimmed(entries: Entries): Entries {
    (row: IssueRow) =>
      if entries(row).None? then None
      else Some(entries(row).value.(models := Weighty(entries(row).value, entries(row).value.models)))
  }

  lemma SameIssue(at: Report, row: IssueRow, e: Entry, kept: Entry, rates: Rates)
    requires kept.fraction == e.fraction && (kept.models == [] <==> e.models == [])
    requires SharesOf(row, kept, rates) == SharesOf(row, e, rates)
    requires Close(row, kept, SharesOf(row, kept, rates)) == Close(row, e, SharesOf(row, e, rates))
    ensures AddIssue(at, row, kept, rates) == AddIssue(at, row, e, rates)
  {
    assert CountIssue(at, row, kept) == CountIssue(at, row, e);
  }

  lemma TrimmedIssue(at: Report, row: IssueRow, e: Entry, rates: Rates)
    requires Measured(e)
    ensures AddIssue(at, row, e.(models := Weighty(e, e.models)), rates) == AddIssue(at, row, e, rates)
  {
    if e.models != [] {
      ZeroWeightAffectsNothing(row, e, rates);
      SameIssue(at, row, e, e.(models := Weighty(e, e.models)), rates);
    }
  }

  // Models of zero weight affect nothing: the report without them is the same report.
  lemma {:induction false} ZeroWeightLeavesTheReport(rows: seq<IssueRow>, entries: Entries, rates: Rates)
    requires AllMeasured(rows, entries)
    ensures Reported(rows, Trimmed(entries), rates) == Reported(rows, entries, rates)
  {
    if rows != [] {
      var n := |rows| - 1;
      ZeroWeightLeavesTheReport(rows[..n], entries, rates);
      assert rows[n] in rows;
      if entries(rows[n]).Some? { TrimmedIssue(Reported(rows[..n], entries, rates), rows[n], entries(rows[n]).value, rates); }
    }
  }
}
