// What an issue puts into the report's totals and into its lane, from the issue, its entry and the
// rates alone.
module EfficiencyIssues {
  import opened Prelude
  import opened Sums
  import opened Efficiency
  import opened EfficiencyCost
  import B = EfficiencyBreakdown
  import R = EfficiencyReport

  // ---- the reference ----

  // An issue counts toward cost when some run of it was selected.
  predicate Attributed(row: IssueRow, entries: B.Entries) { entries(row).Some? && entries(row).value.models != [] }

  // Every model that has a part in the issue has a rate.
  predicate Rated(row: IssueRow, e: Entry, rates: B.Rates) {
    forall u :: u in e.models && PartOf(e.models, u) > 0.0 ==> rates(row.id, u.model).Some?
  }

  function IssueCost(row: IssueRow, e: Entry, rates: B.Rates): real { AllKinds(UseTotals(e.models, row, e, rates)) }

  function HoursIn(e: Entry): real { Sum(e.models, DaysOf) * 24.0 }

  // The figures of one issue.
  datatype Figure = Issues | Points | Cost | Hours | AcceptedPoints | AcceptedCost | WeightedNum | WeightedDen

  function FigureOf(x: Figure, row: IssueRow, e: Entry, rates: B.Rates): real {
    var points := row.points * e.fraction;
    match x
    case Issues => 1.0
    case Points => points
    case Cost => IssueCost(row, e, rates)
    case Hours => HoursIn(e)
    case AcceptedPoints => if Rated(row, e, rates) && row.accepted.Some? then row.accepted.value * e.fraction else 0.0
    case AcceptedCost => if Rated(row, e, rates) && row.accepted.Some? then IssueCost(row, e, rates) else 0.0
    case WeightedNum =>
      if Rated(row, e, rates) && HoursIn(e) > 0.0 && points > 0.0 then IssueCost(row, e, rates) / HoursIn(e) else 0.0
    case WeightedDen => if Rated(row, e, rates) && HoursIn(e) > 0.0 && points > 0.0 then points else 0.0
  }

  // Of all issues, or of those of one lane.
  function FiguresOf(x: Figure, lane: Option<Id>, entries: B.Entries, rates: B.Rates): IssueRow -> real {
    (row: IssueRow) =>
      if Attributed(row, entries) && (lane.None? || lane == Some(row.lane)) then FigureOf(x, row, entries(row).value, rates) else 0.0
  }

  // ---- a closed issue says the same ----

  function ClosedFigure(x: Figure, c: B.Closed): real {
    match x
    case Issues => 1.0
    case Points => c.points
    case Cost => c.cost
    case Hours => c.hours
    case AcceptedPoints => R.AcceptedPoints(c)
    case AcceptedCost => R.AcceptedCost(c)
    case WeightedNum => R.WeightedNum(c)
    case WeightedDen => R.WeightedDen(c)
  }

  function InLane(x: Figure, lane: Option<Id>): B.Closed -> real {
    (c: B.Closed) => if lane.None? || lane == Some(c.lane) then ClosedFigure(x, c) else 0.0
  }

  lemma {:induction false} SharesPriced(row: IssueRow, e: Entry, rates: B.Rates, uses: seq<ModelUse>)
    ensures B.AllPriced(B.SharesFrom(row, e, rates, uses))
      <==> forall u :: u in uses && B.UseWeight(e.models, u) > 0.0 ==> rates(row.id, u.model).Some?
  {
    if uses != [] {
      var n := |uses| - 1;
      SharesPriced(row, e, rates, uses[..n]);
      assert uses == uses[..n] + [uses[n]];
      var before := B.SharesFrom(row, e, rates, uses[..n]);
      if B.UseWeight(e.models, uses[n]) > 0.0 {
        PricedNext(before, B.UseShare(row, e, rates, uses[n]));
      }
    }
  }

  lemma PricedNext(before: seq<B.Share>, s: B.Share)
    ensures B.AllPriced(before + [s]) <==> B.AllPriced(before) && s.cost.Some?
  {
    if B.AllPriced(before + [s]) {
      forall t | t in before ensures t.cost.Some? { assert t in before + [s]; }
      assert s in before + [s];
    }
  }

  lemma ClosedSays(row: IssueRow, e: Entry, rates: B.Rates)
    requires B.Measured(e) && e.models != []
    ensures var c := B.Close(row, e, B.SharesOf(row, e, rates));
      && c.lane == row.lane && c.points == row.points * e.fraction && c.hours == HoursIn(e)
      && c.cost == IssueCost(row, e, rates) && (c.priced <==> Rated(row, e, rates))
      && (c.accepted.Some? <==> row.accepted.Some?)
      && (row.accepted.Some? ==> c.accepted.value == row.accepted.value * e.fraction)
  {
    hide PartOf, B.UseWeight, AllKinds, UseTotals, B.SharesFrom;
    IssueCosts(row, e, rates);
    SharesPriced(row, e, rates, e.models);
    forall u | u in e.models ensures PartOf(e.models, u) == B.UseWeight(e.models, u) { PartIsTheWeight(e.models, u); }
  }

  lemma ClosedFigureIs(x: Figure, row: IssueRow, e: Entry, rates: B.Rates)
    requires B.Measured(e) && e.models != []
    ensures ClosedFigure(x, B.Close(row, e, B.SharesOf(row, e, rates))) == FigureOf(x, row, e, rates)
  {
    hide B.Close, IssueCost, HoursIn, Rated;
    ClosedSays(row, e, rates);
    match x
    case Issues =>
    case Points =>
    case Cost =>
    case Hours =>
    case AcceptedPoints =>
    case AcceptedCost =>
    case WeightedNum =>
    case WeightedDen =>
  }

  lemma OneClosed(x: Figure, lane: Option<Id>, row: IssueRow, entries: B.Entries, rates: B.Rates)
    requires entries(row).Some? ==> B.Measured(entries(row).value)
    ensures Sum(B.ClosedOf(row, entries, rates), InLane(x, lane)) == FiguresOf(x, lane, entries, rates)(row)
  {
    hide ClosedFigure, FigureOf, B.Close;
    if Attributed(row, entries) {
      var e := entries(row).value;
      var c := B.Close(row, e, B.SharesOf(row, e, rates));
      ClosedFigureIs(x, row, e, rates);
      ClosedSays(row, e, rates);
      assert [c][..0] == [];
    }
  }

  lemma {:induction false} ClosedSum(x: Figure, lane: Option<Id>, rows: seq<IssueRow>, entries: B.Entries, rates: B.Rates)
    requires B.AllMeasured(rows, entries)
    ensures Sum(B.AllClosed(rows, entries, rates), InLane(x, lane)) == Sum(rows, FiguresOf(x, lane, entries, rates))
  {
    hide B.ClosedOf, FiguresOf, InLane;
    if rows != [] {
      var n := |rows| - 1;
      assert rows[n] in rows;
      ClosedSum(x, lane, rows[..n], entries, rates);
      OneClosed(x, lane, rows[n], entries, rates);
      SumConcat(B.AllClosed(rows[..n], entries, rates), B.ClosedOf(rows[n], entries, rates), InLane(x, lane));
    }
  }

  lemma {:induction false} CountIsSum(closed: seq<B.Closed>)
    ensures Sum(closed, InLane(Issues, None)) == |closed| as real
  {
    if closed != [] { CountIsSum(closed[..|closed| - 1]); }
  }

  lemma SameSums(closed: seq<B.Closed>)
    ensures Sum(closed, B.ClosedCost) == Sum(closed, InLane(Cost, None)) && Sum(closed, B.ClosedHours) == Sum(closed, InLane(Hours, None))
    ensures Sum(closed, R.AcceptedPoints) == Sum(closed, InLane(AcceptedPoints, None))
    ensures Sum(closed, R.AcceptedCost) == Sum(closed, InLane(AcceptedCost, None))
    ensures Sum(closed, R.WeightedNum) == Sum(closed, InLane(WeightedNum, None))
    ensures Sum(closed, R.WeightedDen) == Sum(closed, InLane(WeightedDen, None))
  {
    hide R.AcceptedPoints, R.AcceptedCost, R.WeightedNum, R.WeightedDen;
    SumSame(closed, B.ClosedCost, InLane(Cost, None));
    SumSame(closed, B.ClosedHours, InLane(Hours, None));
    SumSame(closed, R.AcceptedPoints, InLane(AcceptedPoints, None));
    SumSame(closed, R.AcceptedCost, InLane(AcceptedCost, None));
    SumSame(closed, R.WeightedNum, InLane(WeightedNum, None));
    SumSame(closed, R.WeightedDen, InLane(WeightedDen, None));
  }

  // The report's totals are those of the issues that some selected run worked on; the accepted figures
  // and the weighted one leave out every issue of which some part has no rate.
  lemma TotalsSay(r: R.Report, rows: seq<IssueRow>, entries: B.Entries, rates: B.Rates)
    requires R.Says(r, rows, entries, rates) && B.AllMeasured(rows, entries)
    ensures r.costIssues as real == Sum(rows, FiguresOf(Issues, None, entries, rates))
    ensures r.cost == Sum(rows, FiguresOf(Cost, None, entries, rates)) && r.hours == Sum(rows, FiguresOf(Hours, None, entries, rates))
    ensures r.acceptedPoints == Sum(rows, FiguresOf(AcceptedPoints, None, entries, rates))
    ensures r.acceptedCost == Sum(rows, FiguresOf(AcceptedCost, None, entries, rates))
    ensures r.weightedNum == Sum(rows, FiguresOf(WeightedNum, None, entries, rates))
    ensures r.weightedDen == Sum(rows, FiguresOf(WeightedDen, None, entries, rates))
  {
    hide FiguresOf;
    var closed := B.AllClosed(rows, entries, rates);
    CountIsSum(closed);
    SameSums(closed);
    forall x: Figure ensures Sum(closed, InLane(x, None)) == Sum(rows, FiguresOf(x, None, entries, rates)) {
      ClosedSum(x, None, rows, entries, rates);
    }
  }

  // ---- lane by lane ----

  function LaneFigure(l: B.LaneRow, x: Figure): real {
    match x
    case Issues => l.issues as real
    case Points => l.points
    case Cost => l.cost
    case AcceptedPoints => l.acceptedPoints
    case AcceptedCost => l.acceptedCost
    case _ => 0.0
  }

  predicate OfALane(x: Figure) { !x.Hours? && !x.WeightedNum? && !x.WeightedDen? }

  lemma {:induction false} LaneSums(closed: seq<B.Closed>, k: Id, x: Figure)
    requires OfALane(x)
    ensures LaneFigure(B.LaneAt(B.LanesOf(closed), k), x) == Sum(closed, InLane(x, Some(k)))
  {
    if closed != [] { LaneSums(closed[..|closed| - 1], k, x); }
  }

  // A lane's row holds the issues of that lane and no others, and is priced exactly when every part of
  // each of them has a rate.
  lemma LaneRowSays(r: R.Report, rows: seq<IssueRow>, entries: B.Entries, rates: B.Rates, k: Id)
    requires R.Says(r, rows, entries, rates) && B.AllMeasured(rows, entries)
    ensures forall x: Figure :: OfALane(x) ==> LaneFigure(B.LaneAt(r.lanes, k), x) == Sum(rows, FiguresOf(x, Some(k), entries, rates))
    ensures k in r.lanes <==> exists row :: row in rows && Attributed(row, entries) && row.lane == k
    ensures k in r.lanes ==>
      (r.lanes[k].priced <==> forall row :: row in rows && Attributed(row, entries) && row.lane == k ==> Rated(row, entries(row).value, rates))
  {
    hide FiguresOf, InLane, LaneFigure, Rated;
    var closed := B.AllClosed(rows, entries, rates);
    forall x: Figure | OfALane(x) ensures LaneFigure(B.LaneAt(r.lanes, k), x) == Sum(rows, FiguresOf(x, Some(k), entries, rates)) {
      LaneSums(closed, k, x);
      ClosedSum(x, Some(k), rows, entries, rates);
    }
    B.LaneRowsAre(closed);
    ClosedMembers(rows, entries, rates);
    InLaneOrNot(closed, k);
    ClosedLanes(rows, entries, rates, closed, k);
  }

  lemma InLaneOrNot(closed: seq<B.Closed>, k: Id)
    ensures k in FirstSeen(closed, B.ClosedLane, B.AlwaysClosed) <==> exists c :: c in closed && c.lane == k
  {
    if c :| c in closed && c.lane == k { assert B.AlwaysClosed(c) && B.ClosedLane(c) == k; }
  }

  function ClosedAs(row: IssueRow, entries: B.Entries, rates: B.Rates): B.Closed
    requires Attributed(row, entries)
  {
    B.Close(row, entries(row).value, B.SharesOf(row, entries(row).value, rates))
  }

  // The closed issues are the attributed ones.
  lemma {:induction false} ClosedMembers(rows: seq<IssueRow>, entries: B.Entries, rates: B.Rates)
    ensures forall c :: c in B.AllClosed(rows, entries, rates) <==>
      exists row :: row in rows && Attributed(row, entries) && c == ClosedAs(row, entries, rates)
  {
    hide B.Close, B.SharesOf;
    if rows != [] {
      var n := |rows| - 1;
      ClosedMembers(rows[..n], entries, rates);
      assert rows == rows[..n] + [rows[n]];
      var before, mine := B.AllClosed(rows[..n], entries, rates), B.ClosedOf(rows[n], entries, rates);
      forall c ensures c in before + mine <==> exists row :: row in rows && Attributed(row, entries) && c == ClosedAs(row, entries, rates) {
        if c in mine { assert rows[n] in rows && c == ClosedAs(rows[n], entries, rates); }
        if row :| row in rows && Attributed(row, entries) && c == ClosedAs(row, entries, rates) {
          if row !in rows[..n] { assert row == rows[n] && c in mine; }
        }
      }
    }
  }

  lemma ClosedLanes(rows: seq<IssueRow>, entries: B.Entries, rates: B.Rates, closed: seq<B.Closed>, k: Id)
    requires B.AllMeasured(rows, entries)
    requires forall c :: c in closed <==> exists row :: row in rows && Attributed(row, entries) && c == ClosedAs(row, entries, rates)
    ensures (exists c :: c in closed && c.lane == k) <==> exists row :: row in rows && Attributed(row, entries) && row.lane == k
    ensures (forall c :: c in closed && c.lane == k ==> c.priced)
      <==> forall row :: row in rows && Attributed(row, entries) && row.lane == k ==> Rated(row, entries(row).value, rates)
  {
    hide B.Close, B.SharesOf, Rated;
    forall row | row in rows && Attributed(row, entries)
      ensures var c := ClosedAs(row, entries, rates);
        c in closed && c.lane == row.lane && (c.priced <==> Rated(row, entries(row).value, rates))
    {
      ClosedSays(row, entries(row).value, rates);
    }
  }
}
