// efficiency_breakdown of aistat/aggregates.py: issue totals split over the models that ran
// the issue, priced, and grouped by model and by dispatch lane.
module EfficiencyBreakdown {
  import opened Prelude
  import opened Sums
  import opened Efficiency

  // Dollars per million tokens. An unknown or unpriced model has no rate.
  datatype Rate = Rate(input: real, output: real, cacheRead: real, cacheWrite: real)

  type Rates = (Id, Option<Id>) -> Option<Rate>

  // What one model gets of one issue. cost is None when the model has no rate.
  datatype Share = Share(
    issue: Id, lane: Id, model: Option<Id>, tokens: Kinds, points: real, hours: real, cost: Option<real>)

  datatype ModelRow = ModelRow(
    tokens: Kinds, points: real, cost: real, hours: real, weightedNum: real, weightedDen: real, priced: bool)

  // An issue all of whose shares have been accounted for.
  datatype Closed = Closed(issue: Id, lane: Id, points: real, hours: real, cost: real, priced: bool, accepted: Option<real>)

  datatype LaneRow = LaneRow(issues: nat, points: real, cost: real, acceptedPoints: real, acceptedCost: real, priced: bool)

  const NO_TOKENS := Kinds(0.0, 0.0, 0.0, 0.0)
  const NEW_MODEL := ModelRow(NO_TOKENS, 0.0, 0.0, 0.0, 0.0, 0.0, true)
  const NEW_LANE := LaneRow(0, 0.0, 0.0, 0.0, 0.0, true)

  function Plus(a: Kinds, b: Kinds): Kinds {
    Kinds(a.input + b.input, a.output + b.output, a.cacheRead + b.cacheRead, a.cacheWrite + b.cacheWrite)
  }

  function Scale(k: Kinds, c: real): Kinds { Kinds(k.input * c, k.output * c, k.cacheRead * c, k.cacheWrite * c) }

  function Dollars(k: Kinds, r: Rate): real {
    (k.input * r.input + k.output * r.output + k.cacheRead * r.cacheRead + k.cacheWrite * r.cacheWrite) / 1000000.0
  }

  function UseWeight(uses: seq<ModelUse>, u: ModelUse): real { if uses == [] then 0.0 else Weight(uses, DaysOf, CountOf, u) }

  function ShareWith(row: IssueRow, fraction: real, u: ModelUse, weight: real, rate: Option<Rate>): Share {
    var tokens := Scale(Scale(row.usage, fraction), weight);
    Share(row.id, row.lane, u.model, tokens, row.points * fraction * weight, u.days * 24.0,
          if rate.None? then None else Some(Dollars(tokens, rate.value)))
  }

  function UseShare(row: IssueRow, e: Entry, rates: Rates, u: ModelUse): Share {
    ShareWith(row, e.fraction, u, UseWeight(e.models, u), rates(row.id, u.model))
  }

  // Models with no weight leave no trace.
  function SharesFrom(row: IssueRow, e: Entry, rates: Rates, uses: seq<ModelUse>): seq<Share> {
    if uses == [] then []
    else
      var u := uses[|uses| - 1];
      SharesFrom(row, e, rates, uses[..|uses| - 1]) + (if UseWeight(e.models, u) > 0.0 then [UseShare(row, e, rates, u)] else [])
  }

  function SharesOf(row: IssueRow, e: Entry, rates: Rates): seq<Share> { SharesFrom(row, e, rates, e.models) }

  type Entries = IssueRow -> Option<Entry>

  function AllShares(rows: seq<IssueRow>, entries: Entries, rates: Rates): seq<Share> {
    if rows == [] then []
    else
      var row := rows[|rows| - 1];
      AllShares(rows[..|rows| - 1], entries, rates)
      + (if entries(row).Some? then SharesOf(row, entries(row).value, rates) else [])
  }

  function CostOf(s: Share): real { if s.cost.Some? then s.cost.value else 0.0 }
  function PricedPoints(s: Share): real { if s.cost.Some? then s.points else 0.0 }
  function UnpricedTokens(s: Share): real { if s.cost.Some? then 0.0 else Total(s.tokens) }

  predicate AllPriced(shares: seq<Share>) { forall s :: s in shares ==> s.cost.Some? }

  function IssueHours(e: Entry): real { Sum(e.models, DaysOf) * 24.0 }

  function CloseWith(row: IssueRow, fraction: real, hours: real, cost: real, priced: bool): Closed {
    Closed(row.id, row.lane, row.points * fraction, hours, cost, priced,
           if row.accepted.Some? then Some(row.accepted.value * fraction) else None)
  }

  function Close(row: IssueRow, e: Entry, shares: seq<Share>): Closed {
    CloseWith(row, e.fraction, IssueHours(e), Sum(shares, CostOf), AllPriced(shares))
  }

  function ClosedOf(row: IssueRow, entries: Entries, rates: Rates): seq<Closed> {
    if entries(row).Some? && entries(row).value.models != [] then
      [Close(row, entries(row).value, SharesOf(row, entries(row).value, rates))]
    else []
  }

  function AllClosed(rows: seq<IssueRow>, entries: Entries, rates: Rates): seq<Closed> {
    if rows == [] then []
    else AllClosed(rows[..|rows| - 1], entries, rates) + ClosedOf(rows[|rows| - 1], entries, rates)
  }

  // ---- the two groupings ----

  function ModelAt(m: map<Option<Id>, ModelRow>, k: Option<Id>): ModelRow { if k in m then m[k] else NEW_MODEL }

  function AddToModel(b: ModelRow, s: Share): ModelRow {
    ModelRow(Plus(b.tokens, s.tokens), b.points + s.points, b.cost + CostOf(s), b.hours + s.hours,
             b.weightedNum + (if s.cost.Some? && s.hours > 0.0 then s.cost.value / s.hours else 0.0),
             b.weightedDen + (if s.cost.Some? && s.hours > 0.0 then s.points else 0.0),
             b.priced && s.cost.Some?)
  }

  function ModelsOf(shares: seq<Share>): map<Option<Id>, ModelRow> {
    if shares == [] then map[]
    else
      var s, m := shares[|shares| - 1], ModelsOf(shares[..|shares| - 1]);
      m[s.model := AddToModel(ModelAt(m, s.model), s)]
  }

  function LaneAt(m: map<Id, LaneRow>, k: Id): LaneRow { if k in m then m[k] else NEW_LANE }

  function AddToLane(l: LaneRow, c: Closed): LaneRow {
    var terminal := c.priced && c.accepted.Some?;
    LaneRow(l.issues + 1, l.points + c.points, l.cost + c.cost,
            l.acceptedPoints + (if terminal then c.accepted.value else 0.0),
            l.acceptedCost + (if terminal then c.cost else 0.0), l.priced && c.priced)
  }

  function LanesOf(closed: seq<Closed>): map<Id, LaneRow> {
    if closed == [] then map[]
    else
      var c, m := closed[|closed| - 1], LanesOf(closed[..|closed| - 1]);
      m[c.lane := AddToLane(LaneAt(m, c.lane), c)]
  }

  // The additive columns of a model row, and what a share puts into each.
  datatype Column = Input | Output | CacheRead | CacheWrite | Points | Cost | Hours

  function Cell(b: ModelRow, c: Column): real {
    match c
    case Input => b.tokens.input
    case Output => b.tokens.output
    case CacheRead => b.tokens.cacheRead
    case CacheWrite => b.tokens.cacheWrite
    case Points => b.points
    case Cost => b.cost
    case Hours => b.hours
  }

  function ShareCell(s: Share, c: Column): real {
    match c
    case Input => s.tokens.input
    case Output => s.tokens.output
    case CacheRead => s.tokens.cacheRead
    case CacheWrite => s.tokens.cacheWrite
    case Points => s.points
    case Cost => CostOf(s)
    case Hours => s.hours
  }

  function ShareColumn(c: Column): Share -> real { (s: Share) => ShareCell(s, c) }
  function ModelColumn(m: map<Option<Id>, ModelRow>, c: Column): Option<Id> -> real { (k: Option<Id>) => Cell(ModelAt(m, k), c) }

  function ModelKey(s: Share): Option<Id> { s.model }

  function ClosedLane(c: Closed): Id { c.lane }
  function Always(s: Share): bool { true }
  function AlwaysClosed(c: Closed): bool { true }
  function ClosedPoints(c: Closed): real { c.points }
  function ClosedCost(c: Closed): real { c.cost }
  function ClosedHours(c: Closed): real { c.hours }

  // A model row holds, column by column, the shares of its model and nothing else.
  lemma {:induction false} ModelRowIs(shares: seq<Share>, k: Option<Id>, c: Column)
    ensures Cell(ModelAt(ModelsOf(shares), k), c) == SumFor(shares, ModelKey, ShareColumn(c), k)
  {
    if shares != [] { ModelRowIs(shares[..|shares| - 1], k, c); }
  }

  lemma {:induction false} ModelRowsAre(shares: seq<Share>)
    ensures forall k :: k in ModelsOf(shares) <==> k in FirstSeen(shares, ModelKey, Always)
    ensures forall k :: k in ModelsOf(shares) ==>
      (ModelsOf(shares)[k].priced <==> forall s :: s in shares && s.model == k ==> s.cost.Some?)
  {
    if shares != [] {
      var n := |shares| - 1;
      ModelRowsAre(shares[..n]);
      assert shares == shares[..n] + [shares[n]];
    }
  }

  lemma {:induction false} LaneRowIs(closed: seq<Closed>, k: Id)
    ensures LaneAt(LanesOf(closed), k).points == SumFor(closed, ClosedLane, ClosedPoints, k)
    ensures LaneAt(LanesOf(closed), k).cost == SumFor(closed, ClosedLane, ClosedCost, k)
  {
    if closed != [] { LaneRowIs(closed[..|closed| - 1], k); }
  }

  lemma {:induction false} LaneRowsAre(closed: seq<Closed>)
    ensures forall k :: k in LanesOf(closed) <==> k in FirstSeen(closed, ClosedLane, AlwaysClosed)
    ensures forall k :: k in LanesOf(closed) ==>
      (LanesOf(closed)[k].priced <==> forall c :: c in closed && c.lane == k ==> c.priced)
  {
    if closed != [] {
      var n := |closed| - 1;
      LaneRowsAre(closed[..n]);
      assert closed == closed[..n] + [closed[n]];
    }
  }

  // ---- conservation within one issue ----

  // Durations and run counts are never negative.
  ghost predicate Measured(e: Entry) { forall u :: u in e.models ==> u.days >= 0.0 && u.n >= 0.0 }

  // What an issue holds in a column that is split by weight.
  function Held(row: IssueRow, c: Column): real {
    match c
    case Input => row.usage.input
    case Output => row.usage.output
    case CacheRead => row.usage.cacheRead
    case CacheWrite => row.usage.cacheWrite
    case Points => row.points
    case Cost => 0.0
    case Hours => 0.0
  }

  // What it has to give under its entry.
  function Offered(row: IssueRow, e: Entry, c: Column): real {
    if c == Hours then IssueHours(e) else Held(row, c) * e.fraction
  }

  function WeightIn(e: Entry): ModelUse -> real { (u: ModelUse) => UseWeight(e.models, u) }

  lemma {:induction false} SharesFromSum(
      row: IssueRow, e: Entry, rates: Rates, uses: seq<ModelUse>, f: Share -> real, part: ModelUse -> real)
    requires forall u :: u in uses && UseWeight(e.models, u) > 0.0 ==> f(UseShare(row, e, rates, u)) == part(u)
    requires forall u :: u in uses && UseWeight(e.models, u) <= 0.0 ==> part(u) == 0.0
    ensures Sum(SharesFrom(row, e, rates, uses), f) == Sum(uses, part)
  {
    if uses != [] {
      var n := |uses| - 1;
      SharesFromSum(row, e, rates, uses[..n], f, part);
      assert uses[n] in uses;
      var one := if UseWeight(e.models, uses[n]) > 0.0 then [UseShare(row, e, rates, uses[n])] else [];
      SumConcat(SharesFrom(row, e, rates, uses[..n]), one, f);
      if one != [] { assert one[..0] == []; }
    }
  }

  lemma UseWeightsSum(e: Entry)
    requires Measured(e) && e.models != []
    ensures Sum(e.models, WeightIn(e)) == 1.0
    ensures forall u :: u in e.models ==> UseWeight(e.models, u) >= 0.0
  {
    WeightsSumToOne(e.models, DaysOf, CountOf, WeightIn(e));
    forall u | u in e.models ensures UseWeight(e.models, u) >= 0.0 { WeightNonNegative(e.models, DaysOf, CountOf, u); }
  }

  lemma WeightedCell(row: IssueRow, e: Entry, rates: Rates, u: ModelUse, c: Column)
    requires !c.Cost? && !c.Hours?
    ensures ShareCell(UseShare(row, e, rates, u), c) == Offered(row, e, c) * UseWeight(e.models, u)
  {
    hide ShareCell, ShareWith, Held, UseWeight;
    WeightedWith(row, e.fraction, u, UseWeight(e.models, u), rates(row.id, u.model), c);
  }

  lemma WeightedWith(row: IssueRow, fraction: real, u: ModelUse, weight: real, rate: Option<Rate>, c: Column)
    requires !c.Cost? && !c.Hours?
    ensures ShareCell(ShareWith(row, fraction, u, weight, rate), c) == Held(row, c) * fraction * weight
  {
    match c
    case Input =>
    case Output =>
    case CacheRead =>
    case CacheWrite =>
    case Points =>
  }

  // Tokens of every kind and story points: an issue's shares add up to what it offers.
  lemma IssueConserves(row: IssueRow, e: Entry, rates: Rates, c: Column)
    requires Measured(e) && e.models != [] && !c.Cost? && !c.Hours?
    ensures Sum(SharesOf(row, e, rates), ShareColumn(c)) == Offered(row, e, c)
  {
    UseWeightsSum(e);
    forall u | u in e.models
      ensures UseWeight(e.models, u) > 0.0 ==> ShareColumn(c)(UseShare(row, e, rates, u)) == PartOf(Offered(row, e, c), e)(u)
      ensures UseWeight(e.models, u) <= 0.0 ==> PartOf(Offered(row, e, c), e)(u) == 0.0
    {
      WeightedColumn(row, e, rates, u, c);
    }
    SharesFromSum(row, e, rates, e.models, ShareColumn(c), PartOf(Offered(row, e, c), e));
    PartsSum(Offered(row, e, c), e);
  }

  function PartOf(x: real, e: Entry): ModelUse -> real { (u: ModelUse) => x * UseWeight(e.models, u) }

  lemma PartsSum(x: real, e: Entry)
    requires Sum(e.models, WeightIn(e)) == 1.0
    ensures Sum(e.models, PartOf(x, e)) == x
  {
    SumTimes(e.models, x, WeightIn(e), PartOf(x, e));
  }

  lemma WeightedColumn(row: IssueRow, e: Entry, rates: Rates, u: ModelUse, c: Column)
    requires !c.Cost? && !c.Hours? && UseWeight(e.models, u) >= 0.0
    ensures ShareColumn(c)(UseShare(row, e, rates, u)) == PartOf(Offered(row, e, c), e)(u)
    ensures UseWeight(e.models, u) <= 0.0 ==> PartOf(Offered(row, e, c), e)(u) == 0.0
  {
    hide Offered, UseShare, ShareCell, UseWeight;
    WeightedCell(row, e, rates, u, c);
  }

  lemma PositiveRatio(x: real, y: real)
    requires x > 0.0 && y > 0.0
    ensures x / y > 0.0
  {
  }

  // A model that gets no weight has no hours to lose.
  lemma WeightlessHasNoHours(e: Entry, u: ModelUse)
    requires Measured(e) && u in e.models && UseWeight(e.models, u) <= 0.0
    ensures u.days == 0.0
  {
    SumNonNegative(e.models, DaysOf);
    assert DaysOf(u) <= Sum(e.models, DaysOf);
    if u.days > 0.0 { PositiveRatio(u.days, Sum(e.models, DaysOf)); }
  }

  lemma IssueHoursConserve(row: IssueRow, e: Entry, rates: Rates)
    requires Measured(e)
    ensures Sum(SharesOf(row, e, rates), ShareColumn(Hours)) == IssueHours(e)
  {
    var part := (u: ModelUse) => 24.0 * DaysOf(u);
    forall u | u in e.models && UseWeight(e.models, u) <= 0.0 ensures part(u) == 0.0 { WeightlessHasNoHours(e, u); }
    SharesFromSum(row, e, rates, e.models, ShareColumn(Hours), part);
    SumTimes(e.models, 24.0, DaysOf, part);
  }

  // ---- conservation over all issues ----

  // The issue counts toward the split: it has an entry, and the entry has models.
  predicate Attributable(entries: Entries, row: IssueRow) { entries(row).Some? && entries(row).value.models != [] }

  function OfferedBy(entries: Entries, c: Column): IssueRow -> real {
    (row: IssueRow) => if Attributable(entries, row) then Offered(row, entries(row).value, c) else 0.0
  }

  ghost predicate AllMeasured(rows: seq<IssueRow>, entries: Entries) {
    forall row :: row in rows && entries(row).Some? ==> Measured(entries(row).value)
  }

  lemma RowConserves(row: IssueRow, entries: Entries, rates: Rates, c: Column)
    requires entries(row).Some? && Measured(entries(row).value) && !c.Cost?
    ensures Sum(SharesOf(row, entries(row).value, rates), ShareColumn(c)) == OfferedBy(entries, c)(row)
  {
    var e := entries(row).value;
    if e.models != [] {
      if c == Hours { IssueHoursConserve(row, e, rates); } else { IssueConserves(row, e, rates, c); }
    }
  }

  lemma {:induction false} SharesConserve(rows: seq<IssueRow>, entries: Entries, rates: Rates, c: Column)
    requires AllMeasured(rows, entries) && !c.Cost?
    ensures Sum(AllShares(rows, entries, rates), ShareColumn(c)) == Sum(rows, OfferedBy(entries, c))
  {
    if rows != [] {
      var n := |rows| - 1;
      var row := rows[n];
      assert row in rows;
      SharesConserve(rows[..n], entries, rates, c);
      if entries(row).Some? { RowConserves(row, entries, rates, c); }
      SumConcat(AllShares(rows[..n], entries, rates),
                if entries(row).Some? then SharesOf(row, entries(row).value, rates) else [], ShareColumn(c));
    }
  }

  lemma ClosedSum(row: IssueRow, entries: Entries, rates: Rates)
    ensures Sum(ClosedOf(row, entries, rates), ClosedPoints) == OfferedBy(entries, Points)(row)
    ensures Sum(ClosedOf(row, entries, rates), ClosedHours) == OfferedBy(entries, Hours)(row)
    ensures Sum(ClosedOf(row, entries, rates), ClosedCost)
         == Sum(if entries(row).Some? then SharesOf(row, entries(row).value, rates) else [], CostOf)
  {
    var one := ClosedOf(row, entries, rates);
    if one != [] { assert one[..0] == []; }
  }

  lemma {:induction false} ClosedConserve(rows: seq<IssueRow>, entries: Entries, rates: Rates)
    ensures Sum(AllClosed(rows, entries, rates), ClosedPoints) == Sum(rows, OfferedBy(entries, Points))
    ensures Sum(AllClosed(rows, entries, rates), ClosedHours) == Sum(rows, OfferedBy(entries, Hours))
    ensures Sum(AllClosed(rows, entries, rates), ClosedCost) == Sum(AllShares(rows, entries, rates), CostOf)
  {
    if rows != [] {
      var n := |rows| - 1;
      ClosedConserve(rows[..n], entries, rates);
      ClosedSum(rows[n], entries, rates);
      SumConcat(AllClosed(rows[..n], entries, rates), ClosedOf(rows[n], entries, rates), ClosedPoints);
      SumConcat(AllClosed(rows[..n], entries, rates), ClosedOf(rows[n], entries, rates), ClosedHours);
      SumConcat(AllClosed(rows[..n], entries, rates), ClosedOf(rows[n], entries, rates), ClosedCost);
      SumConcat(AllShares(rows[..n], entries, rates),
                if entries(rows[n]).Some? then SharesOf(rows[n], entries(rows[n]).value, rates) else [], CostOf);
    }
  }

  lemma RowsAddUp(shares: seq<Share>, c: Column)
    ensures Sum(FirstSeen(shares, ModelKey, Always), ModelColumn(ModelsOf(shares), c)) == Sum(shares, ShareColumn(c))
  {
    forall k ensures ModelColumn(ModelsOf(shares), c)(k) == SumFor(shares, ModelKey, ShareColumn(c), k) { ModelRowIs(shares, k, c); }
    Regroup(shares, FirstSeen(shares, ModelKey, Always), ModelKey, ShareColumn(c), (k: Option<Id>) => true,
            ModelColumn(ModelsOf(shares), c), ShareColumn(c));
  }

  // The per-model rows: their story points, each kind of token and their active hours add up
  // to those of the attributable issues, and their cost to the cost of all the shares.
  lemma ModelsConserve(rows: seq<IssueRow>, entries: Entries, rates: Rates, c: Column)
    requires AllMeasured(rows, entries)
    ensures var shares := AllShares(rows, entries, rates);
      var models, keys := ModelsOf(shares), FirstSeen(shares, ModelKey, Always);
      && Distinct(keys) && (forall k :: k in keys <==> k in models)
      && Sum(keys, ModelColumn(models, c)) == if c.Cost? then Sum(shares, CostOf) else Sum(rows, OfferedBy(entries, c))
  {
    ModelRowsAre(AllShares(rows, entries, rates));
    ModelColumnTotals(rows, entries, rates, c);
  }

  lemma ModelColumnTotals(rows: seq<IssueRow>, entries: Entries, rates: Rates, c: Column)
    requires AllMeasured(rows, entries)
    ensures var shares := AllShares(rows, entries, rates);
      Sum(FirstSeen(shares, ModelKey, Always), ModelColumn(ModelsOf(shares), c))
      == if c.Cost? then Sum(shares, CostOf) else Sum(rows, OfferedBy(entries, c))
  {
    RowsAddUp(AllShares(rows, entries, rates), c);
    if c.Cost? {
      SumSame(AllShares(rows, entries, rates), ShareColumn(c), CostOf);
    } else {
      SharesConserve(rows, entries, rates, c);
    }
  }

  function LanePoints(m: map<Id, LaneRow>): Id -> real { (k: Id) => LaneAt(m, k).points }
  function LaneCost(m: map<Id, LaneRow>): Id -> real { (k: Id) => LaneAt(m, k).cost }

  // The per-lane rows: same story points, same cost.
  lemma LanesConserve(rows: seq<IssueRow>, entries: Entries, rates: Rates)
    ensures var closed := AllClosed(rows, entries, rates);
      var lanes, keys := LanesOf(closed), FirstSeen(closed, ClosedLane, AlwaysClosed);
      && Distinct(keys) && (forall k :: k in keys <==> k in lanes)
      && Sum(keys, LanePoints(lanes)) == Sum(rows, OfferedBy(entries, Points))
      && Sum(keys, LaneCost(lanes)) == Sum(AllShares(rows, entries, rates), CostOf)
  {
    var closed := AllClosed(rows, entries, rates);
    var lanes, keys := LanesOf(closed), FirstSeen(closed, ClosedLane, AlwaysClosed);
    LaneRowsAre(closed);
    forall k
      ensures LanePoints(lanes)(k) == SumFor(closed, ClosedLane, ClosedPoints, k)
      ensures LaneCost(lanes)(k) == SumFor(closed, ClosedLane, ClosedCost, k)
    {
      LaneRowIs(closed, k);
    }
    Regroup(closed, keys, ClosedLane, ClosedPoints, (k: Id) => true, LanePoints(lanes), ClosedPoints);
    Regroup(closed, keys, ClosedLane, ClosedCost, (k: Id) => true, LaneCost(lanes), ClosedCost);
    ClosedConserve(rows, entries, rates);
  }

  // ---- the cost denominator ----

  lemma {:induction false} PricedPart(shares: seq<Share>)
    requires forall s :: s in shares ==> s.points > 0.0
    ensures Sum(shares, PricedPoints) <= Sum(shares, ShareColumn(Points))
    ensures Sum(shares, PricedPoints) == Sum(shares, ShareColumn(Points)) <==> AllPriced(shares)
  {
    if shares != [] {
      var n := |shares| - 1;
      PricedPart(shares[..n]);
      assert shares == shares[..n] + [shares[n]];
      assert AllPriced(shares) <==> AllPriced(shares[..n]) && shares[n].cost.Some?;
    }
  }

  lemma {:induction false} SharesHavePoints(row: IssueRow, e: Entry, rates: Rates, uses: seq<ModelUse>)
    requires row.points > 0.0 && e.fraction > 0.0
    ensures forall s :: s in SharesFrom(row, e, rates, uses) ==> s.points > 0.0
  {
    if uses != [] {
      SharesHavePoints(row, e, rates, uses[..|uses| - 1]);
      var weight := UseWeight(e.models, uses[|uses| - 1]);
      if weight > 0.0 { ProductPositive(row.points, e.fraction, weight); }
    }
  }

  lemma ProductPositive(x: real, y: real, z: real)
    requires x > 0.0 && y > 0.0 && z > 0.0
    ensures x * y * z > 0.0
  {
    assert x * y > 0.0;
  }

  lemma {:induction false} AllSharesHavePoints(rows: seq<IssueRow>, entries: Entries, rates: Rates)
    requires forall row :: row in rows ==> row.points > 0.0 && (entries(row).Some? ==> entries(row).value.fraction > 0.0)
    ensures forall s :: s in AllShares(rows, entries, rates) ==> s.points > 0.0
  {
    if rows != [] {
      var row := rows[|rows| - 1];
      assert row in rows;
      AllSharesHavePoints(rows[..|rows| - 1], entries, rates);
      if entries(row).Some? { SharesHavePoints(row, entries(row).value, rates, entries(row).value.models); }
    }
  }

  // cost_story_points is the story points of the priced shares, never more than the
  // attributable ones, and equal to them exactly when no share is unpriced.
  lemma CostPointsExactly(rows: seq<IssueRow>, entries: Entries, rates: Rates)
    requires AllMeasured(rows, entries)
    requires forall row :: row in rows ==> row.points > 0.0 && (entries(row).Some? ==> entries(row).value.fraction > 0.0)
    ensures var shares := AllShares(rows, entries, rates);
      && Sum(shares, PricedPoints) <= Sum(rows, OfferedBy(entries, Points))
      && (Sum(shares, PricedPoints) == Sum(rows, OfferedBy(entries, Points)) <==> AllPriced(shares))
  {
    AllSharesHavePoints(rows, entries, rates);
    PricedPart(AllShares(rows, entries, rates));
    SharesConserve(rows, entries, rates, Points);
  }

  // ---- models without weight ----

  // The entry without the models that get no weight.
  function Weighty(e: Entry, uses: seq<ModelUse>): seq<ModelUse> {
    if uses == [] then []
    else
      var u := uses[|uses| - 1];
      Weighty(e, uses[..|uses| - 1]) + (if UseWeight(e.models, u) > 0.0 then [u] else [])
  }

  lemma {:induction false} WeightySum(e: Entry, uses: seq<ModelUse>, f: ModelUse -> real)
    requires forall u :: u in uses && UseWeight(e.models, u) <= 0.0 ==> f(u) == 0.0
    ensures Sum(Weighty(e, uses), f) == Sum(uses, f)
  {
    if uses != [] {
      var n := |uses| - 1;
      WeightySum(e, uses[..n], f);
      assert uses[n] in uses;
      var one := if UseWeight(e.models, uses[n]) > 0.0 then [uses[n]] else [];
      SumConcat(Weighty(e, uses[..n]), one, f);
      if one != [] { assert one[..0] == []; }
    }
  }

  lemma {:induction false} EqualSplitKeepsAll(e: Entry, uses: seq<ModelUse>)
    requires forall u :: u in uses ==> UseWeight(e.models, u) > 0.0
    ensures Weighty(e, uses) == uses
  {
    if uses != [] {
      assert uses[|uses| - 1] in uses;
      EqualSplitKeepsAll(e, uses[..|uses| - 1]);
    }
  }

  lemma WeightlessHasNoRuns(e: Entry, u: ModelUse)
    requires Measured(e) && u in e.models && UseWeight(e.models, u) <= 0.0 && Sum(e.models, DaysOf) <= 0.0
    ensures u.n == 0.0 || Sum(e.models, CountOf) <= 0.0
  {
    if Sum(e.models, CountOf) > 0.0 && u.n > 0.0 { PositiveRatio(u.n, Sum(e.models, CountOf)); }
  }

  // Normalising again over the weighty models gives them the same weights.
  lemma WeightsStay(e: Entry, u: ModelUse)
    requires Measured(e) && e.models != [] && Weighty(e, e.models) != []
    ensures UseWeight(Weighty(e, e.models), u) == UseWeight(e.models, u)
  {
    forall v | v in e.models && UseWeight(e.models, v) <= 0.0 ensures DaysOf(v) == 0.0 { WeightlessHasNoHours(e, v); }
    WeightySum(e, e.models, DaysOf);
    if Sum(e.models, DaysOf) <= 0.0 {
      if Sum(e.models, CountOf) > 0.0 {
        forall v | v in e.models && UseWeight(e.models, v) <= 0.0 ensures CountOf(v) == 0.0 { WeightlessHasNoRuns(e, v); }
        WeightySum(e, e.models, CountOf);
      } else {
        EqualSplitKeepsAll(e, e.models);
      }
    }
  }

  lemma {:induction false} WeightySharesStay(row: IssueRow, e: Entry, kept: Entry, rates: Rates, uses: seq<ModelUse>)
    requires kept.fraction == e.fraction && forall u :: UseWeight(kept.models, u) == UseWeight(e.models, u)
    ensures SharesFrom(row, kept, rates, Weighty(e, uses)) == SharesFrom(row, e, rates, uses)
  {
    if uses != [] {
      var n := |uses| - 1;
      WeightySharesStay(row, e, kept, rates, uses[..n]);
      assert UseShare(row, kept, rates, uses[n]) == UseShare(row, e, rates, uses[n]);
      if UseWeight(e.models, uses[n]) > 0.0 {
        assert Weighty(e, uses)[..|Weighty(e, uses)| - 1] == Weighty(e, uses[..n]);
      } else {
        assert Weighty(e, uses) == Weighty(e, uses[..n]);
      }
    }
  }

  // Models with zero weight affect nothing: taking them out of an issue's statistics leaves
  // its shares, its closed figures and so every row and total of the report as they were.
  lemma ZeroWeightAffectsNothing(row: IssueRow, e: Entry, rates: Rates)
    requires Measured(e) && e.models != []
    ensures var kept := e.(models := Weighty(e, e.models));
      && kept.models != []
      && SharesOf(row, kept, rates) == SharesOf(row, e, rates)
      && Close(row, kept, SharesOf(row, kept, rates)) == Close(row, e, SharesOf(row, e, rates))
  {
    SomeWeighty(e);
    var kept := e.(models := Weighty(e, e.models));
    forall u ensures UseWeight(kept.models, u) == UseWeight(e.models, u) { WeightsStay(e, u); }
    WeightySharesStay(row, e, kept, rates, e.models);
    HoursStay(e);
    CloseSame(row, e, kept, SharesOf(row, e, rates));
  }

  lemma CloseSame(row: IssueRow, e: Entry, kept: Entry, shares: seq<Share>)
    requires kept.fraction == e.fraction && IssueHours(kept) == IssueHours(e)
    ensures Close(row, kept, shares) == Close(row, e, shares)
  {
  }

  lemma SomeWeighty(e: Entry)
    requires Measured(e) && e.models != []
    ensures Weighty(e, e.models) != []
  {
    UseWeightsSum(e);
    if Weighty(e, e.models) == [] { NoneWeighty(e, e.models); }
  }

  lemma HoursStay(e: Entry)
    requires Measured(e)
    ensures IssueHours(e.(models := Weighty(e, e.models))) == IssueHours(e)
  {
    forall v | v in e.models && UseWeight(e.models, v) <= 0.0 ensures DaysOf(v) == 0.0 { WeightlessHasNoHours(e, v); }
    WeightySum(e, e.models, DaysOf);
  }

  lemma {:induction false} NoneWeighty(e: Entry, uses: seq<ModelUse>)
    requires Weighty(e, uses) == []
    ensures Sum(uses, WeightIn(e)) <= 0.0
  {
    if uses != [] { NoneWeighty(e, uses[..|uses| - 1]); }
  }
}
