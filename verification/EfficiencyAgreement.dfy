// The selection, the chart and the breakdown are written independently of one another.
// Here their figures are proved equal.
module EfficiencyAgreement {
  import opened Prelude
  import opened Sums
  import opened Efficiency
  import C = EfficiencyChart
  import B = EfficiencyBreakdown
  import R = EfficiencyReport
  import K = EfficiencyCost

  // What RunFilterSelection returns for an active filter.
  ghost predicate IsSelection(runs: seq<WorkRun>, f: RunFilter, selection: map<Id, Entry>) {
    && NeedsRuns(f)
    && (forall i :: i in selection <==> Fraction(runs, f, i) > 0.0)
    && (forall i :: i in selection ==> selection[i] == Entry(Fraction(runs, f, i), UsesOf(runs, f, i)))
  }

  // ---- totals ----

  lemma EntryFraction(row: IssueRow, runs: seq<WorkRun>, f: RunFilter, selection: map<Id, Entry>, stats: map<Id, seq<ModelUse>>)
    requires IsSelection(runs, f, selection)
    ensures var entry := R.EntryOf(true, selection, stats)(row);
      if entry.Some? then entry.value.fraction == Fraction(runs, f, row.id) else Fraction(runs, f, row.id) == 0.0
  {
    FractionIsAShare(runs, f, row.id);
  }

  lemma EntryGives(row: IssueRow, runs: seq<WorkRun>, f: RunFilter, selection: map<Id, Entry>, stats: map<Id, seq<ModelUse>>, c: B.Column)
    requires IsSelection(runs, f, selection) && !c.Hours?
    ensures R.CountedBy(R.EntryOf(true, selection, stats), c)(row) == B.Held(row, c) * Fraction(runs, f, row.id)
  {
    hide Fraction;
    EntryFraction(row, runs, f, selection, stats);
  }

  function KindsOf(r: seq<IssueRow>, entries: B.Entries): Kinds {
    Kinds(Sum(r, R.CountedBy(entries, B.Input)), Sum(r, R.CountedBy(entries, B.Output)),
          Sum(r, R.CountedBy(entries, B.CacheRead)), Sum(r, R.CountedBy(entries, B.CacheWrite)))
  }

  lemma {:induction false} CountsAreFractions(
      rows: seq<IssueRow>, runs: seq<WorkRun>, f: RunFilter, selection: map<Id, Entry>, stats: map<Id, seq<ModelUse>>)
    requires IsSelection(runs, f, selection)
    ensures Sum(rows, R.CountedBy(R.EntryOf(true, selection, stats), B.Points)) == Sum(rows, C.SelectedPoints(runs, f))
    ensures Total(KindsOf(rows, R.EntryOf(true, selection, stats))) == Sum(rows, C.SelectedTokens(runs, f))
  {
    if rows != [] {
      CountsAreFractions(rows[..|rows| - 1], runs, f, selection, stats);
      RowGives(rows[|rows| - 1], runs, f, selection, stats);
    }
  }

  lemma RowGives(row: IssueRow, runs: seq<WorkRun>, f: RunFilter, selection: map<Id, Entry>, stats: map<Id, seq<ModelUse>>)
    requires IsSelection(runs, f, selection)
    ensures var entries := R.EntryOf(true, selection, stats);
      && R.CountedBy(entries, B.Points)(row) == C.SelectedPoints(runs, f)(row)
      && R.CountedBy(entries, B.Input)(row) + R.CountedBy(entries, B.Output)(row)
         + R.CountedBy(entries, B.CacheRead)(row) + R.CountedBy(entries, B.CacheWrite)(row) == C.SelectedTokens(runs, f)(row)
  {
    hide Fraction;
    EntryGives(row, runs, f, selection, stats, B.Points);
    EntryGives(row, runs, f, selection, stats, B.Input);
    EntryGives(row, runs, f, selection, stats, B.Output);
    EntryGives(row, runs, f, selection, stats, B.CacheRead);
    EntryGives(row, runs, f, selection, stats, B.CacheWrite);
    FourProducts(row.usage, Fraction(runs, f, row.id));
  }

  lemma FourProducts(k: Kinds, c: real)
    ensures Total(k) * c == k.input * c + k.output * c + k.cacheRead * c + k.cacheWrite * c
  {
  }

  // Under any run-level filter the breakdown's tokens and story points are the sum of per-issue
  // fractions times issue totals.
  lemma ReportIsTheSelection(
      rows: seq<IssueRow>, runs: seq<WorkRun>, f: RunFilter, selection: map<Id, Entry>, stats: map<Id, seq<ModelUse>>,
      rates: B.Rates, r: R.Report)
    requires IsSelection(runs, f, selection)
    requires R.Says(r, rows, R.EntryOf(true, selection, stats), rates)
    ensures Total(r.tokens) == Sum(rows, C.SelectedTokens(runs, f)) && r.points == Sum(rows, C.SelectedPoints(runs, f))
  {
    CountsAreFractions(rows, runs, f, selection, stats);
  }

  // ---- without a filter ----

  function UndatedTokens(runs: seq<WorkRun>): IssueRow -> real {
    (row: IssueRow) => if WholeSeconds(runs, row.id) > 0.0 then 0.0 else Total(row.usage)
  }

  function UndatedPoints(runs: seq<WorkRun>): IssueRow -> real {
    (row: IssueRow) => if WholeSeconds(runs, row.id) > 0.0 then 0.0 else row.points
  }

  lemma WholeIssue(row: IssueRow, runs: seq<WorkRun>, f: RunFilter)
    requires !NeedsRuns(f)
    ensures Total(row.usage) == C.SelectedTokens(runs, f)(row) + UndatedTokens(runs)(row)
    ensures row.points == C.SelectedPoints(runs, f)(row) + UndatedPoints(runs)(row)
  {
    NoFilterPicksEverything(runs, f, row.id);
    CutAtMostWhole(runs, f, row.id);
    if WholeSeconds(runs, row.id) > 0.0 { C.SelfRatio(WholeSeconds(runs, row.id)); }
  }

  // Without a filter the breakdown counts every issue whole, and it exceeds the chart by
  // exactly the issues that have no usable dated run.
  lemma {:induction false} UnfilteredDiffersByUndated(
      rows: seq<IssueRow>, runs: seq<WorkRun>, f: RunFilter, selection: map<Id, Entry>, stats: map<Id, seq<ModelUse>>)
    requires !NeedsRuns(f)
    ensures var entries := R.EntryOf(false, selection, stats);
      && Total(KindsOf(rows, entries)) == Sum(rows, C.SelectedTokens(runs, f)) + Sum(rows, UndatedTokens(runs))
      && Sum(rows, R.CountedBy(entries, B.Points)) == Sum(rows, C.SelectedPoints(runs, f)) + Sum(rows, UndatedPoints(runs))
  {
    if rows != [] {
      UnfilteredDiffersByUndated(rows[..|rows| - 1], runs, f, selection, stats);
      WholeIssue(rows[|rows| - 1], runs, f);
    }
  }

  // ---- model by model ----

  function UseModel(u: ModelUse): Option<Id> { u.model }

  lemma {:induction false} SumForConcat<T(!new), K(!new)>(xs: seq<T>, ys: seq<T>, key: T -> K, f: T -> real, k: K)
    ensures SumFor(xs + ys, key, f, k) == SumFor(xs, key, f, k) + SumFor(ys, key, f, k)
  {
    if ys == [] {
      assert xs + ys == xs;
    } else {
      assert (xs + ys)[..|xs + ys| - 1] == xs + ys[..|ys| - 1];
      SumForConcat(xs, ys[..|ys| - 1], key, f, k);
    }
  }

  lemma {:induction false} SumForTimes<T(!new), K(!new)>(xs: seq<T>, key: T -> K, c: real, f: T -> real, h: T -> real, k: K)
    requires forall x :: x in xs ==> h(x) == c * f(x)
    ensures SumFor(xs, key, h, k) == c * SumFor(xs, key, f, k)
  {
    if xs != [] { SumForTimes(xs[..|xs| - 1], key, c, f, h, k); }
  }

  // A model's segments of one issue: its selected seconds over the issue's whole seconds.
  lemma {:induction false} SegmentsOfModel(
      runs: seq<WorkRun>, f: RunFilter, row: IssueRow, mine: seq<WorkRun>, field: C.Segment -> real, part: WorkRun -> real, m: Id)
    requires forall r :: Sum(C.SegmentOf(runs, f, row, r), field) == part(r)
    ensures SumFor(C.SegmentsOf(runs, f, row, mine), C.ModelName, field, Some(m)) == SumFor(mine, ModelOf, part, Some(m))
  {
    if mine != [] {
      var n := |mine| - 1;
      var one := C.SegmentOf(runs, f, row, mine[n]);
      SegmentsOfModel(runs, f, row, mine[..n], field, part, m);
      SumForConcat(C.SegmentsOf(runs, f, row, mine[..n]), one, C.ModelName, field, Some(m));
      if one != [] { assert one[..0] == []; }
    }
  }

  lemma {:induction false} SharesOfModel(
      row: IssueRow, e: Entry, rates: B.Rates, uses: seq<ModelUse>, field: B.Share -> real, part: ModelUse -> real, m: Option<Id>)
    requires forall u :: u in uses && B.UseWeight(e.models, u) > 0.0 ==> field(B.UseShare(row, e, rates, u)) == part(u)
    requires forall u :: u in uses && B.UseWeight(e.models, u) <= 0.0 ==> part(u) == 0.0
    ensures SumFor(B.SharesFrom(row, e, rates, uses), B.ModelKey, field, m) == SumFor(uses, UseModel, part, m)
  {
    if uses != [] {
      var n := |uses| - 1;
      SharesOfModel(row, e, rates, uses[..n], field, part, m);
      assert uses[n] in uses;
      var one := if B.UseWeight(e.models, uses[n]) > 0.0 then [B.UseShare(row, e, rates, uses[n])] else [];
      SumForConcat(B.SharesFrom(row, e, rates, uses[..n]), one, B.ModelKey, field, m);
      if one != [] { assert one[..0] == []; }
    }
  }

  // Each model has one entry, holding its tally.
  lemma {:induction false} UsesHold(keys: seq<Option<Id>>, days: Dict<Option<Id>>, counts: Dict<Option<Id>>, m: Option<Id>)
    requires Distinct(keys)
    ensures SumFor(UsesFrom(keys, days, counts), UseModel, DaysOf, m) == if m in keys then Get(days, m) else 0.0
  {
    if keys != [] {
      var n := |keys| - 1;
      UsesHold(keys[..n], days, counts, m);
      SumForConcat(UsesFrom(keys[..n], days, counts), [ModelUse(keys[n], Get(days, keys[n]), Get(counts, keys[n]))], UseModel, DaysOf, m);
      assert keys == keys[..n] + [keys[n]];
    }
  }

  // The days of one model in the selection are its selected seconds.
  lemma ModelDays(runs: seq<WorkRun>, f: RunFilter, issue: Id, m: Option<Id>)
    ensures SumFor(UsesOf(runs, f, issue), UseModel, DaysOf, m) == ModelCut(runs, f, issue, m) / 86400.0
  {
    var days := DayTally(runs, f, issue);
    DaysTallied(RunsOf(runs, issue), f, m);
    UsesHold(days.keys, days, RunTally(runs, f, issue), m);
  }

  // The seconds of an issue that a filter selects from the runs of one model.
  function ModelCut(runs: seq<WorkRun>, f: RunFilter, issue: Id, m: Option<Id>): real {
    SumFor(RunsOf(runs, issue), ModelOf, CutBy(f), m)
  }

  lemma DaysTallied(mine: seq<WorkRun>, f: RunFilter, m: Option<Id>)
    ensures var d := Tally(mine, ModelOf, Touched(f), DaysBy(f));
      && Distinct(d.keys)
      && (if m in d.keys then Get(d, m) else 0.0) == SumFor(mine, ModelOf, CutBy(f), m) / 86400.0
  {
    UntouchedIsZero(mine, f);
    TallyIs(mine, ModelOf, Touched(f), DaysBy(f));
    ModelDaysSum(mine, f, m);
  }

  lemma ModelDaysSum(mine: seq<WorkRun>, f: RunFilter, m: Option<Id>)
    ensures SumFor(mine, ModelOf, DaysBy(f), m) == SumFor(mine, ModelOf, CutBy(f), m) / 86400.0
  {
    SumForTimes(mine, ModelOf, 1.0 / 86400.0, CutBy(f), DaysBy(f), m);
  }

  // ---- one issue, one model ----

  function CutTimes(c: real, f: RunFilter): WorkRun -> real { Times(c, CutBy(f)) }

  lemma AmountIsCut(a: real, c: real, runs: seq<WorkRun>, f: RunFilter, issue: Id, r: WorkRun)
    requires WholeSeconds(runs, issue) > 0.0 && c == a / WholeSeconds(runs, issue)
    ensures Times(a, C.ShareBy(runs, f, issue))(r) == CutTimes(c, f)(r)
  {
    Reorder(a, Cut(f, r), WholeSeconds(runs, issue));
  }

  lemma CutsTimes(mine: seq<WorkRun>, c: real, f: RunFilter, m: Option<Id>)
    ensures SumFor(mine, ModelOf, CutTimes(c, f), m) == c * SumFor(mine, ModelOf, CutBy(f), m)
  {
    SumForTimes(mine, ModelOf, c, CutBy(f), CutTimes(c, f), m);
  }

  lemma Reorder(a: real, x: real, y: real)
    requires y > 0.0
    ensures a * (x / y) == (a / y) * x
  {
  }

  function DaysTimes(c: real): ModelUse -> real { Times(c, DaysOf) }

  function WeightTimes(a: real, uses: seq<ModelUse>): ModelUse -> real { (u: ModelUse) => a * B.UseWeight(uses, u) }

  lemma UsePart(e: Entry, a: real, c: real, u: ModelUse)
    requires e.models != [] && Sum(e.models, DaysOf) > 0.0 && u.days >= 0.0 && c == a / Sum(e.models, DaysOf)
    ensures WeightTimes(a, e.models)(u) == DaysTimes(c)(u)
    ensures B.UseWeight(e.models, u) <= 0.0 ==> DaysTimes(c)(u) == 0.0
  {
    Reorder(a, u.days, Sum(e.models, DaysOf));
    NoWeightNoDays(u.days, Sum(e.models, DaysOf));
  }

  lemma DaysSum(uses: seq<ModelUse>, c: real, m: Option<Id>)
    ensures SumFor(uses, UseModel, DaysTimes(c), m) == c * SumFor(uses, UseModel, DaysOf, m)
  {
    SumForTimes(uses, UseModel, c, DaysOf, DaysTimes(c), m);
  }

  function SharePoints(s: B.Share): real { s.points }
  function ShareTokens(s: B.Share): real { Total(s.tokens) }

  lemma PointsGiven(row: IssueRow, e: Entry, rates: B.Rates, u: ModelUse)
    ensures SharePoints(B.UseShare(row, e, rates, u)) == WeightTimes(row.points * e.fraction, e.models)(u)
  {
  }

  lemma TokensGiven(row: IssueRow, e: Entry, rates: B.Rates, u: ModelUse)
    ensures ShareTokens(B.UseShare(row, e, rates, u)) == WeightTimes(Total(row.usage) * e.fraction, e.models)(u)
  {
    R.ScaleTotal(row.usage, e.fraction);
    R.ScaleTotal(Scale2(row, e), B.UseWeight(e.models, u));
  }

  function Scale2(row: IssueRow, e: Entry): Kinds { B.Scale(row.usage, e.fraction) }

  // Every share of the issue is c times the model's days.
  ghost predicate PerDay(row: IssueRow, e: Entry, rates: B.Rates, c: real, field: B.Share -> real) {
    forall u :: u in e.models ==>
      && field(B.UseShare(row, e, rates, u)) == DaysTimes(c)(u)
      && (B.UseWeight(e.models, u) <= 0.0 ==> DaysTimes(c)(u) == 0.0)
  }

  lemma PointsPerDay(row: IssueRow, e: Entry, rates: B.Rates, a: real, c: real)
    requires e.models != [] && Sum(e.models, DaysOf) > 0.0 && (forall u :: u in e.models ==> u.days >= 0.0)
    requires a == row.points * e.fraction && c == a / Sum(e.models, DaysOf)
    ensures PerDay(row, e, rates, c, SharePoints)
  {
    forall u | u in e.models
      ensures SharePoints(B.UseShare(row, e, rates, u)) == DaysTimes(c)(u)
      ensures B.UseWeight(e.models, u) <= 0.0 ==> DaysTimes(c)(u) == 0.0
    {
      PointsGiven(row, e, rates, u);
      UsePart(e, a, c, u);
    }
  }

  lemma TokensPerDay(row: IssueRow, e: Entry, rates: B.Rates, a: real, c: real)
    requires e.models != [] && Sum(e.models, DaysOf) > 0.0 && (forall u :: u in e.models ==> u.days >= 0.0)
    requires a == Total(row.usage) * e.fraction && c == a / Sum(e.models, DaysOf)
    ensures PerDay(row, e, rates, c, ShareTokens)
  {
    forall u | u in e.models
      ensures ShareTokens(B.UseShare(row, e, rates, u)) == DaysTimes(c)(u)
      ensures B.UseWeight(e.models, u) <= 0.0 ==> DaysTimes(c)(u) == 0.0
    {
      TokensGiven(row, e, rates, u);
      UsePart(e, a, c, u);
    }
  }

  lemma BreakdownSide(row: IssueRow, e: Entry, rates: B.Rates, c: real, field: B.Share -> real, m: Option<Id>)
    requires PerDay(row, e, rates, c, field)
    ensures SumFor(B.SharesOf(row, e, rates), B.ModelKey, field, m) == SumFor(e.models, UseModel, DaysTimes(c), m)
  {
    SharesOfModel(row, e, rates, e.models, field, DaysTimes(c), m);
  }

  lemma NoWeightNoDays(x: real, y: real)
    requires x >= 0.0 && y > 0.0
    ensures x / y <= 0.0 ==> x == 0.0
  {
  }

  // fraction * (model's days / all days) is the model's seconds over the issue's seconds.
  lemma RatiosAgree(a: real, fraction: real, cut: real, whole: real, days: real, modelCut: real, modelDays: real)
    requires whole > 0.0 && cut > 0.0 && fraction == cut / whole && days * 24.0 == cut / 3600.0 && modelDays == modelCut / 86400.0
    ensures ((a * fraction) / days) * modelDays == (a / whole) * modelCut
  {
    assert days == cut / 86400.0;
    assert a * fraction == (a / whole) * cut;
    assert (a / whole) * cut / days == (a / whole) * 86400.0;
  }

  // ---- one issue, then all issues ----

  lemma SelectedEntry(runs: seq<WorkRun>, f: RunFilter, issue: Id)
    requires Fraction(runs, f, issue) > 0.0
    ensures WholeSeconds(runs, issue) > 0.0 && CutSeconds(runs, f, issue) > 0.0
    ensures Sum(UsesOf(runs, f, issue), DaysOf) > 0.0 && UsesOf(runs, f, issue) != []
    ensures forall u :: u in UsesOf(runs, f, issue) ==> u.days >= 0.0 && u.n >= 0.0
  {
    CutAtMostWhole(runs, f, issue);
    FractionIsAShare(runs, f, issue);
    HoursAreTheOverlap(runs, f, issue);
    UsesMeasured(RunsOf(runs, issue), f, DayTally(runs, f, issue).keys);
  }

  lemma {:induction false} UsesMeasured(mine: seq<WorkRun>, f: RunFilter, keys: seq<Option<Id>>)
    ensures var days, counts := Tally(mine, ModelOf, Touched(f), DaysBy(f)), Tally(mine, ModelOf, Touched(f), RunsBy(f));
      forall u :: u in UsesFrom(keys, days, counts) ==> u.days >= 0.0 && u.n >= 0.0
  {
    if keys != [] {
      UsesMeasured(mine, f, keys[..|keys| - 1]);
      TallyNonNegative(mine, ModelOf, Touched(f), DaysBy(f), keys[|keys| - 1]);
      TallyNonNegative(mine, ModelOf, Touched(f), RunsBy(f), keys[|keys| - 1]);
    }
  }

  lemma {:induction false} TallyNonNegative(
      xs: seq<WorkRun>, key: WorkRun -> Option<Id>, counts: WorkRun -> bool, f: WorkRun -> real, k: Option<Id>)
    requires forall x :: f(x) >= 0.0
    ensures Get(Tally(xs, key, counts, f), k) >= 0.0
  {
    if xs != [] { TallyNonNegative(xs[..|xs| - 1], key, counts, f, k); }
  }

  // Every segment of the issue is c times the seconds cut from its run.
  ghost predicate PerCut(row: IssueRow, runs: seq<WorkRun>, f: RunFilter, c: real, field: C.Segment -> real) {
    forall r :: Sum(C.SegmentOf(runs, f, row, r), field) == CutTimes(c, f)(r)
  }

  lemma PointsPerCut(row: IssueRow, runs: seq<WorkRun>, f: RunFilter, c: real)
    requires WholeSeconds(runs, row.id) > 0.0 && c == row.points / WholeSeconds(runs, row.id)
    ensures PerCut(row, runs, f, c, C.PointsOf)
  {
    forall r ensures Sum(C.SegmentOf(runs, f, row, r), C.PointsOf) == CutTimes(c, f)(r) {
      C.SegmentSum(runs, f, row, r);
      AmountIsCut(row.points, c, runs, f, row.id, r);
    }
  }

  lemma TokensPerCut(row: IssueRow, runs: seq<WorkRun>, f: RunFilter, a: real, c: real)
    requires a == Total(row.usage) && WholeSeconds(runs, row.id) > 0.0 && c == a / WholeSeconds(runs, row.id)
    ensures PerCut(row, runs, f, c, C.TokensOf)
  {
    forall r ensures Sum(C.SegmentOf(runs, f, row, r), C.TokensOf) == CutTimes(c, f)(r) {
      C.SegmentSum(runs, f, row, r);
      AmountIsCut(a, c, runs, f, row.id, r);
    }
  }

  lemma ChartSide(row: IssueRow, runs: seq<WorkRun>, f: RunFilter, c: real, field: C.Segment -> real, m: Id)
    requires PerCut(row, runs, f, c, field)
    ensures SumFor(C.SegmentsOf(runs, f, row, RunsOf(runs, row.id)), C.ModelName, field, Some(m))
         == SumFor(RunsOf(runs, row.id), ModelOf, CutTimes(c, f), Some(m))
  {
    SegmentsOfModel(runs, f, row, RunsOf(runs, row.id), field, CutTimes(c, f), m);
  }

  // The figures of one issue that the two sides use.
  datatype Figures = Figures(fraction: real, whole: real, cut: real, days: real, modelCut: real, modelDays: real)

  ghost predicate Fits(x: Figures, runs: seq<WorkRun>, f: RunFilter, issue: Id, uses: seq<ModelUse>, m: Id) {
    && x.fraction == Fraction(runs, f, issue) && x.whole == WholeSeconds(runs, issue) && x.cut == CutSeconds(runs, f, issue)
    && x.days == Sum(uses, DaysOf) && x.modelCut == ModelCut(runs, f, issue, Some(m))
    && x.modelDays == SumFor(uses, UseModel, DaysOf, Some(m))
  }

  ghost predicate Proportions(x: Figures) {
    && x.whole > 0.0 && x.cut > 0.0 && x.days > 0.0
    && x.fraction == x.cut / x.whole && x.days * 24.0 == x.cut / 3600.0 && x.modelDays == x.modelCut / 86400.0
  }

  lemma FiguresOf(runs: seq<WorkRun>, f: RunFilter, issue: Id, m: Id) returns (x: Figures)
    requires Fraction(runs, f, issue) > 0.0
    ensures Fits(x, runs, f, issue, UsesOf(runs, f, issue), m) && Proportions(x)
  {
    var uses := UsesOf(runs, f, issue);
    x := Figures(Fraction(runs, f, issue), WholeSeconds(runs, issue), CutSeconds(runs, f, issue), Sum(uses, DaysOf),
                 ModelCut(runs, f, issue, Some(m)), SumFor(uses, UseModel, DaysOf, Some(m)));
    SelectedEntry(runs, f, issue);
    HoursAreTheOverlap(runs, f, issue);
    ModelDays(runs, f, issue, Some(m));
  }

  // c1 and c2 are what the chart gives per selected second and the breakdown per day.
  ghost predicate Scales(x: Figures, a: real, given: real, c1: real, c2: real) {
    && Proportions(x)
    && c1 == a / x.whole && given == a * x.fraction && c2 == given / x.days
  }

  lemma ScalesOf(x: Figures, a: real) returns (given: real, c1: real, c2: real)
    requires Proportions(x)
    ensures Scales(x, a, given, c1, c2)
  {
    given := a * x.fraction;
    c1 := a / x.whole;
    c2 := given / x.days;
  }

  lemma ScalesAgree(x: Figures, a: real, given: real, c1: real, c2: real)
    requires Scales(x, a, given, c1, c2)
    ensures c2 * x.modelDays == c1 * x.modelCut
  {
    RatiosAgree(a, x.fraction, x.cut, x.whole, x.days, x.modelCut, x.modelDays);
  }

  lemma SidesAgree(mine: seq<WorkRun>, f: RunFilter, uses: seq<ModelUse>, c1: real, c2: real, m: Option<Id>)
    requires c2 * SumFor(uses, UseModel, DaysOf, m) == c1 * SumFor(mine, ModelOf, CutBy(f), m)
    ensures SumFor(mine, ModelOf, CutTimes(c1, f), m) == SumFor(uses, UseModel, DaysTimes(c2), m)
  {
    CutsTimes(mine, c1, f, m);
    DaysSum(uses, c2, m);
  }

  // The selection entry of an issue, as far as the two sides need it.
  ghost predicate Usable(e: Entry) {
    e.models != [] && Sum(e.models, DaysOf) > 0.0 && forall u :: u in e.models ==> u.days >= 0.0
  }

  // The two scales of an issue's story points ...
  lemma PointsScales(row: IssueRow, runs: seq<WorkRun>, f: RunFilter, rates: B.Rates, e: Entry, x: Figures, m: Id)
    returns (c1: real, c2: real)
    requires Usable(e) && e.fraction == x.fraction && Fits(x, runs, f, row.id, e.models, m) && Proportions(x)
    ensures PerCut(row, runs, f, c1, C.PointsOf) && PerDay(row, e, rates, c2, SharePoints)
    ensures SumFor(RunsOf(runs, row.id), ModelOf, CutTimes(c1, f), Some(m)) == SumFor(e.models, UseModel, DaysTimes(c2), Some(m))
  {
    hide PerCut, PerDay, CutTimes, DaysTimes, SumFor;
    var given;
    given, c1, c2 := ScalesOf(x, row.points);
    ScalesAgree(x, row.points, given, c1, c2);
    SidesAgree(RunsOf(runs, row.id), f, e.models, c1, c2, Some(m));
    PointsPerCut(row, runs, f, c1);
    PointsPerDay(row, e, rates, given, c2);
  }

  // ... and of its tokens.
  lemma TokensScales(row: IssueRow, runs: seq<WorkRun>, f: RunFilter, rates: B.Rates, e: Entry, x: Figures, a: real, m: Id)
    returns (c1: real, c2: real)
    requires Usable(e) && e.fraction == x.fraction && Fits(x, runs, f, row.id, e.models, m) && Proportions(x)
    requires a == Total(row.usage)
    ensures PerCut(row, runs, f, c1, C.TokensOf) && PerDay(row, e, rates, c2, ShareTokens)
    ensures SumFor(RunsOf(runs, row.id), ModelOf, CutTimes(c1, f), Some(m)) == SumFor(e.models, UseModel, DaysTimes(c2), Some(m))
  {
    hide PerCut, PerDay, CutTimes, DaysTimes, SumFor;
    var given;
    given, c1, c2 := ScalesOf(x, a);
    ScalesAgree(x, a, given, c1, c2);
    SidesAgree(RunsOf(runs, row.id), f, e.models, c1, c2, Some(m));
    TokensPerCut(row, runs, f, a, c1);
    TokensPerDay(row, e, rates, given, c2);
  }

  // Of one issue, the chart and the breakdown give a model the same amount.
  lemma SameAmount(
      row: IssueRow, runs: seq<WorkRun>, f: RunFilter, rates: B.Rates, e: Entry, c1: real, c2: real,
      segmentField: C.Segment -> real, shareField: B.Share -> real, m: Id)
    requires PerCut(row, runs, f, c1, segmentField) && PerDay(row, e, rates, c2, shareField)
    requires SumFor(RunsOf(runs, row.id), ModelOf, CutTimes(c1, f), Some(m)) == SumFor(e.models, UseModel, DaysTimes(c2), Some(m))
    ensures SumFor(C.SegmentsOf(runs, f, row, RunsOf(runs, row.id)), C.ModelName, segmentField, Some(m))
         == SumFor(B.SharesOf(row, e, rates), B.ModelKey, shareField, Some(m))
  {
    ChartSide(row, runs, f, c1, segmentField, m);
    BreakdownSide(row, e, rates, c2, shareField, Some(m));
  }

  lemma IssuePointsAgree(row: IssueRow, runs: seq<WorkRun>, f: RunFilter, rates: B.Rates, e: Entry, x: Figures, m: Id)
    requires Usable(e) && e.fraction == x.fraction && Fits(x, runs, f, row.id, e.models, m) && Proportions(x)
    ensures SumFor(C.SegmentsOf(runs, f, row, RunsOf(runs, row.id)), C.ModelName, C.PointsOf, Some(m))
         == SumFor(B.SharesOf(row, e, rates), B.ModelKey, SharePoints, Some(m))
  {
    var c1, c2 := PointsScales(row, runs, f, rates, e, x, m);
    SameAmount(row, runs, f, rates, e, c1, c2, C.PointsOf, SharePoints, m);
  }

  lemma IssueTokensAgree(row: IssueRow, runs: seq<WorkRun>, f: RunFilter, rates: B.Rates, e: Entry, x: Figures, a: real, m: Id)
    requires Usable(e) && e.fraction == x.fraction && Fits(x, runs, f, row.id, e.models, m) && Proportions(x)
    requires a == Total(row.usage)
    ensures SumFor(C.SegmentsOf(runs, f, row, RunsOf(runs, row.id)), C.ModelName, C.TokensOf, Some(m))
         == SumFor(B.SharesOf(row, e, rates), B.ModelKey, ShareTokens, Some(m))
  {
    var c1, c2 := TokensScales(row, runs, f, rates, e, x, a, m);
    SameAmount(row, runs, f, rates, e, c1, c2, C.TokensOf, ShareTokens, m);
  }

  // ---- all issues ----

  lemma {:induction false} NothingSelected(runs: seq<WorkRun>, f: RunFilter, row: IssueRow, mine: seq<WorkRun>)
    requires Sum(mine, CutBy(f)) <= 0.0
    ensures C.SegmentsOf(runs, f, row, mine) == []
  {
    if mine != [] {
      forall r ensures CutBy(f)(r) >= 0.0 { CutIsPart(f, r); }
      SumNonNegative(mine[..|mine| - 1], CutBy(f));
      NothingSelected(runs, f, row, mine[..|mine| - 1]);
    }
  }

  function EntryShares(row: IssueRow, entries: B.Entries, rates: B.Rates): seq<B.Share> {
    if entries(row).Some? then B.SharesOf(row, entries(row).value, rates) else []
  }

  lemma RowModelAgrees(
      row: IssueRow, runs: seq<WorkRun>, f: RunFilter, selection: map<Id, Entry>, stats: map<Id, seq<ModelUse>>, rates: B.Rates, m: Id)
    requires IsSelection(runs, f, selection)
    ensures var segments, shares := C.SegmentsOf(runs, f, row, RunsOf(runs, row.id)), EntryShares(row, R.EntryOf(true, selection, stats), rates);
      && SumFor(segments, C.ModelName, C.PointsOf, Some(m)) == SumFor(shares, B.ModelKey, SharePoints, Some(m))
      && SumFor(segments, C.ModelName, C.TokensOf, Some(m)) == SumFor(shares, B.ModelKey, ShareTokens, Some(m))
  {
    if row.id in selection {
      var e := selection[row.id];
      SelectedEntry(runs, f, row.id);
      var x := FiguresOf(runs, f, row.id, m);
      IssuePointsAgree(row, runs, f, rates, e, x, m);
      IssueTokensAgree(row, runs, f, rates, e, x, Total(row.usage), m);
    } else {
      FractionIsAShare(runs, f, row.id);
      CutAtMostWhole(runs, f, row.id);
      RunsOfSum(runs, f, row.id);
      NothingSelected(runs, f, row, RunsOf(runs, row.id));
    }
  }

  lemma {:induction false} AllModelsAgree(
      rows: seq<IssueRow>, runs: seq<WorkRun>, f: RunFilter, selection: map<Id, Entry>, stats: map<Id, seq<ModelUse>>, rates: B.Rates, m: Id)
    requires IsSelection(runs, f, selection)
    ensures var segments, shares := C.Segments(rows, runs, f), B.AllShares(rows, R.EntryOf(true, selection, stats), rates);
      && SumFor(segments, C.ModelName, C.PointsOf, Some(m)) == SumFor(shares, B.ModelKey, SharePoints, Some(m))
      && SumFor(segments, C.ModelName, C.TokensOf, Some(m)) == SumFor(shares, B.ModelKey, ShareTokens, Some(m))
  {
    if rows != [] {
      var n, entries := |rows| - 1, R.EntryOf(true, selection, stats);
      var segments, shares := C.SegmentsOf(runs, f, rows[n], RunsOf(runs, rows[n].id)), EntryShares(rows[n], entries, rates);
      AllModelsAgree(rows[..n], runs, f, selection, stats, rates, m);
      RowModelAgrees(rows[n], runs, f, selection, stats, rates, m);
      SumForConcat(C.Segments(rows[..n], runs, f), segments, C.ModelName, C.PointsOf, Some(m));
      SumForConcat(C.Segments(rows[..n], runs, f), segments, C.ModelName, C.TokensOf, Some(m));
      SumForConcat(B.AllShares(rows[..n], entries, rates), shares, B.ModelKey, SharePoints, Some(m));
      SumForConcat(B.AllShares(rows[..n], entries, rates), shares, B.ModelKey, ShareTokens, Some(m));
    }
  }

  lemma {:induction false} ModelTokens(shares: seq<B.Share>, k: Option<Id>)
    ensures Total(B.ModelAt(B.ModelsOf(shares), k).tokens) == SumFor(shares, B.ModelKey, ShareTokens, k)
    ensures B.ModelAt(B.ModelsOf(shares), k).points == SumFor(shares, B.ModelKey, SharePoints, k)
  {
    if shares != [] { ModelTokens(shares[..|shares| - 1], k); }
  }

  // The chart's and the breakdown's row of a model.
  ghost predicate SameModelRow(models: map<Id, C.Bucket>, r: R.Report, m: Id) {
    && C.BucketAt(models, m).points == B.ModelAt(r.models, Some(m)).points
    && C.BucketAt(models, m).tokens == Total(B.ModelAt(r.models, Some(m)).tokens)
  }

  // Of any name, the empty one included, the breakdown's row holds what the chart's segments carry.
  lemma BreakdownRowIs(
      rows: seq<IssueRow>, runs: seq<WorkRun>, f: RunFilter, selection: map<Id, Entry>, stats: map<Id, seq<ModelUse>>,
      rates: B.Rates, r: R.Report, m: Id)
    requires IsSelection(runs, f, selection)
    requires R.Says(r, rows, R.EntryOf(true, selection, stats), rates)
    ensures B.ModelAt(r.models, Some(m)).points == SumFor(C.Segments(rows, runs, f), C.ModelName, C.PointsOf, Some(m))
    ensures Total(B.ModelAt(r.models, Some(m)).tokens) == SumFor(C.Segments(rows, runs, f), C.ModelName, C.TokensOf, Some(m))
  {
    AllModelsAgree(rows, runs, f, selection, stats, rates, m);
    ModelTokens(B.AllShares(rows, R.EntryOf(true, selection, stats), rates), Some(m));
  }

  // Under any run-level filter, the chart's row of a named model and the breakdown's row of the same
  // model carry the same story points and the same tokens, although one divides a run's seconds
  // by the issue's and the other multiplies a fraction by a normalised weight.
  lemma ModelRowsAgree(
      rows: seq<IssueRow>, runs: seq<WorkRun>, f: RunFilter, selection: map<Id, Entry>, stats: map<Id, seq<ModelUse>>,
      rates: B.Rates, r: R.Report, models: map<Id, C.Bucket>, m: Id)
    requires IsSelection(runs, f, selection)
    requires R.Says(r, rows, R.EntryOf(true, selection, stats), rates)
    requires models == C.Keyed(C.Segments(rows, runs, f), C.ModelKey)
    requires m.text != ""
    ensures SameModelRow(models, r, m)
  {
    var segments := C.Segments(rows, runs, f);
    BreakdownRowIs(rows, runs, f, selection, stats, rates, r, m);
    C.KeyedIs(segments, C.ModelKey, m);
    C.NamedSum(segments, C.PointsOf, m);
    C.NamedSum(segments, C.TokensOf, m);
  }

  // No selected run of the issue has a model with the empty name: the breakdown would keep a row for
  // it, the chart does not.
  ghost predicate IssueNamed(row: IssueRow, runs: seq<WorkRun>, f: RunFilter) {
    forall run :: run in runs && run.issue == row.id && Cut(f, run) > 0.0 ==> run.model != Some(C.NAMELESS)
  }

  ghost predicate NoNameless(rows: seq<IssueRow>, runs: seq<WorkRun>, f: RunFilter) {
    forall row :: row in rows ==> IssueNamed(row, runs, f)
  }

  ghost predicate SegmentsNamed(segments: seq<C.Segment>) { forall s :: s in segments ==> s.model != Some(C.NAMELESS) }

  lemma {:induction false} InOnly(runs: seq<WorkRun>, issue: Id)
    ensures forall run :: run in RunsOf(runs, issue) <==> run in runs && run.issue == issue
  {
    if runs != [] {
      InOnly(runs[..|runs| - 1], issue);
      assert runs == runs[..|runs| - 1] + [runs[|runs| - 1]];
    }
  }

  lemma PositiveShare(runs: seq<WorkRun>, f: RunFilter, run: WorkRun)
    requires run in runs && Cut(f, run) > 0.0
    ensures C.ShareOf(runs, f, run.issue, run) > 0.0
  {
    forall r ensures Length(r) >= 0.0 { CutIsPart(f, r); }
    CutIsPart(f, run);
    SumForNonNegative(runs, IssueOf, Length, run.issue);
    B.PositiveRatio(Cut(f, run), WholeSeconds(runs, run.issue));
  }

  ghost predicate Scored(segments: seq<C.Segment>) { forall s :: s in segments ==> s.points > 0.0 }

  lemma OneSegmentNamed(runs: seq<WorkRun>, f: RunFilter, row: IssueRow, run: WorkRun)
    requires row.points > 0.0 && run in runs && run.issue == row.id
    ensures var found := C.SegmentOf(runs, f, row, run);
      Scored(found) && (SegmentsNamed(found) <==> Cut(f, run) <= 0.0 || run.model != Some(C.NAMELESS))
  {
    if Cut(f, run) > 0.0 {
      var share := C.ShareOf(runs, f, row.id, run);
      PositiveShare(runs, f, run);
      B.ProductPositive(row.points, share, 1.0);
      SingletonNamed(C.SegmentWith(f, row, run, share));
    }
  }

  lemma SingletonNamed(s: C.Segment)
    ensures SegmentsNamed([s]) <==> s.model != Some(C.NAMELESS)
    ensures Scored([s]) <==> s.points > 0.0
  {
    assert s in [s];
  }

  ghost predicate RunsNamed(mine: seq<WorkRun>, f: RunFilter) {
    forall run :: run in mine ==> Cut(f, run) <= 0.0 || run.model != Some(C.NAMELESS)
  }

  lemma {:induction false} IssueSegmentsNamed(runs: seq<WorkRun>, f: RunFilter, row: IssueRow, mine: seq<WorkRun>)
    requires row.points > 0.0 && forall run :: run in mine ==> run in runs && run.issue == row.id
    ensures var segments := C.SegmentsOf(runs, f, row, mine);
      Scored(segments) && (SegmentsNamed(segments) <==> RunsNamed(mine, f))
  {
    if mine != [] {
      var n := |mine| - 1;
      var last := mine[n];
      IssueSegmentsNamed(runs, f, row, mine[..n]);
      assert last in mine && mine == mine[..n] + [last];
      OneSegmentNamed(runs, f, row, last);
      NamedConcat(C.SegmentsOf(runs, f, row, mine[..n]), C.SegmentOf(runs, f, row, last));
    }
  }

  lemma {:induction false} AllSegmentsNamed(rows: seq<IssueRow>, runs: seq<WorkRun>, f: RunFilter)
    requires forall row :: row in rows ==> row.points > 0.0
    ensures var segments := C.Segments(rows, runs, f);
      Scored(segments) && (SegmentsNamed(segments) <==> NoNameless(rows, runs, f))
  {
    if rows != [] {
      var n := |rows| - 1;
      AllSegmentsNamed(rows[..n], runs, f);
      assert rows[n] in rows && rows == rows[..n] + [rows[n]];
      InOnly(runs, rows[n].id);
      IssueSegmentsNamed(runs, f, rows[n], RunsOf(runs, rows[n].id));
      NamedConcat(C.Segments(rows[..n], runs, f), C.SegmentsOf(runs, f, rows[n], RunsOf(runs, rows[n].id)));
    }
  }

  lemma NamedConcat(a: seq<C.Segment>, b: seq<C.Segment>)
    ensures SegmentsNamed(a + b) <==> SegmentsNamed(a) && SegmentsNamed(b)
    ensures Scored(a + b) <==> Scored(a) && Scored(b)
  {
    forall s | s in a ensures s in a + b { }
    forall s | s in b ensures s in a + b { }
  }

  lemma NamelessSums(segments: seq<C.Segment>)
    requires Scored(segments)
    ensures var points := SumFor(segments, C.ModelName, C.PointsOf, Some(C.NAMELESS));
      if SegmentsNamed(segments) then points == 0.0 && SumFor(segments, C.ModelName, C.TokensOf, Some(C.NAMELESS)) == 0.0
      else points > 0.0
  {
    if SegmentsNamed(segments) {
      SumForNothing(segments, C.ModelName, C.PointsOf, Some(C.NAMELESS));
      SumForNothing(segments, C.ModelName, C.TokensOf, Some(C.NAMELESS));
    } else {
      SumForNonNegative(segments, C.ModelName, C.PointsOf, Some(C.NAMELESS));
    }
  }

  // So for the empty name the two agree, on issues that have story points, exactly when no selected
  // run of them has it.
  lemma NamelessAgreesExactlyWhen(
      rows: seq<IssueRow>, runs: seq<WorkRun>, f: RunFilter, selection: map<Id, Entry>, stats: map<Id, seq<ModelUse>>,
      rates: B.Rates, r: R.Report, models: map<Id, C.Bucket>)
    requires IsSelection(runs, f, selection)
    requires R.Says(r, rows, R.EntryOf(true, selection, stats), rates)
    requires models == C.Keyed(C.Segments(rows, runs, f), C.ModelKey)
    requires forall row :: row in rows ==> row.points > 0.0
    ensures C.NAMELESS !in models
    ensures SameModelRow(models, r, C.NAMELESS) <==> NoNameless(rows, runs, f)
  {
    hide SumFor, NoNameless, SegmentsNamed, Scored, R.Says, IsSelection, C.Keyed, C.Segments;
    BreakdownRowIs(rows, runs, f, selection, stats, rates, r, C.NAMELESS);
    C.NamelessHasNoRow(C.Segments(rows, runs, f));
    AllSegmentsNamed(rows, runs, f);
    NamelessSums(C.Segments(rows, runs, f));
  }

  // ---- what the code computes is measured ----

  lemma LifetimeMeasured(runs: seq<WorkRun>, issue: Id)
    ensures forall u :: u in LifetimeUses(runs, issue) ==> u.days >= 0.0 && u.n >= 0.0
  {
    var mine := RunsOf(runs, issue);
    var days, counts := Tally(mine, ModelOf, AnyRun, LifeDays), Tally(mine, ModelOf, AnyRun, OneRun);
    forall k ensures Get(days, k) >= 0.0 && Get(counts, k) >= 0.0 {
      TallyNonNegative(mine, ModelOf, AnyRun, LifeDays, k);
      TallyNonNegative(mine, ModelOf, AnyRun, OneRun, k);
    }
    UsesFromAre(days.keys, days, counts);
  }

  // How an issue enters the breakdown.
  function EntriesOf(runs: seq<WorkRun>, f: RunFilter, selection: map<Id, Entry>): B.Entries {
    R.EntryOf(NeedsRuns(f), selection, if NeedsRuns(f) then map[] else StatsOf(runs))
  }

  lemma EntriesAreMeasured(rows: seq<IssueRow>, runs: seq<WorkRun>, f: RunFilter, selection: map<Id, Entry>)
    requires NeedsRuns(f) ==> IsSelection(runs, f, selection)
    ensures B.AllMeasured(rows, EntriesOf(runs, f, selection))
  {
    forall row | row in rows && EntriesOf(runs, f, selection)(row).Some?
      ensures B.Measured(EntriesOf(runs, f, selection)(row).value)
    {
      if NeedsRuns(f) { SelectedEntry(runs, f, row.id); } else { LifetimeMeasured(runs, row.id); }
    }
  }

  lemma UnfilteredReport(
      rows: seq<IssueRow>, runs: seq<WorkRun>, f: RunFilter, selection: map<Id, Entry>, stats: map<Id, seq<ModelUse>>,
      rates: B.Rates, r: R.Report)
    requires !NeedsRuns(f) && R.Says(r, rows, R.EntryOf(false, selection, stats), rates)
    ensures Total(r.tokens) == Sum(rows, C.SelectedTokens(runs, f)) + Sum(rows, UndatedTokens(runs))
    ensures r.points == Sum(rows, C.SelectedPoints(runs, f)) + Sum(rows, UndatedPoints(runs))
  {
    UnfilteredDiffersByUndated(rows, runs, f, selection, stats);
  }

  lemma ModelsCompare(
      rows: seq<IssueRow>, runs: seq<WorkRun>, f: RunFilter, selection: map<Id, Entry>, stats: map<Id, seq<ModelUse>>,
      rates: B.Rates, r: R.Report, models: map<Id, C.Bucket>)
    requires IsSelection(runs, f, selection)
    requires R.Says(r, rows, R.EntryOf(true, selection, stats), rates)
    requires models == C.Keyed(C.Segments(rows, runs, f), C.ModelKey)
    ensures forall m: Id :: m.text != "" ==> SameModelRow(models, r, m)
    ensures (forall row :: row in rows ==> row.points > 0.0) ==>
      (SameModelRow(models, r, C.NAMELESS) <==> NoNameless(rows, runs, f))
  {
    hide SameModelRow, NoNameless, R.Says, IsSelection, C.Keyed, C.Segments;
    forall m: Id | m.text != "" ensures SameModelRow(models, r, m) {
      ModelRowsAgree(rows, runs, f, selection, stats, rates, r, models, m);
    }
    if forall row :: row in rows ==> row.points > 0.0 {
      NamelessAgreesExactlyWhen(rows, runs, f, selection, stats, rates, r, models);
    }
  }

  // The chart and the breakdown of one filter. With a run-level filter the chart's unrounded time
  // rows, the sum of fractions times issue totals and the breakdown are equal, in total and name by
  // name; without one the breakdown also counts the issues that have no usable dated run.
  method Compare(rows: seq<IssueRow>, runs: seq<WorkRun>, f: RunFilter, named: set<Id>, rates: B.Rates)
    returns (selection: map<Id, Entry>, r: R.Report, models: map<Id, C.Bucket>, keys: seq<int>, time: map<int, C.Bucket>)
    ensures Sum(keys, C.TokensAt(time)) == Sum(rows, C.SelectedTokens(runs, f))
    ensures Sum(keys, C.PointsAt(time)) == Sum(rows, C.SelectedPoints(runs, f))
    ensures Total(r.tokens) == Sum(keys, C.TokensAt(time)) + (if NeedsRuns(f) then 0.0 else Sum(rows, UndatedTokens(runs)))
    ensures r.points == Sum(keys, C.PointsAt(time)) + (if NeedsRuns(f) then 0.0 else Sum(rows, UndatedPoints(runs)))
    ensures NeedsRuns(f) ==> forall m: Id :: m.text != "" ==> SameModelRow(models, r, m)
    ensures NeedsRuns(f) && (forall row :: row in rows ==> row.points > 0.0) ==>
      (SameModelRow(models, r, C.NAMELESS) <==> NoNameless(rows, runs, f))
    ensures R.Conserves(r, rows, EntriesOf(runs, f, selection), rates)
    ensures r.cost == K.AllKinds(K.Spent(rows, EntriesOf(runs, f, selection), rates))
  {
    hide SameModelRow, NoNameless, R.Says, R.Conserves, C.Keyed, C.Segments, Sum, Fraction;
    var needs;
    needs, selection := RunFilterSelection(runs, f);
    var stats := if needs then map[] else StatsOf(runs);
    r := R.Breakdown(rows, needs, selection, stats, rates);
    var agents, g;
    ghost var since, until;
    agents, models, g, keys, time, since, until := C.Chart(rows, runs, f, named);
    if needs {
      ReportIsTheSelection(rows, runs, f, selection, stats, rates, r);
      ModelsCompare(rows, runs, f, selection, stats, rates, r, models);
    } else {
      UnfilteredReport(rows, runs, f, selection, stats, rates, r);
    }
    EntriesAreMeasured(rows, runs, f, selection);
    R.ReportConserves(r, rows, EntriesOf(runs, f, selection), rates);
    K.ReportCosts(r, rows, EntriesOf(runs, f, selection), rates);
  }
}
