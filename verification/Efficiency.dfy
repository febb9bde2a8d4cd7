// Run-level filters over issue totals: the one filtered overlap set per issue that
// _run_filter_selection of aistat/aggregates.py feeds to every metric.
// Time is in whole seconds; shares, tokens and story points are exact reals.
module Efficiency {
  import opened Prelude
  import opened Sums

  datatype Id = Id(text: string)

  // A run that belongs to an issue. A timestamp that does not parse is None.
  datatype WorkRun = WorkRun(issue: Id, agent: Option<Id>, model: Option<Id>, start: Option<int>, end: Option<int>)

  datatype RunFilter = RunFilter(agents: set<Id>, models: set<Id>, from: Option<int>, to: Option<int>)

  // One entry of an issue's model statistics: duration in days and number of runs.
  datatype ModelUse = ModelUse(model: Option<Id>, days: real, n: real)

  datatype Entry = Entry(fraction: real, models: seq<ModelUse>)

  // Token totals by kind.
  datatype Kinds = Kinds(input: real, output: real, cacheRead: real, cacheWrite: real)

  function Total(k: Kinds): real { k.input + k.output + k.cacheRead + k.cacheWrite }

  // An issue that counts toward efficiency, with its cumulative usage.
  datatype IssueRow = IssueRow(id: Id, points: real, usage: Kinds, lane: Id, accepted: Option<real>)

  predicate NeedsRuns(f: RunFilter) { f.agents != {} || f.models != {} || f.from.Some? || f.to.Some? }

  predicate Dated(r: WorkRun) { r.start.Some? && r.end.Some? && r.end.value > r.start.value }

  predicate In(x: Option<Id>, chosen: set<Id>) { chosen == {} || (x.Some? && x.value in chosen) }

  predicate Picks(f: RunFilter, r: WorkRun) { Dated(r) && In(r.agent, f.agents) && In(r.model, f.models) }

  // The part of a dated run inside the window.
  function Left(f: RunFilter, r: WorkRun): int
    requires Dated(r)
  {
    if f.from.Some? && f.from.value > r.start.value then f.from.value else r.start.value
  }

  function Right(f: RunFilter, r: WorkRun): int
    requires Dated(r)
  {
    if f.to.Some? && f.to.value < r.end.value then f.to.value else r.end.value
  }

  function Length(r: WorkRun): real { if Dated(r) then (r.end.value - r.start.value) as real else 0.0 }

  // The seconds of the run that the filter selects.
  function Cut(f: RunFilter, r: WorkRun): real {
    if Picks(f, r) && Left(f, r) < Right(f, r) then (Right(f, r) - Left(f, r)) as real else 0.0
  }

  function IssueOf(r: WorkRun): Id { r.issue }
  function ModelOf(r: WorkRun): Option<Id> { r.model }
  function CutBy(f: RunFilter): WorkRun -> real { (r: WorkRun) => Cut(f, r) }
  function Touched(f: RunFilter): WorkRun -> bool { (r: WorkRun) => Cut(f, r) > 0.0 }
  function DaysBy(f: RunFilter): WorkRun -> real { (r: WorkRun) => Cut(f, r) / 86400.0 }
  function RunsBy(f: RunFilter): WorkRun -> real { (r: WorkRun) => if Cut(f, r) > 0.0 then 1.0 else 0.0 }

  function WholeSeconds(runs: seq<WorkRun>, issue: Id): real { SumFor(runs, IssueOf, Length, issue) }
  function CutSeconds(runs: seq<WorkRun>, f: RunFilter, issue: Id): real { SumFor(runs, IssueOf, CutBy(f), issue) }

  // The share of an issue's totals that the selection covers.
  function Fraction(runs: seq<WorkRun>, f: RunFilter, issue: Id): real {
    if WholeSeconds(runs, issue) > 0.0 then CutSeconds(runs, f, issue) / WholeSeconds(runs, issue) else 0.0
  }

  function RunsOf(runs: seq<WorkRun>, issue: Id): seq<WorkRun> { Only(runs, IssueOf, issue) }

  // models[issue] of the selection, in the order the loop meets the models.
  function DayTally(runs: seq<WorkRun>, f: RunFilter, issue: Id): Dict<Option<Id>> {
    Tally(RunsOf(runs, issue), ModelOf, Touched(f), DaysBy(f))
  }

  function RunTally(runs: seq<WorkRun>, f: RunFilter, issue: Id): Dict<Option<Id>> {
    Tally(RunsOf(runs, issue), ModelOf, Touched(f), RunsBy(f))
  }

  function UsesFrom(keys: seq<Option<Id>>, days: Dict<Option<Id>>, counts: Dict<Option<Id>>): seq<ModelUse> {
    if keys == [] then []
    else
      var k := keys[|keys| - 1];
      UsesFrom(keys[..|keys| - 1], days, counts) + [ModelUse(k, Get(days, k), Get(counts, k))]
  }

  function UsesOf(runs: seq<WorkRun>, f: RunFilter, issue: Id): seq<ModelUse> {
    UsesFrom(DayTally(runs, f, issue).keys, DayTally(runs, f, issue), RunTally(runs, f, issue))
  }

  // ---- lifetime statistics ----

  function AnyRun(r: WorkRun): bool { true }
  function OneRun(r: WorkRun): real { 1.0 }
  function LifeDays(r: WorkRun): real { Length(r) / 86400.0 }

  // _issue_model_stats: every run of the issue counts, whatever its timestamps.
  function LifetimeUses(runs: seq<WorkRun>, issue: Id): seq<ModelUse> {
    var days := Tally(RunsOf(runs, issue), ModelOf, AnyRun, LifeDays);
    UsesFrom(days.keys, days, Tally(RunsOf(runs, issue), ModelOf, AnyRun, OneRun))
  }

  function StatsOf(runs: seq<WorkRun>): map<Id, seq<ModelUse>> {
    map i | i in (set r | r in runs :: r.issue) :: LifetimeUses(runs, i)
  }

  // ---- facts about the selection ----

  lemma CutIsPart(f: RunFilter, r: WorkRun)
    ensures 0.0 <= Cut(f, r) <= Length(r)
  {
  }

  lemma {:induction false} CutAtMostWhole(runs: seq<WorkRun>, f: RunFilter, issue: Id)
    ensures 0.0 <= CutSeconds(runs, f, issue) <= WholeSeconds(runs, issue)
  {
    if runs != [] {
      CutAtMostWhole(runs[..|runs| - 1], f, issue);
      CutIsPart(f, runs[|runs| - 1]);
    }
  }

  // A share never exceeds the whole, so the source's min(1.0, ...) changes nothing.
  lemma FractionIsAShare(runs: seq<WorkRun>, f: RunFilter, issue: Id)
    ensures 0.0 <= Fraction(runs, f, issue) <= 1.0
    ensures Fraction(runs, f, issue) > 0.0 <==> CutSeconds(runs, f, issue) > 0.0
  {
    CutAtMostWhole(runs, f, issue);
    RatioIsAShare(CutSeconds(runs, f, issue), WholeSeconds(runs, issue));
  }

  lemma RatioIsAShare(part: real, whole: real)
    requires 0.0 <= part <= whole
    ensures whole > 0.0 ==> 0.0 <= part / whole <= 1.0 && (part / whole > 0.0 <==> part > 0.0)
  {
    if whole > 0.0 {
      assert part / whole * whole == part;
    }
  }

  // Without any filter every dated run is picked whole.
  lemma {:induction false} NoFilterPicksEverything(runs: seq<WorkRun>, f: RunFilter, issue: Id)
    requires !NeedsRuns(f)
    ensures CutSeconds(runs, f, issue) == WholeSeconds(runs, issue)
  {
    if runs != [] { NoFilterPicksEverything(runs[..|runs| - 1], f, issue); }
  }

  // The seconds of an issue's models add up to the seconds selected for the issue.
  lemma RunsOfSum(runs: seq<WorkRun>, f: RunFilter, issue: Id)
    ensures Sum(RunsOf(runs, issue), CutBy(f)) == CutSeconds(runs, f, issue)
  {
    OnlySum(runs, IssueOf, CutBy(f), issue);
  }

  function DaysOf(u: ModelUse): real { u.days }
  function CountOf(u: ModelUse): real { u.n }

  lemma {:induction false} UsesFromSum(keys: seq<Option<Id>>, days: Dict<Option<Id>>, counts: Dict<Option<Id>>, f: Option<Id> -> real)
    requires forall k :: k in keys ==> f(k) == Get(days, k)
    ensures Sum(UsesFrom(keys, days, counts), DaysOf) == Sum(keys, f)
  {
    if keys != [] {
      UsesFromSum(keys[..|keys| - 1], days, counts, f);
      var last := [ModelUse(keys[|keys| - 1], Get(days, keys[|keys| - 1]), Get(counts, keys[|keys| - 1]))];
      SumConcat(UsesFrom(keys[..|keys| - 1], days, counts), last, DaysOf);
      assert last[..0] == [];
    }
  }

  // An issue's selected hours are exactly its selected overlap: the share is applied once.
  lemma HoursAreTheOverlap(runs: seq<WorkRun>, f: RunFilter, issue: Id)
    ensures Sum(UsesOf(runs, f, issue), DaysOf) * 24.0 == CutSeconds(runs, f, issue) / 3600.0
  {
    var mine := RunsOf(runs, issue);
    var days := DayTally(runs, f, issue);
    var entry := (k: Option<Id>) => Get(days, k);
    UsesFromSum(days.keys, days, RunTally(runs, f, issue), entry);
    DaysTotal(mine, f, entry);
    RunsOfSum(runs, f, issue);
  }

  lemma DaysTotal(mine: seq<WorkRun>, f: RunFilter, entry: Option<Id> -> real)
    requires forall k :: entry(k) == Get(Tally(mine, ModelOf, Touched(f), DaysBy(f)), k)
    ensures Sum(Tally(mine, ModelOf, Touched(f), DaysBy(f)).keys, entry) == Sum(mine, CutBy(f)) / 86400.0
  {
    UntouchedIsZero(mine, f);
    TallyTotals(mine, ModelOf, Touched(f), DaysBy(f), entry);
    DaysSum(mine, f);
  }

  lemma UntouchedIsZero(mine: seq<WorkRun>, f: RunFilter)
    ensures forall r :: r in mine && !Touched(f)(r) ==> DaysBy(f)(r) == 0.0
  {
    forall r | r in mine && !Touched(f)(r) ensures DaysBy(f)(r) == 0.0 { CutIsPart(f, r); }
  }

  lemma DaysSum(mine: seq<WorkRun>, f: RunFilter)
    ensures Sum(mine, DaysBy(f)) == Sum(mine, CutBy(f)) / 86400.0
  {
    SumTimes(mine, 1.0 / 86400.0, CutBy(f), DaysBy(f));
  }

  function DayMap(runs: seq<WorkRun>, f: RunFilter): map<Id, Dict<Option<Id>>> {
    GroupTally(runs, IssueOf, ModelOf, Touched(f), DaysBy(f))
  }

  function RunMap(runs: seq<WorkRun>, f: RunFilter): map<Id, Dict<Option<Id>>> {
    GroupTally(runs, IssueOf, ModelOf, Touched(f), RunsBy(f))
  }

  datatype Accumulated = Accumulated(
    totals: Dict<Id>, selected: Dict<Id>, days: map<Id, Dict<Option<Id>>>, counts: map<Id, Dict<Option<Id>>>)

  // The dictionaries after a pass over the runs.
  function Accumulate(runs: seq<WorkRun>, f: RunFilter): Accumulated {
    Accumulated(Tally(runs, IssueOf, Dated, Length), Tally(runs, IssueOf, Touched(f), CutBy(f)), DayMap(runs, f), RunMap(runs, f))
  }

  // One pass of the loop body.
  method AddRun(r: WorkRun, f: RunFilter, at: Accumulated) returns (next: Accumulated)
    ensures next.totals == if Dated(r) then Bump(at.totals, IssueOf(r), Length(r)) else at.totals
    ensures next.selected == if Touched(f)(r) then Bump(at.selected, IssueOf(r), CutBy(f)(r)) else at.selected
    ensures next.days == if Touched(f)(r) then GroupBump(at.days, IssueOf(r), ModelOf(r), DaysBy(f)(r)) else at.days
    ensures next.counts == if Touched(f)(r) then GroupBump(at.counts, IssueOf(r), ModelOf(r), RunsBy(f)(r)) else at.counts
  {
    next := at;
    if r.start.None? || r.end.None? || r.end.value <= r.start.value { return; }
    next := next.(totals := Bump(at.totals, r.issue, (r.end.value - r.start.value) as real));
    if f.agents != {} && (r.agent.None? || r.agent.value !in f.agents) { return; }
    if f.models != {} && (r.model.None? || r.model.value !in f.models) { return; }
    var overlap := Right(f, r) - Left(f, r);
    if overlap <= 0 { return; }
    next := next.(
      selected := Bump(at.selected, r.issue, overlap as real),
      days := GroupBump(at.days, r.issue, r.model, overlap as real / 86400.0),
      counts := GroupBump(at.counts, r.issue, r.model, 1.0));
  }

  method ReadRuns(runs: seq<WorkRun>, f: RunFilter) returns (at: Accumulated)
    ensures at == Accumulate(runs, f)
  {
    at := Accumulated(Dict([], map[]), Dict([], map[]), map[], map[]);
    for i := 0 to |runs|
      invariant at == Accumulate(runs[..i], f)
    {
      AccumulateNext(runs, f, i);
      at := AddRun(runs[i], f, at);
    }
    assert runs[..|runs|] == runs;
  }

  lemma AccumulateNext(runs: seq<WorkRun>, f: RunFilter, i: nat)
    requires i < |runs|
    ensures var at, next, r := Accumulate(runs[..i], f), Accumulate(runs[..i + 1], f), runs[i];
      && next.totals == (if Dated(r) then Bump(at.totals, IssueOf(r), Length(r)) else at.totals)
      && next.selected == (if Touched(f)(r) then Bump(at.selected, IssueOf(r), CutBy(f)(r)) else at.selected)
      && next.days == (if Touched(f)(r) then GroupBump(at.days, IssueOf(r), ModelOf(r), DaysBy(f)(r)) else at.days)
      && next.counts == (if Touched(f)(r) then GroupBump(at.counts, IssueOf(r), ModelOf(r), RunsBy(f)(r)) else at.counts)
  {
    assert runs[..i + 1][..i] == runs[..i];
  }

  // The whole of _run_filter_selection.
  method RunFilterSelection(runs: seq<WorkRun>, f: RunFilter) returns (needs: bool, selection: map<Id, Entry>)
    ensures needs == NeedsRuns(f)
    ensures forall i :: i in selection <==> needs && Fraction(runs, f, i) > 0.0
    ensures forall i :: i in selection ==> selection[i] == Entry(Fraction(runs, f, i), UsesOf(runs, f, i))
  {
    needs, selection := f.agents != {} || f.models != {} || f.from.Some? || f.to.Some?, map[];
    if !needs { return; }
    var at := ReadRuns(runs, f);
    forall i ensures SelectedAs(runs, f, at, i) { SelectionEntry(runs, f, i); }
    var ids := at.totals.keys;
    for k := 0 to |ids|
      invariant forall i :: i in selection <==> i in ids[..k] && Fraction(runs, f, i) > 0.0
      invariant forall i :: i in selection ==> selection[i] == Entry(Fraction(runs, f, i), UsesOf(runs, f, i))
    {
      var id := ids[k];
      assert SelectedAs(runs, f, at, id) && id in ids;
      var total, share := at.totals.values[id], Get(at.selected, id);
      if total > 0.0 && share > 0.0 {
        var days := if id in at.days then at.days[id] else Dict([], map[]);
        var counts := if id in at.counts then at.counts[id] else Dict([], map[]);
        selection := selection[id := Entry(if share / total > 1.0 then 1.0 else share / total, UsesFrom(days.keys, days, counts))];
      }
    }
    forall i | Fraction(runs, f, i) > 0.0 ensures i in ids { assert SelectedAs(runs, f, at, i); }
  }

  // What the dictionaries say about one issue.
  ghost predicate SelectedAs(runs: seq<WorkRun>, f: RunFilter, at: Accumulated, id: Id) {
    && (id in at.totals.keys <==> id in at.totals.values)
    && Get(at.totals, id) == WholeSeconds(runs, id)
    && Get(at.selected, id) == CutSeconds(runs, f, id)
    && GroupAt(at.days, id) == DayTally(runs, f, id)
    && GroupAt(at.counts, id) == RunTally(runs, f, id)
    && 0.0 <= Fraction(runs, f, id) <= 1.0
    && (Fraction(runs, f, id) > 0.0 <==> CutSeconds(runs, f, id) > 0.0)
    && (Fraction(runs, f, id) > 0.0 ==> id in at.totals.keys)
  }

  lemma SelectionEntry(runs: seq<WorkRun>, f: RunFilter, id: Id)
    ensures SelectedAs(runs, f, Accumulate(runs, f), id)
  {
    forall r | r in runs && !Touched(f)(r) ensures CutBy(f)(r) == 0.0 { CutIsPart(f, r); }
    TallyIs(runs, IssueOf, Dated, Length);
    TallyIs(runs, IssueOf, Touched(f), CutBy(f));
    FractionIsAShare(runs, f, id);
    CutAtMostWhole(runs, f, id);
    GroupTallyIs(runs, IssueOf, ModelOf, Touched(f), DaysBy(f), id);
    GroupTallyIs(runs, IssueOf, ModelOf, Touched(f), RunsBy(f), id);
  }

  // ---- the selection, told second by second ----

  // Whether the filter selects second t of the run: it was running then, t lies in the window, and its
  // agent and its model are among the chosen ones.
  predicate Selects(f: RunFilter, r: WorkRun, t: int) {
    && r.start.Some? && r.end.Some? && r.start.value <= t < r.end.value
    && (f.from.Some? ==> t >= f.from.value) && (f.to.Some? ==> t < f.to.value)
    && (f.agents != {} ==> exists a :: a in f.agents && r.agent == Some(a))
    && (f.models != {} ==> exists m :: m in f.models && r.model == Some(m))
  }

  function SelectedWithin(f: RunFilter, r: WorkRun, lower: int, upper: int): nat
    decreases upper - lower
  {
    if upper <= lower then 0 else SelectedWithin(f, r, lower, upper - 1) + if Selects(f, r, upper - 1) then 1 else 0
  }

  // The selected seconds of a run, of all its seconds.
  function SelectedSeconds(f: RunFilter): WorkRun -> real {
    (r: WorkRun) => if r.start.Some? && r.end.Some? then SelectedWithin(f, r, r.start.value, r.end.value) as real else 0.0
  }

  lemma {:induction false} CutWithin(f: RunFilter, r: WorkRun, upper: int)
    requires Dated(r) && r.start.value <= upper <= r.end.value
    ensures SelectedWithin(f, r, r.start.value, upper)
         == if Picks(f, r) && Left(f, r) < (if Right(f, r) < upper then Right(f, r) else upper)
            then (if Right(f, r) < upper then Right(f, r) else upper) - Left(f, r) else 0
    decreases upper - r.start.value
  {
    if r.start.value < upper {
      CutWithin(f, r, upper - 1);
      ChosenIs(r.agent, f.agents);
      ChosenIs(r.model, f.models);
    }
  }

  lemma ChosenIs(x: Option<Id>, chosen: set<Id>)
    ensures In(x, chosen) <==> (chosen != {} ==> exists a :: a in chosen && x == Some(a))
  {
  }

  // What the selection takes of a run are its selected seconds.
  lemma CutIsSeconds(f: RunFilter, r: WorkRun)
    ensures Cut(f, r) == SelectedSeconds(f)(r)
  {
    if Dated(r) { CutWithin(f, r, r.end.value); }
  }

  // The share of an issue is its selected seconds over all the seconds of its runs.
  lemma FractionIsSeconds(runs: seq<WorkRun>, f: RunFilter, issue: Id)
    ensures var all := RunFilter({}, {}, None, None);
      var selected, whole := SumFor(runs, IssueOf, SelectedSeconds(f), issue), SumFor(runs, IssueOf, SelectedSeconds(all), issue);
      && 0.0 <= selected <= whole
      && Fraction(runs, f, issue) == if whole > 0.0 then selected / whole else 0.0
  {
    var all := RunFilter({}, {}, None, None);
    forall r | r in runs ensures CutBy(f)(r) == SelectedSeconds(f)(r) && CutBy(all)(r) == SelectedSeconds(all)(r) {
      CutIsSeconds(f, r);
      CutIsSeconds(all, r);
    }
    SumForSame(runs, IssueOf, CutBy(f), SelectedSeconds(f), issue);
    SumForSame(runs, IssueOf, CutBy(all), SelectedSeconds(all), issue);
    NoFilterPicksEverything(runs, all, issue);
    CutAtMostWhole(runs, f, issue);
  }

  function SomeSelected(f: RunFilter): WorkRun -> real { (r: WorkRun) => if SelectedSeconds(f)(r) > 0.0 then 1.0 else 0.0 }
  function SelectedDays(f: RunFilter): WorkRun -> real { (r: WorkRun) => SelectedSeconds(f)(r) / 86400.0 }

  // The statistics of a selected issue: for each model its selected time in days and the number of its
  // runs with any.
  lemma UsesAreSeconds(runs: seq<WorkRun>, f: RunFilter, issue: Id, u: ModelUse)
    requires u in UsesOf(runs, f, issue)
    ensures u.days == SumFor(RunsOf(runs, issue), ModelOf, SelectedDays(f), u.model)
    ensures u.n == SumFor(RunsOf(runs, issue), ModelOf, SomeSelected(f), u.model)
  {
    hide SelectedSeconds, Cut;
    var mine := RunsOf(runs, issue);
    ByTheSecond(mine, f);
    UntouchedIsZero(mine, f);
    TallyIs(mine, ModelOf, Touched(f), DaysBy(f));
    TallyIs(mine, ModelOf, Touched(f), RunsBy(f));
    SumForSame(mine, ModelOf, DaysBy(f), SelectedDays(f), u.model);
    SumForSame(mine, ModelOf, RunsBy(f), SomeSelected(f), u.model);
    UsesFromAre(DayTally(runs, f, issue).keys, DayTally(runs, f, issue), RunTally(runs, f, issue));
  }

  lemma ByTheSecond(mine: seq<WorkRun>, f: RunFilter)
    ensures forall r :: r in mine ==>
      && DaysBy(f)(r) == SelectedDays(f)(r) && RunsBy(f)(r) == SomeSelected(f)(r)
      && (Touched(f)(r) <==> SelectedSeconds(f)(r) > 0.0)
  {
    forall r | r in mine
      ensures && DaysBy(f)(r) == SelectedDays(f)(r) && RunsBy(f)(r) == SomeSelected(f)(r)
              && (Touched(f)(r) <==> SelectedSeconds(f)(r) > 0.0)
    {
      CutIsSeconds(f, r);
    }
  }

  // A model has an entry exactly when some run of the issue with that model has a selected second.
  lemma UsedExactlyWhen(runs: seq<WorkRun>, f: RunFilter, issue: Id, m: Option<Id>)
    ensures (exists u :: u in UsesOf(runs, f, issue) && u.model == m)
      <==> exists r :: r in RunsOf(runs, issue) && r.model == m && SelectedSeconds(f)(r) > 0.0
  {
    hide SelectedSeconds, Cut;
    var mine := RunsOf(runs, issue);
    ByTheSecond(mine, f);
    UntouchedIsZero(mine, f);
    TallyIs(mine, ModelOf, Touched(f), DaysBy(f));
    UsesFromAre(DayTally(runs, f, issue).keys, DayTally(runs, f, issue), RunTally(runs, f, issue));
    assert m in FirstSeen(mine, ModelOf, Touched(f)) <==> exists r :: r in mine && Touched(f)(r) && ModelOf(r) == m;
  }

  lemma {:induction false} UsesFromAre(keys: seq<Option<Id>>, days: Dict<Option<Id>>, counts: Dict<Option<Id>>)
    ensures forall u :: u in UsesFrom(keys, days, counts) ==> u.model in keys && u.days == Get(days, u.model) && u.n == Get(counts, u.model)
    ensures forall k :: k in keys ==> exists u :: u in UsesFrom(keys, days, counts) && u.model == k
  {
    if keys != [] {
      var n := |keys| - 1;
      UsesFromAre(keys[..n], days, counts);
      var last := ModelUse(keys[n], Get(days, keys[n]), Get(counts, keys[n]));
      assert last in UsesFrom(keys, days, counts);
      assert keys == keys[..n] + [keys[n]];
      forall k | k in keys[..n] ensures exists u :: u in UsesFrom(keys, days, counts) && u.model == k {
        var u :| u in UsesFrom(keys[..n], days, counts) && u.model == k;
        assert u in UsesFrom(keys, days, counts);
      }
    }
  }
}
