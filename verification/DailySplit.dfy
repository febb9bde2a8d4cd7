// What a row's split means, told from the runs' own timestamps: seconds counted one by one, and on a
// day no run covers, the runs that are known to have been there.
module DailySplit {
  import opened Prelude
  import opened Sums
  import opened Attribution

  // ---- the reference: runs, seconds and timestamps ----

  // The runs that may take part in the row at all.
  predicate Eligible(row: UsageRow, candidates: seq<string>, x: Run) {
    x.agent in candidates && x.runtime == Some(row.runtime) && x.model == Some(row.model)
  }

  predicate RunningAt(x: Run, s: int) { x.start.Some? && x.end.Some? && x.start.value <= s < x.end.value }

  // The seconds from lower to upper at which the run was running.
  function SecondsWithin(x: Run, lower: int, upper: int): nat
    decreases upper - lower
  {
    if upper <= lower then 0 else SecondsWithin(x, lower, upper - 1) + if RunningAt(x, upper - 1) then 1 else 0
  }

  // The one timestamp of a run that has no interval: its start, or else its end.
  function KnownTime(x: Run): Option<int> { if x.start.Some? then x.start else x.end }

  predicate LandsOn(row: UsageRow, x: Run) {
    KnownTime(x).Some? && row.day <= KnownTime(x).value < row.day + DAY
  }

  // No run covers a second of the day.
  ghost predicate Undated(row: UsageRow, candidates: seq<string>, runs: seq<Run>) {
    forall x, s :: x in runs && Eligible(row, candidates, x) && row.day <= s < row.day + DAY ==> !RunningAt(x, s)
  }

  // A figure of the eligible runs, of all slots or of one.
  function Figure(row: UsageRow, candidates: seq<string>, m: Run -> real): Run -> real {
    (x: Run) => if Eligible(row, candidates, x) then m(x) else 0.0
  }

  function Whole(row: UsageRow, candidates: seq<string>, runs: seq<Run>, m: Run -> real): real {
    Sum(runs, Figure(row, candidates, m))
  }

  function OfSlot(row: UsageRow, candidates: seq<string>, runs: seq<Run>, m: Run -> real, k: Slot): real {
    SumFor(runs, SlotOf, Figure(row, candidates, m), k)
  }

  function Landing(row: UsageRow): Run -> real { (x: Run) => if LandsOn(row, x) then 1.0 else 0.0 }

  function Lasting(lower: int, upper: int): Run -> real { (x: Run) => SecondsWithin(x, lower, upper) as real }

  // ---- a run's seconds are counted ----

  lemma {:induction false} SecondsAreOverlap(x: Run, lower: int, upper: int)
    ensures SecondsWithin(x, lower, upper)
         == if Complete(x) then Overlap(x.start.value, x.end.value, lower, upper) else 0
    decreases upper - lower
  {
    if lower < upper { SecondsAreOverlap(x, lower, upper - 1); }
  }

  // What the split takes for a run's seconds are the seconds at which it was running.
  lemma FullIsSeconds(row: UsageRow, x: Run)
    ensures Full(row, x) == Lasting(row.day, row.day + DAY)(x)
  {
    SecondsAreOverlap(x, row.day, row.day + DAY);
  }

  lemma PartIsSeconds(row: UsageRow, f: Filters, x: Run)
    ensures var w := Selected(row, f); Part(row, w, x) == Lasting(w.lower, w.upper)(x)
  {
    var w := Selected(row, f);
    SecondsAreOverlap(x, w.lower, w.upper);
  }

  lemma {:induction false} SomeSecond(x: Run, lower: int, upper: int) returns (s: int)
    requires SecondsWithin(x, lower, upper) > 0
    ensures lower <= s < upper && RunningAt(x, s)
    decreases upper - lower
  {
    if RunningAt(x, upper - 1) { s := upper - 1; } else { s := SomeSecond(x, lower, upper - 1); }
  }

  // On a day it does not cover, a run counts when its known time lies in the day.
  lemma UndatedRun(row: UsageRow, f: Filters, x: Run)
    requires forall s :: row.day <= s < row.day + DAY ==> !RunningAt(x, s)
    ensures Full(row, x) == 0.0 && Part(row, Selected(row, f), x) == 0.0 && One(row, x) == Landing(row)(x)
  {
    FullIsSeconds(row, x);
    if SecondsWithin(x, row.day, row.day + DAY) > 0 {
      var s := SomeSecond(x, row.day, row.day + DAY);
    }
    if Complete(x) && LandsOn(row, x) { assert RunningAt(x, x.start.value); }
  }

  // ---- the matching runs are the eligible ones, each once ----

  function OfAgent(row: UsageRow, a: string, m: Run -> real): Run -> real {
    (x: Run) => if x.agent == a && Matches(row, x) then m(x) else 0.0
  }

  lemma {:induction false} MatchingOfSum(row: UsageRow, a: string, runs: seq<Run>, m: Run -> real)
    ensures Sum(MatchingOf(row, a, runs), m) == Sum(runs, OfAgent(row, a, m))
  {
    if runs != [] {
      var n := |runs| - 1;
      MatchingOfSum(row, a, runs[..n], m);
      if runs[n].agent == a && Matches(row, runs[n]) {
        assert (MatchingOf(row, a, runs[..n]) + [runs[n]])[..|MatchingOf(row, a, runs)| - 1] == MatchingOf(row, a, runs[..n]);
      } else {
        assert MatchingOf(row, a, runs) == MatchingOf(row, a, runs[..n]);
      }
    }
  }

  lemma {:induction false} MatchingSum(row: UsageRow, candidates: seq<string>, runs: seq<Run>, m: Run -> real)
    requires Distinct(candidates)
    ensures Sum(Matching(row, candidates, runs), m) == Whole(row, candidates, runs, m)
  {
    if candidates == [] {
      SumAllZero(runs, Figure(row, candidates, m));
    } else {
      var n := |candidates| - 1;
      var a := candidates[n];
      MatchingSum(row, candidates[..n], runs, m);
      MatchingOfSum(row, a, runs, m);
      SumConcat(Matching(row, candidates[..n], runs), MatchingOf(row, a, runs), m);
      assert candidates == candidates[..n] + [a];
      SumPlus(runs, Figure(row, candidates[..n], m), OfAgent(row, a, m), Figure(row, candidates, m));
    }
  }

  lemma MatchingSlotSum(row: UsageRow, candidates: seq<string>, runs: seq<Run>, m: Run -> real, k: Slot)
    requires Distinct(candidates)
    ensures SumFor(Matching(row, candidates, runs), SlotOf, m, k) == OfSlot(row, candidates, runs, m, k)
  {
    var mine := (x: Run) => if SlotOf(x) == k then m(x) else 0.0;
    SumForIsSum(Matching(row, candidates, runs), SlotOf, m, k, mine);
    MatchingSum(row, candidates, runs, mine);
    SumForIsSum(runs, SlotOf, Figure(row, candidates, m), k, Figure(row, candidates, mine));
  }

  lemma {:induction false} MatchingIsEligible(row: UsageRow, candidates: seq<string>, runs: seq<Run>, x: Run)
    requires x in Matching(row, candidates, runs)
    ensures x in runs && Eligible(row, candidates, x)
  {
    var n := |candidates| - 1;
    if x in Matching(row, candidates[..n], runs) {
      MatchingIsEligible(row, candidates[..n], runs, x);
    } else {
      MatchingOfIsEligible(row, candidates[n], runs, x);
    }
  }

  lemma {:induction false} MatchingOfIsEligible(row: UsageRow, a: string, runs: seq<Run>, x: Run)
    requires x in MatchingOf(row, a, runs)
    ensures x in runs && x.agent == a && Matches(row, x)
  {
    var n := |runs| - 1;
    if x in MatchingOf(row, a, runs[..n]) { MatchingOfIsEligible(row, a, runs[..n], x); }
  }

  // ---- the dated day ----

  // What a window gives to one slot is the slot's seconds in the window over all the seconds of the day.
  lemma FlatShareIs(row: UsageRow, candidates: seq<string>, runs: seq<Run>, f: Filters, k: Slot)
    requires Distinct(candidates)
    ensures var w, xs := Selected(row, f), Matching(row, candidates, runs);
      && FullSeconds(row, xs) == Whole(row, candidates, runs, Lasting(row.day, row.day + DAY))
      && Seconds(row, w, xs, k) == OfSlot(row, candidates, runs, Lasting(w.lower, w.upper), k)
  {
    var w, xs := Selected(row, f), Matching(row, candidates, runs);
    forall x | x in xs ensures FullOf(row)(x) == Lasting(row.day, row.day + DAY)(x) { FullIsSeconds(row, x); }
    forall x | x in xs ensures PartOf(row, w)(x) == Lasting(w.lower, w.upper)(x) { PartIsSeconds(row, f, x); }
    SumSame(xs, FullOf(row), Lasting(row.day, row.day + DAY));
    SumForSame(xs, SlotOf, PartOf(row, w), Lasting(w.lower, w.upper), k);
    MatchingSum(row, candidates, runs, Lasting(row.day, row.day + DAY));
    MatchingSlotSum(row, candidates, runs, Lasting(w.lower, w.upper), k);
  }

  lemma WholeDayShareIs(row: UsageRow, candidates: seq<string>, runs: seq<Run>, f: Filters, k: Slot)
    requires CoversDay(row, f) && Distinct(candidates)
    requires Whole(row, candidates, runs, Lasting(row.day, row.day + DAY)) > 0.0
    ensures var seconds, xs := Lasting(row.day, row.day + DAY), Matching(row, candidates, runs);
      && FullSeconds(row, xs) > 0.0
      && FlatShare(row, WholeDay(row), xs)(k) == OfSlot(row, candidates, runs, seconds, k) / Whole(row, candidates, runs, seconds)
  {
    hide FullSeconds, Seconds, Whole, OfSlot;
    FlatShareIs(row, candidates, runs, f, k);
    assert Selected(row, f) == WholeDay(row);
  }

  lemma NoCandidateNoFigure(row: UsageRow, candidates: seq<string>, runs: seq<Run>, m: Run -> real, k: Slot)
    requires k.agent !in candidates
    ensures OfSlot(row, candidates, runs, m, k) == 0.0
  {
    SumForNothing(runs, SlotOf, Figure(row, candidates, m), k);
  }

  // A day that runs cover is split by their seconds.
  lemma DatedDayGives(row: UsageRow, candidates: seq<string>, runs: seq<Run>, f: Filters, k: Slot)
    requires !f.timeEstimated && CoversDay(row, f) && Distinct(candidates)
    requires Whole(row, candidates, runs, Lasting(row.day, row.day + DAY)) > 0.0
    ensures var seconds := Lasting(row.day, row.day + DAY);
      Given(RowShares(row, candidates, runs, f), k)
      == OfSlot(row, candidates, runs, seconds, k) / Whole(row, candidates, runs, seconds)
  {
    hide Given, RowShares, FlatShare, Whole, OfSlot, FullSeconds;
    WholeDayShareIs(row, candidates, runs, f, k);
    WholeDayIsFlat(row, candidates, runs, f, k);
    if k.agent !in candidates { NoCandidateNoFigure(row, candidates, runs, Lasting(row.day, row.day + DAY), k); }
  }

  // A clock range gives the seconds in the range over the seconds of the day, and nothing on a day
  // that no run covers.
  lemma ClockRangeGivesSeconds(row: UsageRow, candidates: seq<string>, runs: seq<Run>, f: Filters, k: Slot)
    requires f.timeEstimated && Distinct(candidates)
    ensures var whole, w := Whole(row, candidates, runs, Lasting(row.day, row.day + DAY)), Selected(row, f);
      Given(RowShares(row, candidates, runs, f), k)
      == if whole > 0.0 && Passes(f, k) then OfSlot(row, candidates, runs, Lasting(w.lower, w.upper), k) / whole else 0.0
  {
    FlatShareIs(row, candidates, runs, f, k);
    SecondsNeedCandidates(row, candidates, runs);
    if candidates != [] && FullSeconds(row, Matching(row, candidates, runs)) > 0.0 { ClockRangeGives(row, candidates, runs, f, k); }
  }

  // ---- the day that no run covers ----

  lemma UndatedFigures(row: UsageRow, candidates: seq<string>, runs: seq<Run>, f: Filters, k: Slot)
    requires Distinct(candidates) && Undated(row, candidates, runs)
    ensures var xs := Matching(row, candidates, runs);
      && Seconds(row, Selected(row, f), xs, k) == 0.0
      && Count(row, xs, k) == OfSlot(row, candidates, runs, Landing(row), k)
  {
    var xs := Matching(row, candidates, runs);
    forall x | x in xs ensures Part(row, Selected(row, f), x) == 0.0 && One(row, x) == Landing(row)(x) {
      MatchingIsEligible(row, candidates, runs, x);
      UndatedRun(row, f, x);
    }
    SumForNothing(xs, SlotOf, PartOf(row, Selected(row, f)), k);
    SumForSame(xs, SlotOf, OneOf(row), Landing(row), k);
    MatchingSlotSum(row, candidates, runs, Landing(row), k);
  }

  lemma AgentCountIs(row: UsageRow, xs: seq<Run>, a: string)
    ensures AgentCount(row, xs)(a) == SumFor(xs, (x: Run) => x.agent, OneOf(row), a)
  {
    var ks := CountedSlots(row, xs);
    var entry := (k: Slot) => if k.agent == a then Count(row, xs, k) else 0.0;
    var item := (x: Run) => if x.agent == a then One(row, x) else 0.0;
    Regroup(xs, ks, SlotOf, OneOf(row), (k: Slot) => k.agent == a, entry, item);
    SumForIsSum(ks, AgentOf, CountIn(row, xs), a, entry);
    SumForIsSum(xs, (x: Run) => x.agent, OneOf(row), a, item);
  }

  lemma AgentsCountEveryRun(row: UsageRow, candidates: seq<string>, runs: seq<Run>)
    requires Distinct(candidates)
    ensures var xs := Matching(row, candidates, runs); Sum(candidates, AgentCount(row, xs)) == Sum(xs, OneOf(row))
  {
    var xs := Matching(row, candidates, runs);
    forall x | x in xs ensures x.agent in candidates { MatchingAgents(row, candidates, runs, x); }
    forall a | a in candidates ensures AgentCount(row, xs)(a) == SumFor(xs, (x: Run) => x.agent, OneOf(row), a) {
      AgentCountIs(row, xs, a);
    }
    Regroup(xs, candidates, (x: Run) => x.agent, OneOf(row), (a: string) => true, AgentCount(row, xs), OneOf(row));
  }

  // An agent's weight is its runs over all the runs of the day, or an equal part.
  lemma UndatedAgentWeight(row: UsageRow, candidates: seq<string>, runs: seq<Run>, f: Filters, a: string)
    requires Distinct(candidates) && candidates != [] && Undated(row, candidates, runs)
    ensures var xs, all := Matching(row, candidates, runs), Whole(row, candidates, runs, Landing(row));
      && all >= 0.0
      && AgentWeight(row, Selected(row, f), xs, candidates, a)
         == if all > 0.0 then AgentCount(row, xs)(a) / all else 1.0 / |candidates| as real
  {
    var xs, w := Matching(row, candidates, runs), Selected(row, f);
    forall k ensures SecondsIn(row, w, xs)(k) == 0.0 { UndatedFigures(row, candidates, runs, f, k); }
    forall b ensures AgentSeconds(row, w, xs)(b) == 0.0 {
      SumForNothing(CountedSlots(row, xs), AgentOf, SecondsIn(row, w, xs), b);
    }
    SumAllZero(candidates, AgentSeconds(row, w, xs));
    AgentsCountEveryRun(row, candidates, runs);
    forall x | x in xs ensures OneOf(row)(x) == Landing(row)(x) {
      MatchingIsEligible(row, candidates, runs, x);
      UndatedRun(row, f, x);
    }
    SumSame(xs, OneOf(row), Landing(row));
    MatchingSum(row, candidates, runs, Landing(row));
    SumNonNegative(runs, Figure(row, candidates, Landing(row)));
  }

  // Within an agent, a project's weight is its runs over the agent's.
  lemma UndatedProjectWeight(row: UsageRow, candidates: seq<string>, runs: seq<Run>, f: Filters, k: Slot)
    requires Distinct(candidates) && Undated(row, candidates, runs)
    requires k in CountedSlots(row, Matching(row, candidates, runs))
    ensures var xs := Matching(row, candidates, runs);
      && 0.0 < Count(row, xs, k) <= AgentCount(row, xs)(k.agent)
      && ProjectWeight(row, Selected(row, f), xs)(k) == Count(row, xs, k) / AgentCount(row, xs)(k.agent)
  {
    var xs, w := Matching(row, candidates, runs), Selected(row, f);
    var projects := ProjectSlots(k.agent, CountedSlots(row, xs));
    ProjectSlotsOf(k.agent, CountedSlots(row, xs));
    forall j ensures SecondsIn(row, w, xs)(j) == 0.0 { UndatedFigures(row, candidates, runs, f, j); }
    SumAllZero(projects, SecondsIn(row, w, xs));
    ProjectSlotsSum(k.agent, CountedSlots(row, xs), CountIn(row, xs));
    forall j | j in projects ensures CountIn(row, xs)(j) >= 0.0 { SecondsNonNegative(row, w, xs, j); }
    SumNonNegative(projects, CountIn(row, xs));
    CountedIsPositive(row, xs, k);
    assert k in projects && CountIn(row, xs)(k) == Count(row, xs, k);
  }

  lemma CountedIsPositive(row: UsageRow, xs: seq<Run>, k: Slot)
    ensures if k in CountedSlots(row, xs) then Count(row, xs, k) > 0.0 else Count(row, xs, k) == 0.0
  {
    if k in CountedSlots(row, xs) {
      var x :| x in xs && CountsIn(row)(x) && SlotOf(x) == k;
      assert OneOf(row)(x) > 0.0;
      SumForNonNegative(xs, SlotOf, OneOf(row), k);
    } else {
      forall x | x in xs && SlotOf(x) == k ensures OneOf(row)(x) == 0.0 { assert !CountsIn(row)(x); }
      SumForNothing(xs, SlotOf, OneOf(row), k);
    }
  }

  function RunsOver(row: UsageRow, xs: seq<Run>, all: real): Slot -> real {
    (k: Slot) => if all > 0.0 then Count(row, xs, k) / all else 0.0
  }

  lemma UndatedProduct(row: UsageRow, candidates: seq<string>, runs: seq<Run>, f: Filters, k: Slot)
    requires Distinct(candidates) && candidates != [] && Undated(row, candidates, runs)
    requires Whole(row, candidates, runs, Landing(row)) > 0.0
    requires k in CountedSlots(row, Matching(row, candidates, runs))
    ensures var xs, w := Matching(row, candidates, runs), Selected(row, f);
      Scaled(AgentWeight(row, w, xs, candidates, k.agent), ProjectWeight(row, w, xs))(k)
      == RunsOver(row, xs, Whole(row, candidates, runs, Landing(row)))(k) >= 0.0
  {
    var xs, w, all := Matching(row, candidates, runs), Selected(row, f), Whole(row, candidates, runs, Landing(row));
    UndatedAgentWeight(row, candidates, runs, f, k.agent);
    UndatedProjectWeight(row, candidates, runs, f, k);
    FlatProduct(all, AgentCount(row, xs)(k.agent), Count(row, xs, k), AgentWeight(row, w, xs, candidates, k.agent),
                ProjectWeight(row, w, xs), k, RunsOver(row, xs, all)(k));
  }

  lemma UndatedProducts(row: UsageRow, candidates: seq<string>, runs: seq<Run>, f: Filters, a: string)
    requires Distinct(candidates) && candidates != [] && Undated(row, candidates, runs)
    requires Whole(row, candidates, runs, Landing(row)) > 0.0
    ensures var xs, w := Matching(row, candidates, runs), Selected(row, f);
      forall j :: j in ProjectSlots(a, CountedSlots(row, xs)) ==>
        Scaled(AgentWeight(row, w, xs, candidates, a), ProjectWeight(row, w, xs))(j)
        == RunsOver(row, xs, Whole(row, candidates, runs, Landing(row)))(j) >= 0.0
  {
    var xs, w := Matching(row, candidates, runs), Selected(row, f);
    ProjectSlotsOf(a, CountedSlots(row, xs));
    forall j | j in ProjectSlots(a, CountedSlots(row, xs))
      ensures Scaled(AgentWeight(row, w, xs, candidates, a), ProjectWeight(row, w, xs))(j)
           == RunsOver(row, xs, Whole(row, candidates, runs, Landing(row)))(j) >= 0.0
    {
      UndatedProduct(row, candidates, runs, f, j);
    }
  }

  lemma NoRunsNoWeight(row: UsageRow, candidates: seq<string>, runs: seq<Run>, f: Filters, a: string)
    requires Distinct(candidates) && candidates != [] && Undated(row, candidates, runs)
    requires Whole(row, candidates, runs, Landing(row)) > 0.0
    ensures var xs := Matching(row, candidates, runs);
      ProjectSlots(a, CountedSlots(row, xs)) == [] ==> AgentWeight(row, Selected(row, f), xs, candidates, a) == 0.0
  {
    var xs := Matching(row, candidates, runs);
    UndatedAgentWeight(row, candidates, runs, f, a);
    ProjectSlotsSum(a, CountedSlots(row, xs), CountIn(row, xs));
    if ProjectSlots(a, CountedSlots(row, xs)) == [] { assert AgentCount(row, xs)(a) == 0.0; }
  }

  lemma UncountedRuns(row: UsageRow, xs: seq<Run>, all: real, k: Slot)
    requires k !in CountedSlots(row, xs)
    ensures RunsOver(row, xs, all)(k) == 0.0
  {
    CountedIsPositive(row, xs, k);
  }

  // One agent's part of an undated day on which some run landed.
  lemma UndatedAgentGives(row: UsageRow, candidates: seq<string>, runs: seq<Run>, f: Filters, a: string, k: Slot)
    requires Distinct(candidates) && candidates != [] && Undated(row, candidates, runs)
    requires Whole(row, candidates, runs, Landing(row)) > 0.0
    ensures var xs := Matching(row, candidates, runs);
      Given(AgentShares(row, Selected(row, f), xs, candidates, |candidates| > 1, a), k)
      == if k.agent == a then RunsOver(row, xs, Whole(row, candidates, runs, Landing(row)))(k) else 0.0
  {
    hide AgentWeight, ProjectWeight, RunsOver, Whole, Undated, Given;
    var xs, w, all := Matching(row, candidates, runs), Selected(row, f), Whole(row, candidates, runs, Landing(row));
    UndatedProducts(row, candidates, runs, f, a);
    NoRunsNoWeight(row, candidates, runs, f, a);
    if k !in CountedSlots(row, xs) { UncountedRuns(row, xs, all, k); }
    FlatSplitGives(a, CountedSlots(row, xs), AgentWeight(row, w, xs, candidates, a), ProjectWeight(row, w, xs),
                   RunsOver(row, xs, all), |candidates| > 1, k);
  }

  // One agent's part of a day that no run has anything to do with.
  lemma EmptyDayAgentGives(row: UsageRow, candidates: seq<string>, runs: seq<Run>, f: Filters, a: string, k: Slot)
    requires Distinct(candidates) && candidates != [] && Undated(row, candidates, runs)
    requires Whole(row, candidates, runs, Landing(row)) == 0.0
    ensures Given(AgentShares(row, Selected(row, f), Matching(row, candidates, runs), candidates, |candidates| > 1, a), k)
         == if k == Slot(a, None) then 1.0 / |candidates| as real else 0.0
  {
    var xs := Matching(row, candidates, runs);
    UndatedAgentWeight(row, candidates, runs, f, a);
    NothingCounted(row, candidates, runs, f);
    assert ProjectSlots(a, CountedSlots(row, xs)) == [];
    EmitGives(a, None, 1.0 / |candidates| as real, |candidates| > 1, k);
  }

  lemma SomeMember(ks: seq<Slot>)
    ensures ks == [] || exists k :: k in ks
  {
    if ks != [] { assert ks[0] in ks; }
  }

  lemma NothingCounted(row: UsageRow, candidates: seq<string>, runs: seq<Run>, f: Filters)
    requires Distinct(candidates) && Undated(row, candidates, runs)
    requires Whole(row, candidates, runs, Landing(row)) == 0.0
    ensures CountedSlots(row, Matching(row, candidates, runs)) == []
  {
    var xs := Matching(row, candidates, runs);
    SumNonNegative(runs, Figure(row, candidates, Landing(row)));
    forall x | x in xs ensures !CountsIn(row)(x) {
      MatchingIsEligible(row, candidates, runs, x);
      UndatedRun(row, f, x);
      assert Figure(row, candidates, Landing(row))(x) <= 0.0;
    }
    assert forall k :: k !in FirstSeen(xs, SlotOf, CountsIn(row));
    SomeMember(FirstSeen(xs, SlotOf, CountsIn(row)));
  }

  // What one agent gets of an undated day, slot by slot.
  function UndatedShare(row: UsageRow, candidates: seq<string>, runs: seq<Run>, k: Slot): real {
    var all := Whole(row, candidates, runs, Landing(row));
    if k.agent !in candidates then 0.0
    else if all > 0.0 then OfSlot(row, candidates, runs, Landing(row), k) / all
    else if k.project.None? then 1.0 / |candidates| as real
    else 0.0
  }

  lemma UndatedAgentShare(row: UsageRow, candidates: seq<string>, runs: seq<Run>, f: Filters, a: string, k: Slot)
    requires Distinct(candidates) && candidates != [] && Undated(row, candidates, runs) && a in candidates
    ensures Given(AgentShares(row, Selected(row, f), Matching(row, candidates, runs), candidates, |candidates| > 1, a), k)
         == if k.agent == a then UndatedShare(row, candidates, runs, k) else 0.0
  {
    hide Given, AgentShares, Whole, OfSlot, Undated;
    UndatedFigures(row, candidates, runs, f, k);
    UndatedAgentWeight(row, candidates, runs, f, a);
    if Whole(row, candidates, runs, Landing(row)) > 0.0 {
      UndatedAgentGives(row, candidates, runs, f, a, k);
    } else {
      EmptyDayAgentGives(row, candidates, runs, f, a, k);
    }
  }

  lemma {:induction false} UndatedSharesGive(
      row: UsageRow, candidates: seq<string>, runs: seq<Run>, f: Filters, agents: seq<string>, k: Slot)
    requires Distinct(candidates) && candidates != [] && Undated(row, candidates, runs)
    requires Distinct(agents) && forall a :: a in agents ==> a in candidates
    ensures Given(WholeShares(row, Selected(row, f), Matching(row, candidates, runs), candidates, |candidates| > 1, agents), k)
         == if k.agent in agents then UndatedShare(row, candidates, runs, k) else 0.0
  {
    hide AgentShares, UndatedShare, Undated;
    if agents != [] {
      var n := |agents| - 1;
      var xs, w := Matching(row, candidates, runs), Selected(row, f);
      UndatedSharesGive(row, candidates, runs, f, agents[..n], k);
      UndatedAgentShare(row, candidates, runs, f, agents[n], k);
      GivenConcat(WholeShares(row, w, xs, candidates, |candidates| > 1, agents[..n]),
                  AgentShares(row, w, xs, candidates, |candidates| > 1, agents[n]), k);
      assert agents == agents[..n] + [agents[n]];
    }
  }

  // A day that no run covers goes to the slots in proportion to the eligible runs whose one known
  // time lies in it; and when there is none, to the candidates in equal parts, without a project.
  lemma UndatedDayGives(row: UsageRow, candidates: seq<string>, runs: seq<Run>, f: Filters, k: Slot)
    requires !f.timeEstimated && Distinct(candidates) && candidates != [] && Undated(row, candidates, runs)
    ensures var all := Whole(row, candidates, runs, Landing(row));
      && all >= 0.0
      && (all > 0.0 ==>
            Given(RowShares(row, candidates, runs, f), k) == OfSlot(row, candidates, runs, Landing(row), k) / all)
      && (all == 0.0 ==>
            Given(RowShares(row, candidates, runs, f), k)
            == if k.agent in candidates && k.project.None? then 1.0 / |candidates| as real else 0.0)
  {
    hide Given, WholeShares, Whole, OfSlot, Undated;
    UndatedSharesGive(row, candidates, runs, f, candidates, k);
    UndatedAgentWeight(row, candidates, runs, f, candidates[0]);
    if k.agent !in candidates { NoCandidateNoFigure(row, candidates, runs, Landing(row), k); }
  }

  // A day is covered or it is not: the two theorems leave no day out.
  lemma DatedOrNot(row: UsageRow, candidates: seq<string>, runs: seq<Run>)
    ensures Undated(row, candidates, runs) <==> Whole(row, candidates, runs, Lasting(row.day, row.day + DAY)) == 0.0
  {
    var seconds := Lasting(row.day, row.day + DAY);
    SumNonNegative(runs, Figure(row, candidates, seconds));
    if Undated(row, candidates, runs) {
      forall x | x in runs ensures Figure(row, candidates, seconds)(x) == 0.0 {
        if Eligible(row, candidates, x) && SecondsWithin(x, row.day, row.day + DAY) > 0 {
          var s := SomeSecond(x, row.day, row.day + DAY);
        }
      }
      SumAllZero(runs, Figure(row, candidates, seconds));
    } else {
      var x, s :| x in runs && Eligible(row, candidates, x) && row.day <= s < row.day + DAY && RunningAt(x, s);
      SecondsAreOverlap(x, row.day, row.day + DAY);
      assert Figure(row, candidates, seconds)(x) > 0.0;
    }
  }

  // ---- what a share says about itself ----

  // Whose it may be, and whether the split had to choose between agents.
  predicate Honest(candidates: seq<string>, s: Share) {
    && (s.agent.Some? <==> candidates != []) && (s.agent.Some? ==> s.agent.value in candidates)
    && s.weight > 0.0 && (s.estimated <==> |candidates| != 1)
  }

  lemma {:induction false} EmitAllHonest(candidates: seq<string>, keys: seq<Slot>, weight: Slot -> real)
    requires candidates != [] && forall k :: k in keys ==> k.agent in candidates
    ensures forall s :: s in EmitAll(keys, weight, |candidates| > 1) ==> Honest(candidates, s)
  {
    if keys != [] {
      var n := |keys| - 1;
      EmitAllHonest(candidates, keys[..n], weight);
      assert keys[n] in keys;
    }
  }

  lemma {:induction false} WholeSharesHonest(row: UsageRow, w: Window, xs: seq<Run>, candidates: seq<string>, agents: seq<string>)
    requires candidates != [] && forall a :: a in agents ==> a in candidates
    ensures forall s :: s in WholeShares(row, w, xs, candidates, |candidates| > 1, agents) ==> Honest(candidates, s)
  {
    if agents != [] {
      var n := |agents| - 1;
      WholeSharesHonest(row, w, xs, candidates, agents[..n]);
      var a := agents[n];
      assert a in agents;
      var projects := ProjectSlots(a, CountedSlots(row, xs));
      ProjectSlotsOf(a, CountedSlots(row, xs));
      EmitAllHonest(candidates, projects, Scaled(AgentWeight(row, w, xs, candidates, a), ProjectWeight(row, w, xs)));
    }
  }

  // Every share of a row carries something, belongs to a candidate when there is one, and is marked
  // as estimated exactly when the row has no candidate or more than one.
  lemma SharesAreHonest(row: UsageRow, candidates: seq<string>, runs: seq<Run>, f: Filters)
    ensures forall s :: s in RowShares(row, candidates, runs, f) ==> Honest(candidates, s)
  {
    var xs, w := Matching(row, candidates, runs), Selected(row, f);
    if candidates != [] {
      var keys := SelectedSlots(row, w, xs);
      forall k | k in Passing(f, keys) ensures k.agent in candidates {
        PassingOf(f, keys);
        assert k in FirstSeen(xs, SlotOf, Touches(row, w));
        var x :| x in xs && Touches(row, w)(x) && SlotOf(x) == k;
        MatchingAgents(row, candidates, runs, x);
      }
      EmitAllHonest(candidates, Passing(f, keys), FlatShare(row, w, xs));
      WholeSharesHonest(row, w, xs, candidates, candidates);
    }
  }
}
