// daily_shares of aistat/aggregates.py: one daily_usage row split over agents and
// projects by the overlap of their dated runs with the day. Time is in whole seconds,
// shares are exact reals.
module Attribution {
  import opened Prelude
  import opened Sums

  const DAY := 86400

  datatype Run = Run(
    agent: string, runtime: Option<string>, model: Option<string>, project: Option<string>,
    start: Option<int>, end: Option<int>)

  // day is the second at which the row's UTC day starts.
  datatype UsageRow = UsageRow(runtime: string, model: string, day: int)

  datatype Filters = Filters(
    lower: Option<int>, upper: Option<int>, timeEstimated: bool, agents: set<string>, projects: set<string>)

  datatype Slot = Slot(agent: string, project: Option<string>)

  datatype Share = Share(agent: Option<string>, project: Option<string>, weight: real, estimated: bool)

  function MaxInt(a: int, b: int): int { if a >= b then a else b }
  function MinInt(a: int, b: int): int { if a <= b then a else b }

  // Seconds two half-open intervals have in common.
  function Overlap(start: int, end: int, lower: int, upper: int): int {
    MaxInt(0, MinInt(end, upper) - MaxInt(start, lower))
  }

  datatype Window = Window(lower: int, upper: int)

  // The part of the row's day inside the selected interval.
  function Selected(row: UsageRow, f: Filters): Window {
    Window(if f.lower.Some? then MaxInt(row.day, f.lower.value) else row.day,
           if f.upper.Some? then MinInt(row.day + DAY, f.upper.value) else row.day + DAY)
  }

  function WholeDay(row: UsageRow): Window { Window(row.day, row.day + DAY) }

  predicate Complete(x: Run) { x.start.Some? && x.end.Some? && x.end.value > x.start.value }

  // The seconds of the day, and of the window, that a run covers.
  function Full(row: UsageRow, x: Run): real {
    if Complete(x) then Overlap(x.start.value, x.end.value, row.day, row.day + DAY) as real else 0.0
  }

  function Part(row: UsageRow, w: Window, x: Run): real {
    if Complete(x) && Full(row, x) > 0.0 then Overlap(x.start.value, x.end.value, w.lower, w.upper) as real else 0.0
  }

  // Whether a run takes part in the count fallback of the day: a run without a usable
  // interval counts for the one day its known timestamp lands on.
  predicate Counts(row: UsageRow, x: Run) {
    if Complete(x) then Full(row, x) > 0.0
    else
      var anchor := if x.start.Some? then x.start else x.end;
      anchor.Some? && row.day <= anchor.value < row.day + DAY
  }

  function One(row: UsageRow, x: Run): real { if Counts(row, x) then 1.0 else 0.0 }

  function SlotOf(x: Run): Slot { Slot(x.agent, x.project) }

  predicate Matches(row: UsageRow, x: Run) { x.runtime == Some(row.runtime) && x.model == Some(row.model) }

  // The runs that may assign the row's tokens, agent by agent.
  function MatchingOf(row: UsageRow, agent: string, runs: seq<Run>): seq<Run> {
    if runs == [] then []
    else
      var x := runs[|runs| - 1];
      MatchingOf(row, agent, runs[..|runs| - 1]) + (if x.agent == agent && Matches(row, x) then [x] else [])
  }

  function Matching(row: UsageRow, candidates: seq<string>, runs: seq<Run>): seq<Run> {
    if candidates == [] then []
    else Matching(row, candidates[..|candidates| - 1], runs) + MatchingOf(row, candidates[|candidates| - 1], runs)
  }

  // ---- the two dictionaries, and the split they lead to ----

  function PartOf(row: UsageRow, w: Window): Run -> real { (x: Run) => Part(row, w, x) }
  function OneOf(row: UsageRow): Run -> real { (x: Run) => One(row, x) }
  function FullOf(row: UsageRow): Run -> real { (x: Run) => Full(row, x) }

  function Touches(row: UsageRow, w: Window): Run -> bool { (x: Run) => Part(row, w, x) > 0.0 }
  function CountsIn(row: UsageRow): Run -> bool { (x: Run) => Counts(row, x) }

  function SelectedSlots(row: UsageRow, w: Window, xs: seq<Run>): seq<Slot> {
    FirstSeen(xs, SlotOf, Touches(row, w))
  }

  function CountedSlots(row: UsageRow, xs: seq<Run>): seq<Slot> {
    FirstSeen(xs, SlotOf, CountsIn(row))
  }

  function Seconds(row: UsageRow, w: Window, xs: seq<Run>, k: Slot): real { SumFor(xs, SlotOf, PartOf(row, w), k) }
  function Count(row: UsageRow, xs: seq<Run>, k: Slot): real { SumFor(xs, SlotOf, OneOf(row), k) }
  function FullSeconds(row: UsageRow, xs: seq<Run>): real { Sum(xs, FullOf(row)) }

  function SecondsIn(row: UsageRow, w: Window, xs: seq<Run>): Slot -> real { (k: Slot) => Seconds(row, w, xs, k) }
  function CountIn(row: UsageRow, xs: seq<Run>): Slot -> real { (k: Slot) => Count(row, xs, k) }

  function AgentOf(k: Slot): string { k.agent }

  // durations[a] and agent_counts[a]
  function AgentSeconds(row: UsageRow, w: Window, xs: seq<Run>): string -> real {
    (a: string) => SumFor(CountedSlots(row, xs), AgentOf, SecondsIn(row, w, xs), a)
  }

  function AgentCount(row: UsageRow, xs: seq<Run>): string -> real {
    (a: string) => SumFor(CountedSlots(row, xs), AgentOf, CountIn(row, xs), a)
  }

  function Emit(agent: Option<string>, project: Option<string>, weight: real, estimated: bool): seq<Share> {
    if weight <= 0.0 then [] else [Share(agent, project, weight, estimated)]
  }

  predicate Passes(f: Filters, k: Slot) {
    && (f.agents == {} || k.agent in f.agents)
    && (f.projects == {} || (k.project.Some? && k.project.value in f.projects))
  }

  // One share per slot, zero weights dropped.
  function EmitAll(keys: seq<Slot>, weight: Slot -> real, estimated: bool): seq<Share> {
    if keys == [] then []
    else
      var k := keys[|keys| - 1];
      EmitAll(keys[..|keys| - 1], weight, estimated) + Emit(Some(k.agent), k.project, weight(k), estimated)
  }

  function Passing(f: Filters, keys: seq<Slot>): seq<Slot> {
    if keys == [] then []
    else
      var k := keys[|keys| - 1];
      Passing(f, keys[..|keys| - 1]) + (if Passes(f, k) then [k] else [])
  }

  // A clock range: each slot's seconds over the seconds of the entire day.
  function FlatShare(row: UsageRow, w: Window, xs: seq<Run>): Slot -> real {
    (k: Slot) => if FullSeconds(row, xs) > 0.0 then Seconds(row, w, xs, k) / FullSeconds(row, xs) else 0.0
  }

  // by_project[a], in the order of the counts dictionary.
  function ProjectSlots(a: string, keys: seq<Slot>): seq<Slot> {
    if keys == [] then []
    else
      var k := keys[|keys| - 1];
      ProjectSlots(a, keys[..|keys| - 1]) + (if k.agent == a then [k] else [])
  }

  function AgentWeight(row: UsageRow, w: Window, xs: seq<Run>, candidates: seq<string>, a: string): real
    requires candidates != []
  {
    Weight(candidates, AgentSeconds(row, w, xs), AgentCount(row, xs), a)
  }

  // project_weights[k.project] within its agent
  function ProjectWeight(row: UsageRow, w: Window, xs: seq<Run>): Slot -> real {
    (k: Slot) =>
      var projects := ProjectSlots(k.agent, CountedSlots(row, xs));
      if projects == [] then 0.0 else Weight(projects, SecondsIn(row, w, xs), CountIn(row, xs), k)
  }

  function Scaled(c: real, f: Slot -> real): Slot -> real { (k: Slot) => c * f(k) }

  function SplitAgent(a: string, projects: seq<Slot>, weight: real, within: Slot -> real, ambiguous: bool): seq<Share> {
    if projects == [] then Emit(Some(a), None, weight, ambiguous)
    else EmitAll(projects, Scaled(weight, within), ambiguous)
  }

  function AgentShares(row: UsageRow, w: Window, xs: seq<Run>, candidates: seq<string>, ambiguous: bool, a: string): seq<Share>
    requires candidates != []
  {
    SplitAgent(a, ProjectSlots(a, CountedSlots(row, xs)), AgentWeight(row, w, xs, candidates, a),
               ProjectWeight(row, w, xs), ambiguous)
  }

  // A whole day: duration, count or equal weights, first over agents, then over projects.
  function WholeShares(
      row: UsageRow, w: Window, xs: seq<Run>, candidates: seq<string>, ambiguous: bool, agents: seq<string>): seq<Share>
    requires candidates != []
  {
    if agents == [] then []
    else
      WholeShares(row, w, xs, candidates, ambiguous, agents[..|agents| - 1])
      + AgentShares(row, w, xs, candidates, ambiguous, agents[|agents| - 1])
  }

  function RowShares(row: UsageRow, candidates: seq<string>, runs: seq<Run>, f: Filters): seq<Share> {
    var xs, w := Matching(row, candidates, runs), Selected(row, f);
    if candidates == [] then (if f.timeEstimated then [] else Emit(None, None, 1.0, true))
    else if f.timeEstimated then
      if FullSeconds(row, xs) <= 0.0 then []
      else EmitAll(Passing(f, SelectedSlots(row, w, xs)), FlatShare(row, w, xs), |candidates| > 1)
    else WholeShares(row, w, xs, candidates, |candidates| > 1, candidates)
  }

  // ---- conservation ----

  lemma {:induction false} MatchingAgents(row: UsageRow, candidates: seq<string>, runs: seq<Run>, x: Run)
    requires x in Matching(row, candidates, runs)
    ensures x.agent in candidates
  {
    if candidates != [] {
      var n := |candidates| - 1;
      if x in Matching(row, candidates[..n], runs) {
        MatchingAgents(row, candidates[..n], runs, x);
      } else {
        MatchingOfAgent(row, candidates[n], runs, x);
      }
    }
  }

  lemma {:induction false} MatchingOfAgent(row: UsageRow, a: string, runs: seq<Run>, x: Run)
    requires x in MatchingOf(row, a, runs)
    ensures x.agent == a
  {
    if runs != [] && x in MatchingOf(row, a, runs[..|runs| - 1]) { MatchingOfAgent(row, a, runs[..|runs| - 1], x); }
  }

  lemma SecondsNonNegative(row: UsageRow, w: Window, xs: seq<Run>, k: Slot)
    ensures Seconds(row, w, xs, k) >= 0.0 && Count(row, xs, k) >= 0.0
  {
    SumForNonNegative(xs, SlotOf, PartOf(row, w), k);
    SumForNonNegative(xs, SlotOf, OneOf(row), k);
  }

  lemma AgentSecondsNonNegative(row: UsageRow, w: Window, xs: seq<Run>, a: string)
    ensures AgentSeconds(row, w, xs)(a) >= 0.0 && AgentCount(row, xs)(a) >= 0.0
  {
    forall k ensures Seconds(row, w, xs, k) >= 0.0 && Count(row, xs, k) >= 0.0 { SecondsNonNegative(row, w, xs, k); }
    SumForNonNegative(CountedSlots(row, xs), AgentOf, SecondsIn(row, w, xs), a);
    SumForNonNegative(CountedSlots(row, xs), AgentOf, CountIn(row, xs), a);
  }

  function WeightIn(s: Share): real { s.weight }

  // Dropping the zero weights loses nothing.
  lemma EmitKeeps(agent: Option<string>, project: Option<string>, weight: real, estimated: bool)
    requires weight >= 0.0
    ensures Sum(Emit(agent, project, weight, estimated), WeightIn) == weight
  {
    var e := Emit(agent, project, weight, estimated);
    if e != [] { assert e[..0] == []; }
  }

  lemma {:induction false} ProjectSlotsOf(a: string, keys: seq<Slot>)
    requires Distinct(keys)
    ensures Distinct(ProjectSlots(a, keys))
    ensures forall k :: k in ProjectSlots(a, keys) <==> k in keys && k.agent == a
  {
    if keys != [] {
      var n := |keys| - 1;
      ProjectSlotsOf(a, keys[..n]);
      assert keys == keys[..n] + [keys[n]];
    }
  }

  lemma {:induction false} EmitAllKeeps(keys: seq<Slot>, weight: Slot -> real, estimated: bool)
    requires forall k :: k in keys ==> weight(k) >= 0.0
    ensures Sum(EmitAll(keys, weight, estimated), WeightIn) == Sum(keys, weight)
  {
    if keys != [] {
      var n := |keys| - 1;
      var k := keys[n];
      EmitAllKeeps(keys[..n], weight, estimated);
      EmitKeeps(Some(k.agent), k.project, weight(k), estimated);
      SumConcat(EmitAll(keys[..n], weight, estimated), Emit(Some(k.agent), k.project, weight(k), estimated), WeightIn);
    }
  }

  // Within one agent the project weights are a distribution.
  lemma ProjectWeightsSum(row: UsageRow, w: Window, xs: seq<Run>, a: string)
    requires ProjectSlots(a, CountedSlots(row, xs)) != []
    ensures var projects := ProjectSlots(a, CountedSlots(row, xs));
      && Sum(projects, ProjectWeight(row, w, xs)) == 1.0
      && forall k :: k in projects ==> ProjectWeight(row, w, xs)(k) >= 0.0
  {
    var projects := ProjectSlots(a, CountedSlots(row, xs));
    ProjectSlotsOf(a, CountedSlots(row, xs));
    WeightsSumToOne(projects, SecondsIn(row, w, xs), CountIn(row, xs), ProjectWeight(row, w, xs));
    forall k | k in projects ensures ProjectWeight(row, w, xs)(k) >= 0.0 {
      SecondsNonNegative(row, w, xs, k);
      WeightNonNegative(projects, SecondsIn(row, w, xs), CountIn(row, xs), k);
    }
  }

  lemma ScaledEmit(keys: seq<Slot>, c: real, share: Slot -> real, estimated: bool)
    requires c >= 0.0 && Sum(keys, share) == 1.0 && forall k :: k in keys ==> share(k) >= 0.0
    ensures Sum(EmitAll(keys, Scaled(c, share), estimated), WeightIn) == c
  {
    SumTimes(keys, c, share, Scaled(c, share));
    forall k | k in keys ensures Scaled(c, share)(k) >= 0.0 { assert share(k) >= 0.0; }
    EmitAllKeeps(keys, Scaled(c, share), estimated);
  }

  lemma AgentSharesSum(row: UsageRow, w: Window, xs: seq<Run>, candidates: seq<string>, ambiguous: bool, a: string)
    requires a in candidates
    ensures Sum(AgentShares(row, w, xs, candidates, ambiguous, a), WeightIn) == AgentWeight(row, w, xs, candidates, a)
  {
    var projects := ProjectSlots(a, CountedSlots(row, xs));
    var weight := AgentWeight(row, w, xs, candidates, a);
    AgentSecondsNonNegative(row, w, xs, a);
    WeightNonNegative(candidates, AgentSeconds(row, w, xs), AgentCount(row, xs), a);
    if projects == [] {
      EmitKeeps(Some(a), None, weight, ambiguous);
    } else {
      ProjectWeightsSum(row, w, xs, a);
      ScaledEmit(projects, weight, ProjectWeight(row, w, xs), ambiguous);
    }
  }

  lemma {:induction false} WholeSharesSum(
      row: UsageRow, w: Window, xs: seq<Run>, candidates: seq<string>, ambiguous: bool, agents: seq<string>, share: string -> real)
    requires candidates != [] && (forall a :: a in agents ==> a in candidates)
    requires forall a :: a in agents ==> share(a) == AgentWeight(row, w, xs, candidates, a)
    ensures Sum(WholeShares(row, w, xs, candidates, ambiguous, agents), WeightIn) == Sum(agents, share)
  {
    if agents != [] {
      var n := |agents| - 1;
      WholeSharesSum(row, w, xs, candidates, ambiguous, agents[..n], share);
      AgentSharesSum(row, w, xs, candidates, ambiguous, agents[n]);
      SumConcat(WholeShares(row, w, xs, candidates, ambiguous, agents[..n]),
                AgentShares(row, w, xs, candidates, ambiguous, agents[n]), WeightIn);
    }
  }

  // Whole-day attribution conserves: through every fallback, the emitted weights of a
  // row add up to one, so its tokens and cost are neither lost nor invented.
  lemma WholeDayConserves(row: UsageRow, candidates: seq<string>, runs: seq<Run>, f: Filters)
    requires !f.timeEstimated
    ensures Sum(RowShares(row, candidates, runs, f), WeightIn) == 1.0
  {
    if candidates == [] {
      EmitKeeps(None, None, 1.0, true);
    } else {
      var xs, w := Matching(row, candidates, runs), Selected(row, f);
      var total := (a: string) => if candidates != [] then AgentWeight(row, w, xs, candidates, a) else 0.0;
      WeightsSumToOne(candidates, AgentSeconds(row, w, xs), AgentCount(row, xs), total);
      WholeSharesSum(row, w, xs, candidates, |candidates| > 1, candidates, total);
    }
  }

  // ---- the two-level split is the flat one ----

  lemma PartIsFull(row: UsageRow, x: Run)
    ensures Part(row, WholeDay(row), x) == Full(row, x)
  {
  }

  lemma {:induction false} ProjectSlotsSum(a: string, keys: seq<Slot>, f: Slot -> real)
    ensures Sum(ProjectSlots(a, keys), f) == SumFor(keys, AgentOf, f, a)
  {
    if keys != [] {
      var n := |keys| - 1;
      ProjectSlotsSum(a, keys[..n], f);
      var one := if keys[n].agent == a then [keys[n]] else [];
      SumConcat(ProjectSlots(a, keys[..n]), one, f);
      if one != [] { assert one[..0] == []; }
    }
  }

  lemma AgentSecondsAre(row: UsageRow, w: Window, xs: seq<Run>, a: string)
    ensures AgentSeconds(row, w, xs)(a) == SumFor(xs, (x: Run) => x.agent, PartOf(row, w), a)
  {
    var ks := CountedSlots(row, xs);
    var entry := (k: Slot) => if k.agent == a then Seconds(row, w, xs, k) else 0.0;
    var item := (x: Run) => if x.agent == a then Part(row, w, x) else 0.0;
    Regroup(xs, ks, SlotOf, PartOf(row, w), (k: Slot) => k.agent == a, entry, item);
    SumForIsSum(ks, AgentOf, SecondsIn(row, w, xs), a, entry);
    SumForIsSum(xs, (x: Run) => x.agent, PartOf(row, w), a, item);
  }

  // All the seconds of the day belong to some candidate.
  lemma AgentsCoverTheDay(row: UsageRow, candidates: seq<string>, runs: seq<Run>)
    requires Distinct(candidates)
    ensures var xs := Matching(row, candidates, runs);
      Sum(candidates, AgentSeconds(row, WholeDay(row), xs)) == FullSeconds(row, xs)
  {
    var xs, w := Matching(row, candidates, runs), WholeDay(row);
    forall x | x in xs ensures x.agent in candidates && Part(row, w, x) == Full(row, x) {
      MatchingAgents(row, candidates, runs, x);
      PartIsFull(row, x);
    }
    forall a | a in candidates
      ensures AgentSeconds(row, w, xs)(a) == SumFor(xs, (x: Run) => x.agent, PartOf(row, w), a)
    {
      AgentSecondsAre(row, w, xs, a);
    }
    Regroup(xs, candidates, (x: Run) => x.agent, PartOf(row, w), (a: string) => true, AgentSeconds(row, w, xs), PartOf(row, w));
    SumSame(xs, PartOf(row, w), FullOf(row));
  }

  lemma Cancel(whole: real, part: real, share: real)
    requires whole > 0.0 && part > 0.0
    ensures (part / whole) * (share / part) == share / whole
  {
  }

  // An agent's weight is its seconds over the seconds of the day.
  lemma AgentWeightIs(row: UsageRow, candidates: seq<string>, runs: seq<Run>, a: string)
    requires Distinct(candidates) && candidates != []
    requires FullSeconds(row, Matching(row, candidates, runs)) > 0.0
    ensures var xs, w := Matching(row, candidates, runs), WholeDay(row);
      AgentWeight(row, w, xs, candidates, a)
      == Sum(ProjectSlots(a, CountedSlots(row, xs)), SecondsIn(row, w, xs)) / FullSeconds(row, xs)
  {
    var xs, w := Matching(row, candidates, runs), WholeDay(row);
    AgentsCoverTheDay(row, candidates, runs);
    ProjectSlotsSum(a, CountedSlots(row, xs), SecondsIn(row, w, xs));
  }

  // Within an agent, a project's weight is its seconds over the agent's.
  lemma ProjectWeightIs(row: UsageRow, w: Window, xs: seq<Run>, k: Slot)
    requires k in CountedSlots(row, xs)
    ensures var mine := Sum(ProjectSlots(k.agent, CountedSlots(row, xs)), SecondsIn(row, w, xs));
      && 0.0 <= Seconds(row, w, xs, k) <= mine
      && (mine > 0.0 ==> ProjectWeight(row, w, xs)(k) == Seconds(row, w, xs, k) / mine)
  {
    var projects := ProjectSlots(k.agent, CountedSlots(row, xs));
    ProjectSlotsOf(k.agent, CountedSlots(row, xs));
    forall j | j in projects ensures SecondsIn(row, w, xs)(j) >= 0.0 { SecondsNonNegative(row, w, xs, j); }
    SecondsNonNegative(row, w, xs, k);
    SumNonNegative(projects, SecondsIn(row, w, xs));
    assert k in projects;
    assert SecondsIn(row, w, xs)(k) == Seconds(row, w, xs, k);
  }

  // agent weight times project weight is seconds over full seconds.
  lemma ProductIsFlat(row: UsageRow, candidates: seq<string>, runs: seq<Run>, k: Slot)
    requires Distinct(candidates) && candidates != []
    requires FullSeconds(row, Matching(row, candidates, runs)) > 0.0
    requires k in CountedSlots(row, Matching(row, candidates, runs))
    ensures var xs, w := Matching(row, candidates, runs), WholeDay(row);
      Scaled(AgentWeight(row, w, xs, candidates, k.agent), ProjectWeight(row, w, xs))(k) == FlatShare(row, w, xs)(k) >= 0.0
  {
    var xs, w := Matching(row, candidates, runs), WholeDay(row);
    AgentWeightIs(row, candidates, runs, k.agent);
    ProjectWeightIs(row, w, xs, k);
    FlatProduct(FullSeconds(row, xs), Sum(ProjectSlots(k.agent, CountedSlots(row, xs)), SecondsIn(row, w, xs)),
                Seconds(row, w, xs, k), AgentWeight(row, w, xs, candidates, k.agent), ProjectWeight(row, w, xs), k,
                FlatShare(row, w, xs)(k));
  }

  lemma FlatProduct(whole: real, part: real, share: real, agent: real, within: Slot -> real, k: Slot, flat: real)
    requires whole > 0.0 && 0.0 <= share <= part && agent == part / whole && flat == share / whole
    requires part > 0.0 ==> within(k) == share / part
    ensures Scaled(agent, within)(k) == flat && flat >= 0.0
  {
    if part > 0.0 { Cancel(whole, part, share); }
  }

  function ShareSlot(s: Share): (Option<string>, Option<string>) { (s.agent, s.project) }

  // Everything a list of shares gives to one agent and project.
  function Given(shares: seq<Share>, k: Slot): real {
    SumFor(shares, ShareSlot, WeightIn, (Some(k.agent), k.project))
  }

  lemma {:induction false} GivenConcat(a: seq<Share>, b: seq<Share>, k: Slot)
    ensures Given(a + b, k) == Given(a, k) + Given(b, k)
  {
    if b == [] {
      assert a + b == a;
    } else {
      assert (a + b)[..|a + b| - 1] == a + b[..|b| - 1];
      GivenConcat(a, b[..|b| - 1], k);
    }
  }

  lemma EmitGives(agent: string, project: Option<string>, weight: real, estimated: bool, k: Slot)
    requires weight >= 0.0
    ensures Given(Emit(Some(agent), project, weight, estimated), k) == if k == Slot(agent, project) then weight else 0.0
  {
    var e := Emit(Some(agent), project, weight, estimated);
    if e != [] {
      var s := e[0];
      assert e[..0] == [] && s == Share(Some(agent), project, weight, estimated);
      assert Given([], k) == 0.0;
      assert Given(e, k) == if (s.agent, s.project) == (Some(k.agent), k.project) then WeightIn(s) else 0.0;
    }
  }

  lemma {:induction false} EmitAllGives(keys: seq<Slot>, weight: Slot -> real, estimated: bool, k: Slot)
    requires Distinct(keys) && forall j :: j in keys ==> weight(j) >= 0.0
    ensures Given(EmitAll(keys, weight, estimated), k) == if k in keys then weight(k) else 0.0
  {
    if keys != [] {
      var n := |keys| - 1;
      var j := keys[n];
      EmitAllGives(keys[..n], weight, estimated, k);
      EmitGives(j.agent, j.project, weight(j), estimated, k);
      GivenConcat(EmitAll(keys[..n], weight, estimated), Emit(Some(j.agent), j.project, weight(j), estimated), k);
      assert keys == keys[..n] + [j];
    }
  }

  lemma SplitGives(a: string, projects: seq<Slot>, weight: real, within: Slot -> real, ambiguous: bool, k: Slot)
    requires Distinct(projects) && forall j :: j in projects ==> Scaled(weight, within)(j) >= 0.0
    requires projects == [] ==> weight == 0.0
    ensures Given(SplitAgent(a, projects, weight, within, ambiguous), k)
         == if k in projects then Scaled(weight, within)(k) else 0.0
  {
    if projects == [] {
      EmitGives(a, None, weight, ambiguous, k);
    } else {
      EmitAllGives(projects, Scaled(weight, within), ambiguous, k);
    }
  }

  // Splitting an agent whose products are the flat shares.
  lemma FlatSplitGives(
      a: string, slots: seq<Slot>, weight: real, within: Slot -> real, flat: Slot -> real, ambiguous: bool, k: Slot)
    requires Distinct(slots) && (k !in slots ==> flat(k) == 0.0)
    requires forall j :: j in ProjectSlots(a, slots) ==> Scaled(weight, within)(j) == flat(j) >= 0.0
    requires ProjectSlots(a, slots) == [] ==> weight == 0.0
    ensures Given(SplitAgent(a, ProjectSlots(a, slots), weight, within, ambiguous), k) == if k.agent == a then flat(k) else 0.0
  {
    ProjectSlotsOf(a, slots);
    SplitGives(a, ProjectSlots(a, slots), weight, within, ambiguous, k);
  }

  lemma NoProjectsNoWeight(row: UsageRow, candidates: seq<string>, runs: seq<Run>, a: string)
    requires Distinct(candidates) && candidates != []
    requires FullSeconds(row, Matching(row, candidates, runs)) > 0.0
    ensures var xs := Matching(row, candidates, runs);
      ProjectSlots(a, CountedSlots(row, xs)) == [] ==> AgentWeight(row, WholeDay(row), xs, candidates, a) == 0.0
  {
    AgentWeightIs(row, candidates, runs, a);
  }

  lemma AgentSharesGive(row: UsageRow, candidates: seq<string>, runs: seq<Run>, ambiguous: bool, a: string, k: Slot)
    requires Distinct(candidates) && candidates != []
    requires FullSeconds(row, Matching(row, candidates, runs)) > 0.0
    ensures var xs, w := Matching(row, candidates, runs), WholeDay(row);
      Given(AgentShares(row, w, xs, candidates, ambiguous, a), k) == if k.agent == a then FlatShare(row, w, xs)(k) else 0.0
  {
    var xs, w := Matching(row, candidates, runs), WholeDay(row);
    ProductsAreFlat(row, candidates, runs, a);
    NoProjectsNoWeight(row, candidates, runs, a);
    if k !in CountedSlots(row, xs) { UncountedShare(row, w, xs, k); }
    FlatSplitGives(a, CountedSlots(row, xs), AgentWeight(row, w, xs, candidates, a), ProjectWeight(row, w, xs),
                   FlatShare(row, w, xs), ambiguous, k);
  }

  lemma UncountedShare(row: UsageRow, w: Window, xs: seq<Run>, k: Slot)
    requires k !in CountedSlots(row, xs)
    ensures FlatShare(row, w, xs)(k) == 0.0
  {
    UncountedSlot(row, w, xs, k);
  }

  lemma ProductsAreFlat(row: UsageRow, candidates: seq<string>, runs: seq<Run>, a: string)
    requires Distinct(candidates) && candidates != []
    requires FullSeconds(row, Matching(row, candidates, runs)) > 0.0
    ensures var xs, w := Matching(row, candidates, runs), WholeDay(row);
      forall j :: j in ProjectSlots(a, CountedSlots(row, xs)) ==>
        Scaled(AgentWeight(row, w, xs, candidates, a), ProjectWeight(row, w, xs))(j) == FlatShare(row, w, xs)(j) >= 0.0
  {
    var xs, w := Matching(row, candidates, runs), WholeDay(row);
    ProjectSlotsOf(a, CountedSlots(row, xs));
    forall j | j in ProjectSlots(a, CountedSlots(row, xs))
      ensures Scaled(AgentWeight(row, w, xs, candidates, a), ProjectWeight(row, w, xs))(j) == FlatShare(row, w, xs)(j) >= 0.0
    {
      ProductIsFlat(row, candidates, runs, j);
    }
  }

  lemma UncountedSlot(row: UsageRow, w: Window, xs: seq<Run>, k: Slot)
    requires k !in CountedSlots(row, xs)
    ensures Seconds(row, w, xs, k) == 0.0
  {
    forall x | x in xs && SlotOf(x) == k ensures Part(row, w, x) == 0.0 {
      assert !Counts(row, x);
    }
    SumForNothing(xs, SlotOf, PartOf(row, w), k);
  }

  lemma {:induction false} WholeSharesGive(
      row: UsageRow, candidates: seq<string>, runs: seq<Run>, ambiguous: bool, agents: seq<string>, k: Slot)
    requires Distinct(candidates) && Distinct(agents) && forall a :: a in agents ==> a in candidates
    requires candidates != [] && FullSeconds(row, Matching(row, candidates, runs)) > 0.0
    ensures var xs, w := Matching(row, candidates, runs), WholeDay(row);
      Given(WholeShares(row, w, xs, candidates, ambiguous, agents), k)
      == if k.agent in agents then FlatShare(row, w, xs)(k) else 0.0
  {
    if agents != [] {
      var n := |agents| - 1;
      var xs, w := Matching(row, candidates, runs), WholeDay(row);
      WholeSharesGive(row, candidates, runs, ambiguous, agents[..n], k);
      AgentSharesGive(row, candidates, runs, ambiguous, agents[n], k);
      GivenConcat(WholeShares(row, w, xs, candidates, ambiguous, agents[..n]),
                  AgentShares(row, w, xs, candidates, ambiguous, agents[n]), k);
      assert agents == agents[..n] + [agents[n]];
    }
  }

  lemma SecondsNeedCandidates(row: UsageRow, candidates: seq<string>, runs: seq<Run>)
    ensures candidates == [] ==> FullSeconds(row, Matching(row, candidates, runs)) == 0.0
  {
  }

  // A date-only window covers every day its SQL clause lets through.
  ghost predicate CoversDay(row: UsageRow, f: Filters) {
    (f.lower.Some? ==> f.lower.value <= row.day) && (f.upper.Some? ==> f.upper.value >= row.day + DAY)
  }

  // Once any dated run overlaps the day, the whole-day branch gives every agent and
  // project exactly its seconds over the full seconds: the fallbacks play no part.
  lemma WholeDayIsFlat(row: UsageRow, candidates: seq<string>, runs: seq<Run>, f: Filters, k: Slot)
    requires !f.timeEstimated && CoversDay(row, f) && Distinct(candidates)
    requires FullSeconds(row, Matching(row, candidates, runs)) > 0.0
    ensures Given(RowShares(row, candidates, runs, f), k)
         == if k.agent in candidates then FlatShare(row, WholeDay(row), Matching(row, candidates, runs))(k) else 0.0
  {
    SecondsNeedCandidates(row, candidates, runs);
    WholeSharesGive(row, candidates, runs, |candidates| > 1, candidates, k);
  }

  // ---- clock ranges ----

  lemma {:induction false} PassingOf(f: Filters, keys: seq<Slot>)
    requires Distinct(keys)
    ensures Distinct(Passing(f, keys))
    ensures forall k :: k in Passing(f, keys) <==> k in keys && Passes(f, k)
  {
    if keys != [] {
      var n := |keys| - 1;
      PassingOf(f, keys[..n]);
      assert keys == keys[..n] + [keys[n]];
    }
  }

  // What a clock range gives to one slot: its share of the entire day, filters applied.
  lemma ClockRangeGives(row: UsageRow, candidates: seq<string>, runs: seq<Run>, f: Filters, k: Slot)
    requires f.timeEstimated && candidates != []
    requires FullSeconds(row, Matching(row, candidates, runs)) > 0.0
    ensures Given(RowShares(row, candidates, runs, f), k)
         == if Passes(f, k) then FlatShare(row, Selected(row, f), Matching(row, candidates, runs))(k) else 0.0
  {
    var xs, w := Matching(row, candidates, runs), Selected(row, f);
    var keys := SelectedSlots(row, w, xs);
    PassingOf(f, keys);
    forall j ensures FlatShare(row, w, xs)(j) >= 0.0 { SecondsNonNegative(row, w, xs, j); }
    EmitAllGives(Passing(f, keys), FlatShare(row, w, xs), |candidates| > 1, k);
    if k !in keys {
      forall x | x in xs && SlotOf(x) == k ensures Part(row, w, x) == 0.0 {
        assert !(Part(row, w, x) > 0.0);
      }
      SumForNothing(xs, SlotOf, PartOf(row, w), k);
    }
  }

  function Between(f: Filters, lower: int, upper: int): Filters {
    f.(lower := Some(lower), upper := Some(upper), timeEstimated := true)
  }

  lemma PartsAdd(row: UsageRow, f: Filters, a: int, b: int, c: int, x: Run)
    requires a <= b <= c
    ensures Part(row, Selected(row, Between(f, a, c)), x)
         == Part(row, Selected(row, Between(f, a, b)), x) + Part(row, Selected(row, Between(f, b, c)), x)
  {
  }

  // Clock ranges are additive, slot by slot: the denominator is never renormalised.
  lemma ClockRangesAdd(row: UsageRow, candidates: seq<string>, runs: seq<Run>, f: Filters, a: int, b: int, c: int, k: Slot)
    requires a <= b <= c && candidates != []
    requires FullSeconds(row, Matching(row, candidates, runs)) > 0.0
    ensures Given(RowShares(row, candidates, runs, Between(f, a, c)), k)
         == Given(RowShares(row, candidates, runs, Between(f, a, b)), k)
          + Given(RowShares(row, candidates, runs, Between(f, b, c)), k)
  {
    var xs := Matching(row, candidates, runs);
    ClockRangeGives(row, candidates, runs, Between(f, a, c), k);
    ClockRangeGives(row, candidates, runs, Between(f, a, b), k);
    ClockRangeGives(row, candidates, runs, Between(f, b, c), k);
    forall x | x in xs
      ensures Part(row, Selected(row, Between(f, a, c)), x)
           == Part(row, Selected(row, Between(f, a, b)), x) + Part(row, Selected(row, Between(f, b, c)), x)
    {
      PartsAdd(row, f, a, b, c, x);
    }
    SumForPlus(xs, SlotOf, PartOf(row, Selected(row, Between(f, a, b))), PartOf(row, Selected(row, Between(f, b, c))),
               PartOf(row, Selected(row, Between(f, a, c))), k);
    SharesAdd(FullSeconds(row, xs), Seconds(row, Selected(row, Between(f, a, b)), xs, k),
              Seconds(row, Selected(row, Between(f, b, c)), xs, k), Seconds(row, Selected(row, Between(f, a, c)), xs, k));
  }

  lemma SharesAdd(whole: real, x: real, y: real, both: real)
    requires whole > 0.0 && both == x + y
    ensures both / whole == x / whole + y / whole
  {
  }

  // The total a slot gets from consecutive clock ranges.
  function Tiled(row: UsageRow, candidates: seq<string>, runs: seq<Run>, f: Filters, cuts: seq<int>, k: Slot): real {
    if |cuts| < 2 then 0.0
    else
      var n := |cuts| - 1;
      Tiled(row, candidates, runs, f, cuts[..n], k)
      + Given(RowShares(row, candidates, runs, Between(f, cuts[n - 1], cuts[n])), k)
  }

  ghost predicate Ascends(cuts: seq<int>) { forall i, j :: 0 <= i < j < |cuts| ==> cuts[i] <= cuts[j] }

  lemma {:induction false} TilesTelescope(row: UsageRow, candidates: seq<string>, runs: seq<Run>, f: Filters, cuts: seq<int>, k: Slot)
    requires cuts != [] && Ascends(cuts) && candidates != []
    requires FullSeconds(row, Matching(row, candidates, runs)) > 0.0
    ensures Tiled(row, candidates, runs, f, cuts, k)
         == Given(RowShares(row, candidates, runs, Between(f, cuts[0], cuts[|cuts| - 1])), k)
  {
    var n := |cuts| - 1;
    if n == 0 {
      ClockRangesAdd(row, candidates, runs, f, cuts[0], cuts[0], cuts[0], k);
    } else {
      TilesTelescope(row, candidates, runs, f, cuts[..n], k);
      ClockRangesAdd(row, candidates, runs, f, cuts[0], cuts[n - 1], cuts[n], k);
    }
  }

  // Windows that tile the day hand out, slot by slot, what the whole day hands out.
  lemma TilesMakeTheDay(
      row: UsageRow, candidates: seq<string>, runs: seq<Run>, f: Filters, day: Filters, cuts: seq<int>, k: Slot)
    requires cuts != [] && Ascends(cuts) && cuts[0] <= row.day && cuts[|cuts| - 1] >= row.day + DAY
    requires Distinct(candidates) && candidates != [] && k.agent in candidates && Passes(f, k)
    requires !day.timeEstimated && CoversDay(row, day)
    requires FullSeconds(row, Matching(row, candidates, runs)) > 0.0
    ensures Tiled(row, candidates, runs, f, cuts, k) == Given(RowShares(row, candidates, runs, day), k)
  {
    TilesTelescope(row, candidates, runs, f, cuts, k);
    ClockRangeGives(row, candidates, runs, Between(f, cuts[0], cuts[|cuts| - 1]), k);
    WholeDayIsFlat(row, candidates, runs, day, k);
  }
}
