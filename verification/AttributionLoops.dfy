// The loops of daily_shares, run by run and slot by slot as the source writes them, each
// proved to leave behind exactly what module Attribution says a row is split into.
module AttributionLoops {
  import opened Prelude
  import opened Sums
  import opened Attribution

  // One run of one candidate: what it adds to full_seconds, selected and counts.
  method TallyRun(row: UsageRow, w: Window, item: Run, full: real, selected: Dict<Slot>, counts: Dict<Slot>)
    returns (full': real, selected': Dict<Slot>, counts': Dict<Slot>)
    ensures full' == full + Full(row, item)
    ensures selected' == if Part(row, w, item) > 0.0 then Bump(selected, SlotOf(item), Part(row, w, item)) else selected
    ensures counts' == if Counts(row, item) then Bump(counts, SlotOf(item), One(row, item)) else counts
  {
    full', selected', counts' := full, selected, counts;
    var key := Slot(item.agent, item.project);
    if item.start.None? || item.end.None? || item.end.value <= item.start.value {
      var anchor := if item.start.Some? then item.start else item.end;
      if anchor.Some? && row.day <= anchor.value < row.day + DAY {
        counts' := Bump(counts, key, 1.0);
      }
    } else {
      var seconds := Overlap(item.start.value, item.end.value, row.day, row.day + DAY);
      if seconds > 0 {
        full' := full + seconds as real;
        counts' := Bump(counts, key, 1.0);
        var partial := Overlap(item.start.value, item.end.value, w.lower, w.upper);
        if partial > 0 {
          selected' := Bump(selected, key, partial as real);
        }
      }
    }
  }

  function SecondsTally(row: UsageRow, w: Window, xs: seq<Run>): Dict<Slot> { Tally(xs, SlotOf, Touches(row, w), PartOf(row, w)) }
  function CountTally(row: UsageRow, xs: seq<Run>): Dict<Slot> { Tally(xs, SlotOf, CountsIn(row), OneOf(row)) }

  method TallyRuns(row: UsageRow, w: Window, candidates: seq<string>, runs: seq<Run>)
    returns (full: real, selected: Dict<Slot>, counts: Dict<Slot>)
    ensures full == FullSeconds(row, Matching(row, candidates, runs))
    ensures selected == SecondsTally(row, w, Matching(row, candidates, runs))
    ensures counts == CountTally(row, Matching(row, candidates, runs))
  {
    full, selected, counts := 0.0, Dict([], map[]), Dict([], map[]);
    ghost var seen: seq<Run> := [];
    for i := 0 to |candidates|
      invariant seen == Matching(row, candidates[..i], runs)
      invariant full == FullSeconds(row, seen)
      invariant selected == SecondsTally(row, w, seen)
      invariant counts == CountTally(row, seen)
    {
      full, selected, counts := TallyCandidate(row, w, candidates[i], runs, full, selected, counts, seen);
      seen := seen + MatchingOf(row, candidates[i], runs);
      assert candidates[..i + 1][..i] == candidates[..i];
    }
    assert candidates[..|candidates|] == candidates;
  }

  // The inner loop: the runs of one candidate that match the row.
  method TallyCandidate(row: UsageRow, w: Window, agent: string, runs: seq<Run>,
                        full: real, selected: Dict<Slot>, counts: Dict<Slot>, ghost before: seq<Run>)
    returns (full': real, selected': Dict<Slot>, counts': Dict<Slot>)
    requires full == FullSeconds(row, before) && selected == SecondsTally(row, w, before) && counts == CountTally(row, before)
    ensures var seen := before + MatchingOf(row, agent, runs);
      full' == FullSeconds(row, seen) && selected' == SecondsTally(row, w, seen) && counts' == CountTally(row, seen)
  {
    full', selected', counts' := full, selected, counts;
    ghost var seen := before;
    for j := 0 to |runs|
      invariant seen == before + MatchingOf(row, agent, runs[..j])
      invariant full' == FullSeconds(row, seen) && selected' == SecondsTally(row, w, seen) && counts' == CountTally(row, seen)
    {
      MatchingOfNext(row, agent, runs, j);
      if runs[j].agent == agent && Matches(row, runs[j]) {
        full', selected', counts' := TallyRun(row, w, runs[j], full', selected', counts');
        SeenNext(row, w, seen, runs[j]);
        seen := seen + [runs[j]];
      }
    }
    assert runs[..|runs|] == runs;
  }

  lemma SeenNext(row: UsageRow, w: Window, seen: seq<Run>, x: Run)
    ensures FullSeconds(row, seen + [x]) == FullSeconds(row, seen) + Full(row, x)
    ensures SecondsTally(row, w, seen + [x])
         == if Part(row, w, x) > 0.0 then Bump(SecondsTally(row, w, seen), SlotOf(x), Part(row, w, x)) else SecondsTally(row, w, seen)
    ensures CountTally(row, seen + [x])
         == if Counts(row, x) then Bump(CountTally(row, seen), SlotOf(x), One(row, x)) else CountTally(row, seen)
  {
    assert (seen + [x])[..|seen|] == seen;
    TallyNext(seen, x, SlotOf, Touches(row, w), PartOf(row, w));
    TallyNext(seen, x, SlotOf, CountsIn(row), OneOf(row));
  }

  lemma MatchingOfNext(row: UsageRow, a: string, runs: seq<Run>, j: nat)
    requires j < |runs|
    ensures MatchingOf(row, a, runs[..j + 1])
         == MatchingOf(row, a, runs[..j]) + if runs[j].agent == a && Matches(row, runs[j]) then [runs[j]] else []
  {
    assert runs[..j + 1][..j] == runs[..j];
  }

  lemma SecondsTallyIs(row: UsageRow, w: Window, xs: seq<Run>)
    ensures var d := SecondsTally(row, w, xs);
      && d.keys == SelectedSlots(row, w, xs)
      && (forall k :: k in d.keys <==> k in d.values)
      && (forall k :: Get(d, k) == Seconds(row, w, xs, k))
  {
    TallyIs(xs, SlotOf, Touches(row, w), PartOf(row, w));
  }

  lemma CountTallyIs(row: UsageRow, xs: seq<Run>)
    ensures var d := CountTally(row, xs);
      && d.keys == CountedSlots(row, xs)
      && (forall k :: k in d.keys <==> k in d.values)
      && (forall k :: Get(d, k) == Count(row, xs, k))
  {
    TallyIs(xs, SlotOf, CountsIn(row), OneOf(row));
  }

  // The clock-range branch: the emitting loop over the selected dictionary.
  method EmitPassing(f: Filters, selected: Dict<Slot>, full: real, ambiguous: bool, ghost weight: Slot -> real)
    returns (shares: seq<Share>)
    requires full > 0.0
    requires forall k :: k in selected.keys ==> k in selected.values && selected.values[k] / full == weight(k)
    ensures shares == EmitAll(Passing(f, selected.keys), weight, ambiguous)
  {
    shares := [];
    var keys := selected.keys;
    for i := 0 to |keys|
      invariant shares == EmitAll(Passing(f, keys[..i]), weight, ambiguous)
    {
      var k := keys[i];
      PassingNext(f, keys, i);
      if (f.agents == {} || k.agent in f.agents) && (f.projects == {} || (k.project.Some? && k.project.value in f.projects)) {
        assert k in keys;
        shares := shares + Emit(Some(k.agent), k.project, selected.values[k] / full, ambiguous);
        EmitAllNext(Passing(f, keys[..i]), k, weight, ambiguous);
      }
    }
    assert keys[..|keys|] == keys;
  }

  lemma PassingNext(f: Filters, keys: seq<Slot>, i: nat)
    requires i < |keys|
    ensures Passes(f, keys[i]) ==> Passing(f, keys[..i + 1]) == Passing(f, keys[..i]) + [keys[i]]
    ensures !Passes(f, keys[i]) ==> Passing(f, keys[..i + 1]) == Passing(f, keys[..i])
  {
    assert keys[..i + 1][..i] == keys[..i];
  }

  lemma ClockWeights(row: UsageRow, w: Window, xs: seq<Run>)
    requires FullSeconds(row, xs) > 0.0
    ensures var d := SecondsTally(row, w, xs);
      && d.keys == SelectedSlots(row, w, xs)
      && forall k :: k in d.keys ==> k in d.values && d.values[k] / FullSeconds(row, xs) == FlatShare(row, w, xs)(k)
  {
    SecondsTallyIs(row, w, xs);
    var d := SecondsTally(row, w, xs);
    forall k | k in d.keys ensures k in d.values && d.values[k] / FullSeconds(row, xs) == FlatShare(row, w, xs)(k) {
      assert Get(d, k) == Seconds(row, w, xs, k);
    }
  }

  lemma EmitAllNext(keys: seq<Slot>, k: Slot, weight: Slot -> real, estimated: bool)
    ensures EmitAll(keys + [k], weight, estimated)
         == EmitAll(keys, weight, estimated) + Emit(Some(k.agent), k.project, weight(k), estimated)
  {
    assert (keys + [k])[..|keys|] == keys;
  }

  function At<K(!new, ==)>(m: map<K, real>): K -> real { (k: K) => if k in m then m[k] else 0.0 }

  // _weights: three passes over the keys.
  method Weights<K(!new, ==)>(keys: seq<K>, durations: map<K, real>, counts: map<K, real>) returns (w: map<K, real>)
    requires keys != []
    ensures forall k :: k in keys <==> k in w
    ensures forall k :: k in w ==> w[k] == Weight(keys, At(durations), At(counts), k)
  {
    var total := Total(keys, durations);
    var runs := Total(keys, counts);
    w := map[];
    for i := 0 to |keys|
      invariant forall k :: k in keys[..i] <==> k in w
      invariant forall k :: k in w ==> w[k] == Weight(keys, At(durations), At(counts), k)
    {
      var k := keys[i];
      w := w[k := if total > 0.0 then At(durations)(k) / total
                  else if runs > 0.0 then At(counts)(k) / runs
                  else 1.0 / |keys| as real];
    }
  }

  method Total<K(!new, ==)>(keys: seq<K>, m: map<K, real>) returns (total: real)
    ensures total == Sum(keys, At(m))
  {
    total := 0.0;
    for i := 0 to |keys|
      invariant total == Sum(keys[..i], At(m))
    {
      assert keys[..i + 1][..i] == keys[..i];
      total := total + if keys[i] in m then m[keys[i]] else 0.0;
    }
    assert keys[..|keys|] == keys;
  }

  // The two levels of the date-only branch, built up from the counts dictionary.
  datatype Levels = Levels(
    durations: map<string, real>, agentCounts: map<string, real>,
    projectSeconds: map<string, Dict<Slot>>, projectRuns: map<string, Dict<Slot>>)

  predicate Every(k: Slot) { true }

  function Moved(at: Levels, k: Slot, seconds: real, n: real): Levels {
    Levels(at.durations[k.agent := At(at.durations)(k.agent) + seconds],
           at.agentCounts[k.agent := At(at.agentCounts)(k.agent) + n],
           at.projectSeconds[k.agent := Bump(Entry(at.projectSeconds, k.agent), k, seconds)],
           at.projectRuns[k.agent := Bump(Entry(at.projectRuns, k.agent), k, n)])
  }

  // One counts entry: durations, agent_counts and by_project move together.
  method TallySlot(k: Slot, seconds: real, n: real, at: Levels) returns (next: Levels)
    requires k.agent in at.durations && k.agent in at.agentCounts
    requires k.agent in at.projectSeconds <==> k.agent in at.projectRuns
    ensures next == Moved(at, k, seconds, n)
  {
    var seconds' := at.durations[k.agent] + seconds;
    var n' := at.agentCounts[k.agent] + n;
    var projects := if k.agent in at.projectSeconds then at.projectSeconds[k.agent] else Dict([], map[]);
    var runs := if k.agent in at.projectRuns then at.projectRuns[k.agent] else Dict([], map[]);
    next := Levels(at.durations[k.agent := seconds'], at.agentCounts[k.agent := n'],
                   at.projectSeconds[k.agent := Bump(projects, k, seconds)], at.projectRuns[k.agent := Bump(runs, k, n)]);
  }

  function Entry(m: map<string, Dict<Slot>>, a: string): Dict<Slot> { if a in m then m[a] else Dict([], map[]) }

  // What the loop over the counts dictionary has reached after the slots done.
  ghost predicate Reached(at: Levels, candidates: seq<string>, done: seq<Slot>, seconds: Slot -> real, runs: Slot -> real) {
    && AgentTotals(at.durations, candidates, done, seconds)
    && AgentTotals(at.agentCounts, candidates, done, runs)
    && (forall a :: a in at.projectSeconds <==> a in at.projectRuns)
    && ProjectTotals(at.projectSeconds, done, seconds)
    && ProjectTotals(at.projectRuns, done, runs)
  }

  ghost predicate AgentTotals(m: map<string, real>, candidates: seq<string>, done: seq<Slot>, f: Slot -> real) {
    (forall a :: a in m <==> a in candidates) && forall a :: a in candidates ==> m[a] == SumFor(done, AgentOf, f, a)
  }

  ghost predicate ProjectTotals(m: map<string, Dict<Slot>>, done: seq<Slot>, f: Slot -> real) {
    forall a :: Entry(m, a) == Tally(ProjectSlots(a, done), Same, Every, f)
  }

  function Same(k: Slot): Slot { k }

  lemma ReachedNext(
      at: Levels, next: Levels, candidates: seq<string>, done: seq<Slot>, k: Slot, seconds: Slot -> real, runs: Slot -> real)
    requires Reached(at, candidates, done, seconds, runs) && k.agent in candidates
    requires next == Moved(at, k, seconds(k), runs(k))
    ensures Reached(next, candidates, done + [k], seconds, runs)
  {
    DurationsMoved(at, candidates, done, k, seconds, runs(k));
    CountsMoved(at, candidates, done, k, seconds(k), runs);
    ProjectsMoved(at, done, k, seconds, runs);
  }

  lemma DurationsMoved(at: Levels, candidates: seq<string>, done: seq<Slot>, k: Slot, seconds: Slot -> real, n: real)
    requires AgentTotals(at.durations, candidates, done, seconds) && k.agent in candidates
    ensures AgentTotals(Moved(at, k, seconds(k), n).durations, candidates, done + [k], seconds)
  {
    AgentTotalsNext(at.durations, candidates, done, k, seconds);
  }

  lemma CountsMoved(at: Levels, candidates: seq<string>, done: seq<Slot>, k: Slot, seconds: real, runs: Slot -> real)
    requires AgentTotals(at.agentCounts, candidates, done, runs) && k.agent in candidates
    ensures AgentTotals(Moved(at, k, seconds, runs(k)).agentCounts, candidates, done + [k], runs)
  {
    AgentTotalsNext(at.agentCounts, candidates, done, k, runs);
  }

  lemma ProjectsMoved(at: Levels, done: seq<Slot>, k: Slot, seconds: Slot -> real, runs: Slot -> real)
    requires ProjectTotals(at.projectSeconds, done, seconds) && ProjectTotals(at.projectRuns, done, runs)
    ensures var next := Moved(at, k, seconds(k), runs(k));
      ProjectTotals(next.projectSeconds, done + [k], seconds) && ProjectTotals(next.projectRuns, done + [k], runs)
  {
    ProjectTotalsNext(at.projectSeconds, done, k, seconds);
    ProjectTotalsNext(at.projectRuns, done, k, runs);
  }

  // durations and agent_counts after one more slot.
  lemma AgentTotalsNext(m: map<string, real>, candidates: seq<string>, done: seq<Slot>, k: Slot, f: Slot -> real)
    requires k.agent in candidates && AgentTotals(m, candidates, done, f)
    ensures AgentTotals(m[k.agent := At(m)(k.agent) + f(k)], candidates, done + [k], f)
  {
    forall a ensures SumFor(done + [k], AgentOf, f, a) == SumFor(done, AgentOf, f, a) + if k.agent == a then f(k) else 0.0 {
      SumForNext(done, k, AgentOf, f, a);
    }
  }

  lemma ProjectTotalsNext(m: map<string, Dict<Slot>>, done: seq<Slot>, k: Slot, f: Slot -> real)
    requires ProjectTotals(m, done, f)
    ensures ProjectTotals(m[k.agent := Bump(Entry(m, k.agent), k, f(k))], done + [k], f)
  {
    forall a ensures Entry(m[k.agent := Bump(Entry(m, k.agent), k, f(k))], a) == Tally(ProjectSlots(a, done + [k]), Same, Every, f) {
      EntryNext(m, done, k, f, a);
    }
  }

  lemma EntryNext(m: map<string, Dict<Slot>>, done: seq<Slot>, k: Slot, f: Slot -> real, a: string)
    requires Entry(m, a) == Tally(ProjectSlots(a, done), Same, Every, f)
    ensures Entry(m[k.agent := Bump(Entry(m, k.agent), k, f(k))], a) == Tally(ProjectSlots(a, done + [k]), Same, Every, f)
  {
    assert (done + [k])[..|done|] == done;
    if k.agent == a {
      assert ProjectSlots(a, done + [k]) == ProjectSlots(a, done) + [k];
      TallyNext(ProjectSlots(a, done), k, Same, Every, f);
    } else {
      assert ProjectSlots(a, done + [k]) == ProjectSlots(a, done);
    }
  }

  function GetOf(d: Dict<Slot>): Slot -> real { (k: Slot) => Get(d, k) }

  function LevelsAfter(candidates: seq<string>, done: seq<Slot>, seconds: Slot -> real, runs: Slot -> real): Levels {
    if done == [] then Levels(map a | a in candidates :: 0.0, map a | a in candidates :: 0.0, map[], map[])
    else
      var n := |done| - 1;
      Moved(LevelsAfter(candidates, done[..n], seconds, runs), done[n], seconds(done[n]), runs(done[n]))
  }

  lemma {:induction false} LevelsReached(candidates: seq<string>, done: seq<Slot>, seconds: Slot -> real, runs: Slot -> real)
    requires forall k :: k in done ==> k.agent in candidates
    ensures Reached(LevelsAfter(candidates, done, seconds, runs), candidates, done, seconds, runs)
  {
    if done != [] {
      var n := |done| - 1;
      assert done == done[..n] + [done[n]];
      LevelsReached(candidates, done[..n], seconds, runs);
      var at := LevelsAfter(candidates, done[..n], seconds, runs);
      ReachedNext(at, Moved(at, done[n], seconds(done[n]), runs(done[n])), candidates, done[..n], done[n], seconds, runs);
    }
  }

  lemma LevelsHave(candidates: seq<string>, keys: seq<Slot>, i: nat, seconds: Slot -> real, runs: Slot -> real)
    requires i < |keys| && forall k :: k in keys ==> k.agent in candidates
    ensures var at, a := LevelsAfter(candidates, keys[..i], seconds, runs), keys[i].agent;
      a in at.durations && a in at.agentCounts && (a in at.projectSeconds <==> a in at.projectRuns)
  {
    assert keys[i] in keys;
    LevelsReached(candidates, keys[..i], seconds, runs);
  }

  lemma LevelsNext(candidates: seq<string>, keys: seq<Slot>, i: nat, seconds: Slot -> real, runs: Slot -> real)
    requires i < |keys|
    ensures LevelsAfter(candidates, keys[..i + 1], seconds, runs)
         == Moved(LevelsAfter(candidates, keys[..i], seconds, runs), keys[i], seconds(keys[i]), runs(keys[i]))
  {
    assert keys[..i + 1][..i] == keys[..i];
  }

  // The loop over the counts dictionary.
  method ReadLevels(candidates: seq<string>, selected: Dict<Slot>, counts: Dict<Slot>) returns (at: Levels)
    requires forall k :: k in counts.keys ==> k.agent in candidates && k in counts.values
    ensures at == LevelsAfter(candidates, counts.keys, GetOf(selected), GetOf(counts))
  {
    var keys := counts.keys;
    at := Levels(map a | a in candidates :: 0.0, map a | a in candidates :: 0.0, map[], map[]);
    for i := 0 to |keys|
      invariant at == LevelsAfter(candidates, keys[..i], GetOf(selected), GetOf(counts))
    {
      var k := keys[i];
      LevelsHave(candidates, keys, i, GetOf(selected), GetOf(counts));
      LevelsNext(candidates, keys, i, GetOf(selected), GetOf(counts));
      at := TallySlot(k, Get(selected, k), counts.values[k], at);
    }
    assert keys[..|keys|] == keys;
  }

  // A dictionary filled from distinct keys holds each key once, with its own value.
  lemma {:induction false} FirstSeenSame(ks: seq<Slot>)
    requires Distinct(ks)
    ensures FirstSeen(ks, Same, Every) == ks
  {
    if ks != [] {
      var n := |ks| - 1;
      FirstSeenSame(ks[..n]);
      assert ks[n] !in ks[..n];
      assert ks == ks[..n] + [ks[n]];
    }
  }

  lemma DistinctTally(ks: seq<Slot>, f: Slot -> real)
    requires Distinct(ks)
    ensures var d := Tally(ks, Same, Every, f);
      d.keys == ks && forall k :: k in ks ==> k in d.values && d.values[k] == f(k)
  {
    TallyIs(ks, Same, Every, f);
    FirstSeenSame(ks);
    var d := Tally(ks, Same, Every, f);
    forall k | k in ks ensures k in d.values && d.values[k] == f(k) {
      var one := (j: Slot) => if j == k then f(k) else 0.0;
      SumForIsSum(ks, Same, f, k, one);
      SumAtOne(ks, k, f(k), one);
      assert Get(d, k) == SumFor(ks, Same, f, k);
    }
  }

  lemma WeightSame<K(!new)>(keys: seq<K>, d: K -> real, c: K -> real, d': K -> real, c': K -> real, k: K)
    requires k in keys && forall j :: j in keys ==> d(j) == d'(j) && c(j) == c'(j)
    ensures Weight(keys, d, c, k) == Weight(keys, d', c', k)
  {
    SumSame(keys, d, d');
    SumSame(keys, c, c');
  }

  // Emitting agent_weight * project_weight for every project of one agent.
  method EmitProjects(a: string, projects: seq<Slot>, weight: real, w: map<Slot, real>, ambiguous: bool, ghost within: Slot -> real)
    returns (shares: seq<Share>)
    requires forall k :: k in projects ==> k.agent == a && k in w && w[k] == within(k)
    ensures shares == EmitAll(projects, Scaled(weight, within), ambiguous)
  {
    shares := [];
    for i := 0 to |projects|
      invariant shares == EmitAll(projects[..i], Scaled(weight, within), ambiguous)
    {
      var k := projects[i];
      assert k in projects;
      assert projects[..i + 1] == projects[..i] + [k];
      EmitAllNext(projects[..i], k, Scaled(weight, within), ambiguous);
      assert weight * w[k] == Scaled(weight, within)(k);
      shares := shares + Emit(Some(a), k.project, weight * w[k], ambiguous);
    }
    assert projects[..|projects|] == projects;
  }

  // One agent of the date-only branch.
  method SplitOneAgent(a: string, weight: real, projects: Dict<Slot>, runs: Dict<Slot>, ambiguous: bool,
                       ghost slots: seq<Slot>, ghost seconds: Slot -> real, ghost counts: Slot -> real, ghost within: Slot -> real)
    returns (shares: seq<Share>)
    requires Distinct(slots) && forall k :: k in slots ==> k.agent == a
    requires projects == Tally(slots, Same, Every, seconds) && runs == Tally(slots, Same, Every, counts)
    requires slots != [] ==> forall k :: k in slots ==> within(k) == Weight(slots, seconds, counts, k)
    ensures shares == SplitAgent(a, slots, weight, within, ambiguous)
  {
    DistinctTally(slots, seconds);
    DistinctTally(slots, counts);
    if projects.keys == [] {
      shares := Emit(Some(a), None, weight, ambiguous);
    } else {
      var w := Weights(projects.keys, projects.values, runs.values);
      forall k | k in slots ensures k in w && w[k] == within(k) {
        WeightSame(slots, At(projects.values), At(runs.values), seconds, counts, k);
      }
      shares := EmitProjects(a, projects.keys, weight, w, ambiguous, within);
    }
  }

  // The emitting loop of the date-only branch.
  method WholeDayShares(candidates: seq<string>, at: Levels, ambiguous: bool, ghost row: UsageRow, ghost w: Window, ghost xs: seq<Run>)
    returns (shares: seq<Share>)
    requires candidates != []
    requires Reached(at, candidates, CountedSlots(row, xs), SecondsIn(row, w, xs), CountIn(row, xs))
    ensures shares == WholeShares(row, w, xs, candidates, ambiguous, candidates)
  {
    var weights := Weights(candidates, at.durations, at.agentCounts);
    AgentWeightsAre(candidates, at, row, w, xs, weights);
    shares := [];
    for i := 0 to |candidates|
      invariant shares == WholeShares(row, w, xs, candidates, ambiguous, candidates[..i])
    {
      var a := candidates[i];
      assert a in candidates;
      SlotsOfAgent(row, w, xs, at, candidates, a);
      var one := SplitOneAgent(a, weights[a], Entry(at.projectSeconds, a), Entry(at.projectRuns, a), ambiguous,
                               ProjectSlots(a, CountedSlots(row, xs)), SecondsIn(row, w, xs), CountIn(row, xs), ProjectWeight(row, w, xs));
      WholeSharesNext(row, w, xs, candidates, ambiguous, i);
      shares := shares + one;
    }
    assert candidates[..|candidates|] == candidates;
  }

  lemma AgentWeightsAre(candidates: seq<string>, at: Levels, row: UsageRow, w: Window, xs: seq<Run>, weights: map<string, real>)
    requires candidates != []
    requires Reached(at, candidates, CountedSlots(row, xs), SecondsIn(row, w, xs), CountIn(row, xs))
    requires forall a :: a in candidates <==> a in weights
    requires forall a :: a in weights ==> weights[a] == Weight(candidates, At(at.durations), At(at.agentCounts), a)
    ensures forall a :: a in candidates ==> a in weights && weights[a] == AgentWeight(row, w, xs, candidates, a)
  {
    forall a | a in candidates ensures a in weights && weights[a] == AgentWeight(row, w, xs, candidates, a) {
      WeightSame(candidates, At(at.durations), At(at.agentCounts), AgentSeconds(row, w, xs), AgentCount(row, xs), a);
    }
  }

  lemma SlotsOfAgent(row: UsageRow, w: Window, xs: seq<Run>, at: Levels, candidates: seq<string>, a: string)
    requires Reached(at, candidates, CountedSlots(row, xs), SecondsIn(row, w, xs), CountIn(row, xs))
    ensures var slots := ProjectSlots(a, CountedSlots(row, xs));
      && Distinct(slots) && (forall k :: k in slots ==> k.agent == a)
      && Entry(at.projectSeconds, a) == Tally(slots, Same, Every, SecondsIn(row, w, xs))
      && Entry(at.projectRuns, a) == Tally(slots, Same, Every, CountIn(row, xs))
      && (slots != [] ==>
            forall k :: k in slots ==> ProjectWeight(row, w, xs)(k) == Weight(slots, SecondsIn(row, w, xs), CountIn(row, xs), k))
  {
    ProjectSlotsOf(a, CountedSlots(row, xs));
  }

  lemma WholeSharesNext(row: UsageRow, w: Window, xs: seq<Run>, candidates: seq<string>, ambiguous: bool, i: nat)
    requires i < |candidates|
    ensures WholeShares(row, w, xs, candidates, ambiguous, candidates[..i + 1])
         == WholeShares(row, w, xs, candidates, ambiguous, candidates[..i])
          + AgentShares(row, w, xs, candidates, ambiguous, candidates[i])
  {
    assert candidates[..i + 1][..i] == candidates[..i];
  }

  lemma CountedAgents(row: UsageRow, candidates: seq<string>, runs: seq<Run>)
    ensures var counts := CountTally(row, Matching(row, candidates, runs));
      forall k :: k in counts.keys ==> k.agent in candidates && k in counts.values
  {
    var xs := Matching(row, candidates, runs);
    CountTallyIs(row, xs);
    forall k | k in CountTally(row, xs).keys ensures k.agent in candidates {
      var x :| x in xs && Counts(row, x) && SlotOf(x) == k;
      MatchingAgents(row, candidates, runs, x);
    }
  }

  lemma LevelsAre(row: UsageRow, w: Window, candidates: seq<string>, runs: seq<Run>)
    ensures var xs := Matching(row, candidates, runs);
      Reached(LevelsAfter(candidates, CountTally(row, xs).keys, GetOf(SecondsTally(row, w, xs)), GetOf(CountTally(row, xs))),
              candidates, CountedSlots(row, xs), SecondsIn(row, w, xs), CountIn(row, xs))
  {
    var xs := Matching(row, candidates, runs);
    CountedAgents(row, candidates, runs);
    CountTallyIs(row, xs);
    SecondsTallyIs(row, w, xs);
    LevelsSame(candidates, CountedSlots(row, xs), GetOf(SecondsTally(row, w, xs)), GetOf(CountTally(row, xs)),
               SecondsIn(row, w, xs), CountIn(row, xs));
    LevelsReached(candidates, CountedSlots(row, xs), SecondsIn(row, w, xs), CountIn(row, xs));
  }

  lemma {:induction false} LevelsSame(
      candidates: seq<string>, done: seq<Slot>, f: Slot -> real, g: Slot -> real, f': Slot -> real, g': Slot -> real)
    requires forall k :: f(k) == f'(k) && g(k) == g'(k)
    ensures LevelsAfter(candidates, done, f, g) == LevelsAfter(candidates, done, f', g')
  {
    if done != [] { LevelsSame(candidates, done[..|done| - 1], f, g, f', g'); }
  }

  // One row of daily_shares, from its dictionaries to its shares.
  method SplitRow(row: UsageRow, candidates: seq<string>, runs: seq<Run>, f: Filters) returns (shares: seq<Share>)
    ensures shares == RowShares(row, candidates, runs, f)
  {
    if candidates == [] {
      return if f.timeEstimated then [] else Emit(None, None, 1.0, true);
    }
    var w := Selected(row, f);
    var full, selected, counts := TallyRuns(row, w, candidates, runs);
    ghost var xs := Matching(row, candidates, runs);
    if f.timeEstimated {
      if full <= 0.0 { return []; }
      ClockWeights(row, w, xs);
      shares := EmitPassing(f, selected, full, |candidates| > 1, FlatShare(row, w, xs));
      return;
    }
    CountedAgents(row, candidates, runs);
    var at := ReadLevels(candidates, selected, counts);
    LevelsAre(row, w, candidates, runs);
    shares := WholeDayShares(candidates, at, |candidates| > 1, row, w, xs);
  }
}
