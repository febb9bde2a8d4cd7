// Record and replay (aistat/rebuild.py): a frozen recording drives the same cycle again.
module Replay {
  import opened Prelude
  import opened PollCycle

  ghost predicate Prefix(a: seq<Entry>, b: seq<Entry>) { |a| <= |b| && b[..|a|] == a }

  // ---- what every part of the cycle keeps ----

  // Failures are never forgotten, the recording only grows, a runner stays what it was.
  ghost predicate Grows(s: State, t: State) {
    && s.failed <= t.failed && Prefix(s.recorded, t.recorded)
    && match s.tape
       case Live(answers, i) => t.tape.Live? && t.tape.answers == answers && i <= t.tape.index
       case Frozen(entries, i) => t.tape.Frozen? && t.tape.entries == entries && i <= t.tape.index
  }

  // Under a frozen tape: what was delivered is the consumed part of the recording.
  ghost predicate InStep(s: State) {
    s.tape.Frozen? ==> s.tape.index <= |s.tape.entries| && s.recorded == s.tape.entries[..s.tape.index]
  }

  // No command has gone unanswered.
  ghost predicate Exact(s: State) { s.issued == Commands(s.recorded) }

  lemma GrowsJoins(a: State, b: State, c: State)
    requires Grows(a, b) && Grows(b, c)
    ensures Grows(a, c)
  {
    assert c.recorded[..|a.recorded|] == c.recorded[..|b.recorded|][..|a.recorded|];
  }

  lemma CommandsNext(entries: seq<Entry>, e: Entry)
    ensures Commands(entries + [e]) == Commands(entries) + [e.command]
  {
    assert (entries + [e])[..|entries|] == entries;
  }

  lemma AskKeeps(s: State, c: Command)
    requires InStep(s)
    ensures var (answer, t) := Ask(s, c);
      && Grows(s, t) && InStep(t) && t.failed == s.failed && t.db == s.db && t.ok == s.ok
      && (Exact(s) && answer.Some? ==> Exact(t))
  {
    var (answer, t) := Ask(s, c);
    if answer.Some? {
      CommandsNext(s.recorded, Entry(c, answer.value));
      assert t.recorded[..|s.recorded|] == s.recorded;
    } else {
      assert t.recorded == s.recorded;
    }
  }

  // A part that reports no failure leaves no command unanswered.
  ghost predicate Keeps(s: State, t: State, clean: bool) {
    Grows(s, t) && InStep(t) && (Exact(s) && clean ==> Exact(t))
  }

  lemma KeepsJoins(a: State, b: State, c: State, first: bool, second: bool)
    requires Keeps(a, b, first) && Keeps(b, c, second)
    ensures Keeps(a, c, first && second)
  {
    GrowsJoins(a, b, c);
  }

  lemma SourceKeeps(w: World, s: State, c: Command)
    requires InStep(s)
    ensures var (answer, t) := Source(w, s, c); Keeps(s, t, t.failed == s.failed) && (answer.Some? <==> t.failed == s.failed)
  {
    AskKeeps(s, c);
  }

  lemma PageKeeps(w: World, s: State, c: Command)
    requires InStep(s)
    ensures var (end, t) := Page(w, s, c); Keeps(s, t, !end.Broken?) && t.failed == s.failed
  {
    AskKeeps(s, c);
  }

  ghost predicate PagesKept(s: State, r: (bool, State)) { Keeps(s, r.1, r.0) && r.1.failed == s.failed }

  lemma PagesKeptJoins(s: State, t: State, r: (bool, State))
    requires Keeps(s, t, true) && t.failed == s.failed && PagesKept(t, r)
    ensures PagesKept(s, r)
  {
    KeepsJoins(s, t, r.1, true, r.0);
  }

  lemma {:induction false} PagesKeep(w: World, s: State, project: Id, offset: nat)
    requires InStep(s)
    ensures PagesKept(s, Pages(w, s, project, offset))
    decreases Remaining(s.tape)
  {
    hide Page, Grows, Exact;
    PageKeeps(w, s, IssueList(project, offset));
    var (end, s1) := Page(w, s, IssueList(project, offset));
    if end.More? {
      PagesKeep(w, s1, project, offset + w.pageLimit);
      PagesKeptJoins(s, s1, Pages(w, s1, project, offset + w.pageLimit));
    }
  }

  lemma ProjectKeeps(w: World, s: State, project: Id)
    requires InStep(s)
    ensures var (ok, t) := Project(w, s, project); Keeps(s, t, t.failed == s.failed) && (ok <==> t.failed == s.failed)
  {
    PagesKeep(w, s, project, 0);
  }

  lemma {:induction false} RuntimesKeep(w: World, s: State, ids: seq<Id>)
    requires InStep(s)
    ensures var t := Runtimes(w, s, ids); Keeps(s, t, t.failed == s.failed)
    decreases |ids|
  {
    if ids != [] {
      var s1 := Source(w, s, RuntimeUsage(ids[0])).1;
      var s2 := Source(w, s1, RuntimeActivity(ids[0])).1;
      SourceKeeps(w, s, RuntimeUsage(ids[0]));
      SourceKeeps(w, s1, RuntimeActivity(ids[0]));
      RuntimesKeep(w, s2, ids[1..]);
      GrowsJoins(s, s1, s2);
      GrowsJoins(s, s2, Runtimes(w, s2, ids[1..]));
    }
  }

  lemma {:induction false} ProjectsKeep(w: World, s: State, ids: seq<Id>, ok: bool)
    requires InStep(s)
    ensures var (_, t) := Projects(w, s, ids, ok); Keeps(s, t, t.failed == s.failed)
    decreases |ids|
  {
    if ids != [] {
      var (fine, s1) := Project(w, s, ids[0]);
      ProjectKeeps(w, s, ids[0]);
      ProjectsKeep(w, s1, ids[1..], ok && fine);
      GrowsJoins(s, s1, Projects(w, s1, ids[1..], ok && fine).1);
    }
  }

  lemma {:induction false} AgentsKeep(w: World, s: State, ids: seq<Id>, ok: bool)
    requires InStep(s)
    ensures var (_, t) := Agents(w, s, ids, ok); Keeps(s, t, t.failed == s.failed)
    decreases |ids|
  {
    if ids != [] {
      var (answer, s1) := Source(w, s, AgentTasks(ids[0]));
      SourceKeeps(w, s, AgentTasks(ids[0]));
      AgentsKeep(w, s1, ids[1..], ok && answer.Some?);
      GrowsJoins(s, s1, Agents(w, s1, ids[1..], ok && answer.Some?).1);
    }
  }

  lemma DetailKeeps(w: World, s: State, id: Id)
    requires InStep(s)
    ensures var (ok, t) := Detail(w, s, id); Keeps(s, t, ok) && t.failed == s.failed
  {
    AskKeeps(s, IssueUsage(id));
    var (usage, s1) := Ask(s, IssueUsage(id));
    if usage.Some? {
      AskKeeps(s1, IssueRuns(id));
      GrowsJoins(s, s1, Ask(s1, IssueRuns(id)).1);
    }
  }

  lemma {:induction false} DetailsKeep(w: World, s: State, ids: seq<Id>, clean: bool)
    requires InStep(s)
    ensures var (ok, t) := Details(w, s, ids, clean); Keeps(s, t, ok) && t.failed == s.failed && (ok ==> clean)
    decreases |ids|
  {
    if ids != [] {
      var (fine, s1) := Detail(w, s, ids[0]);
      DetailKeeps(w, s, ids[0]);
      DetailsKeep(w, s1, ids[1..], clean && fine);
      GrowsJoins(s, s1, Details(w, s1, ids[1..], clean && fine).1);
    } else {
      assert Grows(s, s);
    }
  }

  lemma ListsKeep(w: World, s: State)
    requires InStep(s)
    ensures var t := ThreeLists(w, s).3; Keeps(s, t, t.failed == s.failed)
  {
    var s1 := Source(w, s, RuntimeList).1;
    var s2 := Source(w, s1, AgentList).1;
    SourceKeeps(w, s, RuntimeList);
    SourceKeeps(w, s1, AgentList);
    SourceKeeps(w, s2, ProjectList);
    GrowsJoins(s, s1, s2);
    GrowsJoins(s, s2, Source(w, s2, ProjectList).1);
  }

  lemma PricedKeeps(w: World, s: State, ids: seq<Id>)
    requires InStep(s)
    ensures var t := Priced(w, s, ids); Keeps(s, t, t.failed == s.failed)
  {
    RuntimesKeep(w, s, ids);
  }

  lemma LiveKeeps(w: World, s: State)
    requires InStep(s)
    ensures var t := LivePhase(w, s).2; Keeps(s, t, t.failed == s.failed)
  {
    var (runtimes, agents, projects, s3) := ThreeLists(w, s);
    ListsKeep(w, s);
    PricedKeeps(w, s3, RuntimeIds(w, s3.db, runtimes));
    GrowsJoins(s, s3, Priced(w, s3, RuntimeIds(w, s3.db, runtimes)));
  }

  lemma SnapshotKeeps(w: World, s: State, complete: bool)
    requires InStep(s)
    ensures var t := SnapshotPhase(w, s, complete); Keeps(s, t, t.failed == s.failed)
  {
    if complete {
      SourceKeeps(w, s, WorkspaceGet);
    } else {
      assert Grows(s, s);
    }
  }

  lemma DetailsPhaseKeeps(w: World, s: State)
    requires InStep(s)
    ensures var t := DetailPhase(w, s); Keeps(s, t, t.failed == s.failed)
  {
    DetailsKeep(w, s, w.pending(s.db), true);
  }

  lemma CycleKeeps(w: World, s: State)
    requires InStep(s)
    ensures var t := Cycle(w, s); Keeps(s, t, t.failed == s.failed)
  {
    var (agents, projects, s1) := LivePhase(w, s);
    var (issuesOk, s2) := Projects(w, s1, Listed(w, projects), Listed(w, projects) != []);
    var (tasksOk, s3) := Agents(w, s2, Listed(w, agents), true);
    var s4 := SnapshotPhase(w, s3, Listed(w, agents) != [] && issuesOk && tasksOk);
    LiveKeeps(w, s);
    ProjectsKeep(w, s1, Listed(w, projects), Listed(w, projects) != []);
    AgentsKeep(w, s2, Listed(w, agents), true);
    SnapshotKeeps(w, s3, Listed(w, agents) != [] && issuesOk && tasksOk);
    DetailsPhaseKeeps(w, s4);
    GrowsJoins(s, s1, s2);
    GrowsJoins(s, s2, s3);
    GrowsJoins(s, s3, s4);
    GrowsJoins(s, s4, DetailPhase(w, s4));
  }

  // rebuild's two conditions: the cycle is ok and require_consumed passes.
  predicate Accepted(t: State, entries: seq<Entry>) { t.failed == 0 && t.tape.index == |entries| }

  lemma WholeTape(s: State, t: State, entries: seq<Entry>)
    requires s.tape == Frozen(entries, 0) && s.failed == 0 && Exact(s) && InStep(s)
    requires Keeps(s, t, t.failed == s.failed)
    ensures Accepted(t, entries) ==> t.issued == Commands(entries) && t.recorded == entries
  {
    assert t.tape.entries == entries && entries[..|entries|] == entries;
  }

  // A replay that ends ok and has consumed its whole input issued exactly the commands of the
  // manifest, in order, although a mismatch is caught inside the cycle and only counted.
  lemma OkReplayIsTheManifest(w: World, entries: seq<Entry>, db: Db)
    ensures var t := Cycle(w, Start(Frozen(entries, 0), db));
      Accepted(t, entries) ==> t.issued == Commands(entries) && t.recorded == entries
  {
    CycleKeeps(w, Start(Frozen(entries, 0), db));
    WholeTape(Start(Frozen(entries, 0), db), Cycle(w, Start(Frozen(entries, 0), db)), entries);
  }

  // ---- the same part under the frozen tape ----

  // The replay at the moment the recording was in state s.
  function Shadow(s: State, entries: seq<Entry>): State { s.(tape := Frozen(entries, |s.recorded|)) }

  lemma AskFollows(s: State, c: Command, entries: seq<Entry>)
    requires s.tape.Live? && Ask(s, c).0.Some? && Prefix(Ask(s, c).1.recorded, entries)
    ensures Ask(Shadow(s, entries), c) == (Ask(s, c).0, Shadow(Ask(s, c).1, entries))
  {
    var (answer, t) := Ask(s, c);
    assert entries[|s.recorded|] == entries[..|t.recorded|][|s.recorded|] == Entry(c, answer.value);
  }

  lemma SourceFollows(w: World, s: State, c: Command, entries: seq<Entry>)
    requires s.tape.Live? && Source(w, s, c).1.failed == s.failed && Prefix(Source(w, s, c).1.recorded, entries)
    ensures Source(w, Shadow(s, entries), c) == (Source(w, s, c).0, Shadow(Source(w, s, c).1, entries))
  {
    AskFollows(s, c, entries);
  }

  // An earlier recording is a prefix of whatever a later one is a prefix of.
  lemma PrefixJoins(a: seq<Entry>, b: seq<Entry>, c: seq<Entry>)
    requires Prefix(a, b) && Prefix(b, c)
    ensures Prefix(a, c)
  {
    assert c[..|a|] == c[..|b|][..|a|];
  }

  lemma PageFollows(w: World, s: State, c: Command, entries: seq<Entry>)
    requires s.tape.Live? && !Page(w, s, c).0.Broken? && Prefix(Page(w, s, c).1.recorded, entries)
    ensures Page(w, Shadow(s, entries), c) == (Page(w, s, c).0, Shadow(Page(w, s, c).1, entries))
  {
    AskFollows(s, c, entries);
  }

  lemma {:induction false} PagesFollow(w: World, s: State, project: Id, offset: nat, entries: seq<Entry>)
    requires s.tape.Live? && Pages(w, s, project, offset).0 && Prefix(Pages(w, s, project, offset).1.recorded, entries)
    ensures Pages(w, Shadow(s, entries), project, offset) == (true, Shadow(Pages(w, s, project, offset).1, entries))
    decreases Remaining(s.tape)
  {
    hide Page, Exact;
    var c := IssueList(project, offset);
    var (end, s1) := Page(w, s, c);
    PageKeeps(w, s, c);
    if end.More? {
      PagesKeep(w, s1, project, offset + w.pageLimit);
      PrefixJoins(s1.recorded, Pages(w, s1, project, offset + w.pageLimit).1.recorded, entries);
      PageFollows(w, s, c, entries);
      PagesFollow(w, s1, project, offset + w.pageLimit, entries);
    } else {
      PageFollows(w, s, c, entries);
    }
  }

  lemma ProjectFollows(w: World, s: State, project: Id, entries: seq<Entry>)
    requires s.tape.Live? && Project(w, s, project).1.failed == s.failed && Prefix(Project(w, s, project).1.recorded, entries)
    ensures Project(w, Shadow(s, entries), project) == (true, Shadow(Project(w, s, project).1, entries))
  {
    PagesKeep(w, s, project, 0);
    var t := Pages(w, s, project, 0).1;
    assert Pages(w, s, project, 0).0;
    PagesFollow(w, s, project, 0, entries);
    assert Succeeded(Shadow(t, entries)) == Shadow(Succeeded(t), entries);
  }

  lemma {:induction false} RuntimesFollow(w: World, s: State, ids: seq<Id>, entries: seq<Entry>)
    requires s.tape.Live? && Runtimes(w, s, ids).failed == s.failed && Prefix(Runtimes(w, s, ids).recorded, entries)
    ensures Runtimes(w, Shadow(s, entries), ids) == Shadow(Runtimes(w, s, ids), entries)
    decreases |ids|
  {
    if ids != [] {
      var s1 := Source(w, s, RuntimeUsage(ids[0])).1;
      var s2 := Source(w, s1, RuntimeActivity(ids[0])).1;
      SourceKeeps(w, s, RuntimeUsage(ids[0]));
      SourceKeeps(w, s1, RuntimeActivity(ids[0]));
      RuntimesKeep(w, s2, ids[1..]);
      PrefixJoins(s2.recorded, Runtimes(w, s2, ids[1..]).recorded, entries);
      PrefixJoins(s1.recorded, s2.recorded, entries);
      SourceFollows(w, s, RuntimeUsage(ids[0]), entries);
      SourceFollows(w, s1, RuntimeActivity(ids[0]), entries);
      RuntimesFollow(w, s2, ids[1..], entries);
    }
  }

  lemma {:induction false} ProjectsFollow(w: World, s: State, ids: seq<Id>, ok: bool, entries: seq<Entry>)
    requires s.tape.Live? && Projects(w, s, ids, ok).1.failed == s.failed && Prefix(Projects(w, s, ids, ok).1.recorded, entries)
    ensures Projects(w, Shadow(s, entries), ids, ok) == (Projects(w, s, ids, ok).0, Shadow(Projects(w, s, ids, ok).1, entries))
    decreases |ids|
  {
    if ids != [] {
      var (fine, s1) := Project(w, s, ids[0]);
      ProjectKeeps(w, s, ids[0]);
      ProjectsKeep(w, s1, ids[1..], ok && fine);
      PrefixJoins(s1.recorded, Projects(w, s1, ids[1..], ok && fine).1.recorded, entries);
      ProjectFollows(w, s, ids[0], entries);
      ProjectsFollow(w, s1, ids[1..], ok && fine, entries);
    }
  }

  lemma {:induction false} AgentsFollow(w: World, s: State, ids: seq<Id>, ok: bool, entries: seq<Entry>)
    requires s.tape.Live? && Agents(w, s, ids, ok).1.failed == s.failed && Prefix(Agents(w, s, ids, ok).1.recorded, entries)
    ensures Agents(w, Shadow(s, entries), ids, ok) == (Agents(w, s, ids, ok).0, Shadow(Agents(w, s, ids, ok).1, entries))
    decreases |ids|
  {
    if ids != [] {
      var (answer, s1) := Source(w, s, AgentTasks(ids[0]));
      SourceKeeps(w, s, AgentTasks(ids[0]));
      AgentsKeep(w, s1, ids[1..], ok && answer.Some?);
      PrefixJoins(s1.recorded, Agents(w, s1, ids[1..], ok && answer.Some?).1.recorded, entries);
      SourceFollows(w, s, AgentTasks(ids[0]), entries);
      AgentsFollow(w, s1, ids[1..], ok && answer.Some?, entries);
    }
  }

  lemma DetailFollows(w: World, s: State, id: Id, entries: seq<Entry>)
    requires s.tape.Live? && Detail(w, s, id).0 && Prefix(Detail(w, s, id).1.recorded, entries)
    ensures Detail(w, Shadow(s, entries), id) == (true, Shadow(Detail(w, s, id).1, entries))
  {
    var (_, s1) := Ask(s, IssueUsage(id));
    AskKeeps(s, IssueUsage(id));
    AskKeeps(s1, IssueRuns(id));
    PrefixJoins(s1.recorded, Ask(s1, IssueRuns(id)).1.recorded, entries);
    AskFollows(s, IssueUsage(id), entries);
    AskFollows(s1, IssueRuns(id), entries);
  }

  lemma {:induction false} DetailsFollow(w: World, s: State, ids: seq<Id>, entries: seq<Entry>)
    requires s.tape.Live? && Details(w, s, ids, true).0 && Prefix(Details(w, s, ids, true).1.recorded, entries)
    ensures Details(w, Shadow(s, entries), ids, true) == (true, Shadow(Details(w, s, ids, true).1, entries))
    decreases |ids|
  {
    if ids != [] {
      var (fine, s1) := Detail(w, s, ids[0]);
      DetailKeeps(w, s, ids[0]);
      DetailsKeep(w, s1, ids[1..], fine);
      PrefixJoins(s1.recorded, Details(w, s1, ids[1..], fine).1.recorded, entries);
      DetailFollows(w, s, ids[0], entries);
      DetailsFollow(w, s1, ids[1..], entries);
    }
  }

  lemma ListsFollow(w: World, s: State, entries: seq<Entry>)
    requires s.tape.Live? && ThreeLists(w, s).3.failed == s.failed && Prefix(ThreeLists(w, s).3.recorded, entries)
    ensures var (runtimes, agents, projects, t) := ThreeLists(w, s);
      ThreeLists(w, Shadow(s, entries)) == (runtimes, agents, projects, Shadow(t, entries))
  {
    var s1 := Source(w, s, RuntimeList).1;
    var s2 := Source(w, s1, AgentList).1;
    var s3 := Source(w, s2, ProjectList).1;
    SourceKeeps(w, s, RuntimeList);
    SourceKeeps(w, s1, AgentList);
    SourceKeeps(w, s2, ProjectList);
    PrefixJoins(s2.recorded, s3.recorded, entries);
    PrefixJoins(s1.recorded, s2.recorded, entries);
    SourceFollows(w, s, RuntimeList, entries);
    SourceFollows(w, s1, AgentList, entries);
    SourceFollows(w, s2, ProjectList, entries);
  }

  lemma PricedFollows(w: World, s: State, ids: seq<Id>, entries: seq<Entry>)
    requires s.tape.Live? && InStep(s) && Priced(w, s, ids).failed == s.failed && Prefix(Priced(w, s, ids).recorded, entries)
    ensures Priced(w, Shadow(s, entries), ids) == Shadow(Priced(w, s, ids), entries)
  {
    RuntimesKeep(w, s, ids);
    RuntimesFollow(w, s, ids, entries);
  }

  lemma LiveFollows(w: World, s: State, entries: seq<Entry>)
    requires s.tape.Live? && LivePhase(w, s).2.failed == s.failed && Prefix(LivePhase(w, s).2.recorded, entries)
    ensures var (agents, projects, t) := LivePhase(w, s);
      LivePhase(w, Shadow(s, entries)) == (agents, projects, Shadow(t, entries))
  {
    var (runtimes, agents, projects, s3) := ThreeLists(w, s);
    var ids := RuntimeIds(w, s3.db, runtimes);
    ListsKeep(w, s);
    PricedKeeps(w, s3, ids);
    PrefixJoins(s3.recorded, Priced(w, s3, ids).recorded, entries);
    ListsFollow(w, s, entries);
    PricedFollows(w, s3, ids, entries);
  }

  lemma SnapshotFollows(w: World, s: State, complete: bool, entries: seq<Entry>)
    requires s.tape.Live? && SnapshotPhase(w, s, complete).failed == s.failed
    requires Prefix(SnapshotPhase(w, s, complete).recorded, entries)
    ensures SnapshotPhase(w, Shadow(s, entries), complete) == Shadow(SnapshotPhase(w, s, complete), entries)
  {
    if complete {
      SourceKeeps(w, s, WorkspaceGet);
      SourceFollows(w, s, WorkspaceGet, entries);
    }
  }

  lemma DetailPhaseFollows(w: World, s: State, entries: seq<Entry>)
    requires s.tape.Live? && DetailPhase(w, s).failed == s.failed && Prefix(DetailPhase(w, s).recorded, entries)
    ensures DetailPhase(w, Shadow(s, entries)) == Shadow(DetailPhase(w, s), entries)
  {
    DetailsKeep(w, s, w.pending(s.db), true);
    DetailsFollow(w, s, w.pending(s.db), entries);
  }

  lemma CycleFollows(w: World, s: State, entries: seq<Entry>)
    requires s.tape.Live? && Cycle(w, s).failed == s.failed && Prefix(Cycle(w, s).recorded, entries)
    ensures Cycle(w, Shadow(s, entries)) == Shadow(Cycle(w, s), entries)
  {
    var (agents, projects, s1) := LivePhase(w, s);
    var (issuesOk, s2) := Projects(w, s1, Listed(w, projects), Listed(w, projects) != []);
    var (tasksOk, s3) := Agents(w, s2, Listed(w, agents), true);
    var complete := Listed(w, agents) != [] && issuesOk && tasksOk;
    var s4 := SnapshotPhase(w, s3, complete);
    LiveKeeps(w, s);
    ProjectsKeep(w, s1, Listed(w, projects), Listed(w, projects) != []);
    AgentsKeep(w, s2, Listed(w, agents), true);
    SnapshotKeeps(w, s3, complete);
    DetailsPhaseKeeps(w, s4);
    PrefixJoins(s4.recorded, DetailPhase(w, s4).recorded, entries);
    PrefixJoins(s3.recorded, s4.recorded, entries);
    PrefixJoins(s2.recorded, s3.recorded, entries);
    PrefixJoins(s1.recorded, s2.recorded, entries);
    LiveFollows(w, s, entries);
    ProjectsFollow(w, s1, Listed(w, projects), Listed(w, projects) != [], entries);
    AgentsFollow(w, s2, Listed(w, agents), true, entries);
    SnapshotFollows(w, s3, complete, entries);
    DetailPhaseFollows(w, s4, entries);
  }

  // Replaying a successful recording from the same starting database is ok, issues exactly
  // the recorded commands, consumes all of them and writes the same database.
  lemma ReplayFollowsTheRecording(w: World, answers: seq<Option<Json>>, db: Db)
    requires Cycle(w, Start(Live(answers, 0), db)).failed == 0
    ensures var live := Cycle(w, Start(Live(answers, 0), db));
      var replay := Cycle(w, Start(Frozen(live.recorded, 0), db));
      && replay.failed == 0 && replay.ok == live.ok
      && replay.tape.index == |live.recorded|
      && replay.issued == live.issued == Commands(live.recorded)
      && replay.db == live.db
  {
    var s := Start(Live(answers, 0), db);
    var entries := Cycle(w, s).recorded;
    CycleKeeps(w, s);
    assert entries[..|entries|] == entries;
    CycleFollows(w, s, entries);
    assert Shadow(s, entries) == Start(Frozen(entries, 0), db);
  }
}
