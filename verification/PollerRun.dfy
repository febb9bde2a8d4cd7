// The Poller and the frozen runner in their own form: counters that are bumped, an index
// that advances per call, loops over what the previous commands listed.
module PollerRun {
  import opened Prelude
  import opened PollCycle
  import opened Replay

  class Poller {
    const w: World
    var tape: Tape
    var db: Db
    var issued: seq<Command>
    var recorded: seq<Entry>
    var sourcesOk: nat
    var sourcesFailed: nat

    constructor (w: World, tape: Tape, db: Db)
      ensures this.w == w && View() == Start(tape, db)
    {
      this.w, this.tape, this.db := w, tape, db;
      issued, recorded, sourcesOk, sourcesFailed := [], [], 0, 0;
    }

    function View(): State
      reads this
    {
      State(tape, db, issued, recorded, sourcesOk, sourcesFailed)
    }

    // The runner call; None stands for a raised exception.
    method Runner(c: Command) returns (answer: Option<Json>)
      modifies this
      ensures (answer, View()) == Ask(old(View()), c)
    {
      issued := issued + [c];
      answer := None;
      match tape {
        case Live(answers, i) =>
          if i < |answers| {
            answer := answers[i];
            tape := Live(answers, i + 1);
          }
        case Frozen(entries, i) =>
          if i < |entries| && entries[i].command == c {
            answer := Some(entries[i].reply);
            tape := Frozen(entries, i + 1);
          }
      }
      if answer.Some? { recorded := recorded + [Entry(c, answer.value)]; }
    }

    method Store(c: Command, v: Json)
      modifies this
      ensures View() == Write(old(View()), c, v)
    {
      db := Db(db.writes + [Entry(c, v)]);
    }

    // _source: a raised exception is counted and the cycle goes on.
    method RunSource(c: Command) returns (answer: Option<Json>)
      modifies this
      ensures (answer, View()) == Source(w, old(View()), c)
    {
      answer := Runner(c);
      if answer.None? || !w.parses(db, c, answer.value) {
        sourcesFailed := sourcesFailed + 1;
        return None;
      }
      Store(c, answer.value);
      sourcesOk := sourcesOk + 1;
    }

    // One page: fetch, check, store, and look whether the server has more.
    method RunPage(c: Command) returns (end: PageEnd)
      modifies this
      ensures (end, View()) == Page(w, old(View()), c)
    {
      var answer := Runner(c);
      if answer.None? || !w.parses(db, c, answer.value) { return Broken; }
      Store(c, answer.value);
      end := if w.hasMore(answer.value) then More else Last;
    }

    method SyncProjectIssues(project: Id) returns (ok: bool)
      modifies this
      ensures (ok, View()) == Pages(w, old(View()), project, 0)
    {
      hide Pages;
      var offset: nat := 0;
      while true
        invariant Pages(w, View(), project, offset) == Pages(w, old(View()), project, 0)
        decreases Remaining(tape)
      {
        PagesAre(w, View(), project, offset);
        var end := RunPage(IssueList(project, offset));
        if end.Broken? { return false; }
        if end.Last? { return true; }
        offset := offset + w.pageLimit;
      }
    }

    method RunProject(project: Id) returns (ok: bool)
      modifies this
      ensures (ok, View()) == Project(w, old(View()), project)
    {
      ok := SyncProjectIssues(project);
      if ok { sourcesOk := sourcesOk + 1; } else { sourcesFailed := sourcesFailed + 1; }
    }

    method RunRuntimes(ids: seq<Id>)
      modifies this
      ensures View() == Runtimes(w, old(View()), ids)
    {
      var i := 0;
      while i < |ids|
        invariant 0 <= i <= |ids|
        invariant Runtimes(w, View(), ids[i..]) == Runtimes(w, old(View()), ids)
      {
        assert ids[i..][1..] == ids[i + 1..];
        var usage := RunSource(RuntimeUsage(ids[i]));
        var activity := RunSource(RuntimeActivity(ids[i]));
        i := i + 1;
      }
    }

    method RunProjects(ids: seq<Id>) returns (ok: bool)
      modifies this
      ensures (ok, View()) == Projects(w, old(View()), ids, ids != [])
    {
      ok := ids != [];
      var i := 0;
      while i < |ids|
        invariant 0 <= i <= |ids|
        invariant Projects(w, View(), ids[i..], ok) == Projects(w, old(View()), ids, ids != [])
      {
        assert ids[i..][1..] == ids[i + 1..];
        var fine := RunProject(ids[i]);
        ok := ok && fine;
        i := i + 1;
      }
    }

    method RunAgents(ids: seq<Id>) returns (ok: bool)
      modifies this
      ensures (ok, View()) == Agents(w, old(View()), ids, true)
    {
      ok := true;
      var i := 0;
      while i < |ids|
        invariant 0 <= i <= |ids|
        invariant Agents(w, View(), ids[i..], ok) == Agents(w, old(View()), ids, true)
      {
        assert ids[i..][1..] == ids[i + 1..];
        var answer := RunSource(AgentTasks(ids[i]));
        ok := ok && answer.Some?;
        i := i + 1;
      }
    }

    method SyncDetail(id: Id) returns (ok: bool)
      modifies this
      ensures (ok, View()) == Detail(w, old(View()), id)
    {
      var usage := Runner(IssueUsage(id));
      if usage.None? { return false; }
      var runs := Runner(IssueRuns(id));
      if runs.None? || !w.parses(db, IssueUsage(id), usage.value) { return false; }
      Store(IssueUsage(id), usage.value);
      if !w.parses(db, IssueRuns(id), runs.value) { return false; }
      Store(IssueRuns(id), runs.value);
      ok := true;
    }

    // sync_issue_details without a deadline: failures are collected, the batch goes on, and
    // the source fails once.
    method SyncIssueDetails()
      modifies this
      ensures View() == DetailPhase(w, old(View()))
    {
      var ids := w.pending(db);
      var clean := true;
      var i := 0;
      while i < |ids|
        invariant 0 <= i <= |ids|
        invariant Details(w, View(), ids[i..], clean) == Details(w, old(View()), ids, true)
      {
        assert ids[i..][1..] == ids[i + 1..];
        var fine := SyncDetail(ids[i]);
        clean := clean && fine;
        i := i + 1;
      }
      RunLocal(clean);
    }

    method RunLocal(ok: bool)
      modifies this
      ensures View() == Local(old(View()), ok)
    {
      if ok { sourcesOk := sourcesOk + 1; } else { sourcesFailed := sourcesFailed + 1; }
    }

    method RunCycle() returns (ok: bool)
      modifies this
      ensures View() == Cycle(w, old(View()))
      ensures ok == (sourcesFailed == 0)
    {
      var runtimes := RunSource(RuntimeList);
      var agents := RunSource(AgentList);
      var projects := RunSource(ProjectList);
      RunRuntimes(if Listed(w, runtimes) != [] then Listed(w, runtimes) else w.known(db));
      RunLocal(w.prices(db));
      var issuesOk := RunProjects(Listed(w, projects));
      var tasksOk := RunAgents(Listed(w, agents));
      if Listed(w, agents) != [] && issuesOk && tasksOk {
        var pause := RunSource(WorkspaceGet);
        RunLocal(w.snapshots(db));
      }
      SyncIssueDetails();
      ok := sourcesFailed == 0;
    }
  }

  // rebuild: replay the frozen input into a fresh database and accept it only if the cycle is
  // ok and every recorded answer has been used.
  method Rebuild(w: World, entries: seq<Entry>, empty: Db) returns (output: Option<Db>, ghost issued: seq<Command>)
    ensures var t := Cycle(w, Start(Frozen(entries, 0), empty));
      && issued == t.issued
      && output == (if Accepted(t, entries) then Some(t.db) else None)
    ensures output.Some? ==> issued == Commands(entries)
    ensures forall answers :: Recording(w, answers, empty, entries) ==> output == Some(Cycle(w, Start(Live(answers, 0), empty)).db)
  {
    var poller := new Poller(w, Frozen(entries, 0), empty);
    var ok := poller.RunCycle();
    issued := poller.issued;
    output := if ok && poller.tape.index == |entries| then Some(poller.db) else None;
    OkReplayIsTheManifest(w, entries, empty);
    forall answers | Recording(w, answers, empty, entries)
      ensures output == Some(Cycle(w, Start(Live(answers, 0), empty)).db)
    {
      ReplayFollowsTheRecording(w, answers, empty);
    }
  }

  // entries are what a successful capture from the same empty database recorded.
  ghost predicate Recording(w: World, answers: seq<Option<Json>>, empty: Db, entries: seq<Entry>) {
    var live := Cycle(w, Start(Live(answers, 0), empty));
    live.failed == 0 && live.recorded == entries
  }
}
