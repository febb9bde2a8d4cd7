// One poll cycle (aistat/poller.py) as an adaptive sequence of CLI commands: what is asked
// next depends on what was answered and stored so far. The runner is either the live CLI,
// whose answers are recorded, or the frozen input of aistat/rebuild.py.
module PollCycle {
  import opened Prelude

  datatype Id = Id(text: string)

  datatype Json = Json(text: string)

  datatype Command =
    | RuntimeList | AgentList | ProjectList | WorkspaceGet
    | RuntimeUsage(id: Id) | RuntimeActivity(id: Id)
    | IssueList(project: Id, offset: nat)
    | AgentTasks(id: Id) | IssueUsage(id: Id) | IssueRuns(id: Id)

  datatype Entry = Entry(command: Command, reply: Json)

  // A live runner gives the next answer whatever is asked, None where it raises; a frozen
  // one gives the recorded reply of the recorded command and raises on anything else.
  datatype Tape = Live(answers: seq<Option<Json>>, index: nat) | Frozen(entries: seq<Entry>, index: nat)

  // The staging database as the writes made to it, in order: what a deterministic store
  // holds is a function of them.
  datatype Db = Db(writes: seq<Entry>)

  // The deterministic parts this model does not look into: normalisation and upserts
  // (parses is false where they raise), the lists they yield, the two local queries, pricing
  // and the fleet snapshot.
  datatype World = World(
    parses: (Db, Command, Json) -> bool, ids: Json -> seq<Id>, hasMore: Json -> bool, pageLimit: nat,
    known: Db -> seq<Id>, pending: Db -> seq<Id>, prices: Db -> bool, snapshots: Db -> bool)

  // recorded holds the delivered answers, issued every command handed to the runner.
  datatype State = State(tape: Tape, db: Db, issued: seq<Command>, recorded: seq<Entry>, ok: nat, failed: nat)

  function Commands(entries: seq<Entry>): seq<Command> {
    if entries == [] then [] else Commands(entries[..|entries| - 1]) + [entries[|entries| - 1].command]
  }

  function Remaining(t: Tape): nat {
    var n := if t.Live? then |t.answers| else |t.entries|;
    if t.index < n then n - t.index else 0
  }

  // The runner call: the answer, and the tape after it.
  function Answer(t: Tape, c: Command): (Option<Json>, Tape) {
    match t
    case Live(answers, i) => if i < |answers| then (answers[i], Live(answers, i + 1)) else (None, t)
    case Frozen(entries, i) =>
      if i < |entries| && entries[i].command == c then (Some(entries[i].reply), Frozen(entries, i + 1)) else (None, t)
  }

  function Ask(s: State, c: Command): (r: (Option<Json>, State))
    ensures r.0.Some? ==> Remaining(r.1.tape) < Remaining(s.tape)
  {
    var (answer, tape) := Answer(s.tape, c);
    (answer,
     s.(tape := tape, issued := s.issued + [c], recorded := if answer.Some? then s.recorded + [Entry(c, answer.value)] else s.recorded))
  }

  function Write(s: State, c: Command, v: Json): State { s.(db := Db(s.db.writes + [Entry(c, v)])) }

  function Succeeded(s: State): State { s.(ok := s.ok + 1) }
  function Faulty(s: State): State { s.(failed := s.failed + 1) }

  // _source around one command that is normalised and stored.
  function Source(w: World, s: State, c: Command): (Option<Json>, State) {
    var (answer, s1) := Ask(s, c);
    if answer.None? || !w.parses(s1.db, c, answer.value) then (None, Faulty(s1))
    else (answer, Succeeded(Write(s1, c, answer.value)))
  }

  datatype PageEnd = Broken | Last | More

  // One page of sync_project_issues.
  function Page(w: World, s: State, c: Command): (r: (PageEnd, State))
    ensures r.0.More? ==> Remaining(r.1.tape) < Remaining(s.tape)
  {
    var (answer, s1) := Ask(s, c);
    if answer.None? || !w.parses(s1.db, c, answer.value) then (Broken, s1)
    else (if w.hasMore(answer.value) then More else Last, Write(s1, c, answer.value))
  }

  // sync_project_issues: pages until the server says there are no more.
  function Pages(w: World, s: State, project: Id, offset: nat): (bool, State)
    decreases Remaining(s.tape)
  {
    var (end, s1) := Page(w, s, IssueList(project, offset));
    if end.More? then Pages(w, s1, project, offset + w.pageLimit) else (end.Last?, s1)
  }

  // What one page makes of the rest, whichever way it ends.
  lemma PagesAre(w: World, s: State, project: Id, offset: nat)
    ensures var (end, s1) := Page(w, s, IssueList(project, offset));
      match end
      case Broken => Pages(w, s, project, offset) == (false, s1)
      case Last => Pages(w, s, project, offset) == (true, s1)
      case More => Pages(w, s, project, offset) == Pages(w, s1, project, offset + w.pageLimit)
  {
    hide Page;
  }

  function Project(w: World, s: State, project: Id): (bool, State) {
    var (ok, s1) := Pages(w, s, project, 0);
    (ok, if ok then Succeeded(s1) else Faulty(s1))
  }

  function Runtimes(w: World, s: State, ids: seq<Id>): State
    decreases |ids|
  {
    if ids == [] then s
    else Runtimes(w, Source(w, Source(w, s, RuntimeUsage(ids[0])).1, RuntimeActivity(ids[0])).1, ids[1..])
  }

  function Projects(w: World, s: State, ids: seq<Id>, ok: bool): (bool, State)
    decreases |ids|
  {
    if ids == [] then (ok, s)
    else
      var (fine, s1) := Project(w, s, ids[0]);
      Projects(w, s1, ids[1..], ok && fine)
  }

  function Agents(w: World, s: State, ids: seq<Id>, ok: bool): (bool, State)
    decreases |ids|
  {
    if ids == [] then (ok, s)
    else
      var (answer, s1) := Source(w, s, AgentTasks(ids[0]));
      Agents(w, s1, ids[1..], ok && answer.Some?)
  }

  // One issue of sync_issue_details: both answers first, then the writes.
  function Detail(w: World, s: State, id: Id): (bool, State) {
    var (usage, s1) := Ask(s, IssueUsage(id));
    if usage.None? then (false, s1)
    else
      var (runs, s2) := Ask(s1, IssueRuns(id));
      if runs.None? || !w.parses(s2.db, IssueUsage(id), usage.value) then (false, s2)
      else
        var s3 := Write(s2, IssueUsage(id), usage.value);
        if !w.parses(s3.db, IssueRuns(id), runs.value) then (false, s3)
        else (true, Write(s3, IssueRuns(id), runs.value))
  }

  function Details(w: World, s: State, ids: seq<Id>, clean: bool): (bool, State)
    decreases |ids|
  {
    if ids == [] then (clean, s)
    else
      var (fine, s1) := Detail(w, s, ids[0]);
      Details(w, s1, ids[1..], clean && fine)
  }

  // The sources that ask nothing: pricing, and the fleet snapshot.
  function Local(s: State, ok: bool): State { if ok then Succeeded(s) else Faulty(s) }

  function ThreeLists(w: World, s: State): (Option<Json>, Option<Json>, Option<Json>, State) {
    var (runtimes, s1) := Source(w, s, RuntimeList);
    var (agents, s2) := Source(w, s1, AgentList);
    var (projects, s3) := Source(w, s2, ProjectList);
    (runtimes, agents, projects, s3)
  }

  // The runtimes just listed, or the ones already known when none were.
  function RuntimeIds(w: World, db: Db, runtimes: Option<Json>): seq<Id> {
    if Listed(w, runtimes) != [] then Listed(w, runtimes) else w.known(db)
  }

  function Priced(w: World, s: State, ids: seq<Id>): State {
    var t := Runtimes(w, s, ids);
    Local(t, w.prices(t.db))
  }

  function LivePhase(w: World, s: State): (Option<Json>, Option<Json>, State) {
    var (runtimes, agents, projects, t) := ThreeLists(w, s);
    (agents, projects, Priced(w, t, RuntimeIds(w, t.db, runtimes)))
  }

  function Listed(w: World, reply: Option<Json>): seq<Id> { if reply.Some? then w.ids(reply.value) else [] }

  function SnapshotPhase(w: World, s: State, complete: bool): State {
    if !complete then s
    else
      var (_, s1) := Source(w, s, WorkspaceGet);
      Local(s1, w.snapshots(s1.db))
  }

  function DetailPhase(w: World, s: State): State {
    var (clean, s1) := Details(w, s, w.pending(s.db), true);
    Local(s1, clean)
  }

  // run_cycle
  function Cycle(w: World, s: State): State {
    var (agents, projects, s1) := LivePhase(w, s);
    var (issuesOk, s2) := Projects(w, s1, Listed(w, projects), Listed(w, projects) != []);
    var (tasksOk, s3) := Agents(w, s2, Listed(w, agents), true);
    var s4 := SnapshotPhase(w, s3, Listed(w, agents) != [] && issuesOk && tasksOk);
    DetailPhase(w, s4)
  }

  function Start(tape: Tape, db: Db): State { State(tape, db, [], [], 0, 0) }
}
