// Installing a tenant snapshot (aistat/snapshot_recovery.py, driven by _ingest of
// aistat/legacy_wsgi.py). The database file and the watermark row are two durable
// objects; a journal row joins them. Every procedure is a script of durable effects,
// and a crash is a script cut off after any number of them.
module SnapshotInstall {
  import opened Prelude
  import opened Freshness

  type UserId = int
  type Time = int

  // A file's bytes with the usage table they hold. sha256 is taken to be injective, so
  // a digest is identified with the content it names.
  datatype Content = Content(bytes: string, usage: Table)

  datatype Path = TargetDb(user: UserId) | PreviousDb(user: UserId) | Sidecar(user: UserId, wal: bool) | StagedDb(name: nat)

  datatype Tenant = Tenant(lastIngest: Time, lastSnapshotAt: Option<Time>, lastSha: Option<Content>)

  datatype Intent = Intent(timestamp: Time, sha: Content, snapshotAt: Time, staged: nat)

  datatype State = State(files: map<Path, Content>, tenants: map<UserId, Tenant>, journal: map<UserId, Intent>)

  datatype Effect =
    | WriteFile(path: Path, content: Content)
    | RemoveFile(path: Path)
    | Rename(source: Path, destination: Path)
    | PutIntent(user: UserId, intent: Intent)
    | DropIntent(user: UserId)
    | CommitInstall(user: UserId, timestamp: Time, sha: Content, snapshotAt: Time)

  const MAX_SQLITE_INTEGER := 9223372036854775807

  predicate CanonicalId(u: UserId) { 0 < u <= MAX_SQLITE_INTEGER }

  function FileAt(s: State, p: Path): Option<Content> {
    if p in s.files then Some(s.files[p]) else None
  }

  predicate Advances(s: State, u: UserId, timestamp: Time) {
    u in s.tenants && timestamp > s.tenants[u].lastIngest
  }

  function Apply(s: State, e: Effect): State {
    match e
    case WriteFile(p, c) => s.(files := s.files[p := c])
    case RemoveFile(p) => s.(files := s.files - {p})
    case Rename(p, q) => if p in s.files then s.(files := (s.files - {p})[q := s.files[p]]) else s
    case PutIntent(u, intent) => s.(journal := s.journal[u := intent])
    case DropIntent(u) => s.(journal := s.journal - {u})
    case CommitInstall(u, timestamp, sha, at) =>
      s.(tenants := if Advances(s, u, timestamp) then s.tenants[u := Tenant(timestamp, Some(at), Some(sha))] else s.tenants,
         journal := s.journal - {u})
  }

  // Running a script on a machine that survives `fuel` more durable effects.
  datatype Progress = Progress(state: State, fuel: nat, up: bool)

  function Play(p: Progress, script: seq<Effect>): Progress
    decreases |script|
  {
    if !p.up || script == [] then p
    else if p.fuel == 0 then p.(up := false)
    else Play(Progress(Apply(p.state, script[0]), p.fuel - 1, true), script[1..])
  }

  lemma {:induction false} PlayConcat(p: Progress, a: seq<Effect>, b: seq<Effect>)
    ensures Play(p, a + b) == Play(Play(p, a), b)
    decreases |a|
  {
    if a == [] {
      assert a + b == b;
    } else if p.up && p.fuel > 0 {
      assert (a + b)[0] == a[0] && (a + b)[1..] == a[1..] + b;
      PlayConcat(Progress(Apply(p.state, a[0]), p.fuel - 1, true), a[1..], b);
    }
  }

  lemma PlayOne(p: Progress, e: Effect)
    ensures Play(p, [e]) ==
      if !p.up then p else if p.fuel == 0 then p.(up := false) else Progress(Apply(p.state, e), p.fuel - 1, true)
  {
    assert [e][1..] == [];
  }

  lemma {:induction false} UpBefore(p: Progress, script: seq<Effect>)
    requires Play(p, script).up
    ensures p.up
  {
  }

  // ---- the procedures, as scripts ----

  // Where an outside call of the swap may fail before os.replace; torn is what an
  // interrupted copy leaves in the backup.
  datatype SwapFault = NoFault | GuardFails | CopyFails(torn: Content) | ReplaceFails

  function SwapPrefix(s: State, u: UserId, fault: SwapFault): seq<Effect> {
    match fault
    case GuardFails => []
    case CopyFails(torn) => if TargetDb(u) in s.files then [WriteFile(PreviousDb(u), torn)] else []
    case _ =>
      (if TargetDb(u) in s.files then [WriteFile(PreviousDb(u), s.files[TargetDb(u)])] else [])
      + [RemoveFile(Sidecar(u, true)), RemoveFile(Sidecar(u, false))]
  }

  // A missing target is not copied, so a copy fault cannot strike then.
  predicate SwapSucceeds(s: State, u: UserId, fault: SwapFault) {
    fault.NoFault? || (fault.CopyFails? && TargetDb(u) !in s.files)
  }

  function SwapScript(s: State, u: UserId, staged: nat, fault: SwapFault): seq<Effect> {
    if SwapSucceeds(s, u, fault)
    then SwapPrefix(s, u, NoFault) + [Rename(StagedDb(staged), TargetDb(u))]
    else SwapPrefix(s, u, fault)
  }

  function RecordScript(s: State, u: UserId, intent: Intent): seq<Effect> {
    [PutIntent(u, intent)]
    + (if u in s.journal && s.journal[u].staged != intent.staged then [RemoveFile(StagedDb(s.journal[u].staged))] else [])
  }

  datatype Upload = Upload(user: UserId, timestamp: Time, content: Content, staged: nat, stageFails: bool, swap: SwapFault)

  function TargetOf(s: State, u: UserId): Target {
    if TargetDb(u) in s.files then Present(s.files[TargetDb(u)].usage) else Absent
  }

  datatype Response = Unauthorized | Replayed | Invalid | StaleData | Installed | Failed

  ghost function Verdict(s: State, r: Upload): Response {
    if r.user !in s.tenants then Unauthorized
    else if r.timestamp <= s.tenants[r.user].lastIngest then Replayed
    else if r.stageFails then Invalid
    else if !Safe(r.content.usage, TargetOf(s, r.user)) then StaleData
    else if SwapSucceeds(s, r.user, r.swap) then Installed
    else Invalid
  }

  function InstallScript(s: State, u: UserId, timestamp: Time, content: Content, staged: nat, swap: SwapFault): seq<Effect> {
    RecordScript(s, u, Intent(timestamp, content, timestamp, staged))
    + SwapScript(s, u, staged, swap)
    + (if SwapSucceeds(s, u, swap) then [CommitInstall(u, timestamp, content, timestamp)]
       else [DropIntent(u), RemoveFile(StagedDb(staged))])
  }

  ghost function IngestScript(s: State, r: Upload): seq<Effect> {
    var u := r.user;
    if u !in s.tenants || r.timestamp <= s.tenants[u].lastIngest then []
    else
      var staging := [WriteFile(StagedDb(r.staged), r.content)];
      if r.stageFails || !Safe(r.content.usage, TargetOf(s, u)) then staging + [RemoveFile(StagedDb(r.staged))]
      else staging + InstallScript(s, u, r.timestamp, r.content, r.staged, r.swap)
  }

  datatype Outcome = Forward | Back

  function RecoverRow(s: State, u: UserId, fault: SwapFault): (seq<Effect>, Outcome)
    requires u in s.journal
  {
    var row := s.journal[u];
    var commit := CommitInstall(u, row.timestamp, row.sha, row.snapshotAt);
    var giveUp := [DropIntent(u), RemoveFile(StagedDb(row.staged))];
    if FileAt(s, TargetDb(u)) == Some(row.sha) then ([commit, RemoveFile(StagedDb(row.staged))], Forward)
    else if FileAt(s, StagedDb(row.staged)) == Some(row.sha) then
      if SwapSucceeds(s, u, fault) then (SwapScript(s, u, row.staged, fault) + [commit], Forward)
      else (SwapScript(s, u, row.staged, fault) + giveUp, Back)
    else (giveUp, Back)
  }

  datatype Tally = Tally(forward: nat, back: nat)

  function Counted(t: Tally, o: Outcome): Tally {
    if o.Forward? then t.(forward := t.forward + 1) else t.(back := t.back + 1)
  }

  // One pass over the journalled ids; rows with a non-canonical id are left alone.
  function RecoverRows(p: Progress, ids: seq<UserId>, faults: UserId -> SwapFault): (Progress, Tally) {
    if ids == [] then (p, Tally(0, 0))
    else
      var k := |ids| - 1;
      var u := ids[k];
      var (q, t) := RecoverRows(p, ids[..k], faults);
      if q.up && CanonicalId(u) && u in q.state.journal then
        var (script, outcome) := RecoverRow(q.state, u, faults(u));
        (Play(q, script), Counted(t, outcome))
      else (q, t)
  }

  function Recover(p: Progress, faults: UserId -> SwapFault): (Progress, Tally) {
    RecoverRows(p, Ascending(p.state.journal.Keys), faults)
  }

  // ---- what a swap leaves on disk ----

  // The staged bytes are served, the old ones kept aside, no sidecar and no staged file is left, and
  // nothing else has changed.
  ghost predicate SwappedIn(before: map<Path, Content>, after: map<Path, Content>, u: UserId, staged: nat) {
    && StagedDb(staged) in before && TargetDb(u) in after && after[TargetDb(u)] == before[StagedDb(staged)]
    && StagedDb(staged) !in after && Sidecar(u, true) !in after && Sidecar(u, false) !in after
    && (TargetDb(u) in before ==> PreviousDb(u) in after && after[PreviousDb(u)] == before[TargetDb(u)])
    && (TargetDb(u) !in before ==> SameAt(before, after, PreviousDb(u)))
    && forall p: Path :: (if p.StagedDb? then p.name != staged else p.user != u) ==> SameAt(before, after, p)
  }

  // Every file but the copy and the sidecars of this tenant is as it was.
  ghost predicate NotSwappedIn(before: map<Path, Content>, after: map<Path, Content>, u: UserId) {
    forall p: Path :: p.TargetDb? || p.StagedDb? || p.user != u ==> SameAt(before, after, p)
  }

  ghost predicate SameAt(before: map<Path, Content>, after: map<Path, Content>, p: Path) {
    (p in after <==> p in before) && (p in before ==> after[p] == before[p])
  }

  // Before the rename: the old bytes are aside, the sidecars gone, nothing else has changed.
  ghost predicate Prepared(before: map<Path, Content>, after: map<Path, Content>, u: UserId) {
    && Sidecar(u, true) !in after && Sidecar(u, false) !in after
    && (TargetDb(u) in before ==> PreviousDb(u) in after && after[PreviousDb(u)] == before[TargetDb(u)])
    && (TargetDb(u) !in before ==> SameAt(before, after, PreviousDb(u)))
    && NotSwappedIn(before, after, u)
  }

  lemma PrefixRuns(p: Progress, u: UserId)
    ensures var q := Play(p, SwapPrefix(p.state, u, NoFault)); q.up ==> Prepared(p.state.files, q.state.files, u)
  {
    var wal, shm := RemoveFile(Sidecar(u, true)), RemoveFile(Sidecar(u, false));
    var copied := if TargetDb(u) in p.state.files then [WriteFile(PreviousDb(u), p.state.files[TargetDb(u)])] else [];
    assert SwapPrefix(p.state, u, NoFault) == copied + [wal] + [shm];
    PlayConcat(p, copied + [wal], [shm]);
    PlayConcat(p, copied, [wal]);
    var a := Play(p, copied);
    if copied != [] { PlayOne(p, copied[0]); }
    PlayOne(a, wal);
    PlayOne(Play(a, [wal]), shm);
  }

  lemma RenameRuns(before: map<Path, Content>, p: Progress, u: UserId, staged: nat)
    requires StagedDb(staged) in before && (p.up ==> Prepared(before, p.state.files, u))
    ensures var q := Play(p, [Rename(StagedDb(staged), TargetDb(u))]); q.up ==> SwappedIn(before, q.state.files, u, staged)
  {
    PlayOne(p, Rename(StagedDb(staged), TargetDb(u)));
    if p.up { assert SameAt(before, p.state.files, StagedDb(staged)); }
  }

  lemma SwapLeaves(p: Progress, u: UserId, staged: nat, fault: SwapFault)
    requires StagedDb(staged) in p.state.files
    ensures var q := Play(p, SwapScript(p.state, u, staged, fault));
      q.up ==> if SwapSucceeds(p.state, u, fault) then SwappedIn(p.state.files, q.state.files, u, staged)
               else NotSwappedIn(p.state.files, q.state.files, u)
  {
    hide SwappedIn;
    PrefixRuns(p, u);
    if SwapSucceeds(p.state, u, fault) {
      PlayConcat(p, SwapPrefix(p.state, u, NoFault), [Rename(StagedDb(staged), TargetDb(u))]);
      RenameRuns(p.state.files, Play(p, SwapPrefix(p.state, u, NoFault)), u, staged);
    } else if fault.CopyFails? {
      PlayOne(p, WriteFile(PreviousDb(u), fault.torn));
    }
  }

  // ---- the same procedures in place ----

  // A host process: its durable state, and how many more durable effects it lives for.
  class Host {
    var files: map<Path, Content>
    var tenants: map<UserId, Tenant>
    var journal: map<UserId, Intent>
    var fuel: nat
    var up: bool

    constructor (s: State, fuel: nat)
      ensures Now() == Progress(s, fuel, true)
    {
      files, tenants, journal := s.files, s.tenants, s.journal;
      this.fuel, up := fuel, true;
    }

    function Now(): Progress
      reads this
    {
      Progress(State(files, tenants, journal), fuel, up)
    }

    method Durable(e: Effect)
      modifies this
      ensures Now() == Play(old(Now()), [e])
    {
      if up {
        if fuel == 0 {
          up := false;
        } else {
          fuel := fuel - 1;
          assert [e][1..] == [];
          match e {
            case WriteFile(p, c) => files := files[p := c];
            case RemoveFile(p) => files := files - {p};
            case Rename(p, q) => if p in files { files := (files - {p})[q := files[p]]; }
            case PutIntent(u, intent) => journal := journal[u := intent];
            case DropIntent(u) => journal := journal - {u};
            case CommitInstall(u, timestamp, sha, at) =>
              if u in tenants && timestamp > tenants[u].lastIngest {
                tenants := tenants[u := Tenant(timestamp, Some(at), Some(sha))];
              }
              journal := journal - {u};
          }
        }
      }
    }

    method RecordInstallIntent(u: UserId, intent: Intent)
      modifies this
      ensures Now() == Play(old(Now()), RecordScript(old(Now()).state, u, intent))
    {
      ghost var start := Now();
      var prior := if u in journal then Some(journal[u]) else None;
      Durable(PutIntent(u, intent));
      if prior.Some? && prior.value.staged != intent.staged {
        PlayConcat(start, [PutIntent(u, intent)], [RemoveFile(StagedDb(prior.value.staged))]);
        Durable(RemoveFile(StagedDb(prior.value.staged)));
      } else {
        assert RecordScript(start.state, u, intent) == [PutIntent(u, intent)];
      }
    }

    method SwapStagedIntoPlace(u: UserId, staged: nat, fault: SwapFault) returns (ok: bool)
      requires StagedDb(staged) in files
      modifies this
      ensures Now() == Play(old(Now()), SwapScript(old(Now()).state, u, staged, fault))
      ensures ok == SwapSucceeds(old(Now()).state, u, fault)
      ensures ok && up ==> SwappedIn(old(files), files, u, staged)
      ensures !ok && up ==> NotSwappedIn(old(files), files, u)
    {
      SwapLeaves(Now(), u, staged, fault);
      ghost var start := Now();
      ok := false;
      if fault.GuardFails? { return; }
      if TargetDb(u) in files {
        if fault.CopyFails? {
          Durable(WriteFile(PreviousDb(u), fault.torn));
          return;
        }
        Durable(WriteFile(PreviousDb(u), files[TargetDb(u)]));
      }
      ghost var copied := if TargetDb(u) in start.state.files
        then [WriteFile(PreviousDb(u), start.state.files[TargetDb(u)])] else [];
      Durable(RemoveFile(Sidecar(u, true)));
      PlayConcat(start, copied, [RemoveFile(Sidecar(u, true))]);
      Durable(RemoveFile(Sidecar(u, false)));
      PlayConcat(start, copied + [RemoveFile(Sidecar(u, true))], [RemoveFile(Sidecar(u, false))]);
      assert SwapPrefix(start.state, u, NoFault)
        == copied + [RemoveFile(Sidecar(u, true))] + [RemoveFile(Sidecar(u, false))];
      if fault.ReplaceFails? { return; }
      PlayConcat(start, SwapPrefix(start.state, u, NoFault), [Rename(StagedDb(staged), TargetDb(u))]);
      Durable(Rename(StagedDb(staged), TargetDb(u)));
      ok := true;
    }

    // One row of the recovery loop.
    method RecoverOne(u: UserId, fault: SwapFault) returns (outcome: Outcome)
      requires u in journal
      modifies this
      ensures Now() == Play(old(Now()), RecoverRow(old(Now()).state, u, fault).0)
      ensures outcome == RecoverRow(old(Now()).state, u, fault).1
    {
      ghost var start := Now();
      var row := journal[u];
      var commit := CommitInstall(u, row.timestamp, row.sha, row.snapshotAt);
      var unlink := RemoveFile(StagedDb(row.staged));
      if TargetDb(u) in files && files[TargetDb(u)] == row.sha {
        PlayConcat(start, [commit], [unlink]);
        Durable(commit);
        Durable(unlink);
        return Forward;
      }
      if StagedDb(row.staged) in files && files[StagedDb(row.staged)] == row.sha {
        ghost var swap := SwapScript(start.state, u, row.staged, fault);
        var swapped := SwapStagedIntoPlace(u, row.staged, fault);
        if swapped {
          PlayConcat(start, swap, [commit]);
          Durable(commit);
          return Forward;
        }
        PlayConcat(start, swap, [DropIntent(u)]);
        PlayConcat(start, swap + [DropIntent(u)], [unlink]);
        assert swap + [DropIntent(u)] + [unlink] == swap + [DropIntent(u), unlink];
        Durable(DropIntent(u));
        Durable(unlink);
        return Back;
      }
      PlayConcat(start, [DropIntent(u)], [unlink]);
      Durable(DropIntent(u));
      Durable(unlink);
      return Back;
    }

    // recover_pending_installs: the rows are read once, then reconciled one by one.
    method RecoverPendingInstalls(faults: UserId -> SwapFault) returns (summary: Tally)
      modifies this
      ensures (Now(), summary) == Recover(old(Now()), faults)
    {
      ghost var start := Now();
      var ids := Ascending(journal.Keys);
      summary := Tally(0, 0);
      for i := 0 to |ids|
        invariant (Now(), summary) == RecoverRows(start, ids[..i], faults)
      {
        var u := ids[i];
        assert ids[..i + 1][..i] == ids[..i];
        if up && CanonicalId(u) && u in journal {
          var outcome := RecoverOne(u, faults(u));
          summary := Counted(summary, outcome);
        }
      }
      assert ids[..|ids|] == ids;
    }

    // The installing half of _ingest, after the freshness guard: decide, swap, commit.
    method InstallStaged(u: UserId, timestamp: Time, content: Content, staged: nat, swap: SwapFault)
      returns (response: Response)
      requires StagedDb(staged) in files && u in tenants && timestamp > tenants[u].lastIngest
      modifies this
      ensures Now() == Play(old(Now()), InstallScript(old(Now()).state, u, timestamp, content, staged, swap))
      ensures up ==> response == if SwapSucceeds(old(Now()).state, u, swap) then Installed else Invalid
    {
      ghost var start := Now();
      ghost var intent := RecordScript(start.state, u, Intent(timestamp, content, timestamp, staged));
      ghost var move := SwapScript(start.state, u, staged, swap);
      RecordInstallIntent(u, Intent(timestamp, content, timestamp, staged));
      ghost var recorded := Now();
      RecordKeeps(start, u, Intent(timestamp, content, timestamp, staged));
      var ok := SwapStagedIntoPlace(u, staged, swap);
      PlayConcat(start, intent, move);
      ghost var swapped := Now();
      if ok {
        var advanced := u in tenants && timestamp > tenants[u].lastIngest;
        SwapKeeps(recorded, u, staged, swap);
        Durable(CommitInstall(u, timestamp, content, timestamp));
        PlayConcat(start, intent + move, [CommitInstall(u, timestamp, content, timestamp)]);
        response := if advanced then Installed else Failed;
      } else {
        Durable(DropIntent(u));
        Durable(RemoveFile(StagedDb(staged)));
        PlayConcat(start, intent + move, [DropIntent(u)]);
        PlayConcat(start, intent + move + [DropIntent(u)], [RemoveFile(StagedDb(staged))]);
        assert intent + move + [DropIntent(u)] + [RemoveFile(StagedDb(staged))]
            == intent + move + [DropIntent(u), RemoveFile(StagedDb(staged))];
        response := Invalid;
      }
    }

    method Ingest(r: Upload) returns (response: Response)
      modifies this
      ensures Now() == Play(old(Now()), IngestScript(old(Now()).state, r))
      ensures up ==> response == Verdict(old(Now()).state, r)
    {
      ghost var start := Now();
      if r.user !in tenants { return Unauthorized; }
      if r.timestamp <= tenants[r.user].lastIngest { return Replayed; }
      ghost var write := [WriteFile(StagedDb(r.staged), r.content)];
      Durable(WriteFile(StagedDb(r.staged), r.content));
      if !up {
        DownStays(Now(), IngestScript(start.state, r)[1..]);
        assert IngestScript(start.state, r) == write + IngestScript(start.state, r)[1..];
        PlayConcat(start, write, IngestScript(start.state, r)[1..]);
        return Failed;
      }
      StagingKeeps(start, r);
      var accept := false;
      if !r.stageFails {
        var target := if TargetDb(r.user) in files then Present(files[TargetDb(r.user)].usage) else Absent;
        var report := FreshnessReport(r.content.usage, target);
        accept := report.accept;
      }
      if !accept {
        PlayConcat(start, write, [RemoveFile(StagedDb(r.staged))]);
        Durable(RemoveFile(StagedDb(r.staged)));
        return if r.stageFails then Invalid else StaleData;
      }
      PlayConcat(start, write, InstallScript(start.state, r.user, r.timestamp, r.content, r.staged, r.swap));
      response := InstallStaged(r.user, r.timestamp, r.content, r.staged, r.swap);
    }
  }

  lemma {:induction false} DownStays(p: Progress, script: seq<Effect>)
    requires !p.up
    ensures Play(p, script) == p
  {
  }

  // Writing the staged file changes nothing the later decisions look at.
  lemma StagingKeeps(p: Progress, r: Upload)
    requires p.up && p.fuel > 0
    ensures var q := Play(p, [WriteFile(StagedDb(r.staged), r.content)]);
      && q.up && StagedDb(r.staged) in q.state.files && q.state.files[StagedDb(r.staged)] == r.content
      && q.state.tenants == p.state.tenants && q.state.journal == p.state.journal
      && (TargetDb(r.user) in q.state.files <==> TargetDb(r.user) in p.state.files)
      && (TargetDb(r.user) in q.state.files ==> q.state.files[TargetDb(r.user)] == p.state.files[TargetDb(r.user)])
      && InstallScript(q.state, r.user, r.timestamp, r.content, r.staged, r.swap)
         == InstallScript(p.state, r.user, r.timestamp, r.content, r.staged, r.swap)
      && SwapSucceeds(q.state, r.user, r.swap) == SwapSucceeds(p.state, r.user, r.swap)
  {
    assert [WriteFile(StagedDb(r.staged), r.content)][1..] == [];
  }

  // So does recording the intent, apart from the journal row itself.
  lemma RecordKeeps(p: Progress, u: UserId, intent: Intent)
    requires StagedDb(intent.staged) in p.state.files
    ensures var q := Play(p, RecordScript(p.state, u, intent));
      && StagedDb(intent.staged) in q.state.files
      && q.state.tenants == p.state.tenants
      && SwapScript(q.state, u, intent.staged, NoFault) == SwapScript(p.state, u, intent.staged, NoFault)
      && forall fault :: SwapScript(q.state, u, intent.staged, fault) == SwapScript(p.state, u, intent.staged, fault)
                      && SwapSucceeds(q.state, u, fault) == SwapSucceeds(p.state, u, fault)
  {
    var script := RecordScript(p.state, u, intent);
    if |script| == 2 {
      assert script == [script[0]] + [script[1]];
      PlayConcat(p, [script[0]], [script[1]]);
      assert [script[0]][1..] == [] && [script[1]][1..] == [];
    } else {
      assert script[1..] == [];
    }
  }

  lemma {:induction false} TenantsUntouched(p: Progress, script: seq<Effect>)
    requires forall e :: e in script ==> !e.CommitInstall?
    ensures Play(p, script).state.tenants == p.state.tenants
    decreases |script|
  {
    if p.up && script != [] && p.fuel > 0 {
      assert script[0] in script;
      TenantsUntouched(Progress(Apply(p.state, script[0]), p.fuel - 1, true), script[1..]);
    }
  }

  lemma SwapKeeps(p: Progress, u: UserId, staged: nat, fault: SwapFault)
    ensures Play(p, SwapScript(p.state, u, staged, fault)).state.tenants == p.state.tenants
  {
    TenantsUntouched(p, SwapScript(p.state, u, staged, fault));
  }
}
