// What an install does to the files of a tenant, whatever the journal and the watermark say: at
// no moment does a new database lie beside the old one's sidecars, or without the old one kept.
module SnapshotFiles {
  import opened Prelude
  import opened Freshness
  import opened SnapshotInstall
  import opened SnapshotRuns

  // Neither write-ahead log nor shared memory of the tenant's database.
  ghost predicate NoSidecars(s: State, u: UserId) {
    FileAt(s, Sidecar(u, true)) == None && FileAt(s, Sidecar(u, false)) == None
  }

  // From s to t either the served file has stayed, or it is `content`, alone, and the file it
  // replaced is kept.
  ghost predicate ReplacedCleanly(s: State, t: State, u: UserId, content: Option<Content>) {
    || FileAt(t, TargetDb(u)) == FileAt(s, TargetDb(u))
    || (&& FileAt(t, TargetDb(u)) == content && NoSidecars(t, u)
        && (FileAt(s, TargetDb(u)).Some? ==> FileAt(t, PreviousDb(u)) == FileAt(s, TargetDb(u))))
  }

  // ---- effects that spare the four files of a tenant ----

  predicate Around(p: Path, u: UserId) {
    p == TargetDb(u) || p == PreviousDb(u) || p == Sidecar(u, true) || p == Sidecar(u, false)
  }

  predicate Spares(e: Effect, u: UserId) {
    match e
    case WriteFile(p, _) => !Around(p, u)
    case RemoveFile(p) => !Around(p, u)
    case Rename(p, q) => !Around(p, u) && !Around(q, u)
    case _ => true
  }

  ghost predicate SameFiles(s: State, t: State, u: UserId) {
    forall p :: Around(p, u) ==> FileAt(t, p) == FileAt(s, p)
  }

  lemma {:induction false} SparesFiles(p: Progress, script: seq<Effect>, u: UserId)
    requires forall e :: e in script ==> Spares(e, u)
    ensures SameFiles(p.state, Play(p, script).state, u)
    decreases |script|
  {
    if p.up && script != [] && p.fuel > 0 {
      assert Spares(script[0], u);
      SparesFiles(Progress(Apply(p.state, script[0]), p.fuel - 1, true), script[1..], u);
    }
  }

  lemma SameStaysClean(s: State, t: State, e: State, u: UserId, content: Option<Content>)
    requires ReplacedCleanly(s, t, u, content) && SameFiles(t, e, u)
    ensures ReplacedCleanly(s, e, u, content)
  {
    assert Around(TargetDb(u), u) && Around(PreviousDb(u), u) && Around(Sidecar(u, true), u) && Around(Sidecar(u, false), u);
  }

  lemma CleanFromSame(s: State, t: State, e: State, u: UserId, content: Option<Content>)
    requires SameFiles(s, t, u) && ReplacedCleanly(t, e, u, content)
    ensures ReplacedCleanly(s, e, u, content)
  {
    assert Around(TargetDb(u), u);
  }

  // ---- the swap ----

  // Up to the rename the served file is the old one, and once the rename is due the old file has
  // been copied and the sidecars are gone.
  lemma PrefixPrepares(p: Progress, u: UserId, n: nat)
    ensures var q := Play(p, SwapPrefix(p.state, u, NoFault));
      && FileAt(q.state, TargetDb(u)) == FileAt(p.state, TargetDb(u))
      && FileAt(q.state, StagedDb(n)) == FileAt(p.state, StagedDb(n))
      && (q.up ==> NoSidecars(q.state, u))
      && (q.up && FileAt(p.state, TargetDb(u)).Some? ==> FileAt(q.state, PreviousDb(u)) == FileAt(p.state, TargetDb(u)))
  {
    var wal, shm := RemoveFile(Sidecar(u, true)), RemoveFile(Sidecar(u, false));
    var copied := if TargetDb(u) in p.state.files then [WriteFile(PreviousDb(u), p.state.files[TargetDb(u)])] else [];
    QuietPlay(p, SwapPrefix(p.state, u, NoFault), u, n);
    assert SwapPrefix(p.state, u, NoFault) == copied + [wal] + [shm];
    PlayConcat(p, copied + [wal], [shm]);
    PlayConcat(p, copied, [wal]);
    var a := Play(p, copied);
    if copied != [] { PlayOne(p, copied[0]); }
    PlayOne(a, wal);
    PlayOne(Play(a, [wal]), shm);
  }

  lemma RenameReplaces(p: Progress, u: UserId, n: nat, before: State)
    requires FileAt(p.state, TargetDb(u)) == FileAt(before, TargetDb(u))
    requires p.up ==> NoSidecars(p.state, u)
    requires p.up && FileAt(before, TargetDb(u)).Some? ==> FileAt(p.state, PreviousDb(u)) == FileAt(before, TargetDb(u))
    ensures ReplacedCleanly(before, Play(p, [Rename(StagedDb(n), TargetDb(u))]).state, u, FileAt(p.state, StagedDb(n)))
  {
    PlayOne(p, Rename(StagedDb(n), TargetDb(u)));
  }

  // A swap cut off anywhere, or failing anywhere.
  lemma SwapReplacesCleanly(p: Progress, u: UserId, n: nat, fault: SwapFault)
    ensures ReplacedCleanly(p.state, Play(p, SwapScript(p.state, u, n, fault)).state, u, FileAt(p.state, StagedDb(n)))
  {
    if SwapSucceeds(p.state, u, fault) {
      var prefix := SwapPrefix(p.state, u, NoFault);
      PrefixPrepares(p, u, n);
      PlayConcat(p, prefix, [Rename(StagedDb(n), TargetDb(u))]);
      RenameReplaces(Play(p, prefix), u, n, p.state);
    } else {
      QuietPlay(p, SwapPrefix(p.state, u, fault), u, n);
    }
  }

  // What surrounds the swap touches none of the four files.
  lemma SwapThenSpares(p: Progress, u: UserId, n: nat, fault: SwapFault, after: seq<Effect>)
    requires forall e :: e in after ==> Spares(e, u)
    ensures ReplacedCleanly(p.state, Play(p, SwapScript(p.state, u, n, fault) + after).state, u, FileAt(p.state, StagedDb(n)))
  {
    var swap := SwapScript(p.state, u, n, fault);
    SwapReplacesCleanly(p, u, n, fault);
    PlayConcat(p, swap, after);
    SparesFiles(Play(p, swap), after, u);
    SameStaysClean(p.state, Play(p, swap).state, Play(p, swap + after).state, u, FileAt(p.state, StagedDb(n)));
  }

  // ---- ingest and recovery ----

  lemma InstallReplacesCleanly(p: Progress, u: UserId, timestamp: Time, content: Content, n: nat, swap: SwapFault)
    requires p.up ==> FileAt(p.state, StagedDb(n)) == Some(content)
    ensures ReplacedCleanly(p.state, Play(p, InstallScript(p.state, u, timestamp, content, n, swap)).state, u, Some(content))
  {
    var intent := Intent(timestamp, content, timestamp, n);
    var record := RecordScript(p.state, u, intent);
    var finish := if SwapSucceeds(p.state, u, swap) then [CommitInstall(u, timestamp, content, timestamp)]
                  else [DropIntent(u), RemoveFile(StagedDb(n))];
    var script := InstallScript(p.state, u, timestamp, content, n, swap);
    assert script == record + (SwapScript(p.state, u, n, swap) + finish);
    PlayConcat(p, record, SwapScript(p.state, u, n, swap) + finish);
    SparesFiles(p, record, u);
    var q := Play(p, record);
    if q.up {
      UpBefore(p, record);
      RecordKeeps(p, u, intent);
      RecordSparesStaged(p, u, intent);
      SwapThenSpares(q, u, n, swap, finish);
      CleanFromSame(p.state, q.state, Play(p, script).state, u, Some(content));
    } else {
      DownStays(q, SwapScript(p.state, u, n, swap) + finish);
      assert Around(TargetDb(u), u);
    }
  }

  lemma RecordSparesStaged(p: Progress, u: UserId, intent: Intent)
    ensures FileAt(Play(p, RecordScript(p.state, u, intent)).state, StagedDb(intent.staged)) == FileAt(p.state, StagedDb(intent.staged))
  {
    var record := RecordScript(p.state, u, intent);
    PlayOne(p, record[0]);
    if |record| == 2 {
      assert record == [record[0]] + [record[1]];
      PlayConcat(p, [record[0]], [record[1]]);
      PlayOne(Play(p, [record[0]]), record[1]);
    } else {
      assert record == [record[0]];
    }
  }

  // Wherever an ingest dies: either the tenant's file has not changed, or it is the upload, no
  // sidecar of the old database lies beside it, and the old database is in .previous.
  lemma IngestReplacesCleanly(s: State, r: Upload, fuel: nat)
    ensures ReplacedCleanly(s, Play(Progress(s, fuel, true), IngestScript(s, r)).state, r.user, Some(r.content))
  {
    var u, n, p := r.user, r.staged, Progress(s, fuel, true);
    var script := IngestScript(s, r);
    if Verdict(s, r).Installed? || (u in s.tenants && r.timestamp > s.tenants[u].lastIngest && !r.stageFails && Safe(r.content.usage, TargetOf(s, u))) {
      var write := [WriteFile(StagedDb(n), r.content)];
      var install := InstallScript(s, u, r.timestamp, r.content, n, r.swap);
      assert script == write + install;
      PlayConcat(p, write, install);
      SparesFiles(p, write, u);
      var q := Play(p, write);
      if q.up {
        PlayOne(p, write[0]);
        StagingKeeps(p, r);
        InstallReplacesCleanly(q, u, r.timestamp, r.content, n, r.swap);
        CleanFromSame(s, q.state, Play(p, script).state, u, Some(r.content));
      } else {
        DownStays(q, install);
        assert Around(TargetDb(u), u);
      }
    } else {
      SparesFiles(p, script, u);
      assert Around(TargetDb(u), u);
    }
  }

  // The same for the recovery of a row.
  lemma RecoveryReplacesCleanly(s: State, u: UserId, fault: SwapFault, fuel: nat)
    requires u in s.journal
    ensures ReplacedCleanly(s, Play(Progress(s, fuel, true), RecoverRow(s, u, fault).0).state, u, Some(s.journal[u].sha))
  {
    var row, p := s.journal[u], Progress(s, fuel, true);
    var script := RecoverRow(s, u, fault).0;
    if FileAt(s, TargetDb(u)) != Some(row.sha) && FileAt(s, StagedDb(row.staged)) == Some(row.sha) {
      var finish := if SwapSucceeds(s, u, fault) then [CommitInstall(u, row.timestamp, row.sha, row.snapshotAt)]
                    else [DropIntent(u), RemoveFile(StagedDb(row.staged))];
      SwapThenSpares(p, u, row.staged, fault, finish);
    } else {
      SparesFiles(p, script, u);
      assert Around(TargetDb(u), u);
    }
  }

  // ---- when an upload, and a recovery, goes through ----

  // Whether os.replace is reached: no call before it fails. A copy that cannot be made is no obstacle
  // where there is nothing to copy.
  predicate Reaches(s: State, u: UserId, fault: SwapFault) {
    match fault
    case NoFault => true
    case CopyFails(_) => TargetDb(u) !in s.files
    case _ => false
  }

  // A process that lives through an ingest has installed the upload, file and watermark, exactly when
  // its timestamp is newer, it could be staged, nothing is lost by it, and the swap was reached;
  // otherwise it has left both as they were. No row is pending then.
  lemma UploadIsInstalledExactlyWhen(s: State, r: Upload, fuel: nat)
    requires r.user in s.tenants && r.user !in s.journal
    requires Play(Progress(s, fuel, true), IngestScript(s, r)).up
    ensures var u := r.user;
      var t := Play(Progress(s, fuel, true), IngestScript(s, r)).state;
      && u !in t.journal && u in t.tenants
      && if r.timestamp > s.tenants[u].lastIngest && !r.stageFails && Safe(r.content.usage, TargetOf(s, u)) && Reaches(s, u, r.swap)
         then FileAt(t, TargetDb(u)) == Some(r.content) && t.tenants[u] == Tenant(r.timestamp, Some(r.timestamp), Some(r.content))
         else FileAt(t, TargetDb(u)) == FileAt(s, TargetDb(u)) && t.tenants[u] == s.tenants[u]
  {
    IngestOwn(Progress(s, fuel, true), r);
  }

  // A recovery that lives through a row finishes the install, file and watermark, exactly when the new
  // file is already served, or its staged copy is intact and the swap is reached; otherwise it
  // takes the install back.
  lemma RecoveryFinishesExactlyWhen(s: State, u: UserId, x: Install, fault: SwapFault, fuel: nat)
    requires Journalled(s, u, x) && Play(Progress(s, fuel, true), RecoverRow(s, u, fault).0).up
    ensures var t := Play(Progress(s, fuel, true), RecoverRow(s, u, fault).0).state;
      if FileAt(s, TargetDb(u)) == Some(x.content)
         || (FileAt(s, StagedDb(s.journal[u].staged)) == Some(x.content) && Reaches(s, u, fault))
      then NewPair(t, u, x) else OldPair(t, u, x)
  {
    RecoverOwn(Progress(s, fuel, true), u, fault, x);
  }
}
