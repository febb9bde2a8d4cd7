// Crash atomicity of the install, and what it means over a whole run of uploads.
module SnapshotRuns {
  import opened Prelude
  import opened Freshness
  import opened SnapshotInstall

  // One install of one tenant: the pair it replaces and the pair it brings.
  datatype Install = Install(oldFile: Option<Content>, oldTenant: Tenant, content: Content, timestamp: Time)

  // What an upload would do to a tenant.
  function Pair(s: State, r: Upload, u: UserId): Install
    requires u in s.tenants
  {
    Install(FileAt(s, TargetDb(u)), s.tenants[u], r.content, r.timestamp)
  }

  ghost predicate OldPair(s: State, u: UserId, x: Install) {
    u !in s.journal && u in s.tenants && s.tenants[u] == x.oldTenant && FileAt(s, TargetDb(u)) == x.oldFile
  }

  ghost predicate NewPair(s: State, u: UserId, x: Install) {
    && u !in s.journal && u in s.tenants
    && s.tenants[u] == Tenant(x.timestamp, Some(x.timestamp), Some(x.content))
    && FileAt(s, TargetDb(u)) == Some(x.content)
  }

  // The journal row is written, the watermark is still the old one.
  ghost predicate Journalled(s: State, u: UserId, x: Install) {
    && u in s.journal && u in s.tenants && s.tenants[u] == x.oldTenant && x.timestamp > x.oldTenant.lastIngest
    && s.journal[u] == Intent(x.timestamp, x.content, x.timestamp, s.journal[u].staged)
    && (FileAt(s, TargetDb(u)) == x.oldFile || FileAt(s, TargetDb(u)) == Some(x.content))
  }

  ghost predicate Settled(s: State, u: UserId, x: Install) { OldPair(s, u, x) || NewPair(s, u, x) }

  ghost predicate Recoverable(s: State, u: UserId, x: Install) { Settled(s, u, x) || Journalled(s, u, x) }

  // ---- effects that leave a tenant alone ----

  ghost predicate SameFor(s: State, t: State, u: UserId) {
    && FileAt(t, TargetDb(u)) == FileAt(s, TargetDb(u))
    && (u in t.tenants <==> u in s.tenants) && (u in s.tenants ==> t.tenants[u] == s.tenants[u])
    && (u in t.journal <==> u in s.journal) && (u in s.journal ==> t.journal[u] == s.journal[u])
  }

  predicate Foreign(e: Effect, u: UserId) {
    match e
    case WriteFile(p, _) => p != TargetDb(u)
    case RemoveFile(p) => p != TargetDb(u)
    case Rename(p, q) => p != TargetDb(u) && q != TargetDb(u)
    case PutIntent(v, _) => v != u
    case DropIntent(v) => v != u
    case CommitInstall(v, _, _, _) => v != u
  }

  lemma {:induction false} ForeignPlay(p: Progress, script: seq<Effect>, u: UserId)
    requires forall e :: e in script ==> Foreign(e, u)
    ensures SameFor(p.state, Play(p, script).state, u)
    decreases |script|
  {
    if p.up && script != [] && p.fuel > 0 {
      assert Foreign(script[0], u);
      ForeignPlay(Progress(Apply(p.state, script[0]), p.fuel - 1, true), script[1..], u);
    }
  }

  // Writes and removals that also spare the staged file n.
  predicate Quiet(e: Effect, u: UserId, n: nat) {
    (e.WriteFile? || e.RemoveFile?) && e.path != TargetDb(u) && e.path != StagedDb(n)
  }

  lemma {:induction false} QuietPlay(p: Progress, script: seq<Effect>, u: UserId, n: nat)
    requires forall e :: e in script ==> Quiet(e, u, n)
    ensures SameFor(p.state, Play(p, script).state, u)
    ensures FileAt(Play(p, script).state, StagedDb(n)) == FileAt(p.state, StagedDb(n))
    decreases |script|
  {
    if p.up && script != [] && p.fuel > 0 {
      assert Quiet(script[0], u, n);
      QuietPlay(Progress(Apply(p.state, script[0]), p.fuel - 1, true), script[1..], u, n);
    }
  }

  // ---- one tenant's own procedures ----

  lemma SwapOwn(p: Progress, u: UserId, n: nat, fault: SwapFault, x: Install)
    requires Journalled(p.state, u, x) && FileAt(p.state, TargetDb(u)) == x.oldFile
    requires p.up ==> FileAt(p.state, StagedDb(n)) == Some(x.content)
    ensures var q := Play(p, SwapScript(p.state, u, n, fault));
      && Journalled(q.state, u, x)
      && (q.up ==> FileAt(q.state, TargetDb(u)) == if SwapSucceeds(p.state, u, fault) then Some(x.content) else x.oldFile)
  {
    var prefix := SwapPrefix(p.state, u, if SwapSucceeds(p.state, u, fault) then NoFault else fault);
    QuietPlay(p, prefix, u, n);
    if SwapSucceeds(p.state, u, fault) {
      PlayConcat(p, prefix, [Rename(StagedDb(n), TargetDb(u))]);
      PlayOne(Play(p, prefix), Rename(StagedDb(n), TargetDb(u)));
      if Play(p, prefix).up { UpBefore(p, prefix); }
    }
  }

  lemma CommitOwn(p: Progress, u: UserId, x: Install)
    requires Journalled(p.state, u, x) && FileAt(p.state, TargetDb(u)) == Some(x.content)
    ensures var q := Play(p, [CommitInstall(u, x.timestamp, x.content, x.timestamp)]);
      if q.up then NewPair(q.state, u, x) else Journalled(q.state, u, x)
  {
    PlayOne(p, CommitInstall(u, x.timestamp, x.content, x.timestamp));
  }

  lemma GiveUpOwn(p: Progress, u: UserId, n: nat, x: Install)
    requires Journalled(p.state, u, x) && FileAt(p.state, TargetDb(u)) == x.oldFile
    ensures var q := Play(p, [DropIntent(u), RemoveFile(StagedDb(n))]);
      Recoverable(q.state, u, x) && (q.up ==> OldPair(q.state, u, x))
  {
    assert [DropIntent(u), RemoveFile(StagedDb(n))] == [DropIntent(u)] + [RemoveFile(StagedDb(n))];
    PlayConcat(p, [DropIntent(u)], [RemoveFile(StagedDb(n))]);
    PlayOne(p, DropIntent(u));
    PlayOne(Play(p, [DropIntent(u)]), RemoveFile(StagedDb(n)));
  }

  // Recording the intent replaces whatever row was there; until then nothing has happened.
  lemma RecordOwn(p: Progress, u: UserId, n: nat, x: Install)
    requires u in p.state.tenants && p.state.tenants[u] == x.oldTenant && FileAt(p.state, TargetDb(u)) == x.oldFile
    requires x.timestamp > x.oldTenant.lastIngest && (p.up ==> FileAt(p.state, StagedDb(n)) == Some(x.content))
    ensures var q := Play(p, RecordScript(p.state, u, Intent(x.timestamp, x.content, x.timestamp, n)));
      if p.up && p.fuel > 0
      then Journalled(q.state, u, x) && FileAt(q.state, TargetDb(u)) == x.oldFile && FileAt(q.state, StagedDb(n)) == Some(x.content)
      else !q.up && SameFor(p.state, q.state, u)
  {
    var intent := Intent(x.timestamp, x.content, x.timestamp, n);
    var record := RecordScript(p.state, u, intent);
    PlayOne(p, PutIntent(u, intent));
    if |record| == 2 {
      assert record == [PutIntent(u, intent)] + [record[1]];
      PlayConcat(p, [PutIntent(u, intent)], [record[1]]);
      PlayOne(Play(p, [PutIntent(u, intent)]), record[1]);
    }
  }

  lemma InstallOwn(p: Progress, u: UserId, n: nat, swap: SwapFault, x: Install)
    requires u in p.state.tenants && p.state.tenants[u] == x.oldTenant && FileAt(p.state, TargetDb(u)) == x.oldFile
    requires x.timestamp > x.oldTenant.lastIngest && (p.up ==> FileAt(p.state, StagedDb(n)) == Some(x.content))
    ensures var q := Play(p, InstallScript(p.state, u, x.timestamp, x.content, n, swap));
      || (!q.up && SameFor(p.state, q.state, u))
      || (Recoverable(q.state, u, x)
          && (q.up ==> if SwapSucceeds(p.state, u, swap) then NewPair(q.state, u, x) else OldPair(q.state, u, x)))
  {
    var record := RecordScript(p.state, u, Intent(x.timestamp, x.content, x.timestamp, n));
    var move := SwapScript(p.state, u, n, swap);
    var finish := if SwapSucceeds(p.state, u, swap) then [CommitInstall(u, x.timestamp, x.content, x.timestamp)]
                  else [DropIntent(u), RemoveFile(StagedDb(n))];
    RecordOwn(p, u, n, x);
    var q := Play(p, record);
    PlayConcat(p, record, move);
    PlayConcat(p, record + move, finish);
    if q.up {
      SwapOwn(q, u, n, swap, x);
      var r := Play(q, move);
      if r.up {
        if SwapSucceeds(p.state, u, swap) { CommitOwn(r, u, x); } else { GiveUpOwn(r, u, n, x); }
      } else {
        DownStays(r, finish);
      }
    } else {
      DownStays(q, move);
      DownStays(q, finish);
    }
  }

  // A crash anywhere in the ingest leaves either what was there before or a state that the
  // new journal row can explain.
  lemma IngestOwn(p: Progress, r: Upload)
    requires r.user in p.state.tenants
    ensures var x := Pair(p.state, r, r.user);
      var q := Play(p, IngestScript(p.state, r));
      || (SameFor(p.state, q.state, r.user) && (q.up ==> !Verdict(p.state, r).Installed?))
      || (Recoverable(q.state, r.user, x)
          && (q.up ==> if Verdict(p.state, r).Installed? then NewPair(q.state, r.user, x) else OldPair(q.state, r.user, x)))
  {
    var u, n := r.user, r.staged;
    var x := Pair(p.state, r, u);
    var write := [WriteFile(StagedDb(n), r.content)];
    if r.timestamp > x.oldTenant.lastIngest {
      PlayOne(p, write[0]);
      var q := Play(p, write);
      if r.stageFails || !Safe(r.content.usage, TargetOf(p.state, u)) {
        PlayConcat(p, write, [RemoveFile(StagedDb(n))]);
        PlayOne(q, RemoveFile(StagedDb(n)));
      } else {
        PlayConcat(p, write, InstallScript(p.state, u, r.timestamp, r.content, n, r.swap));
        if q.up {
          StagingKeeps(p, r);
          InstallOwn(q, u, n, r.swap, x);
        } else {
          DownStays(q, InstallScript(p.state, u, r.timestamp, r.content, n, r.swap));
        }
      }
    }
  }

  // The same for a row's recovery, which settles it when it runs to its end.
  lemma RecoverOwn(p: Progress, u: UserId, fault: SwapFault, x: Install)
    requires Journalled(p.state, u, x)
    ensures var q := Play(p, RecoverRow(p.state, u, fault).0);
      && Recoverable(q.state, u, x)
      && (q.up ==> Settled(q.state, u, x))
      && (q.up ==> (NewPair(q.state, u, x) <== RecoverRow(p.state, u, fault).1.Forward?))
      && (q.up ==> (OldPair(q.state, u, x) <== RecoverRow(p.state, u, fault).1.Back?))
  {
    var row := p.state.journal[u];
    var commit := [CommitInstall(u, x.timestamp, x.content, x.timestamp)];
    var unlink := [RemoveFile(StagedDb(row.staged))];
    if FileAt(p.state, TargetDb(u)) == Some(row.sha) {
      assert RecoverRow(p.state, u, fault).0 == commit + unlink;
      PlayConcat(p, commit, unlink);
      CommitOwn(p, u, x);
      PlayOne(Play(p, commit), unlink[0]);
    } else if FileAt(p.state, StagedDb(row.staged)) == Some(row.sha) {
      var move := SwapScript(p.state, u, row.staged, fault);
      var finish := if SwapSucceeds(p.state, u, fault) then commit else [DropIntent(u), RemoveFile(StagedDb(row.staged))];
      PlayConcat(p, move, finish);
      SwapOwn(p, u, row.staged, fault, x);
      var r := Play(p, move);
      if r.up {
        if SwapSucceeds(p.state, u, fault) { CommitOwn(r, u, x); } else { GiveUpOwn(r, u, row.staged, x); }
      } else {
        DownStays(r, finish);
      }
    } else {
      GiveUpOwn(p, u, row.staged, x);
    }
  }

  lemma RecoverForeign(p: Progress, v: UserId, fault: SwapFault, u: UserId)
    requires v in p.state.journal && u != v
    ensures SameFor(p.state, Play(p, RecoverRow(p.state, v, fault).0).state, u)
  {
    ForeignPlay(p, RecoverRow(p.state, v, fault).0, u);
  }

  // A whole pass keeps every tenant recoverable and, if it survives, settles it.
  lemma {:induction false} RecoverRowsOwn(p: Progress, ids: seq<UserId>, faults: UserId -> SwapFault, u: UserId, x: Install)
    requires Recoverable(p.state, u, x) && CanonicalId(u)
    ensures var q := RecoverRows(p, ids, faults).0;
      Recoverable(q.state, u, x) && (q.up && u in ids ==> Settled(q.state, u, x)) && (q.up ==> p.up)
      && (Settled(p.state, u, x) ==> SameFor(p.state, q.state, u))
  {
    if ids != [] {
      var k := |ids| - 1;
      RecoverRowsOwn(p, ids[..k], faults, u, x);
      var q := RecoverRows(p, ids[..k], faults).0;
      var v := ids[k];
      assert ids == ids[..k] + [v];
      if q.up && CanonicalId(v) && v in q.state.journal {
        if v == u { RecoverOwn(q, u, faults(u), x); } else { RecoverForeign(q, v, faults(v), u); }
        if Play(q, RecoverRow(q.state, v, faults(v)).0).up { UpBefore(q, RecoverRow(q.state, v, faults(v)).0); }
      }
    }
  }

  lemma RecoverKeeps(p: Progress, faults: UserId -> SwapFault, u: UserId, x: Install)
    requires Recoverable(p.state, u, x) && CanonicalId(u)
    ensures var q := Recover(p, faults).0;
      Recoverable(q.state, u, x) && (q.up ==> Settled(q.state, u, x)) && (Settled(p.state, u, x) ==> SameFor(p.state, q.state, u))
  {
    RecoverRowsOwn(p, Ascending(p.state.journal.Keys), faults, u, x);
  }

  // A power loss may also lose or garble any file but an installed database.
  datatype Damage = Damage(lost: set<Path>, garbled: map<Path, Content>)

  function Damaged(s: State, d: Damage): State {
    s.(files := map p | p in s.files.Keys + d.garbled.Keys
                && (p.TargetDb? ==> p in s.files) && (!p.TargetDb? ==> p !in d.lost)
              :: if p.TargetDb? || p !in d.garbled then s.files[p] else d.garbled[p])
  }

  lemma DamageSpares(s: State, d: Damage, u: UserId)
    ensures SameFor(s, Damaged(s, d), u)
  {
  }

  // A reboot: damage, then a recovery that may itself crash after `fuel` effects.
  datatype Reboot = Reboot(damage: Damage, faults: UserId -> SwapFault, fuel: nat)

  function AfterReboots(p: Progress, reboots: seq<Reboot>): Progress {
    if reboots == [] then p
    else
      var b := reboots[|reboots| - 1];
      var q := AfterReboots(p, reboots[..|reboots| - 1]);
      Recover(Progress(Damaged(q.state, b.damage), b.fuel, true), b.faults).0
  }

  lemma {:induction false} RebootsKeep(p: Progress, reboots: seq<Reboot>, u: UserId, x: Install)
    requires Recoverable(p.state, u, x) && CanonicalId(u)
    ensures var q := AfterReboots(p, reboots);
      && Recoverable(q.state, u, x)
      && (reboots != [] && q.up ==> Settled(q.state, u, x))
      && (Settled(p.state, u, x) ==> SameFor(p.state, q.state, u))
  {
    if reboots != [] {
      var b := reboots[|reboots| - 1];
      RebootsKeep(p, reboots[..|reboots| - 1], u, x);
      var q := AfterReboots(p, reboots[..|reboots| - 1]);
      DamageSpares(q.state, b.damage, u);
      RecoverKeeps(Progress(Damaged(q.state, b.damage), b.fuel, true), b.faults, u, x);
    }
  }

  // An upload by a process that lives for `fuel` effects, then any number of reboots.
  datatype Session = Session(upload: Upload, fuel: nat, reboots: seq<Reboot>)

  ghost function SessionEnd(s: State, z: Session): Progress {
    AfterReboots(Play(Progress(s, z.fuel, true), IngestScript(s, z.upload)), z.reboots)
  }

  // The process that is up at the end has lived through the whole upload, or has recovered.
  ghost predicate Completed(s: State, z: Session) { SessionEnd(s, z).up }

  // Nothing of u is pending, as recovery leaves it; what is pending of others does not matter.
  ghost predicate Unpending(s: State, u: UserId) { CanonicalId(u) && u in s.tenants && u !in s.journal }

  lemma IngestForeign(p: Progress, r: Upload, u: UserId)
    requires r.user != u
    ensures SameFor(p.state, Play(p, IngestScript(p.state, r)).state, u)
  {
    ScriptIsForeign(p.state, r, u);
    ForeignPlay(p, IngestScript(p.state, r), u);
  }

  lemma SwapIsForeign(s: State, v: UserId, n: nat, fault: SwapFault, u: UserId)
    requires u != v
    ensures forall e :: e in SwapScript(s, v, n, fault) ==> Foreign(e, u)
  {
  }

  lemma InstallIsForeign(s: State, r: Upload, u: UserId)
    requires r.user != u
    ensures forall e :: e in InstallScript(s, r.user, r.timestamp, r.content, r.staged, r.swap) ==> Foreign(e, u)
  {
    SwapIsForeign(s, r.user, r.staged, r.swap, u);
    assert forall e :: e in RecordScript(s, r.user, Intent(r.timestamp, r.content, r.timestamp, r.staged)) ==> Foreign(e, u);
  }

  lemma ScriptIsForeign(s: State, r: Upload, u: UserId)
    requires r.user != u
    ensures forall e :: e in IngestScript(s, r) ==> Foreign(e, u)
  {
    InstallIsForeign(s, r, u);
  }

  // Wherever the ingest and the recoveries crashed: exactly the old file with the old watermark or
  // the new file with the new one, and no other tenant has moved, whether or not anybody recovers
  // and whatever else the journal holds.
  lemma CrashAtomicInstall(s: State, z: Session, u: UserId)
    requires Unpending(s, u) && (z.upload.user == u ==> Completed(s, z))
    ensures var t := SessionEnd(s, z).state;
      if u == z.upload.user then Settled(t, u, Pair(s, z.upload, u)) else SameFor(s, t, u)
  {
    var p := Progress(s, z.fuel, true);
    if u == z.upload.user { IngestOwn(p, z.upload); } else { IngestForeign(p, z.upload, u); }
    RebootsKeep(Play(p, IngestScript(s, z.upload)), z.reboots, u, Pair(s, z.upload, u));
  }

  lemma {:induction false} StrangerReboots(p: Progress, reboots: seq<Reboot>, u: UserId)
    requires u !in p.state.journal
    ensures SameFor(p.state, AfterReboots(p, reboots).state, u)
  {
    if reboots != [] {
      var b := reboots[|reboots| - 1];
      StrangerReboots(p, reboots[..|reboots| - 1], u);
      var q := AfterReboots(p, reboots[..|reboots| - 1]);
      var r := Progress(Damaged(q.state, b.damage), b.fuel, true);
      DamageSpares(q.state, b.damage, u);
      StrangerRows(r, Ascending(r.state.journal.Keys), b.faults, u);
    }
  }

  lemma {:induction false} StrangerRows(p: Progress, ids: seq<UserId>, faults: UserId -> SwapFault, u: UserId)
    requires u !in p.state.journal
    ensures SameFor(p.state, RecoverRows(p, ids, faults).0.state, u)
  {
    if ids != [] {
      var k := |ids| - 1;
      StrangerRows(p, ids[..k], faults, u);
      var q := RecoverRows(p, ids[..k], faults).0;
      if q.up && CanonicalId(ids[k]) && ids[k] in q.state.journal {
        RecoverForeign(q, ids[k], faults(ids[k]), u);
      }
    }
  }

  // ---- what a completed recovery leaves of the journal ----

  // One row of a recovery pass.
  function RowDone(p: Progress, u: UserId, fault: SwapFault): Progress {
    if p.up && CanonicalId(u) && u in p.state.journal then Play(p, RecoverRow(p.state, u, fault).0) else p
  }

  lemma RowsNext(p: Progress, ids: seq<UserId>, faults: UserId -> SwapFault)
    requires ids != []
    ensures var k := |ids| - 1;
      RecoverRows(p, ids, faults).0 == RowDone(RecoverRows(p, ids[..k], faults).0, ids[k], faults(ids[k]))
  {
  }

  // Rows are only ever dropped, and the row that has been reconciled is gone.
  lemma RowGoes(p: Progress, u: UserId, fault: SwapFault)
    requires u in p.state.journal
    ensures var q := Play(p, RecoverRow(p.state, u, fault).0);
      q.state.journal.Keys <= p.state.journal.Keys && (q.up ==> u !in q.state.journal)
  {
    var script := RecoverRow(p.state, u, fault).0;
    var row := p.state.journal[u];
    KeysShrink(p, script);
    if Play(p, script).up {
      var commit := CommitInstall(u, row.timestamp, row.sha, row.snapshotAt);
      var last := RemoveFile(StagedDb(row.staged));
      var move := SwapScript(p.state, u, row.staged, fault);
      if FileAt(p.state, TargetDb(u)) == Some(row.sha) {
        RowDropped(p, script, [], commit, [last], u);
      } else if FileAt(p.state, StagedDb(row.staged)) != Some(row.sha) {
        RowDropped(p, script, [], DropIntent(u), [last], u);
      } else if SwapSucceeds(p.state, u, fault) {
        RowDropped(p, script, move, commit, [], u);
      } else {
        RowDropped(p, script, move, DropIntent(u), [last], u);
      }
    }
  }

  lemma {:induction false} KeysShrink(p: Progress, script: seq<Effect>)
    requires forall e :: e in script ==> !e.PutIntent?
    ensures Play(p, script).state.journal.Keys <= p.state.journal.Keys
    decreases |script|
  {
    if p.up && script != [] && p.fuel > 0 {
      assert script[0] in script;
      KeysShrink(Progress(Apply(p.state, script[0]), p.fuel - 1, true), script[1..]);
    }
  }

  lemma RowDropped(p: Progress, script: seq<Effect>, before: seq<Effect>, drop: Effect, after: seq<Effect>, u: UserId)
    requires script == before + [drop] + after
    requires (drop.DropIntent? || drop.CommitInstall?) && drop.user == u
    requires forall e :: e in after ==> !e.PutIntent?
    requires Play(p, script).up
    ensures u !in Play(p, script).state.journal
  {
    PlayConcat(p, before + [drop], after);
    PlayConcat(p, before, [drop]);
    var q := Play(p, before);
    var r := Play(q, [drop]);
    UpBefore(r, after);
    UpBefore(q, [drop]);
    PlayOne(q, drop);
    KeysShrink(r, after);
  }

  lemma RowDoneGoes(p: Progress, u: UserId, fault: SwapFault)
    ensures var q := RowDone(p, u, fault);
      && q.state.journal.Keys <= p.state.journal.Keys
      && (q.up ==> p.up && !(CanonicalId(u) && u in q.state.journal))
  {
    if p.up && CanonicalId(u) && u in p.state.journal { RowGoes(p, u, fault); }
  }

  lemma {:induction false} RowsGo(p: Progress, ids: seq<UserId>, faults: UserId -> SwapFault)
    ensures var q := RecoverRows(p, ids, faults).0;
      && q.state.journal.Keys <= p.state.journal.Keys
      && (q.up ==> forall u :: u in ids && CanonicalId(u) ==> u !in q.state.journal)
  {
    if ids != [] {
      var k := |ids| - 1;
      RowsGo(p, ids[..k], faults);
      RowsNext(p, ids, faults);
      RowDoneGoes(RecoverRows(p, ids[..k], faults).0, ids[k], faults(ids[k]));
      assert ids == ids[..k] + [ids[k]];
    }
  }

  // From any state at all, a recovery that runs to its end leaves no row that it can reconcile.
  lemma RecoveryLeavesNoRow(p: Progress, faults: UserId -> SwapFault)
    requires Recover(p, faults).0.up
    ensures forall u :: u in Recover(p, faults).0.state.journal ==> !CanonicalId(u) && u in p.state.journal
  {
    RowsGo(p, Ascending(p.state.journal.Keys), faults);
  }

  lemma {:induction false} NothingToRecover(p: Progress, ids: seq<UserId>, faults: UserId -> SwapFault)
    requires forall u :: u in ids ==> !CanonicalId(u)
    ensures RecoverRows(p, ids, faults) == (p, Tally(0, 0))
  {
    if ids != [] {
      assert ids[|ids| - 1] in ids;
      NothingToRecover(p, ids[..|ids| - 1], faults);
    }
  }

  // Recovery is idempotent: once it has run to its end, from whatever state, running it again
  // changes nothing and counts nothing.
  lemma RecoveryIsIdempotent(p: Progress, faults: UserId -> SwapFault, fuel: nat, again: UserId -> SwapFault)
    requires Recover(p, faults).0.up
    ensures var done := Progress(Recover(p, faults).0.state, fuel, true);
      Recover(done, again) == (done, Tally(0, 0))
  {
    var done := Progress(Recover(p, faults).0.state, fuel, true);
    RecoveryLeavesNoRow(p, faults);
    NothingToRecover(done, Ascending(done.state.journal.Keys), again);
  }

  // So does a session that ends with a completed recovery, whatever was pending when it began.
  lemma JournalIsEmptied(s: State, z: Session)
    requires z.reboots != [] && Completed(s, z)
    ensures forall u :: u in SessionEnd(s, z).state.journal ==> !CanonicalId(u)
  {
    var k := |z.reboots| - 1;
    var b := z.reboots[k];
    var q := AfterReboots(Play(Progress(s, z.fuel, true), IngestScript(s, z.upload)), z.reboots[..k]);
    RecoveryLeavesNoRow(Progress(Damaged(q.state, b.damage), b.fuel, true), b.faults);
  }

  // In particular: where nothing at all was pending, nothing is once a session completes, and
  // recovering after it does nothing.
  lemma CleanStaysClean(s: State, z: Session, fuel: nat, faults: UserId -> SwapFault)
    requires s.journal == map[] && (forall u :: u in s.tenants ==> CanonicalId(u)) && Completed(s, z)
    ensures var t := SessionEnd(s, z).state;
      && t.journal == map[] && t.tenants.Keys == s.tenants.Keys
      && Recover(Progress(t, fuel, true), faults) == (Progress(t, fuel, true), Tally(0, 0))
  {
    var t := SessionEnd(s, z).state;
    forall u ensures u !in t.journal && (u in t.tenants <==> u in s.tenants) {
      if u in s.tenants { CrashAtomicInstall(s, z, u); } else { StrangerUntouched(s, z, u); }
    }
    NothingToRecover(Progress(t, fuel, true), Ascending(t.journal.Keys), faults);
  }

  lemma StrangerUntouched(s: State, z: Session, u: UserId)
    requires u !in s.tenants && u !in s.journal
    ensures SameFor(s, SessionEnd(s, z).state, u)
  {
    var p := Progress(s, z.fuel, true);
    if z.upload.user != u { IngestForeign(p, z.upload, u); }
    StrangerReboots(Play(p, IngestScript(s, z.upload)), z.reboots, u);
  }

  // ---- why recovery must run first ----

  // The served file is the one the watermark row names.
  ghost predicate Consistent(s: State, u: UserId) {
    u in s.tenants && FileAt(s, TargetDb(u)) == s.tenants[u].lastSha
  }

  // The guard recovery tests first: the crashed install had already swapped its file in.
  predicate SwappedUncommitted(s: State, u: UserId)
    requires u in s.tenants
  {
    u in s.journal && FileAt(s, TargetDb(u)) == Some(s.journal[u].sha) && s.tenants[u].lastSha != Some(s.journal[u].sha)
  }

  // An upload that reaches the swap and fails there forgets whatever the journal held.
  lemma AbortForgets(p: Progress, r: Upload)
    requires r.user in p.state.tenants && r.timestamp > p.state.tenants[r.user].lastIngest
    requires !r.stageFails && Safe(r.content.usage, TargetOf(p.state, r.user)) && !SwapSucceeds(p.state, r.user, r.swap)
    requires Play(p, IngestScript(p.state, r)).up
    ensures var t := Play(p, IngestScript(p.state, r)).state;
      && t.tenants == p.state.tenants && FileAt(t, TargetDb(r.user)) == FileAt(p.state, TargetDb(r.user))
      && r.user !in t.journal
  {
    var u, n := r.user, r.staged;
    var head := AbortHead(p.state, r);
    AbortScript(p.state, r);
    PlayConcat(p, head, [DropIntent(u), RemoveFile(StagedDb(n))]);
    SparesTarget(p, head, u);
    DropForgets(Play(p, head), u, n);
  }

  lemma AbortScript(s: State, r: Upload)
    requires r.user in s.tenants && r.timestamp > s.tenants[r.user].lastIngest
    requires !r.stageFails && Safe(r.content.usage, TargetOf(s, r.user)) && !SwapSucceeds(s, r.user, r.swap)
    ensures IngestScript(s, r) == AbortHead(s, r) + [DropIntent(r.user), RemoveFile(StagedDb(r.staged))]
  {
  }

  function AbortHead(s: State, r: Upload): (head: seq<Effect>)
    requires !SwapSucceeds(s, r.user, r.swap)
    ensures forall e :: e in head ==> (e.PutIntent? || ((e.WriteFile? || e.RemoveFile?) && e.path != TargetDb(r.user)))
  {
    [WriteFile(StagedDb(r.staged), r.content)]
    + RecordScript(s, r.user, Intent(r.timestamp, r.content, r.timestamp, r.staged))
    + SwapScript(s, r.user, r.staged, r.swap)
  }

  lemma DropForgets(p: Progress, u: UserId, n: nat)
    requires Play(p, [DropIntent(u), RemoveFile(StagedDb(n))]).up
    ensures var t := Play(p, [DropIntent(u), RemoveFile(StagedDb(n))]).state;
      t.tenants == p.state.tenants && FileAt(t, TargetDb(u)) == FileAt(p.state, TargetDb(u)) && u !in t.journal
  {
    assert [DropIntent(u), RemoveFile(StagedDb(n))] == [DropIntent(u)] + [RemoveFile(StagedDb(n))];
    PlayConcat(p, [DropIntent(u)], [RemoveFile(StagedDb(n))]);
    PlayOne(p, DropIntent(u));
    PlayOne(Play(p, [DropIntent(u)]), RemoveFile(StagedDb(n)));
  }

  lemma {:induction false} SparesTarget(p: Progress, script: seq<Effect>, u: UserId)
    requires forall e :: e in script ==>
      (e.PutIntent? || ((e.WriteFile? || e.RemoveFile?) && e.path != TargetDb(u)))
    ensures var t := Play(p, script).state;
      t.tenants == p.state.tenants && FileAt(t, TargetDb(u)) == FileAt(p.state, TargetDb(u))
    decreases |script|
  {
    if p.up && script != [] && p.fuel > 0 {
      assert script[0] in script;
      SparesTarget(Progress(Apply(p.state, script[0]), p.fuel - 1, true), script[1..], u);
    }
  }

  // Without a recovery first, an aborted upload leaves a matching pair exactly when no
  // earlier install sat between its swap and its commit.
  lemma AbortIsCleanExactlyWhen(p: Progress, r: Upload, x: Install)
    requires Recoverable(p.state, r.user, x) && x.oldTenant.lastSha == x.oldFile
    requires r.timestamp > p.state.tenants[r.user].lastIngest
    requires !r.stageFails && Safe(r.content.usage, TargetOf(p.state, r.user)) && !SwapSucceeds(p.state, r.user, r.swap)
    requires Play(p, IngestScript(p.state, r)).up
    ensures Consistent(Play(p, IngestScript(p.state, r)).state, r.user) <==> !SwappedUncommitted(p.state, r.user)
  {
    AbortForgets(p, r);
  }

  lemma InstalledScript(s: State, r: Upload)
    requires r.user !in s.journal && Verdict(s, r) == Installed
    ensures IngestScript(s, r)
      == [WriteFile(StagedDb(r.staged), r.content)]
       + [PutIntent(r.user, Intent(r.timestamp, r.content, r.timestamp, r.staged))]
       + SwapScript(s, r.user, r.staged, r.swap)
       + [CommitInstall(r.user, r.timestamp, r.content, r.timestamp)]
  {
  }

  // A process dying right after os.replace leaves the new file uncommitted.
  lemma DiesBeforeCommit(s: State, r: Upload)
    requires r.user !in s.journal && Verdict(s, r) == Installed
    ensures var script := IngestScript(s, r);
      var t := Play(Progress(s, |script| - 1, true), script).state;
      Journalled(t, r.user, Pair(s, r, r.user)) && FileAt(t, TargetDb(r.user)) == Some(r.content)
  {
    var u, n, x := r.user, r.staged, Pair(s, r, r.user);
    var script := IngestScript(s, r);
    var write := [WriteFile(StagedDb(n), r.content)];
    var record := [PutIntent(u, Intent(r.timestamp, r.content, r.timestamp, n))];
    var move := SwapScript(s, u, n, r.swap);
    var commit := [CommitInstall(u, r.timestamp, r.content, r.timestamp)];
    InstalledScript(s, r);
    var p := Progress(s, |script| - 1, true);
    PlayConcat(p, write, record);
    PlayOne(p, write[0]);
    PlayOne(Play(p, write), record[0]);
    var q := Play(p, write + record);
    PlayConcat(p, write + record, move);
    PlayConcat(p, write + record + move, commit);
    FuelUsed(p, write + record + move);
    SwapOwn(q, u, n, r.swap, x);
    PlayOne(Play(q, move), commit[0]);
  }

  // So the hypothesis is needed, whatever the tenant: after such a death, a later upload
  // that fails at its swap breaks the pair (new file, old watermark) and leaves no journal
  // row to repair it from.
  lemma MixedPairWithoutRecovery(s: State, crashed: Upload, next: Upload)
    requires crashed.user !in s.journal && Consistent(s, crashed.user) && Verdict(s, crashed) == Installed
    requires Some(crashed.content) != FileAt(s, TargetDb(crashed.user))
    requires next.user == crashed.user && next.timestamp > s.tenants[next.user].lastIngest
    requires !next.stageFails && Safe(next.content.usage, Present(crashed.content.usage)) && next.swap.ReplaceFails?
    ensures var mid := Play(Progress(s, |IngestScript(s, crashed)| - 1, true), IngestScript(s, crashed)).state;
      var end := Play(Progress(mid, |IngestScript(mid, next)|, true), IngestScript(mid, next));
      && end.up && next.user !in end.state.journal
      && next.user in end.state.tenants && end.state.tenants[next.user] == s.tenants[next.user]
      && FileAt(end.state, TargetDb(next.user)) == Some(crashed.content)
      && !Consistent(end.state, next.user)
  {
    DiesBeforeCommit(s, crashed);
    var mid := Play(Progress(s, |IngestScript(s, crashed)| - 1, true), IngestScript(s, crashed)).state;
    var q := Progress(mid, |IngestScript(mid, next)|, true);
    FuelUsed(q, IngestScript(mid, next));
    AbortForgets(q, next);
  }

  // ---- exactly when recovery may be skipped ----

  // An ingest over a pending row that had not swapped: wherever it dies, the row that is there
  // then explains the state.
  lemma UnswappedIngest(p: Progress, r: Upload, x: Install) returns (y: Install)
    requires Recoverable(p.state, r.user, x) && x.oldTenant.lastSha == x.oldFile && !SwappedUncommitted(p.state, r.user)
    ensures var q := Play(p, IngestScript(p.state, r));
      && Recoverable(q.state, r.user, y) && y.oldTenant.lastSha == y.oldFile
      && (q.up ==> Consistent(q.state, r.user))
  {
    var q := Play(p, IngestScript(p.state, r));
    IngestOwn(p, r);
    if SameFor(p.state, q.state, r.user) { y := x; } else { y := Pair(p.state, r, r.user); }
  }

  lemma UnswappedSession(s: State, z: Session, x: Install)
    requires Recoverable(s, z.upload.user, x) && x.oldTenant.lastSha == x.oldFile && CanonicalId(z.upload.user)
    requires !SwappedUncommitted(s, z.upload.user) && Completed(s, z)
    ensures Consistent(SessionEnd(s, z).state, z.upload.user)
  {
    var p := Progress(s, z.fuel, true);
    var y := UnswappedIngest(p, z.upload, x);
    RebootsKeep(Play(p, IngestScript(s, z.upload)), z.reboots, z.upload.user, y);
  }

  lemma {:induction false} FuelUsed(p: Progress, script: seq<Effect>)
    requires p.up && p.fuel >= |script|
    ensures Play(p, script).up && Play(p, script).fuel == p.fuel - |script|
    decreases |script|
  {
    if script != [] { FuelUsed(Progress(Apply(p.state, script[0]), p.fuel - 1, true), script[1..]); }
  }

  lemma {:induction false} FuelSpares(p: Progress, script: seq<Effect>, extra: nat)
    requires Play(p, script).up
    ensures Play(p.(fuel := p.fuel + extra), script) == Play(p, script).(fuel := Play(p, script).fuel + extra)
    decreases |script|
  {
    if p.up && script != [] { FuelSpares(Progress(Apply(p.state, script[0]), p.fuel - 1, true), script[1..], extra); }
  }

  function Longer(p: Progress, extra: nat): Progress { p.(fuel := p.fuel + extra) }

  lemma RowSparesFuel(p: Progress, u: UserId, fault: SwapFault, extra: nat)
    requires RowDone(p, u, fault).up
    ensures p.up && RowDone(Longer(p, extra), u, fault) == Longer(RowDone(p, u, fault), extra)
  {
    if p.up && CanonicalId(u) && u in p.state.journal { FuelSpares(p, RecoverRow(p.state, u, fault).0, extra); }
  }

  lemma RowCompletes(p: Progress, u: UserId, fault: SwapFault) returns (extra: nat)
    requires p.up
    ensures RowDone(Longer(p, extra), u, fault).up
  {
    extra := 0;
    if CanonicalId(u) && u in p.state.journal {
      var script := RecoverRow(p.state, u, fault).0;
      extra := |script|;
      FuelUsed(Longer(p, extra), script);
    }
  }

  lemma {:induction false} RowsSpareFuel(p: Progress, ids: seq<UserId>, faults: UserId -> SwapFault, extra: nat)
    requires RecoverRows(p, ids, faults).0.up
    ensures RecoverRows(Longer(p, extra), ids, faults).0 == Longer(RecoverRows(p, ids, faults).0, extra)
  {
    if ids != [] {
      var k := |ids| - 1;
      RowsNext(p, ids, faults);
      RowsNext(Longer(p, extra), ids, faults);
      RowSparesFuel(RecoverRows(p, ids[..k], faults).0, ids[k], faults(ids[k]), extra);
      RowsSpareFuel(p, ids[..k], faults, extra);
    }
  }

  // A process that lives long enough completes its recovery.
  lemma {:induction false} RecoveryCompletes(s: State, ids: seq<UserId>, faults: UserId -> SwapFault) returns (fuel: nat)
    ensures RecoverRows(Progress(s, fuel, true), ids, faults).0.up
  {
    fuel := 0;
    if ids != [] {
      var k := |ids| - 1;
      fuel := RecoveryCompletes(s, ids[..k], faults);
      var p := Progress(s, fuel, true);
      var extra := RowCompletes(RecoverRows(p, ids[..k], faults).0, ids[k], faults(ids[k]));
      RowsSpareFuel(p, ids[..k], faults, extra);
      RowsNext(Longer(p, extra), ids, faults);
      fuel := fuel + extra;
    }
  }

  lemma RebootCompletes(s: State) returns (b: Reboot)
    ensures forall p: Progress :: p.state == s ==> AfterReboots(p, [b]).up
  {
    var faults := (v: UserId) => NoFault;
    var harmless := Damage({}, map[]);
    var after := Damaged(s, harmless);
    var fuel := RecoveryCompletes(after, Ascending(after.journal.Keys), faults);
    b := Reboot(harmless, faults, fuel);
    forall p: Progress | p.state == s ensures AfterReboots(p, [b]).up {
      assert [b][..0] == [];
    }
  }

  // A later upload of the very bytes that were swapped in, failing at its own swap, makes the
  // mixed pair permanent: the recovery that follows finds no row.
  lemma PairIsLost(s: State, u: UserId, x: Install) returns (z: Session)
    requires Recoverable(s, u, x) && x.oldTenant.lastSha == x.oldFile
    requires SwappedUncommitted(s, u) && Safe(x.content.usage, Absent)
    ensures z.upload.user == u && z.reboots != [] && Completed(s, z)
    ensures var t := SessionEnd(s, z).state; !Consistent(t, u) && u !in t.journal
  {
    var r := Upload(u, s.tenants[u].lastIngest + 1, x.content, 0, false, ReplaceFails);
    var p := Progress(s, |IngestScript(s, r)|, true);
    FuelUsed(p, IngestScript(s, r));
    AbortForgets(p, r);
    var q := Play(p, IngestScript(s, r));
    var b := RebootCompletes(q.state);
    z := Session(r, p.fuel, [b]);
    StrangerReboots(q, [b], u);
  }

  lemma NothingNew(s: State, u: UserId) returns (z: Session)
    requires u in s.tenants
    ensures z.upload.user == u && Completed(s, z) && SessionEnd(s, z).state == s
  {
    z := Session(Upload(u, s.tenants[u].lastIngest, Content("", NoTable), 0, true, NoFault), 0, []);
  }

  // Without a recovery first, every upload of u leaves a matching pair at whatever point it and
  // the recoveries after it die, exactly when no earlier install sits between swap and commit ...
  lemma SessionsEndConsistentExactlyWhen(s: State, u: UserId, x: Install)
    requires Recoverable(s, u, x) && x.oldTenant.lastSha == x.oldFile && CanonicalId(u)
    ensures (forall z: Session :: z.upload.user == u && Completed(s, z) ==> Consistent(SessionEnd(s, z).state, u))
      <==> !SwappedUncommitted(s, u)
  {
    if SwappedUncommitted(s, u) {
      var z := NothingNew(s, u);
    } else {
      forall z: Session | z.upload.user == u && Completed(s, z) ensures Consistent(SessionEnd(s, z).state, u) {
        UnswappedSession(s, z, x);
      }
    }
  }

  // ... and so does every upload that is followed by a completed recovery, which is then too late:
  // the pending install had passed the guard, so its file can be read.
  lemma RecoveringAfterwardsHelpsExactlyWhen(s: State, u: UserId, x: Install)
    requires Recoverable(s, u, x) && x.oldTenant.lastSha == x.oldFile && CanonicalId(u) && Safe(x.content.usage, Absent)
    ensures (forall z: Session :: z.upload.user == u && z.reboots != [] && Completed(s, z) ==> Consistent(SessionEnd(s, z).state, u))
      <==> !SwappedUncommitted(s, u)
  {
    if SwappedUncommitted(s, u) {
      var z := PairIsLost(s, u, x);
    } else {
      forall z: Session | z.upload.user == u && Completed(s, z) ensures Consistent(SessionEnd(s, z).state, u) {
        UnswappedSession(s, z, x);
      }
    }
  }

  // ---- whole runs ----

  ghost function AfterSessions(s: State, zs: seq<Session>): State {
    if zs == [] then s else SessionEnd(AfterSessions(s, zs[..|zs| - 1]), zs[|zs| - 1]).state
  }

  // Every session of u completes; those of other tenants may die for good.
  ghost predicate OwnCompleted(s: State, zs: seq<Session>, u: UserId) {
    zs == [] ||
    (OwnCompleted(s, zs[..|zs| - 1], u) &&
     (zs[|zs| - 1].upload.user == u ==> Completed(AfterSessions(s, zs[..|zs| - 1]), zs[|zs| - 1])))
  }

  // No usage row of a is missing from or smaller in b.
  ghost predicate NothingLost(a: Content, b: Content) {
    a == b || Safe(b.usage, Present(a.usage))
  }

  // What a tenant may see between two moments: the same pair, or a later watermark with a
  // file in which nothing is lost.
  ghost predicate MovesForward(s: State, t: State, u: UserId) {
    && u in s.tenants && u in t.tenants
    && (FileAt(s, TargetDb(u)).Some? ==>
          FileAt(t, TargetDb(u)).Some? && NothingLost(FileAt(s, TargetDb(u)).value, FileAt(t, TargetDb(u)).value))
    && (t.tenants[u] == s.tenants[u] || t.tenants[u].lastIngest > s.tenants[u].lastIngest)
    && (FileAt(t, TargetDb(u)) != FileAt(s, TargetDb(u)) ==> t.tenants[u].lastIngest > s.tenants[u].lastIngest)
  }

  lemma RejectedChangesNothing(p: Progress, r: Upload)
    requires r.user in p.state.tenants && r.user !in p.state.journal
    requires r.timestamp <= p.state.tenants[r.user].lastIngest || r.stageFails || !Safe(r.content.usage, TargetOf(p.state, r.user))
    ensures SameFor(p.state, Play(p, IngestScript(p.state, r)).state, r.user)
  {
    QuietScript(p, IngestScript(p.state, r), r.user);
  }

  lemma QuietScript(p: Progress, script: seq<Effect>, u: UserId)
    requires forall e :: e in script ==> Foreign(e, u)
    ensures SameFor(p.state, Play(p, script).state, u)
  {
    ForeignPlay(p, script, u);
  }

  lemma SessionMovesForward(s: State, z: Session, u: UserId)
    requires Unpending(s, u) && (z.upload.user == u ==> Completed(s, z))
    ensures Unpending(SessionEnd(s, z).state, u) && MovesForward(s, SessionEnd(s, z).state, u)
  {
    var r := z.upload;
    CrashAtomicInstall(s, z, u);
    if u == r.user {
      var p := Progress(s, z.fuel, true);
      if r.timestamp <= s.tenants[u].lastIngest || r.stageFails || !Safe(r.content.usage, TargetOf(s, u)) {
        RejectedChangesNothing(p, r);
        RebootsKeep(Play(p, IngestScript(s, r)), z.reboots, u, Pair(s, r, u));
      }
    }
  }

  lemma NothingLostIsTransitive(a: Content, b: Content, c: Content)
    requires NothingLost(a, b) && NothingLost(b, c)
    ensures NothingLost(a, c)
  {
    if a != b && b != c { SafetyIsTransitive(Present(a.usage), b.usage, c.usage); }
  }

  lemma MovesForwardIsTransitive(s: State, t: State, e: State, u: UserId)
    requires MovesForward(s, t, u) && MovesForward(t, e, u)
    ensures MovesForward(s, e, u)
  {
    var at := TargetDb(u);
    if FileAt(s, at).Some? {
      NothingLostIsTransitive(FileAt(s, at).value, FileAt(t, at).value, FileAt(e, at).value);
    }
  }

  // Over any run of uploads, crashes and recoveries in which u's own sessions complete, no usage row
  // of u disappears or shrinks, and every change of its file comes with a strictly later watermark.
  lemma {:induction false} UsageNeverGoesBack(s: State, zs: seq<Session>, u: UserId)
    requires Unpending(s, u) && OwnCompleted(s, zs, u)
    ensures Unpending(AfterSessions(s, zs), u) && MovesForward(s, AfterSessions(s, zs), u)
  {
    if zs != [] {
      var k := |zs| - 1;
      var t := AfterSessions(s, zs[..k]);
      UsageNeverGoesBack(s, zs[..k], u);
      SessionMovesForward(t, zs[k], u);
      MovesForwardIsTransitive(s, t, AfterSessions(s, zs), u);
    }
  }
}
