// The multi-file restore of aistat/backup.py: every member swapped over its live target,
// and on any failure the whole plan undone from copies taken before the first change.
module Restore {
  import opened Prelude

  datatype Dir = Root | Sub(parent: Dir, name: string)

  datatype Path = Path(dir: Dir, name: string)

  // meta stands for mode and modification time, which copy2 carries along and chmod changes.
  datatype File = File(bytes: string, meta: int)

  // A manifest member, by its label, and the bytes of its archive; then the member with its live path.
  datatype Entry = Entry(key: string, bytes: string)

  datatype Member = Member(bytes: string, target: Path)

  // The three configured stores by file name, and the two directories of tenant databases.
  datatype Config = Config(stores: map<string, Path>, tenants: Dir, workerTenants: Dir)

  datatype Saved = Saved(path: Path, file: Option<File>)

  datatype RestoreExit = NotStarted | Done | Compensated | CompensationFailed

  function PreRestore(target: Path): Path { target.(name := target.name + ".pre-restore") }
  function Wal(target: Path): Path { target.(name := target.name + "-wal") }
  function Shm(target: Path): Path { target.(name := target.name + "-shm") }

  function Owned(target: Path): set<Path> { {target, PreRestore(target), Wal(target), Shm(target)} }

  function AllOwned(plan: seq<Member>): set<Path> {
    if plan == [] then {} else AllOwned(plan[..|plan| - 1]) + Owned(plan[|plan| - 1].target)
  }

  predicate EndsWith(s: string, suffix: string) { |s| >= |suffix| && s[|s| - |suffix|..] == suffix }

  // _is_tenant_db_name
  predicate IsDbName(name: string) { EndsWith(name, ".db") && '/' !in name && '\\' !in name }

  // str.partition("/")
  function Partition(s: string): (string, Option<string>) {
    if s == "" then ("", None)
    else if s[0] == '/' then ("", Some(s[1..]))
    else
      var (head, tail) := Partition(s[1..]);
      ([s[0]] + head, tail)
  }

  // _restore_target; None where it raises.
  function RestoreTarget(cfg: Config, key: string): Option<Path> {
    if key in cfg.stores then Some(cfg.stores[key])
    else
      var (head, tail) := Partition(key);
      var (store, name) := if tail.None? then ("tenants", key) else (head, tail.value);
      if !IsDbName(name) then None
      else if store == "tenants" then Some(Path(cfg.tenants, name))
      else if store == "worker_tenants" then Some(Path(cfg.workerTenants, name))
      else None
  }

  lemma {:induction false} PartitionIs(s: string)
    ensures var (head, tail) := Partition(s);
      && '/' !in head
      && (tail.None? ==> head == s)
      && (tail.Some? ==> s == head + "/" + tail.value)
  {
    if s != "" && s[0] != '/' {
      PartitionIs(s[1..]);
      var (head, tail) := Partition(s[1..]);
      if tail.Some? { assert s == [s[0]] + s[1..] == ([s[0]] + head) + "/" + tail.value; }
    }
  }

  lemma {:induction false} PartitionOf(head: string, tail: string)
    requires '/' !in head
    ensures Partition(head + "/" + tail) == (head, Some(tail))
  {
    var s := head + "/" + tail;
    if head == "" {
      assert s[0] == '/' && s[1..] == tail;
    } else {
      assert s[0] == head[0] && s[1..] == head[1..] + "/" + tail;
      assert head[0] in head && forall c :: c in head[1..] ==> c in head;
      PartitionOf(head[1..], tail);
      assert head == [head[0]] + head[1..];
    }
  }

  // The label of a configured store leads to that store, and any other one to the database it names:
  // in the directory its prefix names, or without a prefix among the served tenants.
  lemma TargetExactlyWhen(cfg: Config, key: string, t: Path)
    ensures RestoreTarget(cfg, key) == Some(t) <==>
      if key in cfg.stores then t == cfg.stores[key]
      else
        && IsDbName(t.name)
        && (|| (t.dir == cfg.tenants && (key == t.name || key == "tenants" + "/" + t.name))
            || (t.dir == cfg.workerTenants && key == "worker_tenants" + "/" + t.name))
  {
    PartitionIs(key);
    PartitionIs(t.name);
    PartitionOf("tenants", t.name);
    PartitionOf("worker_tenants", t.name);
    TailNeedsSlash(key);
  }

  lemma TailNeedsSlash(s: string)
    ensures Partition(s).1.Some? ==> '/' in s
  {
    PartitionIs(s);
    if Partition(s).1.Some? { assert s[|Partition(s).0|] == '/'; }
  }

  function Targets(plan: seq<Member>): set<Path> { set m | m in plan :: m.target }

  // The plan the command validates before it touches anything; None where it raises.
  function Planned(cfg: Config, entries: seq<Entry>): Option<seq<Member>> {
    if entries == [] then Some([])
    else
      var e, plan := entries[|entries| - 1], Planned(cfg, entries[..|entries| - 1]);
      var target := RestoreTarget(cfg, e.key);
      if plan.None? || target.None? || target.value in Targets(plan.value) then None
      else Some(plan.value + [Member(e.bytes, target.value)])
  }

  // No two members share a target, a .pre-restore copy or a sidecar.
  ghost predicate Disjoint(plan: seq<Member>) {
    forall i, j :: 0 <= i < j < |plan| ==> Owned(plan[i].target) !! Owned(plan[j].target)
  }

  // _missing_directories
  function Missing(d: Dir, dirs: set<Dir>): set<Dir> {
    if d in dirs || d.Root? then {} else {d} + Missing(d.parent, dirs)
  }

  function AllMissing(plan: seq<Member>, dirs: set<Dir>): set<Dir> {
    if plan == [] then {} else AllMissing(plan[..|plan| - 1], dirs) + Missing(plan[|plan| - 1].target.dir, dirs)
  }

  function FileAt(files: map<Path, File>, p: Path): Option<File> { if p in files then Some(files[p]) else None }

  // Only the paths in touched may differ.
  ghost predicate Elsewhere(before: map<Path, File>, after: map<Path, File>, touched: set<Path>) {
    forall q :: q !in touched ==> FileAt(after, q) == FileAt(before, q)
  }

  // Every file lies in a directory that exists, and so does every directory.
  ghost predicate Tree(files: map<Path, File>, dirs: set<Dir>) {
    (forall p :: p in files ==> p.dir in dirs) && (forall d :: d in dirs && !d.Root? ==> d.parent in dirs || d.parent.Root?)
  }

  function SavedOf(target: Path, files: map<Path, File>): seq<Saved> {
    [Saved(target, FileAt(files, target)), Saved(PreRestore(target), FileAt(files, PreRestore(target))),
     Saved(Wal(target), FileAt(files, Wal(target))), Saved(Shm(target), FileAt(files, Shm(target)))]
  }

  // _snapshot_restore_state
  function StateOf(plan: seq<Member>, files: map<Path, File>): seq<Saved> {
    if plan == [] then [] else StateOf(plan[..|plan| - 1], files) + SavedOf(plan[|plan| - 1].target, files)
  }

  lemma {:induction false} StateCovers(plan: seq<Member>, files: map<Path, File>)
    ensures forall s :: s in StateOf(plan, files) ==> s.file == FileAt(files, s.path) && s.path in AllOwned(plan)
    ensures forall p :: p in AllOwned(plan) ==> Saved(p, FileAt(files, p)) in StateOf(plan, files)
  {
    if plan != [] {
      var t := plan[|plan| - 1].target;
      StateCovers(plan[..|plan| - 1], files);
      var mine := SavedOf(t, files);
      assert mine[0].path == t && mine[1].path == PreRestore(t) && mine[2].path == Wal(t) && mine[3].path == Shm(t);
      assert forall p :: p in Owned(t) ==> Saved(p, FileAt(files, p)) in mine;
      assert StateOf(plan, files) == StateOf(plan[..|plan| - 1], files) + mine;
    }
  }

  lemma {:induction false} OwnedByOne(plan: seq<Member>)
    ensures forall m :: m in plan ==> Owned(m.target) <= AllOwned(plan)
  {
    if plan != [] {
      OwnedByOne(plan[..|plan| - 1]);
      assert plan == plan[..|plan| - 1] + [plan[|plan| - 1]];
    }
  }

  function Depth(d: Dir): nat { if d.Root? then 0 else Depth(d.parent) + 1 }

  // Taken away deepest first, every one of the missing directories is empty when its turn comes.
  ghost predicate Removable(files: map<Path, File>, dirs: set<Dir>, missing: set<Dir>) {
    (forall p :: p in files ==> p.dir !in missing) && (forall e :: e in dirs && !e.Root? && e.parent in missing ==> e in missing)
  }

  lemma DeepestExists(ds: set<Dir>)
    requires ds != {}
    ensures exists d :: d in ds && forall e :: e in ds ==> Depth(e) <= Depth(d)
  {
    var some :| some in ds;
    var rest := ds - {some};
    if rest != {} {
      DeepestExists(rest);
      var deepest :| deepest in rest && forall e :: e in rest ==> Depth(e) <= Depth(deepest);
      if Depth(some) <= Depth(deepest) {
        assert forall e :: e in ds ==> Depth(e) <= Depth(deepest);
      } else {
        assert forall e :: e in ds ==> Depth(e) <= Depth(some);
      }
    } else {
      assert ds == {some};
    }
  }

  lemma NamesDiffer(target: Path)
    ensures target != PreRestore(target) && target != Wal(target) && target != Shm(target)
    ensures PreRestore(target) != Wal(target) && PreRestore(target) != Shm(target) && Wal(target) != Shm(target)
  {
    var n := |target.name|;
    assert Wal(target).name[n + 1] == 'w' && Shm(target).name[n + 1] == 's';
    assert |PreRestore(target).name| == n + 12 && |Wal(target).name| == n + 4 && |Shm(target).name| == n + 4;
  }

  lemma {:induction false} MissingShrinks(d: Dir, small: set<Dir>, large: set<Dir>)
    requires small <= large
    ensures Missing(d, large) <= Missing(d, small)
  {
    if !d.Root? { MissingShrinks(d.parent, small, large); }
  }

  lemma {:induction false} MissingIsMissing(plan: seq<Member>, dirs: set<Dir>)
    ensures AllMissing(plan, dirs) !! dirs
    ensures forall m :: m in plan ==> Missing(m.target.dir, dirs) <= AllMissing(plan, dirs)
  {
    if plan != [] {
      MissingIsMissing(plan[..|plan| - 1], dirs);
      OneMissing(plan[|plan| - 1].target.dir, dirs);
    }
  }

  lemma {:induction false} OneMissing(d: Dir, dirs: set<Dir>)
    ensures Missing(d, dirs) !! dirs
  {
    if !d.Root? { OneMissing(d.parent, dirs); }
  }

  // What one install leaves behind, relative to the files before it.
  ghost predicate InstalledOver(m: Member, before: map<Path, File>, after: map<Path, File>) {
    && BytesAt(after, m.target) == Some(m.bytes)
    && FileAt(after, Wal(m.target)) == None && FileAt(after, Shm(m.target)) == None
    && BytesAt(after, PreRestore(m.target))
       == if m.target in before then BytesAt(before, m.target) else BytesAt(before, PreRestore(m.target))
  }

  function BytesAt(files: map<Path, File>, p: Path): Option<string> {
    match FileAt(files, p)
    case None => None
    case Some(f) => Some(f.bytes)
  }

  // What one call meets: it may raise, before its effect or after it, and a copy that raises leaves
  // something torn; an interrupt counts as raising.
  datatype Fate = Fate(raises: bool, takesEffect: bool, torn: Option<File>, meta: int)

  // The calls of a command are numbered, and fate says what each of them meets.
  class FileSystem {
    var files: map<Path, File>
    var dirs: set<Dir>
    const fate: nat -> Fate
    var calls: nat

    constructor (files: map<Path, File>, dirs: set<Dir>, fate: nat -> Fate)
      ensures this.files == files && this.dirs == dirs && this.fate == fate && calls == 0
    {
      this.files, this.dirs, this.fate, calls := files, dirs, fate, 0;
    }

    // None of the calls from one number to another raises.
    ghost predicate NoneRaises(from: nat, until: nat) { forall i :: from <= i < until ==> !fate(i).raises }

    // The calls from one number to another end with the first that raises, if any does.
    ghost predicate UntilOneRaises(ok: bool, from: nat, until: nat) {
      && from <= until && (ok ==> NoneRaises(from, until))
      && (!ok ==> from < until && NoneRaises(from, until - 1) && fate(until - 1).raises)
    }

    method Next() returns (f: Fate)
      modifies `calls
      ensures f == fate(old(calls)) && calls == old(calls) + 1
    {
      f := fate(calls);
      calls := calls + 1;
    }

    // A call without an effect of its own here: it only may raise.
    method Try() returns (ok: bool)
      modifies `calls
      ensures UntilOneRaises(ok, old(calls), calls) && calls == old(calls) + 1
    {
      var f := Next();
      ok := !f.raises;
    }

    // copy2: a failed copy may leave anything, or nothing, at its destination.
    method Copy(f: File, p: Path) returns (ok: bool)
      modifies `files, `calls
      ensures UntilOneRaises(ok, old(calls), calls)
      ensures forall q :: q != p ==> FileAt(files, q) == FileAt(old(files), q)
      ensures ok ==> FileAt(files, p) == Some(f)
    {
      var met := Next();
      ok := !met.raises;
      if ok {
        files := files[p := f];
      } else {
        files := if met.torn.Some? then files[p := met.torn.value] else files - {p};
      }
    }

    // _unlink_quiet: only a missing file is ignored.
    method UnlinkQuiet(p: Path) returns (ok: bool)
      modifies `files, `calls
      ensures UntilOneRaises(ok, old(calls), calls)
      ensures forall q :: q != p ==> FileAt(files, q) == FileAt(old(files), q)
      ensures ok ==> FileAt(files, p) == None
    {
      var met := Next();
      ok := !met.raises;
      if ok || met.takesEffect { files := files - {p}; }
    }

    // os.replace of the scratch file over p.
    method ReplaceWith(f: File, p: Path) returns (ok: bool)
      modifies `files, `calls
      ensures UntilOneRaises(ok, old(calls), calls)
      ensures forall q :: q != p ==> FileAt(files, q) == FileAt(old(files), q)
      ensures files == old(files) || FileAt(files, p) == Some(f)
      ensures ok ==> FileAt(files, p) == Some(f)
    {
      var met := Next();
      ok := !met.raises;
      if ok || met.takesEffect { files := files[p := f]; }
    }

    // chmod that swallows its failure.
    method Chmod(p: Path)
      modifies `files
      ensures forall q :: q != p ==> FileAt(files, q) == FileAt(old(files), q)
      ensures BytesAt(files, p) == BytesAt(old(files), p)
    {
      if p in files { files := files[p := files[p].(meta := fate(calls).meta)]; }
    }

    // mkdir(parents=True): outermost first, so a failure may leave some of them.
    method MakeDirs(d: Dir) returns (ok: bool)
      modifies `dirs, `calls
      ensures UntilOneRaises(ok, old(calls), calls)
      ensures old(dirs) <= dirs <= old(dirs) + Missing(d, old(dirs))
      ensures ok && !d.Root? ==> d in dirs
      decreases d
    {
      ok := true;
      if d in dirs || d.Root? { return; }
      ok := MakeDirs(d.parent);
      if !ok { return; }
      var met := Next();
      ok := !met.raises;
      if ok || met.takesEffect { dirs := dirs + {d}; }
    }

    lemma Joins(ok: bool, from: nat, middle: nat, until: nat)
      requires UntilOneRaises(true, from, middle) && UntilOneRaises(ok, middle, until)
      ensures UntilOneRaises(ok, from, until)
    {
    }

    // _atomic_install: the old file is set aside, then the scratch file takes its place.
    method InstallMember(m: Member, scratchMeta: int) returns (ok: bool)
      modifies this
      ensures UntilOneRaises(ok, old(calls), calls)
      ensures Elsewhere(old(files), files, Owned(m.target))
      ensures old(dirs) <= dirs <= old(dirs) + Missing(m.target.dir, old(dirs))
      ensures ok ==> InstalledOver(m, old(files), files)
    {
      hide UntilOneRaises, NoneRaises, Missing;
      NamesDiffer(m.target);
      ok := SetAside(m.target);
      if !ok { return; }
      ghost var middle := calls;
      ok := SwapIn(m, scratchMeta);
      Joins(ok, old(calls), middle, calls);
    }

    method SetAside(t: Path) returns (ok: bool)
      modifies this
      ensures UntilOneRaises(ok, old(calls), calls)
      ensures forall q :: q != PreRestore(t) ==> FileAt(files, q) == FileAt(old(files), q)
      ensures old(dirs) <= dirs <= old(dirs) + Missing(t.dir, old(dirs))
      ensures ok ==> BytesAt(files, PreRestore(t)) == if t in old(files) then BytesAt(old(files), t) else BytesAt(old(files), PreRestore(t))
    {
      ok := Try();
      if !ok { return; }
      if t.dir !in dirs {
        ok := MakeDirs(t.dir);
        if !ok { return; }
      }
      if t in files {
        ok := Copy(files[t], PreRestore(t));
        if !ok { return; }
        Chmod(PreRestore(t));
      }
    }

    method SwapIn(m: Member, scratchMeta: int) returns (ok: bool)
      modifies `files, `calls
      ensures UntilOneRaises(ok, old(calls), calls)
      ensures forall q :: q != m.target && q != Wal(m.target) && q != Shm(m.target) ==> FileAt(files, q) == FileAt(old(files), q)
      ensures ok ==> BytesAt(files, m.target) == Some(m.bytes) && FileAt(files, Wal(m.target)) == None && FileAt(files, Shm(m.target)) == None
    {
      var t := m.target;
      NamesDiffer(t);
      ok := UnlinkQuiet(Wal(t));
      if !ok { return; }
      ok := UnlinkQuiet(Shm(t));
      if !ok { return; }
      ok := ReplaceWith(File(m.bytes, scratchMeta), t);
      if !ok { return; }
      Chmod(t);
      ok := Try();
    }

    // One entry of the saved state put back: removed, left alone, or copied over.
    method PutBack(s: Saved) returns (ok: bool)
      modifies `files, `calls
      ensures UntilOneRaises(ok, old(calls), calls)
      ensures forall q :: q != s.path ==> FileAt(files, q) == FileAt(old(files), q)
      ensures ok ==> FileAt(files, s.path) == s.file
    {
      ok := Try();
      if !ok { return; }
      if s.file.None? {
        if s.path in files { ok := UnlinkQuiet(s.path); }
      } else if FileAt(files, s.path) != s.file {
        ok := Copy(s.file.value, s.path);
      }
    }

    // rmdir: a missing directory is fine, one that is not empty is not.
    method RemoveDir(d: Dir) returns (ok: bool)
      modifies `dirs, `calls
      ensures old(calls) <= calls && (ok ==> NoneRaises(old(calls), calls))
      ensures dirs == old(dirs) || dirs == old(dirs) - {d}
      ensures ok ==> dirs == old(dirs) - {d}
      ensures !ok && NoneRaises(old(calls), calls) ==>
        (exists p :: p in files && p.dir == d) || (exists e :: e in old(dirs) && !e.Root? && e.parent == d)
    {
      var met := Next();
      if d !in dirs { return !met.raises; }
      var empty := (forall p :: p in files ==> p.dir != d) && (forall e :: e in dirs ==> e.Root? || e.parent != d);
      ok := !met.raises && empty;
      if ok || (empty && met.takesEffect) { dirs := dirs - {d}; }
    }

    // The first loop of _rollback_restore, last entry first; errors are collected, not raised.
    method PutFilesBack(state: seq<Saved>) returns (clean: bool)
      requires forall i, j :: 0 <= i < j < |state| && state[i].path == state[j].path ==> state[i].file == state[j].file
      modifies `files, `calls
      ensures old(calls) <= calls && (clean <==> NoneRaises(old(calls), calls))
      ensures forall q :: (forall s :: s in state ==> s.path != q) ==> FileAt(files, q) == FileAt(old(files), q)
      ensures clean ==> forall s :: s in state ==> FileAt(files, s.path) == s.file
    {
      clean := true;
      var i := |state|;
      while i > 0
        invariant 0 <= i <= |state| && old(calls) <= calls && (clean <==> NoneRaises(old(calls), calls))
        invariant forall q :: (forall s :: s in state ==> s.path != q) ==> FileAt(files, q) == FileAt(old(files), q)
        invariant clean ==> forall j :: i <= j < |state| ==> FileAt(files, state[j].path) == state[j].file
      {
        i := i - 1;
        ghost var middle := calls;
        var ok := PutBack(state[i]);
        NoneRaisesJoins(old(calls), middle, calls);
        clean := clean && ok;
      }
    }

    lemma NoneRaisesJoins(from: nat, middle: nat, until: nat)
      requires from <= middle <= until
      ensures NoneRaises(from, until) <==> NoneRaises(from, middle) && NoneRaises(middle, until)
    {
    }

    // The second loop: the directories the restore had to make, deepest first.
    method RemoveDirs(missing: set<Dir>) returns (clean: bool)
      modifies `dirs, `calls
      ensures old(calls) <= calls && (clean ==> NoneRaises(old(calls), calls))
      ensures old(dirs) - missing <= dirs <= old(dirs)
      ensures clean ==> dirs == old(dirs) - missing
      ensures NoneRaises(old(calls), calls) && Removable(files, old(dirs), missing) ==> clean
    {
      clean := true;
      var todo := missing;
      while todo != {}
        invariant todo <= missing && old(dirs) - missing <= dirs <= old(dirs)
        invariant old(calls) <= calls && (clean ==> NoneRaises(old(calls), calls))
        invariant clean ==> dirs == old(dirs) - (missing - todo)
        invariant NoneRaises(old(calls), calls) && Removable(files, old(dirs), missing) ==> clean
        invariant forall d, e :: d in todo && e in missing - todo ==> Depth(d) <= Depth(e)
        decreases |todo|
      {
        DeepestExists(todo);
        var d :| d in todo && forall e :: e in todo ==> Depth(e) <= Depth(d);
        ghost var middle := calls;
        var ok := RemoveDir(d);
        NoneRaisesJoins(old(calls), middle, calls);
        clean := clean && ok;
        todo := todo - {d};
      }
    }

    // _rollback_restore
    method RollbackRestore(state: seq<Saved>, missing: set<Dir>,
        ghost plan: seq<Member>, ghost files0: map<Path, File>, ghost dirs0: set<Dir>)
      returns (clean: bool)
      requires state == StateOf(plan, files0) && missing == AllMissing(plan, dirs0)
      requires Elsewhere(files0, files, AllOwned(plan)) && dirs0 <= dirs <= dirs0 + missing
      modifies this
      ensures old(calls) <= calls && (clean ==> NoneRaises(old(calls), calls))
      ensures clean ==> files == files0 && dirs == dirs0
      ensures NoneRaises(old(calls), calls) && Tree(files0, dirs0) ==> clean
    {
      StateCovers(plan, files0);
      MissingIsMissing(plan, dirs0);
      var filesClean := PutFilesBack(state);
      if filesClean {
        forall q ensures FileAt(files, q) == FileAt(files0, q) {
          if q in AllOwned(plan) { assert Saved(q, FileAt(files0, q)) in state; }
        }
        SameFiles(files, files0);
        if Tree(files0, dirs0) { MissingRemovable(plan, files0, dirs0, dirs); }
      }
      ghost var middle := calls;
      var dirsClean := RemoveDirs(missing);
      NoneRaisesJoins(old(calls), middle, calls);
      clean := filesClean && dirsClean;
    }

    // Installing the planned members in order, stopping at the first failure.
    method InstallAll(plan: seq<Member>, scratchMeta: int) returns (ok: bool)
      modifies this
      ensures UntilOneRaises(ok, old(calls), calls)
      ensures Elsewhere(old(files), files, AllOwned(plan))
      ensures old(dirs) <= dirs <= old(dirs) + AllMissing(plan, old(dirs))
      ensures ok ==> Progress(plan, |plan|, old(files), files)
    {
      ok := true;
      MissingIsMissing(plan, dirs);
      var i := 0;
      while ok && i < |plan|
        invariant 0 <= i <= |plan| && UntilOneRaises(ok, old(calls), calls)
        invariant Elsewhere(old(files), files, AllOwned(plan))
        invariant old(dirs) <= dirs <= old(dirs) + AllMissing(plan, old(dirs))
        invariant ok ==> Progress(plan, i, old(files), files)
        decreases |plan| - i, ok
      {
        assert plan[i] in plan;
        ghost var before, middle := files, calls;
        MissingShrinks(plan[i].target.dir, old(dirs), dirs);
        ok := InstallMember(plan[i], scratchMeta);
        NoneRaisesJoins(old(calls), middle, calls);
        StillElsewhere(plan, i, old(files), before, files);
        if ok {
          ProgressNext(plan, i, old(files), before, files);
          i := i + 1;
        }
      }
    }

    method PlanRestore(cfg: Config, entries: seq<Entry>) returns (plan: Option<seq<Member>>)
      ensures plan == Planned(cfg, entries)
    {
      var sofar: seq<Member> := [];
      for i := 0 to |entries|
        invariant Planned(cfg, entries[..i]) == Some(sofar)
      {
        assert entries[..i + 1][..i] == entries[..i];
        var target := RestoreTarget(cfg, entries[i].key);
        if target.None? || target.value in Targets(sofar) {
          StaysRefused(cfg, entries, i + 1);
          return None;
        }
        sofar := sofar + [Member(entries[i].bytes, target.value)];
      }
      assert entries[..|entries|] == entries;
      plan := Some(sofar);
    }

    // What is tried once the plan is valid: save the state, install, and undo on the first failure.
    method Commit(plan: seq<Member>, scratchMeta: int) returns (exit: RestoreExit)
      modifies this
      ensures old(calls) <= calls
      ensures exit.NotStarted? <==> fate(old(calls)).raises
      ensures exit.Done? <==> NoneRaises(old(calls), calls)
      ensures exit.NotStarted? || exit.Compensated? ==> files == old(files) && dirs == old(dirs)
      ensures exit.Done? ==> Elsewhere(old(files), files, AllOwned(plan)) && Progress(plan, |plan|, old(files), files)
      ensures exit.Done? ==> old(dirs) <= dirs <= old(dirs) + AllMissing(plan, old(dirs))
      ensures exit.Compensated? ==> exists i :: old(calls) < i < calls && OnlyRaises(i, old(calls), calls)
      ensures exit.CompensationFailed? && old(Tree(files, dirs)) ==>
        exists i, k :: old(calls) < i < k < calls && fate(i).raises && fate(k).raises
    {
      hide Elsewhere, AllOwned, AllMissing, Progress, Tree, StateOf;
      ghost var first := calls;
      var saved := Try();
      if !saved { return NotStarted; }
      var state, missing := StateOf(plan, files), AllMissing(plan, dirs);
      ghost var second := calls;
      var ok := InstallAll(plan, scratchMeta);
      NoneRaisesJoins(first, second, calls);
      if ok { return Done; }
      ghost var third := calls;
      var clean := RollbackRestore(state, missing, plan, old(files), old(dirs));
      exit := if clean then Compensated else CompensationFailed;
      if clean {
        assert OnlyRaises(third - 1, first, calls);
      } else if old(Tree(files, dirs)) {
        ghost var k :| third <= k < calls && fate(k).raises;
        assert fate(third - 1).raises && third - 1 < k;
      }
    }

    // restore_backup. Which way it ends is decided by the labels and by the calls that raise: none
    // means done, the first one refuses, one later is undone, and only a second one loses.
    method RestoreBackup(cfg: Config, entries: seq<Entry>, scratchMeta: int) returns (exit: RestoreExit)
      modifies this
      ensures old(calls) <= calls
      ensures exit.NotStarted? <==> Planned(cfg, entries).None? || fate(old(calls)).raises
      ensures exit.Done? <==> Planned(cfg, entries).Some? && NoneRaises(old(calls), calls)
      ensures exit.NotStarted? ==> files == old(files) && dirs == old(dirs)
      ensures exit.Done? ==> Elsewhere(old(files), files, AllOwned(Planned(cfg, entries).value))
      ensures exit.Done? ==> old(dirs) <= dirs <= old(dirs) + AllMissing(Planned(cfg, entries).value, old(dirs))
      ensures exit.Done? && Separate(Planned(cfg, entries).value) ==> AllInstalled(Planned(cfg, entries).value, old(files), files)
      ensures exit.Done? && StoresAreDb(cfg) ==> AllInstalled(Planned(cfg, entries).value, old(files), files)
      ensures exit.Compensated? ==> files == old(files) && dirs == old(dirs)
      ensures exit.Compensated? ==> exists i :: old(calls) < i < calls && OnlyRaises(i, old(calls), calls)
      ensures exit.CompensationFailed? && old(Tree(files, dirs)) ==>
        exists i, k :: old(calls) < i < k < calls && fate(i).raises && fate(k).raises
    {
      hide Elsewhere, AllOwned, AllMissing, Progress, Tree, Planned, Separate, AllInstalled, StoresAreDb, NoneRaises, OnlyRaises;
      var planned := PlanRestore(cfg, entries);
      if planned.None? { return NotStarted; }
      exit := Commit(planned.value, scratchMeta);
      if exit.Done? { AllInPlace(cfg, entries, old(files), files); }
    }

    // Of the calls from one number to another exactly one raises.
    ghost predicate OnlyRaises(i: nat, from: nat, until: nat) {
      fate(i).raises && forall k :: from <= k < until && k != i ==> !fate(k).raises
    }
  }

  ghost predicate AllInstalled(plan: seq<Member>, before: map<Path, File>, after: map<Path, File>) {
    forall i :: 0 <= i < |plan| ==> InstalledOver(plan[i], before, after)
  }

  // A valid plan in place is in place member by member, unless its members are in each other's way.
  lemma AllInPlace(cfg: Config, entries: seq<Entry>, before: map<Path, File>, after: map<Path, File>)
    requires Planned(cfg, entries).Some?
    requires Progress(Planned(cfg, entries).value, |Planned(cfg, entries).value|, before, after)
    ensures Separate(Planned(cfg, entries).value) || StoresAreDb(cfg) ==> AllInstalled(Planned(cfg, entries).value, before, after)
  {
    hide InstalledOver, Planned;
    PlannedIsDistinct(cfg, entries);
    DisjointExactlyWhen(Planned(cfg, entries).value);
    if StoresAreDb(cfg) { DbPlansAreSeparate(cfg, entries); }
  }

  // ---- which plans can be installed member by member ----

  lemma {:induction false} StaysRefused(cfg: Config, entries: seq<Entry>, i: nat)
    requires i <= |entries| && Planned(cfg, entries[..i]).None?
    ensures Planned(cfg, entries).None?
    decreases |entries| - i
  {
    if i == |entries| {
      assert entries[..i] == entries;
    } else {
      assert entries[..i + 1][..i] == entries[..i];
      StaysRefused(cfg, entries, i + 1);
    }
  }

  ghost predicate DistinctTargets(plan: seq<Member>) {
    forall i, j :: 0 <= i < j < |plan| ==> plan[i].target != plan[j].target
  }

  // No target is the .pre-restore copy or a sidecar of another one.
  ghost predicate Separate(plan: seq<Member>) {
    forall i, j :: 0 <= i < |plan| && 0 <= j < |plan| ==> plan[j].target !in Copies(plan[i].target)
  }

  function Copies(target: Path): set<Path> { {PreRestore(target), Wal(target), Shm(target)} }

  predicate StoresAreDb(cfg: Config) { forall k :: k in cfg.stores ==> EndsWith(cfg.stores[k].name, ".db") }

  lemma {:induction false} PlannedIsDistinct(cfg: Config, entries: seq<Entry>)
    requires Planned(cfg, entries).Some?
    ensures var plan := Planned(cfg, entries).value;
      && |plan| == |entries| && DistinctTargets(plan)
      && forall i :: 0 <= i < |plan| ==> plan[i].bytes == entries[i].bytes && RestoreTarget(cfg, entries[i].key) == Some(plan[i].target)
  {
    if entries != [] {
      var plan := Planned(cfg, entries[..|entries| - 1]).value;
      PlannedIsDistinct(cfg, entries[..|entries| - 1]);
      forall i | 0 <= i < |plan| ensures plan[i].target in Targets(plan) { assert plan[i] in plan; }
    }
  }

  // A target the command lets through is a configured store or a database by its name.
  lemma TargetIsStoreOrDb(cfg: Config, key: string)
    requires RestoreTarget(cfg, key).Some?
    ensures var t := RestoreTarget(cfg, key).value;
      (exists k :: k in cfg.stores && cfg.stores[k] == t) || EndsWith(t.name, ".db")
  {
    if key in cfg.stores { assert cfg.stores[key] == RestoreTarget(cfg, key).value; }
  }

  lemma CopiesAreNoDb(target: Path, p: Path)
    requires p in Copies(target)
    ensures !EndsWith(p.name, ".db")
  {
    LastOfCopy(target, p);
    EndsInLast(p.name, ".db");
  }

  lemma EndsInLast(s: string, suffix: string)
    requires s != "" && suffix != ""
    ensures EndsWith(s, suffix) ==> s[|s| - 1] == suffix[|suffix| - 1]
  {
    if EndsWith(s, suffix) { assert s[|s| - |suffix|..][|suffix| - 1] == s[|s| - 1]; }
  }

  // So only a configured store can be in the way of another member, and none is if all of them
  // are called .db.
  lemma OnlyStoresOverlap(cfg: Config, entries: seq<Entry>, plan: seq<Member>, i: nat, j: nat)
    requires Planned(cfg, entries) == Some(plan) && i < |plan| && j < |plan|
    requires plan[j].target in Copies(plan[i].target)
    ensures exists k :: k in cfg.stores && cfg.stores[k] == plan[j].target && !EndsWith(plan[j].target.name, ".db")
  {
    PlannedIsDistinct(cfg, entries);
    TargetIsStoreOrDb(cfg, entries[j].key);
    CopiesAreNoDb(plan[i].target, plan[j].target);
  }

  lemma DbPlansAreSeparate(cfg: Config, entries: seq<Entry>)
    requires Planned(cfg, entries).Some? && StoresAreDb(cfg)
    ensures Separate(Planned(cfg, entries).value)
  {
    PlannedIsDistinct(cfg, entries);
    var plan := Planned(cfg, entries).value;
    forall i, j | 0 <= i < |plan| && 0 <= j < |plan| ensures plan[j].target !in Copies(plan[i].target) {
      if plan[j].target in Copies(plan[i].target) { OnlyStoresOverlap(cfg, entries, plan, i, j); }
    }
  }

  // Copies of different targets differ, so footprints meet only where a target is a copy.
  lemma CopiesDiffer(a: Path, b: Path)
    requires a != b
    ensures Copies(a) !! Copies(b)
  {
    if p :| p in Copies(a) && p in Copies(b) {
      SuffixTells(a, b, p);
    }
  }

  lemma SuffixTells(a: Path, b: Path, p: Path)
    requires p in Copies(a) && p in Copies(b)
    ensures a == b
  {
    LastOfCopy(a, p);
    LastOfCopy(b, p);
    var n := |p.name| - (if p == PreRestore(a) then 12 else 4);
    assert a.name == p.name[..n] && b.name == p.name[..n];
  }

  lemma LastOfCopy(a: Path, p: Path)
    requires p in Copies(a)
    ensures p.dir == a.dir && p.name != ""
    ensures p == PreRestore(a) <==> p.name[|p.name| - 1] == 'e'
    ensures p == Wal(a) <==> p.name[|p.name| - 1] == 'l'
    ensures p == Shm(a) <==> p.name[|p.name| - 1] == 'm'
  {
  }

  lemma DisjointExactlyWhen(plan: seq<Member>)
    requires DistinctTargets(plan)
    ensures Disjoint(plan) <==> Separate(plan)
  {
    if Separate(plan) {
      forall i, j | 0 <= i < j < |plan| ensures Owned(plan[i].target) !! Owned(plan[j].target) {
        CopiesDiffer(plan[i].target, plan[j].target);
      }
    } else {
      var i, j :| 0 <= i < |plan| && 0 <= j < |plan| && plan[j].target in Copies(plan[i].target);
      NamesDiffer(plan[i].target);
      assert plan[j].target in Owned(plan[i].target) && plan[j].target in Owned(plan[j].target);
      assert i != j;
    }
  }

  // What one undisturbed install does.
  function Installed(m: Member, files: map<Path, File>): map<Path, File> {
    var aside := if m.target in files then files[PreRestore(m.target) := files[m.target]] else files;
    (aside - {Wal(m.target), Shm(m.target)})[m.target := File(m.bytes, 0)]
  }

  lemma InstalledIs(m: Member, files: map<Path, File>)
    ensures InstalledOver(m, files, Installed(m, files)) && Elsewhere(files, Installed(m, files), Owned(m.target))
  {
    NamesDiffer(m.target);
  }

  lemma {:induction false} InstalledInTurn(plan: seq<Member>, i: nat, files: map<Path, File>) returns (after: map<Path, File>)
    requires i <= |plan|
    ensures Progress(plan, i, files, after)
  {
    after := files;
    if i > 0 {
      var before := InstalledInTurn(plan, i - 1, files);
      InstalledIs(plan[i - 1], before);
      after := Installed(plan[i - 1], before);
      ProgressNext(plan, i - 1, files, before, after);
    }
  }

  // The files two overlapping members would have to leave exclude each other.
  lemma NotBoth(a: Member, b: Member, before: map<Path, File>, after: map<Path, File>)
    requires b.target in Copies(a.target) && before == map[a.target := File(b.bytes + "x", 0)]
    ensures !InstalledOver(a, before, after) || !InstalledOver(b, before, after)
  {
    NamesDiffer(a.target);
    assert b.bytes + "x" != b.bytes by { assert |b.bytes + "x"| != |b.bytes|; }
  }

  lemma OverlapFails(plan: seq<Member>, i: nat, j: nat) returns (before: map<Path, File>)
    requires i < |plan| && j < |plan| && plan[j].target in Copies(plan[i].target)
    ensures forall after :: !AllInstalled(plan, before, after)
  {
    before := map[plan[i].target := File(plan[j].bytes + "x", 0)];
    forall after ensures !AllInstalled(plan, before, after) { NotBoth(plan[i], plan[j], before, after); }
  }

  // Some outcome would keep what is promised of every member.
  ghost predicate CanBeKept(plan: seq<Member>, before: map<Path, File>) {
    exists after :: AllInstalled(plan, before, after)
  }

  // Whatever was there before, a restore can leave every member in place, its old bytes in
  // .pre-restore and no sidecar, exactly when no target is a copy or a sidecar of another one.
  lemma PromiseCanBeKeptExactlyWhen(plan: seq<Member>)
    requires DistinctTargets(plan)
    ensures (forall before :: CanBeKept(plan, before)) <==> Separate(plan)
  {
    if Separate(plan) {
      DisjointExactlyWhen(plan);
      forall before ensures CanBeKept(plan, before) {
        var after := InstalledInTurn(plan, |plan|, before);
        assert AllInstalled(plan, before, after);
      }
    } else {
      var i, j :| 0 <= i < |plan| && 0 <= j < |plan| && plan[j].target in Copies(plan[i].target);
      var before := OverlapFails(plan, i, j);
      assert !CanBeKept(plan, before);
    }
  }

  lemma SameFiles(a: map<Path, File>, b: map<Path, File>)
    requires forall q :: FileAt(a, q) == FileAt(b, q)
    ensures a == b
  {
    forall q ensures q in a <==> q in b { assert FileAt(a, q) == FileAt(b, q); }
    forall q | q in a ensures a[q] == b[q] { assert FileAt(a, q) == FileAt(b, q); }
  }

  lemma {:induction false} MissingNotRoot(plan: seq<Member>, dirs: set<Dir>)
    ensures forall d :: d in AllMissing(plan, dirs) ==> !d.Root?
  {
    if plan != [] {
      MissingNotRoot(plan[..|plan| - 1], dirs);
      OneNotRoot(plan[|plan| - 1].target.dir, dirs);
    }
  }

  lemma {:induction false} OneNotRoot(d: Dir, dirs: set<Dir>)
    ensures forall e :: e in Missing(d, dirs) ==> !e.Root?
  {
    if !d.Root? { OneNotRoot(d.parent, dirs); }
  }

  lemma MissingRemovable(plan: seq<Member>, files0: map<Path, File>, dirs0: set<Dir>, dirs: set<Dir>)
    requires Tree(files0, dirs0) && dirs <= dirs0 + AllMissing(plan, dirs0)
    ensures Removable(files0, dirs, AllMissing(plan, dirs0))
  {
    MissingIsMissing(plan, dirs0);
    MissingNotRoot(plan, dirs0);
  }

  lemma StillElsewhere(plan: seq<Member>, i: nat, files0: map<Path, File>, before: map<Path, File>, after: map<Path, File>)
    requires i < |plan| && Elsewhere(files0, before, AllOwned(plan)) && Elsewhere(before, after, Owned(plan[i].target))
    ensures Elsewhere(files0, after, AllOwned(plan))
  {
    assert plan[i] in plan;
    OwnedByOne(plan);
  }

  // The first i members are in place and nothing but their paths has been touched.
  ghost predicate Progress(plan: seq<Member>, i: nat, files0: map<Path, File>, files: map<Path, File>)
    requires i <= |plan|
  {
    Disjoint(plan) ==>
      Elsewhere(files0, files, AllOwned(plan[..i])) && forall j :: 0 <= j < i ==> InstalledOver(plan[j], files0, files)
  }

  // Members with disjoint footprints do not disturb one another.
  lemma ProgressNext(plan: seq<Member>, i: nat, files0: map<Path, File>, before: map<Path, File>, after: map<Path, File>)
    requires i < |plan| && Progress(plan, i, files0, before)
    requires Elsewhere(before, after, Owned(plan[i].target)) && InstalledOver(plan[i], before, after)
    ensures Progress(plan, i + 1, files0, after)
  {
    if Disjoint(plan) {
      assert plan[..i + 1][..i] == plan[..i];
      NotYetOwned(plan, i, i);
      OneStays(plan[i], files0, before, after);
      forall j | 0 <= j < i ensures InstalledOver(plan[j], files0, after) {
        OtherStays(plan[j], plan[i].target, files0, before, after);
      }
    }
  }

  lemma {:induction false} NotYetOwned(plan: seq<Member>, i: nat, k: nat)
    requires k <= i < |plan| && Disjoint(plan)
    ensures Owned(plan[i].target) !! AllOwned(plan[..k])
  {
    if k > 0 {
      NotYetOwned(plan, i, k - 1);
      assert plan[..k][..k - 1] == plan[..k - 1];
    }
  }

  lemma OneStays(m: Member, files0: map<Path, File>, before: map<Path, File>, after: map<Path, File>)
    requires InstalledOver(m, before, after)
    requires forall p :: p in Owned(m.target) ==> FileAt(before, p) == FileAt(files0, p)
    ensures InstalledOver(m, files0, after)
  {
    assert FileAt(before, m.target) == FileAt(files0, m.target);
    assert FileAt(before, PreRestore(m.target)) == FileAt(files0, PreRestore(m.target));
  }

  lemma OtherStays(m: Member, other: Path, files0: map<Path, File>, before: map<Path, File>, after: map<Path, File>)
    requires InstalledOver(m, files0, before) && Elsewhere(before, after, Owned(other)) && Owned(m.target) !! Owned(other)
    ensures InstalledOver(m, files0, after)
  {
    assert forall p :: p in Owned(m.target) ==> FileAt(after, p) == FileAt(before, p);
    assert m.target in Owned(m.target) && PreRestore(m.target) in Owned(m.target);
    assert Wal(m.target) in Owned(m.target) && Shm(m.target) in Owned(m.target);
  }
}
