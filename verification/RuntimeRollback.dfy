// Installer of aistat/runtime_install.py: code generations renamed between code, code.prev
// and code.rollback while launchd starts and stops the supervisor. Any external call may
// raise. What the outside world does during a command is a parameter of it, so that what a
// health verdict proves can be stated over everything the world may do.
module RuntimeRollback {
  import opened Prelude

  // The exact bytes of one code directory.
  datatype Generation = Generation(files: string)

  datatype Job = Job(pid: int, generation: Generation)

  // run/supervisor.status.json. writer records which generation's supervisor wrote it; the
  // program cannot see it.
  datatype Status = Status(pid: Option<int>, stopping: bool, contours: seq<bool>, writer: Generation)

  datatype Slots = Slots(code: Option<Generation>, prev: Option<Generation>, hold: Option<Generation>)

  datatype RollbackExit = Refused | HalfActivated | RolledBack | CommitFailed | Restored | RecoveryFailed

  datatype InstallExit = NotStarted | SwapFailed | Installed | Undone | UndoFailed

  // What launchd and the supervisors see of a command: the job, the status file, the next pid.
  datatype Live = Live(job: Option<Job>, status: Option<Status>, nextPid: int)

  // What a supervisor may write about itself.
  datatype Report = Report(stopping: bool, contours: seq<bool>)

  // A call of launchd returns, or raises with or without having had its effect.
  datatype Call = Returns | RaisesAfter | RaisesBefore

  // The world during a health gate: whether the plist is written, what the replaced supervisor
  // reports before its bootout, and what the new one reports before each poll.
  datatype Gate = Gate(
    written: bool, parting: Option<Report>, bootout: Call, bootstrap: Call, loaded: bool, polls: seq<Option<Report>>)

  // The world while the legacy job is retired.
  datatype Retiring = Retiring(readable: bool, bootedOut: bool, survives: bool, unlinks: bool)

  // The world while a rejected rollback is undone.
  datatype Undoing = Undoing(report: Option<Report>, parks: bool, unparks: bool, readable: bool, gate: Gate)

  // The world during a rollback.
  datatype World = World(
    passes: bool, retiring: Retiring, report: Option<Report>, readable: bool, parks: bool, activates: bool,
    gate: Gate, undoing: Undoing, drops: bool, left: Option<Generation>)

  // The world during an install: first what may fail before anything is touched, then the swap of
  // the code with what a failed removal or move leaves behind, then the cutover, then its undoing.
  datatype Swapping = Swapping(
    removes: bool, leftPrev: Option<Generation>, renames: bool, moves: bool,
    leftCode: Option<Generation>, leftStage: Option<Generation>)

  datatype Cutting = Cutting(
    written: bool, retiring: Retiring, parting: Option<Report>, bootout: Call, bootstrap: Call, loaded: bool)

  datatype PuttingBack = PuttingBack(
    removes: bool, left: Option<Generation>, moves: bool, startable: bool, gate: Gate,
    parting: Option<Report>, bootout: Call, legacyWritten: bool, legacyStarts: bool)

  datatype InstallWorld = InstallWorld(passes: bool, readable: bool, swap: Swapping, cut: Cutting, back: PuttingBack)

  datatype Machine = Machine(slots: Slots, live: Live, legacyPlist: bool, legacyLoaded: bool)

  // _status_is_healthy
  predicate Healthy(s: Option<Status>, previousPid: Option<int>) {
    && s.Some? && !s.value.stopping
    && s.value.pid.Some? && s.value.pid != previousPid
    && s.value.contours != [] && forall i :: 0 <= i < |s.value.contours| ==> s.value.contours[i]
  }

  predicate OnDisk(g: Option<Generation>, s: Slots) { g == s.code || g == s.prev || g == s.hold }

  // Nothing of the two generations is lost.
  predicate Kept(before: Slots, after: Slots) {
    (before.code.Some? ==> OnDisk(before.code, after)) && (before.prev.Some? ==> OnDisk(before.prev, after))
  }

  // Process ids are not reused.
  predicate Sane(l: Live) {
    && (l.job.Some? ==> l.job.value.pid < l.nextPid)
    && (l.status.Some? && l.status.value.pid.Some? ==> l.status.value.pid.value < l.nextPid)
  }

  // ---- what each step makes of the machine ----

  function AfterReport(l: Live, r: Option<Report>): Live {
    if l.job.Some? && r.Some?
    then l.(status := Some(Status(Some(l.job.value.pid), r.value.stopping, r.value.contours, l.job.value.generation)))
    else l
  }

  // (status or {}).get("pid"); a status file that cannot be read counts as absent.
  function PidOf(status: Option<Status>, readable: bool): Option<int> {
    if readable && status.Some? then status.value.pid else None
  }

  function AfterBootout(l: Live, parting: Option<Report>, c: Call): Live {
    var told := AfterReport(l, parting);
    if c.RaisesBefore? then told else told.(job := None)
  }

  function AfterBootstrap(l: Live, code: Generation, c: Call): Live {
    if c.RaisesBefore? then l else l.(job := Some(Job(l.nextPid, code)), nextPid := l.nextPid + 1)
  }

  // _bootstrap_active
  function Bootstrapped(l: Live, code: Generation, g: Gate): (Live, bool) {
    if !g.written then (l, false)
    else
      var out := AfterBootout(l, g.parting, g.bootout);
      if !g.bootout.Returns? then (out, false) else (AfterBootstrap(out, code, g.bootstrap), g.bootstrap.Returns?)
  }

  // _await_supervisor_health: a last poll without news ends the wait.
  function Polled(l: Live, pid: Option<int>, polls: seq<Option<Report>>): (Live, bool)
    decreases |polls|
  {
    var told := AfterReport(l, if polls == [] then None else polls[0]);
    if Healthy(told.status, pid) then (told, true)
    else if polls == [] then (told, false)
    else Polled(told, pid, polls[1..])
  }

  function Gated(l: Live, code: Generation, pid: Option<int>, g: Gate): (Live, bool) {
    var (up, ok) := Bootstrapped(l, code, g);
    if ok && g.loaded then Polled(up, pid, g.polls) else (up, false)
  }

  // _capture_legacy and _retire_legacy
  function AfterRetiring(m: Machine, r: Retiring): (Machine, bool) {
    if !r.readable then (m, false)
    else if !m.legacyLoaded && !m.legacyPlist then (m, true)
    else
      var out := m.(legacyLoaded := m.legacyLoaded && r.survives);
      if !r.bootedOut || out.legacyLoaded || (out.legacyPlist && !r.unlinks) then (out, false)
      else (out.(legacyPlist := false), true)
  }

  // _activate_previous
  function AfterActivating(s: Slots, parks: bool, activates: bool): (Slots, bool) {
    if s.code.Some? && !parks then (s, false)
    else
      var parked := if s.code.Some? then Slots(None, s.prev, s.code) else s;
      if activates then (Slots(parked.prev, None, parked.hold), true) else (parked, false)
  }

  // _restore_parked_generation
  function AfterUndoing(m: Machine, u: Undoing): (Machine, bool) {
    var told := m.(live := AfterReport(m.live, u.report));
    if !u.parks then (told, false)
    else if !u.unparks || m.slots.hold.None? then (told.(slots := Slots(None, m.slots.code, m.slots.hold)), false)
    else
      var back := told.(slots := Slots(m.slots.hold, m.slots.code, None));
      var (live, ok) := Gated(back.live, m.slots.hold.value, PidOf(back.live.status, u.readable), u.gate);
      (back.(live := live), ok)
  }

  // The end of a rollback, once its gate has spoken: undo it, or drop the parked generation.
  function AfterVerdict(m: Machine, ok: bool, w: World): (RollbackExit, Machine) {
    if !ok then
      var (back, restored) := AfterUndoing(m, w.undoing);
      (if restored then Restored else RecoveryFailed, back)
    else if m.slots.hold.None? then (RolledBack, m)
    else if w.drops then (RolledBack, m.(slots := m.slots.(hold := None)))
    else (CommitFailed, m.(slots := m.slots.(hold := w.left)))
  }

  // From the reading of the pid on.
  function AfterSwitch(m: Machine, w: World): (RollbackExit, Machine)
    requires m.slots.prev.Some?
  {
    var (slots, active) := AfterActivating(m.slots, w.parks, w.activates);
    if !active then (HalfActivated, m.(slots := slots))
    else
      var (live, ok) := Gated(m.live, m.slots.prev.value, PidOf(m.live.status, w.readable), w.gate);
      AfterVerdict(m.(slots := slots, live := live), ok, w)
  }

  // rollback
  function AfterRollback(m: Machine, w: World): (RollbackExit, Machine) {
    if m.slots.hold.Some? || m.slots.prev.None? || !w.passes then (Refused, m)
    else
      var (retired, alone) := AfterRetiring(m, w.retiring);
      if !alone then (Refused, retired)
      else AfterSwitch(retired.(live := AfterReport(m.live, w.report)), w)
  }

  class Installer {
    var code: Option<Generation>
    var prev: Option<Generation>
    var hold: Option<Generation>
    var stage: Option<Generation>
    var job: Option<Job>
    var status: Option<Status>
    var legacyPlist: bool
    var legacyLoaded: bool
    var nextPid: int

    constructor (code: Option<Generation>, prev: Option<Generation>, stage: Option<Generation>, legacyPlist: bool, legacyLoaded: bool)
      ensures View() == Slots(code, prev, None) && this.stage == stage && Sane(Running())
    {
      this.code, this.prev, this.hold, this.stage := code, prev, None, stage;
      this.legacyPlist, this.legacyLoaded := legacyPlist, legacyLoaded;
      job, status, nextPid := None, None, 1;
    }

    function View(): Slots
      reads this
    {
      Slots(code, prev, hold)
    }

    function Running(): Live
      reads this
    {
      Live(job, status, nextPid)
    }

    function Now(): Machine
      reads this
    {
      Machine(View(), Running(), legacyPlist, legacyLoaded)
    }

    // The running supervisor may publish its status at any moment.
    method TimePasses(r: Option<Report>)
      modifies `status
      ensures Running() == AfterReport(old(Running()), r)
    {
      if r.Some? && job.Some? {
        status := Some(Status(Some(job.value.pid), r.value.stopping, r.value.contours, job.value.generation));
      }
    }

    method ReadPid(readable: bool) returns (pid: Option<int>)
      ensures pid == PidOf(status, readable)
    {
      pid := if readable && status.Some? then status.value.pid else None;
    }

    method Bootout(parting: Option<Report>, c: Call) returns (ok: bool)
      modifies `job, `status
      ensures Running() == AfterBootout(old(Running()), parting, c) && ok == c.Returns?
    {
      TimePasses(parting);
      if !c.RaisesBefore? { job := None; }
      ok := c.Returns?;
    }

    method Bootstrap(c: Call) returns (ok: bool)
      requires code.Some?
      modifies `job, `nextPid
      ensures Running() == AfterBootstrap(old(Running()), code.value, c) && ok == c.Returns?
    {
      if !c.RaisesBefore? {
        job := Some(Job(nextPid, code.value));
        nextPid := nextPid + 1;
      }
      ok := c.Returns?;
    }

    // _bootstrap_active: write the plist, boot the job out, bootstrap it on code/.
    method BootstrapActive(g: Gate) returns (ok: bool)
      requires code.Some?
      modifies `job, `nextPid, `status
      ensures (Running(), ok) == Bootstrapped(old(Running()), code.value, g)
    {
      if !g.written { return false; }
      ok := Bootout(g.parting, g.bootout);
      if !ok { return; }
      ok := Bootstrap(g.bootstrap);
    }

    // _await_supervisor_health: poll the status file until the deadline.
    method AwaitHealth(previousPid: Option<int>, polls: seq<Option<Report>>) returns (ok: bool)
      modifies `status
      ensures (Running(), ok) == Polled(old(Running()), previousPid, polls)
      ensures ok ==> Healthy(status, previousPid)
    {
      var i := 0;
      while true
        invariant 0 <= i <= |polls|
        invariant Polled(Running(), previousPid, polls[i..]) == Polled(old(Running()), previousPid, polls)
        decreases |polls| - i
      {
        TimePasses(if i < |polls| then polls[i] else None);
        if Healthy(status, previousPid) { return true; }
        if i == |polls| { return false; }
        assert polls[i..][1..] == polls[i + 1..];
        i := i + 1;
      }
    }

    // _capture_legacy and _retire_legacy: boot the legacy job out, verify, remove its plist.
    method RetireLegacy(r: Retiring) returns (ok: bool)
      modifies `legacyPlist, `legacyLoaded
      ensures (Now(), ok) == AfterRetiring(old(Now()), r)
      ensures ok ==> !legacyPlist && !legacyLoaded
    {
      if !r.readable { return false; }
      if !legacyLoaded && !legacyPlist { return true; }
      legacyLoaded := legacyLoaded && r.survives;
      if !r.bootedOut || legacyLoaded { return false; }
      if legacyPlist && !r.unlinks { return false; }
      legacyPlist := false;
      ok := true;
    }

    // _activate_previous: park the running generation, move code.prev into place.
    method ActivatePrevious(parks: bool, activates: bool) returns (ok: bool)
      requires prev.Some? && hold.None?
      modifies `code, `prev, `hold
      ensures (View(), ok) == AfterActivating(old(View()), parks, activates)
      ensures ok ==> View() == Slots(old(prev), None, old(code))
      ensures !ok ==> View() == old(View()) || (old(code).Some? && View() == Slots(None, old(prev), old(code)))
    {
      if code.Some? {
        if !parks { return false; }
        hold, code := code, None;
      }
      if activates { code, prev := prev, None; }
      ok := activates;
    }

    // The health gate after a bootstrap on code/.
    method ProveHealthy(previousPid: Option<int>, g: Gate) returns (ok: bool)
      requires Sane(Running()) && code.Some?
      modifies `job, `nextPid, `status
      ensures (Running(), ok) == Gated(old(Running()), code.value, previousPid, g) && Sane(Running())
      ensures ok ==> Healthy(status, previousPid)
      ensures ok && old(Trusted(Running(), code.value, previousPid)) ==> Vouches(Running(), code.value)
    {
      TrustedVerdict(Running(), code.value, previousPid, g);
      ok := BootstrapActive(g);
      if !ok || !g.loaded { return false; }
      ok := AwaitHealth(previousPid, g.polls);
    }

    // _restore_parked_generation
    method RestoreParked(u: Undoing) returns (ok: bool)
      requires Sane(Running()) && code.Some? && prev.None?
      modifies `code, `prev, `hold, `job, `nextPid, `status
      ensures (Now(), ok) == AfterUndoing(old(Now()), u) && Sane(Running())
      ensures ok ==> old(hold).Some? && View() == Slots(old(hold), old(code), None) && Healthy(status, None)
      ensures ok && old(Certain(Running(), hold.value, u.readable)) ==> Vouches(Running(), code.value)
      ensures !ok ==> || View() == old(View())
                      || View() == Slots(None, old(code), old(hold))
                      || (old(hold).Some? && View() == Slots(old(hold), old(code), None))
    {
      TimePasses(u.report);
      if hold.Some? { ReportKeepsCertain(old(Running()), hold.value, u.readable, u.report); }
      if !u.parks { return false; }
      code, prev := None, code;
      if !u.unparks || hold.None? { return false; }
      code, hold := hold, None;
      var pid := ReadPid(u.readable);
      ok := ProveHealthy(pid, u.gate);
    }

    method Rollback(w: World) returns (exit: RollbackExit)
      requires Sane(Running())
      modifies this
      ensures exit == AfterRollback(old(Now()), w).0 && Now() == AfterRollback(old(Now()), w).1
      ensures stage == old(stage) && Sane(Running())
      ensures RollbackLeaves(exit, old(View()), View())
      ensures exit.Refused? ==> job == old(job)
      ensures exit.RolledBack? ==> !legacyPlist && !legacyLoaded
      ensures Accepted(exit) ==> code.Some? && Healthy(status, None)
      ensures RollbackProves(exit, old(Now()), w, Running())
    {
      RollbackOutcome(Now(), w);
      if Ready(Now()) { RollbackOutcomeProves(Now(), w); }
      exit := Commanded(w);
    }

    method Commanded(w: World) returns (exit: RollbackExit)
      requires Sane(Running())
      modifies `code, `prev, `hold, `job, `nextPid, `status, `legacyPlist, `legacyLoaded
      ensures exit == AfterRollback(old(Now()), w).0 && Now() == AfterRollback(old(Now()), w).1
      ensures exit.RolledBack? ==> !legacyPlist && !legacyLoaded
    {
      if hold.Some? || prev.None? || !w.passes { return Refused; }
      var retired := RetireLegacy(w.retiring);
      if !retired { return Refused; }
      TimePasses(w.report);
      exit := Switch(w);
    }

    // rollback, from the reading of the pid on.
    method Switch(w: World) returns (exit: RollbackExit)
      requires Sane(Running()) && prev.Some? && hold.None?
      modifies `code, `prev, `hold, `job, `nextPid, `status
      ensures exit == AfterSwitch(old(Now()), w).0 && Now() == AfterSwitch(old(Now()), w).1
    {
      var pid := ReadPid(w.readable);
      var active := ActivatePrevious(w.parks, w.activates);
      if !active { return HalfActivated; }
      var healthy := ProveHealthy(pid, w.gate);
      exit := Conclude(healthy, w);
    }

    // rollback, once the gate has spoken.
    method Conclude(healthy: bool, w: World) returns (exit: RollbackExit)
      requires Sane(Running()) && code.Some? && prev.None?
      modifies `code, `prev, `hold, `job, `nextPid, `status
      ensures exit == AfterVerdict(old(Now()), healthy, w).0 && Now() == AfterVerdict(old(Now()), healthy, w).1
    {
      if !healthy {
        var restored := RestoreParked(w.undoing);
        return if restored then Restored else RecoveryFailed;
      }
      if hold.Some? {
        hold := if w.drops then None else w.left;
        if !w.drops { return CommitFailed; }
      }
      exit := RolledBack;
    }

    // _swap_code: drop code.prev, rename code to it, move the stage into place.
    method SwapCode(w: Swapping) returns (ok: bool)
      requires stage.Some?
      modifies `code, `prev, `stage
      ensures ok <==> Swaps(w, old(View()))
      ensures ok ==> code == old(stage) && prev == old(code)
      ensures old(code).Some? ==> code == old(code) || prev == old(code)
    {
      if prev.Some? {
        prev := if w.removes then None else w.leftPrev;
        if !w.removes { return false; }
      }
      if code.Some? {
        if !w.renames { return false; }
        prev, code := code, None;
      }
      if w.moves {
        code, stage := stage, None;
      } else {
        code, stage := w.leftCode, w.leftStage;
      }
      ok := w.moves;
    }

    // _restore_previous: remove the new code, put the copy in code.prev back. A restored
    // generation that fails its own preflight stays stopped.
    method RestorePrevious(had: bool, w: PuttingBack) returns (ok: bool)
      requires Sane(Running())
      modifies `code, `prev, `job, `nextPid, `status
      ensures Sane(Running())
      ensures ok <==> (old(code).Some? ==> w.removes) && (had && old(prev).Some? ==> w.moves)
      ensures !ok ==> prev == old(prev)
      ensures ok && had && old(prev).Some? ==> code == old(prev) && prev.None?
      ensures ok && had && old(prev).Some? && w.startable && Starts(w.gate) ==>
        job.Some? && job.value.generation == old(prev).value
      ensures ok && !(had && old(prev).Some?) ==> code.None? && prev == old(prev)
    {
      if code.Some? {
        code := if w.removes then None else w.left;
        if !w.removes { return false; }
      }
      if !had || prev.None? { return true; }
      if !w.moves { return false; }
      code, prev := prev, None;
      if w.startable { var started := BootstrapActive(w.gate); }
      ok := true;
    }

    // _restore_legacy swallows its own failures.
    method RestoreLegacy(hadPlist: bool, wasLoaded: bool, w: PuttingBack)
      modifies `legacyPlist, `legacyLoaded
      ensures legacyPlist == (old(legacyPlist) || (hadPlist && w.legacyWritten))
      ensures legacyLoaded == (old(legacyLoaded) || (hadPlist && w.legacyWritten && wasLoaded && w.legacyStarts))
    {
      if !hadPlist || !w.legacyWritten { return; }
      legacyPlist := true;
      if wasLoaded && w.legacyStarts { legacyLoaded := true; }
    }

    // The statements inside the try of install. The legacy job was captured before the swap.
    method Cutover(w: Cutting) returns (ok: bool)
      requires Sane(Running()) && code.Some?
      modifies `job, `nextPid, `status, `legacyPlist, `legacyLoaded
      ensures Sane(Running())
      ensures ok <==> CutsOver(w, old(legacyPlist), old(legacyLoaded))
      ensures (legacyPlist ==> old(legacyPlist)) && (legacyLoaded ==> old(legacyLoaded))
      ensures ok ==> job.Some? && job.value.generation == code.value && !legacyPlist && !legacyLoaded
    {
      if !w.written { return false; }
      ok := RetireLegacy(w.retiring.(readable := true));
      if !ok { return; }
      ok := Bootout(w.parting, w.bootout);
      if !ok { return; }
      ok := Bootstrap(w.bootstrap);
      ok := ok && w.loaded;
    }

    // install. Every exit is decided by the world, and says what is in the slots and what runs.
    method Install(w: InstallWorld) returns (exit: InstallExit)
      requires Sane(Running())
      modifies this
      ensures Sane(Running()) && hold == old(hold)
      ensures exit.NotStarted? <==> !(old(stage).Some? && w.passes && w.readable)
      ensures exit.SwapFailed? <==> !exit.NotStarted? && !Swaps(w.swap, old(View()))
      ensures exit.Installed? <==>
        !exit.NotStarted? && Swaps(w.swap, old(View())) && CutsOver(w.cut, old(legacyPlist), old(legacyLoaded))
      ensures exit.Undone? <==>
        && !exit.NotStarted? && Swaps(w.swap, old(View())) && !CutsOver(w.cut, old(legacyPlist), old(legacyLoaded))
        && PutsBack(w.back, old(code))
      ensures exit.NotStarted? ==> Now() == old(Now()) && stage == old(stage)
      ensures exit.Installed? ==>
        && code == old(stage) && prev == old(code)
        && job.Some? && job.value.generation == code.value && !legacyPlist && !legacyLoaded
      ensures exit.Undone? && old(code).Some? ==>
        && code == old(code) && prev.None?
        && (w.back.startable && Starts(w.back.gate) ==> job.Some? && job.value.generation == code.value)
      ensures exit.Undone? && old(code).None? ==>
        && code.None? && job.None?
        && (w.back.legacyWritten && w.back.legacyStarts && (old(legacyLoaded) ==> old(legacyPlist)) ==>
              legacyPlist == old(legacyPlist) && legacyLoaded == old(legacyLoaded))
      ensures old(code).Some? ==> code == old(code) || prev == old(code)
    {
      if stage.None? || !w.passes || !w.readable { return NotStarted; }
      var had, hadPlist, wasLoaded := code.Some?, legacyPlist, legacyLoaded;
      var swapped := SwapCode(w.swap);
      if !swapped { return SwapFailed; }
      var live := Cutover(w.cut);
      if live { return Installed; }
      var undone := RestorePrevious(had, w.back);
      if !undone { return UndoFailed; }
      if !had {
        var out := Bootout(w.back.parting, w.back.bootout);
        if !out { return UndoFailed; }
        RestoreLegacy(hadPlist, wasLoaded, w.back);
      }
      exit := Undone;
    }
  }

  // ---- what install needs of the world ----

  // The new code gets into place: a copy in code.prev is dropped, running code moves there.
  predicate Swaps(w: Swapping, before: Slots) {
    (before.prev.Some? ==> w.removes) && (before.code.Some? ==> w.renames) && w.moves
  }

  // The legacy job goes away: it does not survive its bootout and its plist can be removed.
  predicate Retires(r: Retiring, plist: bool, loaded: bool) {
    (!plist && !loaded) || (r.bootedOut && (loaded ==> !r.survives) && (plist ==> r.unlinks))
  }

  predicate CutsOver(w: Cutting, plist: bool, loaded: bool) {
    w.written && Retires(w.retiring, plist, loaded) && w.bootout.Returns? && w.bootstrap.Returns? && w.loaded
  }

  // The new code can be removed again; then the old copy moves back, or the new job is booted out.
  predicate PutsBack(w: PuttingBack, before: Option<Generation>) {
    w.removes && if before.Some? then w.moves else w.bootout.Returns?
  }

  predicate Starts(g: Gate) { g.written && g.bootout.Returns? && g.bootstrap.Returns? }

  // The directories at every exit of a rollback.
  predicate RollbackLeaves(exit: RollbackExit, before: Slots, after: Slots) {
    && (before.hold.Some? || before.prev.None? ==> exit.Refused?)
    && (!exit.RolledBack? && !exit.CommitFailed? ==> Kept(before, after))
    && match exit
       case Refused => after == before
       case HalfActivated => after == before || (before.code.Some? && after == Slots(None, before.prev, before.code))
       case RolledBack => after == Slots(before.prev, None, None)
       case CommitFailed => after.code == before.prev && after.prev.None? && before.code.Some?
       case Restored => before.code.Some? && after == before
       case RecoveryFailed =>
         || after == Slots(before.prev, None, before.code)
         || after == Slots(None, before.prev, before.code)
         || (before.code.Some? && after == before)
  }

  predicate Ready(m: Machine) { Sane(m.live) && m.slots.prev.Some? && m.slots.hold.None? }

  predicate Accepted(exit: RollbackExit) { exit.RolledBack? || exit.CommitFailed? || exit.Restored? }

  // ---- what a verdict proves ----

  // The status on disk was written by a supervisor of generation g.
  predicate Vouches(l: Live, g: Generation) { l.status.Some? && l.status.value.writer == g }

  // Before a gate: what is on disk is rejected or g's own, and so is whatever the supervisor
  // about to be replaced may still report.
  predicate Trusted(l: Live, g: Generation, pid: Option<int>) {
    && (Healthy(l.status, pid) ==> l.status.value.writer == g)
    && (l.job.None? || Some(l.job.value.pid) == pid || l.job.value.generation == g)
  }

  // What the last verdict of a rollback proves, from what can be looked up before the call.
  predicate RollbackProves(exit: RollbackExit, before: Machine, w: World, after: Live) {
    var target, running := before.slots.prev, before.slots.code;
    && ((exit.RolledBack? || exit.CommitFailed?) && target.Some? && Certain(before.live, target.value, w.readable) ==>
          Vouches(after, target.value))
    && (exit.Restored? && target.Some? && target == running && Certain(before.live, target.value, w.undoing.readable) ==>
          Vouches(after, target.value))
  }

  // Before the pid is read: a supervisor of another generation has reported and its report can be read,
  // or, when it cannot, neither that supervisor nor its report is there.
  predicate Certain(l: Live, g: Generation, readable: bool) {
    && (l.job.Some? && l.job.value.generation != g ==>
          readable && l.status.Some? && l.status.value.pid == Some(l.job.value.pid))
    && (!readable && Healthy(l.status, None) ==> l.status.value.writer == g)
  }

  lemma {:induction false} PollsVouch(l: Live, pid: Option<int>, polls: seq<Option<Report>>)
    requires l.job.Some? && (Healthy(l.status, pid) ==> Vouches(l, l.job.value.generation))
    ensures var (t, ok) := Polled(l, pid, polls);
      ok ==> Healthy(t.status, pid) && Vouches(t, l.job.value.generation)
    decreases |polls|
  {
    if polls != [] { PollsVouch(AfterReport(l, polls[0]), pid, polls[1..]); }
  }

  lemma {:induction false} PollsKeep(l: Live, pid: Option<int>, polls: seq<Option<Report>>)
    requires Sane(l)
    ensures var (t, ok) := Polled(l, pid, polls);
      && Sane(t) && t.job == l.job && (ok ==> Healthy(t.status, pid))
      && (t.status == l.status || (l.job.Some? && Vouches(t, l.job.value.generation) && t.status.value.pid == Some(l.job.value.pid)))
    decreases |polls|
  {
    if polls != [] { PollsKeep(AfterReport(l, polls[0]), pid, polls[1..]); }
  }

  lemma TrustedVerdict(l: Live, g: Generation, pid: Option<int>, gate: Gate)
    requires Sane(l)
    ensures var (t, ok) := Gated(l, g, pid, gate);
      Sane(t) && (ok ==> Healthy(t.status, pid)) && (ok && Trusted(l, g, pid) ==> Vouches(t, g))
  {
    var (up, ok) := Bootstrapped(l, g, gate);
    if ok {
      PollsKeep(up, pid, gate.polls);
      if Trusted(l, g, pid) { PollsVouch(up, pid, gate.polls); }
    }
  }

  // A world in which everything works and the replaced supervisor reports once more.
  function Smooth(parting: Option<Report>): Gate { Gate(true, parting, Returns, Returns, true, []) }

  // A verdict is the new generation's own, whatever the world does, exactly when it is trusted.
  lemma VerdictIsOwnExactlyWhen(l: Live, g: Generation, pid: Option<int>)
    requires Sane(l)
    ensures (forall gate: Gate :: Gated(l, g, pid, gate).1 ==> Vouches(Gated(l, g, pid, gate).0, g)) <==> Trusted(l, g, pid)
  {
    if Trusted(l, g, pid) {
      forall gate: Gate | Gated(l, g, pid, gate).1 ensures Vouches(Gated(l, g, pid, gate).0, g) {
        TrustedVerdict(l, g, pid, gate);
      }
    } else {
      var gate := MisleadingGate(l, g, pid);
      assert Gated(l, g, pid, gate).1 && !Vouches(Gated(l, g, pid, gate).0, g);
    }
  }

  // The status that passes is the one on disk, or a last report of the replaced supervisor.
  lemma MisleadingGate(l: Live, g: Generation, pid: Option<int>) returns (gate: Gate)
    requires !Trusted(l, g, pid)
    ensures Gated(l, g, pid, gate).1 && !Vouches(Gated(l, g, pid, gate).0, g)
  {
    if Healthy(l.status, pid) && l.status.value.writer != g {
      gate := Smooth(None);
    } else {
      gate := Smooth(Some(Report(false, [true])));
    }
  }

  lemma ReportKeepsCertain(l: Live, g: Generation, readable: bool, r: Option<Report>)
    requires Sane(l)
    ensures Sane(AfterReport(l, r)) && (Certain(l, g, readable) ==> Certain(AfterReport(l, r), g, readable))
    ensures Certain(l, g, readable) ==> Trusted(AfterReport(l, r), g, PidOf(AfterReport(l, r).status, readable))
  {
  }

  lemma GateKeepsCertain(l: Live, g: Generation, pid: Option<int>, gate: Gate, readable: bool)
    requires Sane(l)
    ensures Certain(l, g, readable) ==> Certain(Gated(l, g, pid, gate).0, g, readable)
  {
    var (up, ok) := Bootstrapped(l, g, gate);
    if ok { PollsKeep(up, pid, gate.polls); }
  }

  lemma UndoingOutcome(m: Machine, u: Undoing)
    requires Sane(m.live) && m.slots.code.Some?
    ensures var (t, ok) := AfterUndoing(m, u);
      && Sane(t.live)
      && (ok ==> m.slots.hold.Some? && t.slots == Slots(m.slots.hold, m.slots.code, None) && Healthy(t.live.status, None))
      && (!ok ==> || t.slots == m.slots
                  || t.slots == Slots(None, m.slots.code, m.slots.hold)
                  || (m.slots.hold.Some? && t.slots == Slots(m.slots.hold, m.slots.code, None)))
      && (ok && Certain(m.live, m.slots.hold.value, u.readable) ==> Vouches(t.live, m.slots.hold.value))
  {
    if m.slots.hold.Some? {
      var g, told := m.slots.hold.value, AfterReport(m.live, u.report);
      ReportKeepsCertain(m.live, g, u.readable, u.report);
      TrustedVerdict(told, g, PidOf(told.status, u.readable), u.gate);
    }
  }

  lemma VerdictOutcome(m: Machine, ok: bool, w: World)
    requires Sane(m.live) && m.slots.code.Some? && m.slots.prev.None? && (ok ==> Healthy(m.live.status, None))
    ensures var (exit, t) := AfterVerdict(m, ok, w);
      && Sane(t.live) && RollbackLeaves(exit, Slots(m.slots.hold, m.slots.code, None), t.slots)
      && (Accepted(exit) ==> Healthy(t.live.status, None))
  {
    UndoingOutcome(m, w.undoing);
  }

  lemma SwitchOutcome(m: Machine, w: World)
    requires Ready(m)
    ensures var (exit, t) := AfterSwitch(m, w);
      && Sane(t.live) && RollbackLeaves(exit, m.slots, t.slots)
      && (Accepted(exit) ==> Healthy(t.live.status, None))
  {
    var (slots, active) := AfterActivating(m.slots, w.parks, w.activates);
    if active {
      var g, pid := m.slots.prev.value, PidOf(m.live.status, w.readable);
      TrustedVerdict(m.live, g, pid, w.gate);
      var (live, ok) := Gated(m.live, g, pid, w.gate);
      VerdictOutcome(m.(slots := slots, live := live), ok, w);
    }
  }

  // What the verdicts prove: first of a target that is accepted ...
  lemma SwitchProvesTarget(m: Machine, w: World)
    requires Ready(m) && Certain(m.live, m.slots.prev.value, w.readable)
    ensures var (exit, t) := AfterSwitch(m, w);
      exit.RolledBack? || exit.CommitFailed? ==> Vouches(t.live, m.slots.prev.value)
  {
    var g, pid := m.slots.prev.value, PidOf(m.live.status, w.readable);
    ReportKeepsCertain(m.live, g, w.readable, None);
    TrustedVerdict(m.live, g, pid, w.gate);
  }

  // ... then of a generation that is put back.
  lemma SwitchProvesRestored(m: Machine, w: World)
    requires Ready(m) && m.slots.prev == m.slots.code && Certain(m.live, m.slots.prev.value, w.undoing.readable)
    ensures var (exit, t) := AfterSwitch(m, w);
      exit.Restored? ==> Vouches(t.live, m.slots.prev.value)
  {
    var (slots, active) := AfterActivating(m.slots, w.parks, w.activates);
    if active {
      var g, pid := m.slots.prev.value, PidOf(m.live.status, w.readable);
      TrustedVerdict(m.live, g, pid, w.gate);
      GateKeepsCertain(m.live, g, pid, w.gate, w.undoing.readable);
      var (live, ok) := Gated(m.live, g, pid, w.gate);
      UndoingOutcome(m.(slots := slots, live := live), w.undoing);
    }
  }

  lemma SwitchProves(m: Machine, w: World)
    requires Ready(m)
    ensures RollbackProves(AfterSwitch(m, w).0, m, w, AfterSwitch(m, w).1.live)
  {
    if Certain(m.live, m.slots.prev.value, w.readable) { SwitchProvesTarget(m, w); }
    if m.slots.prev == m.slots.code && Certain(m.live, m.slots.prev.value, w.undoing.readable) { SwitchProvesRestored(m, w); }
  }

  lemma RollbackOutcome(m: Machine, w: World)
    requires Sane(m.live)
    ensures var (exit, t) := AfterRollback(m, w);
      && Sane(t.live) && RollbackLeaves(exit, m.slots, t.slots)
      && (Accepted(exit) ==> Healthy(t.live.status, None))
  {
    var told := AfterRetiring(m, w.retiring).0.(live := AfterReport(m.live, w.report));
    if Ready(m) { SwitchOutcome(told, w); }
  }

  lemma RollbackOutcomeProves(m: Machine, w: World)
    requires Ready(m)
    ensures RollbackProves(AfterRollback(m, w).0, m, w, AfterRollback(m, w).1.live)
  {
    var g := m.slots.prev.value;
    var told := AfterRetiring(m, w.retiring).0.(live := AfterReport(m.live, w.report));
    ReportKeepsCertain(m.live, g, w.readable, w.report);
    ReportKeepsCertain(m.live, g, w.undoing.readable, w.report);
    SwitchProves(told, w);
  }

  // Undoing a rejected rollback re-proves the parked generation, whatever the world does,
  // exactly when the supervisor it replaces has been identified.
  lemma UndoingIsProvenExactlyWhen(m: Machine, readable: bool)
    requires Sane(m.live) && m.slots.code.Some? && m.slots.hold.Some?
    ensures (forall u: Undoing :: u.readable == readable && AfterUndoing(m, u).1 ==>
              Vouches(AfterUndoing(m, u).0.live, m.slots.hold.value))
      <==> Certain(m.live, m.slots.hold.value, readable)
  {
    var g := m.slots.hold.value;
    if Certain(m.live, g, readable) {
      forall u: Undoing | u.readable == readable && AfterUndoing(m, u).1
        ensures Vouches(AfterUndoing(m, u).0.live, g)
      {
        ReportKeepsCertain(m.live, g, readable, u.report);
        var told := AfterReport(m.live, u.report);
        TrustedVerdict(told, g, PidOf(told.status, readable), u.gate);
      }
    } else {
      var gate := MisleadingGate(m.live, g, PidOf(m.live.status, readable));
      var u := Undoing(None, true, true, readable, gate);
      assert AfterUndoing(m, u).1 && !Vouches(AfterUndoing(m, u).0.live, g);
    }
  }

  const RETIRES := Retiring(true, true, false, true)

  // A world that takes a rollback to its gate without a hitch.
  function UpTo(gate: Gate, readable: bool, undoing: Undoing): World {
    World(true, RETIRES, None, readable, true, true, gate, undoing, true, None)
  }

  // A rollback proves its target, whatever the world does, exactly when the supervisor it replaces
  // has been identified.
  lemma RollbackIsProvenExactlyWhen(m: Machine, readable: bool)
    requires Ready(m)
    ensures (forall w: World :: w.readable == readable && AfterRollback(m, w).0.RolledBack? ==>
              Vouches(AfterRollback(m, w).1.live, m.slots.prev.value))
      <==> Certain(m.live, m.slots.prev.value, readable)
  {
    var g := m.slots.prev.value;
    if Certain(m.live, g, readable) {
      forall w: World | w.readable == readable && AfterRollback(m, w).0.RolledBack?
        ensures Vouches(AfterRollback(m, w).1.live, g)
      {
        RollbackOutcomeProves(m, w);
      }
    } else {
      var gate := MisleadingGate(m.live, g, PidOf(m.live.status, readable));
      var w := UpTo(gate, readable, Undoing(None, false, false, false, gate));
      assert AfterRollback(m, w).0.RolledBack? && !Vouches(AfterRollback(m, w).1.live, g);
    }
  }

  // The target is loaded but has not reported when its rollback is rejected, so the pid read then
  // is not its own; it reports before its bootout.
  function LateReport(again: bool): World {
    UpTo(Smooth(None).(loaded := false), true,
         Undoing(None, true, true, again, Smooth(Some(Report(false, [true])))))
  }

  // Every rollback between two generations can end like this: the old code is back and declared
  // healthy on the word of the target that was just rejected.
  lemma RejectedReportsLate(m: Machine, again: bool)
    requires Ready(m) && m.slots.code.Some?
    ensures var (exit, t) := AfterRollback(m, LateReport(again));
      exit.Restored? && t.slots == m.slots && Healthy(t.live.status, None) && Vouches(t.live, m.slots.prev.value)
  {
  }

  // A restored generation is re-proven, whatever the world does, only when it is the very one
  // that was rejected: otherwise the rejected supervisor may still be the one that reports.
  lemma RestoredIsProvenExactlyWhen(m: Machine, again: bool)
    requires Ready(m) && m.slots.code.Some?
    ensures (forall w: World :: w.undoing.readable == again && AfterRollback(m, w).0.Restored? ==>
              Vouches(AfterRollback(m, w).1.live, m.slots.code.value))
      <==> m.slots.prev == m.slots.code && Certain(m.live, m.slots.code.value, again)
  {
    var g := m.slots.code.value;
    if m.slots.prev != m.slots.code {
      RejectedReportsLate(m, again);
    } else if Certain(m.live, g, again) {
      forall w: World | w.undoing.readable == again && AfterRollback(m, w).0.Restored?
        ensures Vouches(AfterRollback(m, w).1.live, g)
      {
        RollbackOutcomeProves(m, w);
      }
    } else {
      var gate := MisleadingGate(m.live, g, PidOf(m.live.status, again));
      var w := UpTo(Smooth(None).(written := false), true, Undoing(None, true, true, again, gate));
      assert AfterRollback(m, w).0.Restored? && !Vouches(AfterRollback(m, w).1.live, g);
    }
  }
}
