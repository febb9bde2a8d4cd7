// When a command of the runtime installer gets through: the exact worlds in which a health gate
// accepts and a rollback ends the one way or the other.
module RuntimeVerdicts {
  import opened Prelude
  import opened RuntimeRollback

  // ---- the gate ----

  // A report of a supervisor that is up: not stopping, with contours, all of them running.
  predicate AllRunning(r: Report) {
    !r.stopping && |r.contours| > 0 && forall i :: 0 <= i < |r.contours| ==> r.contours[i]
  }

  // A status file that is not the replaced supervisor's and says that all is running.
  predicate StillPasses(s: Option<Status>, previousPid: Option<int>) {
    && s.Some? && s.value.pid.Some? && s.value.pid != previousPid
    && AllRunning(Report(s.value.stopping, s.value.contours))
  }

  // The new supervisor reports that all is running before some poll, or the file that was there when
  // polling began passes and nothing was written over it before the first poll.
  predicate GetsAccepted(on: Option<Status>, pid: int, previousPid: Option<int>, polls: seq<Option<Report>>) {
    || (Some(pid) != previousPid && exists i :: 0 <= i < |polls| && polls[i].Some? && AllRunning(polls[i].value))
    || (StillPasses(on, previousPid) && (polls == [] || polls[0].None?))
  }

  lemma {:induction false} PollsAcceptExactlyWhen(l: Live, pid: Option<int>, polls: seq<Option<Report>>)
    requires l.job.Some?
    ensures Polled(l, pid, polls).1 <==> GetsAccepted(l.status, l.job.value.pid, pid, polls)
    decreases |polls|
  {
    if polls != [] {
      var told := AfterReport(l, polls[0]);
      PollsAcceptExactlyWhen(told, pid, polls[1..]);
      if exists i :: 0 <= i < |polls| && polls[i].Some? && AllRunning(polls[i].value) {
        var i :| 0 <= i < |polls| && polls[i].Some? && AllRunning(polls[i].value);
        if i > 0 { assert polls[1..][i - 1] == polls[i]; }
      }
      if polls[0].Some? { assert StillPasses(told.status, pid) <==> Some(l.job.value.pid) != pid && AllRunning(polls[0].value); }
    }
  }

  // The status file when the new supervisor starts: the replaced one may have reported once more.
  function AtStart(l: Live, parting: Option<Report>): Option<Status> { AfterReport(l, parting).status }

  // A health gate accepts exactly when the new job starts, stays loaded and gets accepted.
  lemma GateAcceptsExactlyWhen(l: Live, g: Generation, pid: Option<int>, gate: Gate)
    ensures Gated(l, g, pid, gate).1
      <==> Starts(gate) && gate.loaded && GetsAccepted(AtStart(l, gate.parting), l.nextPid, pid, gate.polls)
    ensures Gated(l, g, pid, gate).1 ==> Gated(l, g, pid, gate).0.job == Some(Job(l.nextPid, g))
  {
    var (up, ok) := Bootstrapped(l, g, gate);
    if ok {
      PollsAcceptExactlyWhen(up, pid, gate.polls);
      PollsKeepJob(up, pid, gate.polls);
    }
  }

  lemma {:induction false} PollsKeepJob(l: Live, pid: Option<int>, polls: seq<Option<Report>>)
    ensures Polled(l, pid, polls).0.job == l.job
    decreases |polls|
  {
    if polls != [] { PollsKeepJob(AfterReport(l, polls[0]), pid, polls[1..]); }
  }

  // A supervisor that comes up and says so at any later poll is accepted: its process is new.
  lemma HealthyReportIsAccepted(l: Live, g: Generation, readable: bool, gate: Gate, i: nat)
    requires Sane(l) && Starts(gate) && gate.loaded
    requires i < |gate.polls| && gate.polls[i].Some? && AllRunning(gate.polls[i].value)
    ensures Gated(l, g, PidOf(l.status, readable), gate).1
  {
    GateAcceptsExactlyWhen(l, g, PidOf(l.status, readable), gate);
  }

  // ---- the rollback ----

  // Nothing stands between the command and its gate.
  predicate GetsToItsGate(m: Machine, w: World) {
    && m.slots.prev.Some? && m.slots.hold.None? && w.passes
    && w.retiring.readable && Retires(w.retiring, m.legacyPlist, m.legacyLoaded)
    && (m.slots.code.Some? ==> w.parks) && w.activates
  }

  // What the world is like when the gate of the target, or of the parked generation, is entered.
  function AtGate(m: Machine, w: World): Live { AfterReport(m.live, w.report) }

  predicate TargetAccepted(m: Machine, w: World) {
    var l := AtGate(m, w);
    && Starts(w.gate) && w.gate.loaded
    && GetsAccepted(AtStart(l, w.gate.parting), l.nextPid, PidOf(l.status, w.readable), w.gate.polls)
  }

  // A rollback keeps its target exactly when it gets to its gate and the target is accepted there;
  // then the target runs, and only a parked copy that cannot be dropped makes it end in an error.
  lemma RollbackSucceedsExactlyWhen(m: Machine, w: World)
    requires Sane(m.live)
    ensures var (exit, t) := AfterRollback(m, w);
      && (exit.RolledBack? || exit.CommitFailed? <==> GetsToItsGate(m, w) && TargetAccepted(m, w))
      && (exit.CommitFailed? ==> m.slots.code.Some? && !w.drops)
      && (exit.RolledBack? && m.slots.code.Some? ==> w.drops)
      && (exit.RolledBack? || exit.CommitFailed? ==>
            t.live.job == Some(Job(m.live.nextPid, m.slots.prev.value)) && !t.legacyPlist && !t.legacyLoaded)
  {
    hide GetsAccepted, Gated;
    if m.slots.prev.Some? {
      var l := AtGate(m, w);
      GateAcceptsExactlyWhen(l, m.slots.prev.value, PidOf(l.status, w.readable), w.gate);
    }
  }

  // The exits before the gate.
  lemma RollbackStopsExactlyWhen(m: Machine, w: World)
    requires Sane(m.live)
    ensures var (exit, t) := AfterRollback(m, w);
      && (exit.Refused? <==>
            || m.slots.prev.None? || m.slots.hold.Some? || !w.passes
            || !w.retiring.readable || !Retires(w.retiring, m.legacyPlist, m.legacyLoaded))
      && (exit.HalfActivated? <==> !exit.Refused? && !GetsToItsGate(m, w))
  {
  }

  // A rejected rollback whose undoing finds a supervisor that says all is running puts the parked
  // generation back.
  lemma RejectedIsUndone(m: Machine, w: World, i: nat)
    requires Sane(m.live) && m.slots.code.Some? && GetsToItsGate(m, w) && !TargetAccepted(m, w)
    requires var u := w.undoing;
      && u.parks && u.unparks && Starts(u.gate) && u.gate.loaded
      && i < |u.gate.polls| && u.gate.polls[i].Some? && AllRunning(u.gate.polls[i].value)
    ensures var (exit, t) := AfterRollback(m, w);
      exit.Restored? && t.slots == m.slots && t.live.job.Some? && t.live.job.value.generation == m.slots.code.value
  {
    var l, target := AtGate(m, w), m.slots.prev.value;
    var pid := PidOf(l.status, w.readable);
    GateAcceptsExactlyWhen(l, target, pid, w.gate);
    TrustedVerdict(l, target, pid, w.gate);
    var after := AfterReport(Gated(l, target, pid, w.gate).0, w.undoing.report);
    HealthyReportIsAccepted(after, m.slots.code.value, w.undoing.readable, w.undoing.gate, i);
    GateAcceptsExactlyWhen(after, m.slots.code.value, PidOf(after.status, w.undoing.readable), w.undoing.gate);
  }
}
