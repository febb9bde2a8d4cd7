// What every interleaving of collections and credential changes keeps.
module CollectorTheorems {
  import opened Prelude
  import opened HandoffHost
  import opened WorkerStore
  import opened CollectorSystem

  // A credential change needs the fence, so no job of that tenant is between confirming and reporting.
  lemma ChangeKeeps(s: System, u: UserId, epoch: nat, revoked: bool, w: Worker)
    requires Inv(s) && Free(s, u)
    requires u in w.versions && w.versions[u].epoch == epoch
    requires (u in s.worker.versions ==> s.worker.versions[u].epoch <= epoch) && (revoked ==> w.versions[u].revoked)
    requires u in s.worker.versions && s.worker.versions[u].epoch == epoch ==> w.versions[u].revoked == s.worker.versions[u].revoked
    requires forall v :: v != u ==>
      && (v in w.versions <==> v in s.worker.versions) && (v in w.versions ==> w.versions[v] == s.worker.versions[v])
      && (v in w.credentials <==> v in s.worker.credentials) && (v in w.credentials ==> w.credentials[v] == s.worker.credentials[v])
    ensures Inv(Log(s.(worker := w), Changed(u, epoch, revoked)))
  {
    var event := Changed(u, epoch, revoked);
    var next := Log(s.(worker := w), event);
    forall j | j in next.jobs ensures JobTrue(next, j) {
      assert JobTrue(s, j);
      if s.jobs[j].user != u { QuietStays(s.log, j, s.jobs[j].user, s.jobs[j].epoch, event); }
    }
    PublishesStay(s, event);
    ReportsStay(s.log, event);
    assert FencesHeld(next);
  }

  lemma StoreKeeps(s: System, u: UserId, url: string, workspace: Option<string>, token: string, epoch: nat)
    requires Inv(s)
    ensures Inv(Next(s, Store(u, url, workspace, token, epoch)))
  {
    var (w, r) := StoreToken(s.worker, u, url, workspace, token, epoch);
    if Free(s, u) && r.Accepted? {
      ChangeKeeps(s, u, epoch, false, w);
    }
  }

  lemma DeleteKeeps(s: System, u: UserId, epoch: nat)
    requires Inv(s)
    ensures Inv(Next(s, Delete(u, epoch)))
  {
    var (w, ok) := DeleteConnection(s.worker, u, epoch);
    if Free(s, u) && ok {
      ChangeKeeps(s, u, epoch, true, w);
    }
  }

  lemma BeginKeeps(s: System, j: JobId, u: UserId)
    requires Inv(s)
    ensures Inv(Next(s, Begin(j, u)))
  {
    var next := Next(s, Begin(j, u));
    forall k | k in next.jobs ensures JobTrue(next, k) {
      if k in s.jobs && next.jobs[k] == s.jobs[k] { assert JobTrue(s, k); }
    }
    assert FencesHeld(next);
  }

  // A job step that only moves the job outside the fence and appends to the log.
  lemma MovesKeeps(s: System, j: JobId, p: Phase)
    requires Inv(s) && j in s.jobs && !InFence(s.jobs[j].phase) && !InFence(p)
    ensures Inv(At(s, j, p))
  {
    var next := At(s, j, p);
    forall k | k in next.jobs ensures JobTrue(next, k) { assert JobTrue(s, k); }
    assert FencesHeld(next);
  }

  // Appending an event that changes no credential and publishes nothing.
  lemma LogKeeps(s: System, event: Event)
    requires Inv(s) && !event.Changed? && !event.Published?
    requires event.Reported? && event.outcome.Collected? ==> CleanedSince(s.log, event.job, event.user, event.epoch)
    ensures Inv(Log(s, event))
  {
    var next := Log(s, event);
    forall k | k in next.jobs ensures JobTrue(next, k) {
      assert JobTrue(s, k);
      QuietStays(s.log, k, s.jobs[k].user, s.jobs[k].epoch, event);
    }
    PublishesStay(s, event);
    ReportsStay(s.log, event);
  }

  // A job step inside the fence, the log unchanged.
  lemma InsideKeeps(s: System, j: JobId, p: Phase)
    requires Inv(s) && j in s.jobs && InFence(s.jobs[j].phase) && InFence(p)
    requires JobTrue(At(s, j, p), j)
    ensures Inv(At(s, j, p))
  {
    var next := At(s, j, p);
    forall k | k in next.jobs ensures JobTrue(next, k) {
      if k != j { assert JobTrue(s, k); }
    }
    assert FencesHeld(next);
  }

  lemma LeaveKeeps(s: System, j: JobId)
    requires Inv(s) && j in s.jobs && InFence(s.jobs[j].phase)
    ensures Inv(At(s, j, Over).(fences := s.fences - {s.jobs[j].user}))
  {
    var next := At(s, j, Over).(fences := s.fences - {s.jobs[j].user});
    forall k | k in next.jobs ensures JobTrue(next, k) {
      if k != j { assert JobTrue(s, k); }
    }
    assert FencesHeld(next);
  }

  lemma AcquireKeeps(s: System, j: JobId)
    requires Inv(s) && j in s.jobs && s.jobs[j].phase.Driven? && Free(s, s.jobs[j].user)
    ensures Inv(At(s, j, Fenced).(fences := s.fences[s.jobs[j].user := j]))
  {
    var next := At(s, j, Fenced).(fences := s.fences[s.jobs[j].user := j]);
    forall k | k in next.jobs ensures JobTrue(next, k) {
      if k != j { assert JobTrue(s, k); }
    }
    assert FencesHeld(next);
  }

  // Publishing happens under the fence, with the version just confirmed.
  lemma PublishKeeps(s: System, j: JobId, succeeds: bool)
    requires Inv(s) && j in s.jobs && s.jobs[j].phase.Confirmed?
    ensures Inv(Next(s, Publish(j, succeeds)))
  {
    var x := s.jobs[j];
    var event := Published(j, x.user, x.epoch, succeeds);
    var next := Next(s, Publish(j, succeeds));
    assert JobTrue(s, j);
    forall k | k in next.jobs ensures JobTrue(next, k) {
      if k == j {
        if succeeds { PublishStarts(s.log, j, x.user, x.epoch); }
      } else {
        assert JobTrue(s, k);
        QuietStays(s.log, k, s.jobs[k].user, s.jobs[k].epoch, event);
      }
    }
    PublishesStay(s, event);
    ReportsStay(s.log, event);
    assert FencesHeld(next);
  }

  lemma CleanUpKeeps(s: System, j: JobId, succeeds: bool)
    requires Inv(s) && j in s.jobs && s.jobs[j].phase.Settled?
    ensures Inv(Next(s, CleanUp(j, succeeds)))
  {
    var x := s.jobs[j];
    var event := CleanedUp(j, succeeds);
    var next := Next(s, CleanUp(j, succeeds));
    assert JobTrue(s, j);
    forall k | k in next.jobs ensures JobTrue(next, k) {
      if k == j {
        if succeeds && x.phase.outcome.Collected? { CleanupFollows(s.log, j, x.user, x.epoch); }
      } else {
        assert JobTrue(s, k);
        QuietStays(s.log, k, s.jobs[k].user, s.jobs[k].epoch, event);
      }
    }
    PublishesStay(s, event);
    ReportsStay(s.log, event);
    assert FencesHeld(next);
  }

  lemma TellKeeps(s: System, j: JobId)
    requires Inv(s) && j in s.jobs && s.jobs[j].phase.Cleaned?
    ensures Inv(Next(s, Tell(j)))
  {
    var x := s.jobs[j];
    assert JobTrue(s, j);
    InsideKeeps(s, j, Told);
    if !x.phase.outcome.Skipped? {
      LogKeeps(At(s, j, Told), Reported(j, x.user, x.epoch, x.phase.outcome));
    }
  }

  lemma JobStepKeeps(s: System, step: Step, j: JobId)
    requires Inv(s) && IsJobStep(step) && step.job == j && j in s.jobs
    ensures Inv(Next(s, step))
  {
    hide Inv;
    var x := s.jobs[j];
    match step
    case Check(_, cleans) =>
      if Next(s, step) != s {
        MovesKeeps(s, j, Over);
        LogKeeps(At(s, j, Over), CleanedUp(j, cleans));
      }
    case Enter(_) => if Next(s, step) != s { MovesKeeps(s, j, Entered); }
    case Drive(_) => if Next(s, step) != s { MovesKeeps(s, j, Driven); }
    case GiveUp(_, cleans) =>
      if x.phase.Begun? || x.phase.Entered? || x.phase.Driven? {
        MovesKeeps(s, j, Over);
        LogKeeps(At(s, j, Over), CleanedUp(j, cleans));
        LogKeeps(Log(At(s, j, Over), CleanedUp(j, cleans)), Reported(j, x.user, x.epoch, Failed));
      }
    case NoProfile(_) =>
      if x.phase.Begun? {
        MovesKeeps(s, j, Over);
        LogKeeps(At(s, j, Over), Reported(j, x.user, x.epoch, Failed));
      }
    case Acquire(_) => if x.phase.Driven? && Free(s, x.user) { AcquireKeeps(s, j); }
    case Confirm(_) =>
      if x.phase.Fenced? { InsideKeeps(s, j, if IsCurrent(s.worker, x.user, x.epoch) then Confirmed else Settled(Skipped)); }
    case Publish(_, succeeds) => if x.phase.Confirmed? { PublishKeeps(s, j, succeeds); }
    case CleanUp(_, succeeds) => if x.phase.Settled? { CleanUpKeeps(s, j, succeeds); }
    case Tell(_) => if x.phase.Cleaned? { TellKeeps(s, j); }
    case Release(_) => if x.phase.Told? { LeaveKeeps(s, j); }
    case Abort(_) => if InFence(x.phase) { LeaveKeeps(s, j); } else { MovesKeeps(s, j, Over); }
  }

  lemma StepKeeps(s: System, step: Step)
    requires Inv(s)
    ensures Inv(Next(s, step))
  {
    match step
    case Store(u, url, workspace, token, epoch) => StoreKeeps(s, u, url, workspace, token, epoch);
    case Delete(u, epoch) => DeleteKeeps(s, u, epoch);
    case Begin(j, u) => BeginKeeps(s, j, u);
    case _ => if step.job in s.jobs { JobStepKeeps(s, step, step.job); }
  }

  lemma {:induction false} RunKeeps(s: System, steps: seq<Step>)
    requires Inv(s)
    ensures Inv(Exec(s, steps))
  {
    if steps != [] {
      RunKeeps(s, steps[..|steps| - 1]);
      StepKeeps(Exec(s, steps[..|steps| - 1]), steps[|steps| - 1]);
    }
  }

  // No interleaving publishes data for an epoch after a newer store, or a delete of the same
  // or a newer epoch, has completed.
  lemma NoStalePublish(steps: seq<Step>, i: nat, k: nat)
    requires var log := Exec(INITIAL, steps).log;
      i < k < |log| && log[k].Published? && log[i].Changed? && log[i].user == log[k].user
    ensures var log := Exec(INITIAL, steps).log;
      log[i].epoch <= log[k].epoch && (log[i].revoked ==> log[i].epoch < log[k].epoch)
  {
    RunKeeps(INITIAL, steps);
  }

  // An attempt is reported as collected only after it published under the epoch it reports
  // and then cleaned up, with no credential change of that tenant since the publish.
  lemma CollectedMeansPublishedAndClean(steps: seq<Step>, k: nat)
    requires var log := Exec(INITIAL, steps).log; k < |log| && log[k].Reported? && log[k].outcome.Collected?
    ensures var log := Exec(INITIAL, steps).log;
      exists i, c :: 0 <= i < c < k && log[i] == Published(log[k].job, log[k].user, log[k].epoch, true)
        && log[c] == CleanedUp(log[k].job, true)
        && forall n :: i <= n < k ==> !Touches(log[n], log[k].user)
  {
    RunKeeps(INITIAL, steps);
    var log := Exec(INITIAL, steps).log;
    var u := log[k].user;
    var i, c :| 0 <= i < c < k && log[..k][i] == Published(log[k].job, u, log[k].epoch, true)
                && log[..k][c] == CleanedUp(log[k].job, true) && QuietSince(log[..k], i, u);
    assert log[i] == log[..k][i] && log[c] == log[..k][c];
    forall n | i <= n < k ensures !Touches(log[n], u) { assert log[n] == log[..k][n]; }
  }

  // ---- what the fence is for ----

  // u's credential is the one it was, version and contents, and nothing logged since changed it.
  ghost predicate Frozen(s: System, t: System, u: UserId) {
    && (u in t.worker.versions <==> u in s.worker.versions)
    && (u in s.worker.versions ==> t.worker.versions[u] == s.worker.versions[u])
    && (u in t.worker.credentials <==> u in s.worker.credentials)
    && (u in s.worker.credentials ==> t.worker.credentials[u] == s.worker.credentials[u])
    && s.log <= t.log && QuietSince(t.log, |s.log|, u)
  }

  ghost predicate Inside(s: System, j: JobId) { j in s.jobs && InFence(s.jobs[j].phase) }

  // A job keeps its tenant; once out of the fence it never comes back.
  ghost predicate Steady(s: System, t: System, j: JobId) {
    && j in s.jobs && j in t.jobs && t.jobs[j].user == s.jobs[j].user
    && (InFence(s.jobs[j].phase) ==> InFence(t.jobs[j].phase) || t.jobs[j].phase.Over?)
    && (s.jobs[j].phase.Over? ==> t.jobs[j].phase.Over?)
  }

  lemma SteadyStep(s: System, step: Step, j: JobId)
    requires j in s.jobs
    ensures Steady(s, Next(s, step), j)
  {
  }

  lemma SteadyJoins(s: System, t: System, e: System, j: JobId)
    requires Steady(s, t, j) && Steady(t, e, j)
    ensures Steady(s, e, j)
  {
  }

  lemma {:induction false} SteadyRun(s: System, more: seq<Step>, j: JobId)
    requires j in s.jobs
    ensures Steady(s, Exec(s, more), j)
  {
    if more != [] {
      var k := |more| - 1;
      SteadyRun(s, more[..k], j);
      SteadyStep(Exec(s, more[..k]), more[k], j);
      SteadyJoins(s, Exec(s, more[..k]), Exec(s, more), j);
    }
  }

  lemma FrozenStep(s: System, step: Step, j: JobId)
    requires Inv(s) && Inside(s, j)
    ensures Frozen(s, Next(s, step), s.jobs[j].user)
  {
    var u := s.jobs[j].user;
    assert !Free(s, u);
    if step.Store? || step.Delete? { OthersFrozen(s, step, u); }
  }

  // A store or a delete that takes effect is of a tenant whose fence is free.
  lemma OthersFrozen(s: System, step: Step, u: UserId)
    requires !Free(s, u) && (step.Store? || step.Delete?)
    ensures Frozen(s, Next(s, step), u)
  {
  }

  lemma FrozenJoins(s: System, t: System, e: System, u: UserId)
    requires Frozen(s, t, u) && Frozen(t, e, u)
    ensures Frozen(s, e, u)
  {
    forall n | |s.log| <= n < |e.log| ensures !Touches(e.log[n], u) {
      if n < |t.log| { assert e.log[n] == t.log[n]; }
    }
  }

  // From one moment of an attempt inside the fence to any later one, whatever anybody does in
  // between, its tenant's credential does not change.
  lemma {:induction false} FenceFreezes(s: System, more: seq<Step>, j: JobId)
    requires Inv(s) && Inside(s, j) && Inside(Exec(s, more), j)
    ensures Frozen(s, Exec(s, more), s.jobs[j].user)
  {
    if more != [] {
      var k := |more| - 1;
      var mid := Exec(s, more[..k]);
      SteadyRun(s, more[..k], j);
      SteadyStep(mid, more[k], j);
      FenceFreezes(s, more[..k], j);
      RunKeeps(s, more[..k]);
      FrozenStep(mid, more[k], j);
      FrozenJoins(s, mid, Exec(s, more), s.jobs[j].user);
    }
  }

  // At most one attempt of a tenant is inside the fence.
  lemma FenceExcludes(steps: seq<Step>, j: JobId, k: JobId)
    requires var s := Exec(INITIAL, steps);
      && j in s.jobs && InFence(s.jobs[j].phase)
      && k in s.jobs && InFence(s.jobs[k].phase) && s.jobs[k].user == s.jobs[j].user
    ensures k == j
  {
    RunKeeps(INITIAL, steps);
  }
}
