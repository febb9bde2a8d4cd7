// The worker's collector (aistat/collector.py) beside the token sync that stores and deletes
// credentials: a system of interleaved steps in which the per-tenant credential fence of
// aistat/worker_store.py is a lock.
module CollectorSystem {
  import opened Prelude
  import opened HandoffHost
  import opened WorkerStore

  type JobId = nat

  datatype Outcome = Collected | Failed | Skipped

  // Where a collection attempt stands. From Fenced to Told it holds the tenant's fence.
  datatype Phase =
    | Begun
    | Entered
    | Driven
    | Fenced
    | Confirmed
    | Settled(outcome: Outcome)
    | Cleaned(outcome: Outcome)
    | Told
    | Over

  datatype Job = Job(user: UserId, epoch: nat, phase: Phase)

  datatype Event =
    | Changed(user: UserId, epoch: nat, revoked: bool)
    | Published(job: JobId, user: UserId, epoch: nat, ok: bool)
    | CleanedUp(job: JobId, ok: bool)
    | Reported(job: JobId, user: UserId, epoch: nat, outcome: Outcome)

  datatype System = System(worker: Worker, fences: map<UserId, JobId>, jobs: map<JobId, Job>, log: seq<Event>)

  datatype Step =
    | Store(user: UserId, url: string, workspace: Option<string>, token: string, epoch: nat)
    | Delete(user: UserId, epoch: nat)
    | Begin(job: JobId, user: UserId)
    | Check(job: JobId, cleans: bool)
    | Enter(job: JobId)
    | Drive(job: JobId)
    | GiveUp(job: JobId, cleans: bool)
    | NoProfile(job: JobId)
    | Acquire(job: JobId)
    | Confirm(job: JobId)
    | Publish(job: JobId, succeeds: bool)
    | CleanUp(job: JobId, succeeds: bool)
    | Tell(job: JobId)
    | Release(job: JobId)
    | Abort(job: JobId)

  predicate InFence(p: Phase) { p.Fenced? || p.Confirmed? || p.Settled? || p.Cleaned? || p.Told? }

  function At(s: System, j: JobId, p: Phase): System
    requires j in s.jobs
  {
    s.(jobs := s.jobs[j := s.jobs[j].(phase := p)])
  }

  function Log(s: System, e: Event): System { s.(log := s.log + [e]) }

  function Free(s: System, u: UserId): bool { u !in s.fences }

  // A step of a job that has no turn in its phase, or that waits for a fence, changes nothing.
  function Next(s: System, step: Step): System {
    match step
    case Store(u, url, workspace, token, epoch) =>
      if !Free(s, u) then s
      else
        var (w, r) := StoreToken(s.worker, u, url, workspace, token, epoch);
        if r.Accepted? then Log(s.(worker := w), Changed(u, epoch, false)) else s
    case Delete(u, epoch) =>
      if !Free(s, u) then s
      else
        var (w, ok) := DeleteConnection(s.worker, u, epoch);
        if ok then Log(s.(worker := w), Changed(u, epoch, true)) else s
    case Begin(j, u) =>
      if j in s.jobs || !Free(s, u) || u !in s.worker.credentials then s
      else s.(jobs := s.jobs[j := Job(u, s.worker.credentials[u].epoch, Begun)])
    case _ => if step.job in s.jobs then JobStep(s, step, step.job, s.jobs[step.job]) else s
  }

  predicate IsJobStep(step: Step) { !step.Store? && !step.Delete? && !step.Begin? }

  function JobStep(s: System, step: Step, j: JobId, x: Job): System
    requires IsJobStep(step) && j == step.job && j in s.jobs && x == s.jobs[j]
  {
    match step
    // _credential_is_current: a stale version ends the attempt without a report
    case Check(_, cleans) =>
      if !(x.phase.Begun? || x.phase.Entered?) || !Free(s, x.user) || IsCurrent(s.worker, x.user, x.epoch) then s
      else Log(At(s, j, Over), CleanedUp(j, cleans))
    case Enter(_) =>
      if x.phase.Begun? && Free(s, x.user) && IsCurrent(s.worker, x.user, x.epoch) then At(s, j, Entered) else s
    // login, workspace and poll, and the check that follows them
    case Drive(_) =>
      if x.phase.Entered? && Free(s, x.user) && IsCurrent(s.worker, x.user, x.epoch) then At(s, j, Driven) else s
    // any failure before the fence: clean up, report it as failed
    case GiveUp(_, cleans) =>
      if x.phase.Begun? || x.phase.Entered? || x.phase.Driven? then
        Log(Log(At(s, j, Over), CleanedUp(j, cleans)), Reported(j, x.user, x.epoch, Failed))
      else s
    // the profile could not even be created: nothing to clean up
    case NoProfile(_) =>
      if x.phase.Begun? then Log(At(s, j, Over), Reported(j, x.user, x.epoch, Failed)) else s
    case Acquire(_) =>
      if x.phase.Driven? && Free(s, x.user) then At(s, j, Fenced).(fences := s.fences[x.user := j]) else s
    case Confirm(_) =>
      if !x.phase.Fenced? then s
      else At(s, j, if IsCurrent(s.worker, x.user, x.epoch) then Confirmed else Settled(Skipped))
    case Publish(_, succeeds) =>
      if !x.phase.Confirmed? then s
      else Log(At(s, j, Settled(if succeeds then Collected else Failed)), Published(j, x.user, x.epoch, succeeds))
    // the finally clause; a cleanup failure downgrades a success
    case CleanUp(_, succeeds) =>
      if !x.phase.Settled? then s
      else
        var outcome := if x.phase.outcome.Collected? && !succeeds then Failed else x.phase.outcome;
        Log(At(s, j, Cleaned(outcome)), CleanedUp(j, succeeds))
    case Tell(_) =>
      if !x.phase.Cleaned? then s
      else if x.phase.outcome.Skipped? then At(s, j, Told)
      else Log(At(s, j, Told), Reported(j, x.user, x.epoch, x.phase.outcome))
    case Release(_) => if x.phase.Told? then At(s, j, Over).(fences := s.fences - {x.user}) else s
    // the process dies or is interrupted: its lock goes with it
    case Abort(_) =>
      if InFence(x.phase) then At(s, j, Over).(fences := s.fences - {x.user})
      else At(s, j, Over)
  }

  function Exec(s: System, steps: seq<Step>): System {
    if steps == [] then s else Next(Exec(s, steps[..|steps| - 1]), steps[|steps| - 1])
  }

  const INITIAL := System(Worker(map[], map[]), map[], map[], [])

  // ---- what is kept ----

  predicate Touches(e: Event, u: UserId) { e.Changed? && e.user == u }

  // No version change of u since position i.
  ghost predicate QuietSince(log: seq<Event>, i: nat, u: UserId) {
    forall k :: i <= k < |log| ==> !Touches(log[k], u)
  }

  // Job j published epoch e of u, and the credential has not changed since.
  ghost predicate PublishedSince(log: seq<Event>, j: JobId, u: UserId, e: nat) {
    exists i :: 0 <= i < |log| && log[i] == Published(j, u, e, true) && QuietSince(log, i, u)
  }

  // ... and the profile was cleaned up after that.
  ghost predicate CleanedSince(log: seq<Event>, j: JobId, u: UserId, e: nat) {
    exists i, c :: 0 <= i < c < |log| && log[i] == Published(j, u, e, true) && log[c] == CleanedUp(j, true) && QuietSince(log, i, u)
  }

  // Everything published before position |log| was current: no completed store or delete
  // that came earlier is newer.
  ghost predicate PublishesCurrent(log: seq<Event>) {
    forall i, k :: 0 <= i < k < |log| && log[k].Published? && Touches(log[i], log[k].user) ==>
      log[i].epoch <= log[k].epoch && (log[i].revoked ==> log[i].epoch < log[k].epoch)
  }

  // Everything reported as collected was published and cleaned up under an unchanged credential.
  ghost predicate ReportsCollected(log: seq<Event>) {
    forall k :: 0 <= k < |log| && log[k].Reported? && log[k].outcome.Collected? ==>
      CleanedSince(log[..k], log[k].job, log[k].user, log[k].epoch)
  }

  ghost predicate LogBehindVersions(s: System) {
    forall i :: 0 <= i < |s.log| && s.log[i].Changed? ==>
      var e := s.log[i];
      && e.user in s.worker.versions && e.epoch <= s.worker.versions[e.user].epoch
      && (e.revoked && e.epoch == s.worker.versions[e.user].epoch ==> s.worker.versions[e.user].revoked)
  }

  // The lock: the holder of a fence is the one job of that tenant inside it.
  ghost predicate FencesHeld(s: System) {
    && (forall u :: u in s.fences ==> s.fences[u] in s.jobs && s.jobs[s.fences[u]].user == u && InFence(s.jobs[s.fences[u]].phase))
    && (forall j :: j in s.jobs && InFence(s.jobs[j].phase) ==> s.jobs[j].user in s.fences && s.fences[s.jobs[j].user] == j)
  }

  ghost predicate JobTrue(s: System, j: JobId)
    requires j in s.jobs
  {
    var x := s.jobs[j];
    && (x.phase.Confirmed? ==> IsCurrent(s.worker, x.user, x.epoch))
    && (x.phase == Settled(Collected) ==> PublishedSince(s.log, j, x.user, x.epoch))
    && (x.phase == Cleaned(Collected) ==> CleanedSince(s.log, j, x.user, x.epoch))
  }

  ghost predicate Inv(s: System) {
    && FencesHeld(s) && LogBehindVersions(s)
    && (forall j :: j in s.jobs ==> JobTrue(s, j))
    && PublishesCurrent(s.log) && ReportsCollected(s.log)
  }

  // ---- logs grow ----

  lemma QuietStays(log: seq<Event>, j: JobId, u: UserId, e: nat, event: Event)
    requires !Touches(event, u)
    ensures PublishedSince(log, j, u, e) ==> PublishedSince(log + [event], j, u, e)
    ensures CleanedSince(log, j, u, e) ==> CleanedSince(log + [event], j, u, e)
  {
    var more := log + [event];
    if PublishedSince(log, j, u, e) {
      var i :| 0 <= i < |log| && log[i] == Published(j, u, e, true) && QuietSince(log, i, u);
      assert more[i] == Published(j, u, e, true) && QuietSince(more, i, u);
    }
    if CleanedSince(log, j, u, e) {
      var i, c :| 0 <= i < c < |log| && log[i] == Published(j, u, e, true) && log[c] == CleanedUp(j, true) && QuietSince(log, i, u);
      assert more[i] == Published(j, u, e, true) && more[c] == CleanedUp(j, true) && QuietSince(more, i, u);
    }
  }

  lemma PublishStarts(log: seq<Event>, j: JobId, u: UserId, e: nat)
    ensures PublishedSince(log + [Published(j, u, e, true)], j, u, e)
  {
    var more := log + [Published(j, u, e, true)];
    assert more[|log|] == Published(j, u, e, true) && QuietSince(more, |log|, u);
  }

  lemma CleanupFollows(log: seq<Event>, j: JobId, u: UserId, e: nat)
    requires PublishedSince(log, j, u, e)
    ensures CleanedSince(log + [CleanedUp(j, true)], j, u, e)
  {
    var i :| 0 <= i < |log| && log[i] == Published(j, u, e, true) && QuietSince(log, i, u);
    var more := log + [CleanedUp(j, true)];
    assert more[i] == Published(j, u, e, true) && more[|log|] == CleanedUp(j, true) && QuietSince(more, i, u);
  }

  lemma ReportsStay(log: seq<Event>, event: Event)
    requires ReportsCollected(log)
    requires event.Reported? && event.outcome.Collected? ==> CleanedSince(log, event.job, event.user, event.epoch)
    ensures ReportsCollected(log + [event])
  {
    var more := log + [event];
    forall k | 0 <= k < |more| && more[k].Reported? && more[k].outcome.Collected?
      ensures CleanedSince(more[..k], more[k].job, more[k].user, more[k].epoch)
    {
      assert more[..k] == log[..k];
      if k == |log| { assert log[..k] == log; }
    }
  }

  lemma PublishesStay(s: System, event: Event)
    requires PublishesCurrent(s.log) && LogBehindVersions(s)
    requires event.Published? ==> IsCurrent(s.worker, event.user, event.epoch)
    ensures PublishesCurrent(s.log + [event])
  {
  }
}
