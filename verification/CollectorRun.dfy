// One pass of _collect_with_token and _drive_profile, statement by statement, while any
// number of other steps of the system happen in between.
module CollectorRun {
  import opened Prelude
  import opened HandoffHost
  import opened WorkerStore
  import opened CollectorSystem

  predicate By(e: Event, j: JobId) { !e.Changed? && e.job == j }

  // What job j has left in the log.
  function Trace(log: seq<Event>, j: JobId): seq<Event> {
    if log == [] then []
    else
      var e := log[|log| - 1];
      Trace(log[..|log| - 1], j) + (if By(e, j) then [e] else [])
  }

  predicate Foreign(step: Step, j: JobId) { step.Store? || step.Delete? || step.job != j }

  lemma TraceNext(log: seq<Event>, e: Event, j: JobId)
    ensures Trace(log + [e], j) == if By(e, j) then Trace(log, j) + [e] else Trace(log, j)
  {
    assert (log + [e])[..|log|] == log;
  }

  // What a step adds to the log, and whose it is.
  lemma StepLogs(s: System, step: Step, j: JobId)
    requires Foreign(step, j)
    ensures var t := Next(s, step);
      || t.log == s.log
      || (exists e :: t.log == s.log + [e] && !By(e, j))
      || (exists e, e' :: t.log == s.log + [e] + [e'] && !By(e, j) && !By(e', j))
  {
    hide StoreToken, DeleteConnection, IsCurrent;
    var t := Next(s, step);
    if |t.log| == |s.log| + 1 {
      assert t.log == s.log + [t.log[|s.log|]];
    } else if |t.log| == |s.log| + 2 {
      assert t.log == s.log + [t.log[|s.log|]] + [t.log[|s.log| + 1]];
    }
  }

  lemma OthersStay(s: System, step: Step, j: JobId)
    requires j in s.jobs && Foreign(step, j)
    ensures var t := Next(s, step); j in t.jobs && t.jobs[j] == s.jobs[j]
  {
    hide StoreToken, DeleteConnection, IsCurrent;
  }

  lemma ForeignStep(s: System, step: Step, j: JobId)
    requires j in s.jobs && Foreign(step, j)
    ensures var t := Next(s, step); j in t.jobs && t.jobs[j] == s.jobs[j] && Trace(t.log, j) == Trace(s.log, j)
  {
    hide Next, Trace, By;
    OthersStay(s, step, j);
    StepLogs(s, step, j);
    var t := Next(s, step);
    if e :| t.log == s.log + [e] && !By(e, j) {
      TraceNext(s.log, e, j);
    } else if e, e' :| t.log == s.log + [e] + [e'] && !By(e, j) && !By(e', j) {
      TraceNext(s.log, e, j);
      TraceNext(s.log + [e], e', j);
    }
  }

  lemma GaveUp(s: System, j: JobId, x: Job, cleans: bool)
    requires j in s.jobs && s.jobs[j] == x && (x.phase.Begun? || x.phase.Entered? || x.phase.Driven?)
    ensures var t := Next(s, GiveUp(j, cleans));
      t.jobs == s.jobs[j := x.(phase := Over)] && Trace(t.log, j) == Trace(s.log, j) + Ending(x, j, Failed, cleans)
  {
    hide Trace;
    var first, second := CleanedUp(j, cleans), Reported(j, x.user, x.epoch, Failed);
    TraceNext(s.log, first, j);
    TraceNext(s.log + [first], second, j);
    assert Next(s, GiveUp(j, cleans)).log == s.log + [first] + [second];
    assert Trace(s.log, j) + [first] + [second] == Trace(s.log, j) + Ending(x, j, Failed, cleans);
  }

  // ---- what the outside world does ----

  // What an attempt does, in its order; Confirm is the look at the version inside the fence.
  datatype Moment =
    | Create | FirstLook | Enter
    | LoginLook | Login | WorkspaceLook | SelectWorkspace | PollLook | Poll | LastLook
    | Acquire | Confirm | Publish
    | CleanUp | Tell | Release

  const COURSE := [
    Moment.Create, FirstLook, Moment.Enter,
    LoginLook, Login, WorkspaceLook, SelectWorkspace, PollLook, Poll, LastLook,
    Moment.Acquire, Moment.Confirm, Moment.Publish]

  // What the others do before a moment of the attempt, and whether that moment's own call works.
  datatype Turn = Turn(others: seq<Step>, works: bool)

  type World = Moment -> Turn

  // An attempt of a job on the version it read, and the world it happens in.
  datatype Course = Course(start: System, job: JobId, user: UserId, epoch: nat, world: World)

  function Meanwhile(s: System, j: JobId, steps: seq<Step>): System {
    if steps == [] then s
    else
      var t, step := Meanwhile(s, j, steps[..|steps| - 1]), steps[|steps| - 1];
      if Foreign(step, j) then Next(t, step) else t
  }

  // What a moment that goes well does to the system.
  function Own(s: System, j: JobId, m: Moment): System {
    match m
    case FirstLook => Next(s, Step.Enter(j))
    case LastLook => Next(s, Drive(j))
    case Acquire => Next(s, Step.Acquire(j))
    case Confirm => Next(s, Step.Confirm(j))
    case _ => s
  }

  // The system after i moments that went well, and when the next one begins.
  function Reached(c: Course, i: nat): System
    requires i <= |COURSE|
    decreases i, 0
  {
    if i == 0 then c.start else Own(Arrived(c, i - 1), c.job, COURSE[i - 1])
  }

  function Arrived(c: Course, i: nat): System
    requires i < |COURSE|
    decreases i, 1
  {
    Meanwhile(Reached(c, i), c.job, c.world(COURSE[i]).others)
  }

  predicate IsLook(m: Moment) { m.FirstLook? || m.LoginLook? || m.WorkspaceLook? || m.PollLook? || m.LastLook? }

  predicate CurrentAt(c: Course, i: nat)
    requires i < |COURSE|
  {
    IsCurrent(Arrived(c, i).worker, c.user, c.epoch)
  }

  // The moment has what it needs: its call works and a fence it takes is free.
  predicate Possible(c: Course, i: nat)
    requires i < |COURSE|
  {
    var m := COURSE[i];
    (m.Confirm? || c.world(m).works) && (IsLook(m) || m.Acquire? ==> Free(Arrived(c, i), c.user))
  }

  predicate LooksAtVersion(m: Moment) { IsLook(m) || m.Confirm? }

  // A look that finds the version changed.
  predicate FindsChange(c: Course, i: nat)
    requires i < |COURSE|
  {
    LooksAtVersion(COURSE[i]) && Possible(c, i) && !CurrentAt(c, i)
  }

  predicate Well(c: Course, i: nat)
    requires i < |COURSE|
  {
    Possible(c, i) && (LooksAtVersion(COURSE[i]) ==> CurrentAt(c, i))
  }

  // Everything before moment i goes well.
  ghost predicate Reaches(c: Course, i: nat)
    requires i <= |COURSE|
  {
    forall h :: 0 <= h < i ==> Well(c, h)
  }

  // Moment i is the first at which something is wrong; a changed version is no failure.
  ghost predicate StopsAt(c: Course, i: nat, verdict: Verdict)
    requires i < |COURSE|
  {
    Reaches(c, i) && !Well(c, i) && verdict == Stop(if FindsChange(c, i) then Skipped else Failed)
  }

  lemma OnlyOneStop(c: Course, i: nat, verdict: Verdict)
    requires i < |COURSE| && StopsAt(c, i, verdict)
    ensures !Reaches(c, |COURSE|)
    ensures (exists k :: 0 <= k < |COURSE| && Reaches(c, k) && FindsChange(c, k)) <==> verdict.outcome.Skipped?
  {
    forall k | 0 <= k < |COURSE| && Reaches(c, k) && FindsChange(c, k) ensures k == i {
      assert !Well(c, k) && !Well(c, i);
    }
  }

  lemma ReachesNext(c: Course, i: nat)
    requires i < |COURSE|
    ensures Reaches(c, i + 1) <==> Reaches(c, i) && Well(c, i)
  {
    assert Reaches(c, i + 1) ==> Well(c, i);
  }

  lemma Starts(c: Course)
    ensures Reached(c, 0) == c.start && Reaches(c, 0)
  {
  }

  lemma Stopped(c: Course, i: nat, verdict: Verdict)
    requires i < |COURSE| && StopsAt(c, i, verdict)
    ensures verdict.Stop? && !verdict.outcome.Collected?
    ensures forall k :: i < k <= |COURSE| ==> !Reaches(c, k)
    ensures forall k :: 0 <= k <= i ==> Reaches(c, k)
  {
  }

  lemma AllWell(c: Course)
    requires Reaches(c, |COURSE|)
    ensures forall k :: 0 <= k < |COURSE| ==> !FindsChange(c, k)
    ensures forall k :: 0 <= k <= |COURSE| ==> Reaches(c, k)
  {
    forall k | 0 <= k < |COURSE| ensures !FindsChange(c, k) { assert Well(c, k); }
  }

  // ---- the world in which nothing goes wrong ----

  predicate Undisturbed(c: Course) {
    && Free(c.start, c.user) && IsCurrent(c.start.worker, c.user, c.epoch)
    && forall m: Moment :: c.world(m) == Turn([], true)
  }

  lemma {:induction false} UndisturbedStays(c: Course, i: nat)
    requires i <= |COURSE| && Undisturbed(c)
    ensures Reached(c, i).worker == c.start.worker && (i <= 10 ==> Reached(c, i).fences == c.start.fences)
  {
    hide IsCurrent, StoreToken, DeleteConnection;
    if i > 0 {
      UndisturbedStays(c, i - 1);
      assert c.world(COURSE[i - 1]) == Turn([], true);
      assert Arrived(c, i - 1) == Reached(c, i - 1);
    }
  }

  // When nobody interferes, every call works, the fence is free and the version current, everything
  // goes well: the attempt collects.
  lemma UndisturbedGoesWell(c: Course)
    requires Undisturbed(c)
    ensures Reaches(c, |COURSE|)
  {
    hide IsCurrent, Reached;
    forall i | 0 <= i < |COURSE| ensures Well(c, i) {
      UndisturbedStays(c, i);
      assert c.world(COURSE[i]) == Turn([], true);
      assert Arrived(c, i) == Reached(c, i);
    }
  }

  // What _drive_profile does with the profile, and in which order.
  const DEEDS := [LoginLook, Login, WorkspaceLook, SelectWorkspace, PollLook, Poll, LastLook]

  datatype Verdict = Go | Stop(outcome: Outcome)

  // How an attempt ended.
  datatype Ended = NoProfile | Early(cleans: bool) | InFence(published: bool, succeeded: bool, cleans: bool)

  // A skipped attempt reports nothing.
  function Ending(x: Job, j: JobId, outcome: Outcome, cleans: bool): seq<Event> {
    [CleanedUp(j, cleans)] + if outcome.Skipped? then [] else [Reported(j, x.user, x.epoch, outcome)]
  }

  function FencedEnding(x: Job, j: JobId, outcome: Outcome, published: bool, succeeded: bool, cleans: bool): seq<Event> {
    (if published then [Published(j, x.user, x.epoch, succeeded)] else []) + Ending(x, j, outcome, cleans)
  }

  function Events(x: Job, j: JobId, outcome: Outcome, trace: Ended): seq<Event> {
    match trace
    case NoProfile => [Reported(j, x.user, x.epoch, Failed)]
    case Early(cleans) => Ending(x, j, outcome, cleans)
    case InFence(published, succeeded, cleans) => FencedEnding(x, j, outcome, published, succeeded, cleans)
  }

  // Moments of a run, in order and none before `from`, at which the attempt's version was current.
  ghost predicate SeenCurrent(start: System, run: seq<Step>, x: Job, from: nat, looks: seq<nat>) {
    && (forall i :: 0 <= i < |looks| ==>
          from <= looks[i] <= |run| && IsCurrent(Exec(start, run[..looks[i]]).worker, x.user, x.epoch))
    && (forall i, k :: 0 <= i < k < |looks| ==> looks[i] <= looks[k])
  }

  lemma NoneSeen(start: System, run: seq<Step>, x: Job, from: nat)
    ensures SeenCurrent(start, run, x, from, [])
  {
  }

  lemma SeenStays(start: System, run: seq<Step>, longer: seq<Step>, x: Job, from: nat, looks: seq<nat>)
    requires SeenCurrent(start, run, x, from, looks) && run <= longer
    ensures SeenCurrent(start, longer, x, from, looks)
  {
    forall i | 0 <= i < |looks|
      ensures from <= looks[i] <= |longer| && IsCurrent(Exec(start, longer[..looks[i]]).worker, x.user, x.epoch)
    {
      assert longer[..looks[i]] == run[..looks[i]];
    }
  }

  lemma SeenNow(start: System, run: seq<Step>, x: Job, from: nat, looks: seq<nat>)
    requires SeenCurrent(start, run, x, from, looks) && from <= |run|
    requires IsCurrent(Exec(start, run).worker, x.user, x.epoch)
    ensures SeenCurrent(start, run, x, from, looks + [|run|])
  {
    assert run[..|run|] == run;
  }

  lemma Longer(a: seq<Step>, b: seq<Step>, c: seq<Step>)
    requires a <= b <= c
    ensures a <= c
  {
  }

  class Collector {
    const start: System
    var sys: System
    ghost var history: seq<Step>

    constructor (start: System)
      ensures Valid() && sys == start && this.start == start
    {
      this.start, sys, history := start, start, [];
    }

    // What happens here is a run of the system, so all that runs keep is kept.
    ghost predicate Valid()
      reads this
    {
      sys == Exec(start, history)
    }

    function JobAt(j: JobId): Option<Job>
      reads this
    {
      if j in sys.jobs then Some(sys.jobs[j]) else None
    }

    function Left(j: JobId): seq<Event>
      reads this
    {
      Trace(sys.log, j)
    }

    // The attempt stands before moment i and everything has gone well.
    ghost predicate Standing(c: Course, x: Job, i: nat)
      requires i <= |COURSE|
      reads this
    {
      Valid() && JobAt(c.job) == Some(x) && x.user == c.user && x.epoch == c.epoch && sys == Reached(c, i) && Reaches(c, i)
    }

    method Do(step: Step)
      requires Valid()
      modifies this
      ensures Valid() && sys == Next(old(sys), step) && old(history) <= history
    {
      sys := Next(sys, step);
      assert (history + [step])[..|history|] == history;
      history := history + [step];
    }

    // Whatever everybody else does meanwhile; the fence decides what they can do.
    method Others(j: JobId, steps: seq<Step>)
      requires Valid() && j in sys.jobs
      modifies this
      ensures Valid() && JobAt(j) == old(JobAt(j)) && Left(j) == old(Left(j)) && old(history) <= history
      ensures sys == Meanwhile(old(sys), j, steps)
    {
      for i := 0 to |steps|
        invariant Valid() && JobAt(j) == old(JobAt(j)) && Left(j) == old(Left(j)) && old(history) <= history
        invariant sys == Meanwhile(old(sys), j, steps[..i])
      {
        assert steps[..i + 1][..i] == steps[..i];
        if Foreign(steps[i], j) {
          ForeignStep(sys, steps[i], j);
          Do(steps[i]);
        }
      }
      assert steps[..|steps|] == steps;
    }

    // Steps of job j itself, with what they do to it and leave in the log.
    method Move(j: JobId, step: Step, x: Job)
      requires Valid() && j in sys.jobs && Next(sys, step).jobs == sys.jobs[j := x] && Next(sys, step).log == sys.log
      modifies this
      ensures Valid() && JobAt(j) == Some(x) && Left(j) == old(Left(j)) && sys == Next(old(sys), step) && old(history) <= history
    {
      Do(step);
    }

    method Emit(j: JobId, step: Step, x: Job, e: Event)
      requires Valid() && j in sys.jobs && By(e, j)
      requires Next(sys, step).jobs == sys.jobs[j := x] && Next(sys, step).log == sys.log + [e]
      modifies this
      ensures Valid() && JobAt(j) == Some(x) && Left(j) == old(Left(j)) + [e] && old(history) <= history
    {
      TraceNext(sys.log, e, j);
      Do(step);
    }

    // Any failure before the fence: clean up and report it.
    method Fail(j: JobId, x: Job, cleans: bool)
      requires Valid() && JobAt(j) == Some(x) && (x.phase.Begun? || x.phase.Entered? || x.phase.Driven?)
      modifies this
      ensures Valid() && JobAt(j) == Some(x.(phase := Over)) && Left(j) == old(Left(j)) + Ending(x, j, Failed, cleans)
      ensures old(history) <= history
    {
      GaveUp(sys, j, x, cleans);
      Do(GiveUp(j, cleans));
    }

    // The moment's turn comes: what the others do first.
    method Arrive(c: Course, x: Job, i: nat)
      requires i < |COURSE| && Standing(c, x, i)
      modifies this
      ensures Valid() && JobAt(c.job) == Some(x) && Left(c.job) == old(Left(c.job)) && old(history) <= history
      ensures sys == Arrived(c, i)
    {
      Others(c.job, c.world(COURSE[i]).others);
    }

    // _credential_is_current, under a fence of its own. Go means it still is.
    method CheckCurrent(c: Course, x: Job, i: nat) returns (verdict: Verdict)
      requires i < |COURSE| && IsLook(COURSE[i]) && Standing(c, x, i) && (x.phase.Begun? || x.phase.Entered?)
      modifies this
      ensures Valid() && JobAt(c.job) == Some(if verdict.Go? then x else x.(phase := Over)) && old(history) <= history
      ensures verdict.Go? ==> Left(c.job) == old(Left(c.job)) && Free(sys, x.user) && IsCurrent(sys.worker, x.user, x.epoch)
      ensures verdict.Go? ==> sys == Arrived(c, i) && Well(c, i)
      ensures verdict.Stop? ==>
        StopsAt(c, i, verdict)
        && Left(c.job) == old(Left(c.job)) + Ending(x, c.job, verdict.outcome, c.world(Moment.CleanUp).works)
    {
      hide Exec, Arrived, Trace;
      var j, cleans := c.job, c.world(Moment.CleanUp).works;
      Arrive(c, x, i);
      ghost var past := history;
      if !c.world(COURSE[i]).works || !Free(sys, x.user) {
        Fail(j, x, cleans);
        Longer(old(history), past, history);
        return Stop(Failed);
      }
      if !IsCurrent(sys.worker, x.user, x.epoch) {
        Emit(j, Check(j, cleans), x.(phase := Over), CleanedUp(j, cleans));
        Longer(old(history), past, history);
        return Stop(Skipped);
      }
      verdict := Go;
    }

    // A call that a failure of ends the attempt.
    method Call(c: Course, x: Job, i: nat) returns (verdict: Verdict)
      requires i < |COURSE| && Standing(c, x, i) && (x.phase.Begun? || x.phase.Entered?)
      requires !LooksAtVersion(COURSE[i]) && !COURSE[i].Acquire?
      modifies this
      ensures Valid() && JobAt(c.job) == Some(if verdict.Go? then x else x.(phase := Over)) && old(history) <= history
      ensures verdict.Go? ==> Left(c.job) == old(Left(c.job)) && Standing(c, x, i + 1)
      ensures verdict.Stop? ==>
        StopsAt(c, i, verdict)
        && Left(c.job) == old(Left(c.job)) + Ending(x, c.job, verdict.outcome, c.world(Moment.CleanUp).works)
    {
      hide Exec, Arrived, Trace;
      Arrive(c, x, i);
      if !c.world(COURSE[i]).works {
        ghost var past := history;
        Fail(c.job, x, c.world(Moment.CleanUp).works);
        Longer(old(history), past, history);
        return Stop(Failed);
      }
      verdict := Go;
    }

    // A look at the version, then one call of the profile; a failure of either ends the attempt.
    method LookThenCall(c: Course, x: Job, i: nat, ghost from: nat, ghost looks: seq<nat>)
      returns (verdict: Verdict, called: bool, ghost seen: seq<nat>)
      requires i + 1 < |COURSE| && Standing(c, x, i) && x.phase.Entered?
      requires IsLook(COURSE[i]) && !COURSE[i].FirstLook? && !COURSE[i].LastLook?
      requires !LooksAtVersion(COURSE[i + 1]) && !COURSE[i + 1].Acquire?
      requires from <= |history| && SeenCurrent(start, history, x, from, looks)
      modifies this
      ensures Valid() && JobAt(c.job) == Some(if verdict.Go? then x else x.(phase := Over))
      ensures verdict.Go? ==> called && Left(c.job) == old(Left(c.job)) && Standing(c, x, i + 2)
      ensures verdict.Stop? ==>
        StopsAt(c, if called then i + 1 else i, verdict)
        && Left(c.job) == old(Left(c.job)) + Ending(x, c.job, verdict.outcome, c.world(Moment.CleanUp).works)
      ensures verdict == Stop(Skipped) ==> !called
      ensures from <= |history| && SeenCurrent(start, history, x, from, seen) && |seen| == |looks| + if called then 1 else 0
    {
      hide Exec, SeenCurrent, Trace, Arrived, Well;
      seen := looks;
      ghost var past := history;
      verdict := CheckCurrent(c, x, i);
      SeenStays(start, past, history, x, from, looks);
      if verdict.Stop? { return verdict, false, seen; }
      SeenNow(start, history, x, from, looks);
      seen := looks + [|history|];
      past := history;
      called := true;
      verdict := Call(c, x, i + 1);
      SeenStays(start, past, history, x, from, seen);
    }

    // _drive_profile: login, workspace, poll, a freshness check before each and one after. Every
    // call follows a look at which the version was current, and going on means that four were.
    method DriveProfile(c: Course, x: Job) returns (verdict: Verdict, deeds: seq<Moment>, ghost looks: seq<nat>)
      requires Standing(c, x, 3) && x.phase.Entered?
      modifies this
      ensures Valid() && JobAt(c.job) == Some(x.(phase := if verdict.Go? then Driven else Over))
      ensures verdict.Go? ==> Left(c.job) == old(Left(c.job)) && Standing(c, x.(phase := Driven), 10)
      ensures deeds <= DEEDS && (verdict.Go? ==> deeds == DEEDS) && (verdict == Stop(Skipped) ==> |deeds| % 2 == 1)
      ensures verdict.Stop? ==>
        deeds != [] && StopsAt(c, 2 + |deeds|, verdict)
        && Left(c.job) == old(Left(c.job)) + Ending(x, c.job, verdict.outcome, c.world(Moment.CleanUp).works)
      ensures SeenCurrent(start, history, x, old(|history|), looks) && |looks| == if verdict.Go? then 4 else |deeds| / 2
    {
      hide Exec, SeenCurrent, Ending, Trace, Arrived, Well, Reaches, Reached, StopsAt, IsCurrent, Free;
      ghost var from := |history|;
      verdict, deeds, looks := DriveCalls(c, x);
      if verdict.Stop? { return; }
      verdict, looks := LookLast(c, x, from, looks);
      deeds := DEEDS;
    }

    // The three calls, each after its look.
    method DriveCalls(c: Course, x: Job) returns (verdict: Verdict, deeds: seq<Moment>, ghost looks: seq<nat>)
      requires Standing(c, x, 3) && x.phase.Entered?
      modifies this
      ensures Valid() && JobAt(c.job) == Some(if verdict.Go? then x else x.(phase := Over))
      ensures verdict.Go? ==> Left(c.job) == old(Left(c.job)) && Standing(c, x, 9)
      ensures deeds <= DEEDS && (verdict.Go? ==> |deeds| == 6) && (verdict == Stop(Skipped) ==> |deeds| % 2 == 1)
      ensures verdict.Stop? ==>
        0 < |deeds| <= 6 && StopsAt(c, 2 + |deeds|, verdict)
        && Left(c.job) == old(Left(c.job)) + Ending(x, c.job, verdict.outcome, c.world(Moment.CleanUp).works)
      ensures old(|history|) <= |history|
      ensures SeenCurrent(start, history, x, old(|history|), looks) && |looks| == |deeds| / 2
    {
      hide Exec, SeenCurrent, Ending, Trace, Arrived, Well, Reaches, Reached, StopsAt, IsCurrent, Free;
      ghost var from := |history|;
      NoneSeen(start, history, x, from);
      var called;
      verdict, called, looks := LookThenCall(c, x, 3, from, []);
      deeds := DEEDS[..if called then 2 else 1];
      if verdict.Stop? { return; }
      verdict, called, looks := LookThenCall(c, x, 5, from, looks);
      deeds := DEEDS[..if called then 4 else 3];
      if verdict.Stop? { return; }
      verdict, called, looks := LookThenCall(c, x, 7, from, looks);
      deeds := DEEDS[..if called then 6 else 5];
    }

    // The check after the poll.
    method LookLast(c: Course, x: Job, ghost from: nat, ghost looks: seq<nat>) returns (verdict: Verdict, ghost seen: seq<nat>)
      requires Standing(c, x, 9) && x.phase.Entered?
      requires from <= |history| && SeenCurrent(start, history, x, from, looks)
      modifies this
      ensures Valid() && JobAt(c.job) == Some(x.(phase := if verdict.Go? then Driven else Over))
      ensures verdict.Go? ==> Left(c.job) == old(Left(c.job)) && Standing(c, x.(phase := Driven), 10)
      ensures verdict.Stop? ==>
        StopsAt(c, 9, verdict)
        && Left(c.job) == old(Left(c.job)) + Ending(x, c.job, verdict.outcome, c.world(Moment.CleanUp).works)
      ensures SeenCurrent(start, history, x, from, seen) && |seen| == |looks| + if verdict.Go? then 1 else 0
    {
      hide Exec, SeenCurrent, Trace, Arrived, Well;
      seen := looks;
      ghost var past := history;
      verdict := CheckCurrent(c, x, 9);
      SeenStays(start, past, history, x, from, looks);
      if verdict.Stop? { return; }
      SeenNow(start, history, x, from, looks);
      seen := looks + [|history|];
      past := history;
      Move(c.job, Drive(c.job), x.(phase := Driven));
      SeenStays(start, past, history, x, from, seen);
    }

    // The first look; the profile is entered after it.
    method LookFirst(c: Course, x: Job) returns (verdict: Verdict)
      requires Standing(c, x, 1) && x.phase.Begun?
      modifies this
      ensures Valid() && JobAt(c.job) == Some(x.(phase := if verdict.Go? then Entered else Over))
      ensures verdict.Go? ==> Left(c.job) == old(Left(c.job)) && Standing(c, x.(phase := Entered), 2)
      ensures verdict.Stop? ==>
        StopsAt(c, 1, verdict)
        && Left(c.job) == old(Left(c.job)) + Ending(x, c.job, verdict.outcome, c.world(Moment.CleanUp).works)
    {
      hide Exec, Trace, Arrived, Well;
      verdict := CheckCurrent(c, x, 1);
      if verdict.Go? { Move(c.job, Step.Enter(c.job), x.(phase := Entered)); }
    }

    // Take the fence.
    method TakeFence(c: Course, x: Job) returns (verdict: Verdict)
      requires Standing(c, x, 10) && x.phase.Driven?
      modifies this
      ensures Valid() && JobAt(c.job) == Some(x.(phase := if verdict.Go? then Fenced else Over))
      ensures verdict.Go? ==> Left(c.job) == old(Left(c.job)) && Standing(c, x.(phase := Fenced), 11)
      ensures verdict.Stop? ==>
        StopsAt(c, 10, verdict)
        && Left(c.job) == old(Left(c.job)) + Ending(x, c.job, verdict.outcome, c.world(Moment.CleanUp).works)
    {
      hide Exec, Trace, Arrived;
      Arrive(c, x, 10);
      if !c.world(Moment.Acquire).works || !Free(sys, x.user) {
        Fail(c.job, x, c.world(Moment.CleanUp).works);
        return Stop(Failed);
      }
      Move(c.job, Step.Acquire(c.job), x.(phase := Fenced));
      verdict := Go;
    }

    // Look at the version once more: published says it was still current.
    method Confirmation(c: Course, x: Job) returns (published: bool)
      requires Standing(c, x, 11) && x.phase.Fenced?
      modifies this
      ensures Valid() && Left(c.job) == old(Left(c.job))
      ensures JobAt(c.job) == Some(x.(phase := if published then Confirmed else Settled(Skipped)))
      ensures published ==> Standing(c, x.(phase := Confirmed), 12)
      ensures !published ==> StopsAt(c, 11, Stop(Skipped))
    {
      hide Exec, Trace, Arrived;
      Arrive(c, x, 11);
      published := IsCurrent(sys.worker, x.user, x.epoch);
      Move(c.job, Step.Confirm(c.job), x.(phase := if published then Confirmed else Settled(Skipped)));
    }

    // Report unless skipped, then release the fence.
    method TellAndRelease(c: Course, x: Job, outcome: Outcome)
      requires Valid() && JobAt(c.job) == Some(x) && x.phase == Cleaned(outcome)
      modifies this
      ensures Valid() && JobAt(c.job) == Some(x.(phase := Over))
      ensures Left(c.job) == old(Left(c.job)) + if outcome.Skipped? then [] else [Reported(c.job, x.user, x.epoch, outcome)]
    {
      Others(c.job, c.world(Moment.Tell).others);
      Told(c.job, x, outcome);
      Others(c.job, c.world(Moment.Release).others);
      Move(c.job, Step.Release(c.job), x.(phase := Over));
    }

    method Told(j: JobId, x: Job, outcome: Outcome)
      requires Valid() && JobAt(j) == Some(x) && x.phase == Cleaned(outcome)
      modifies this
      ensures Valid() && JobAt(j) == Some(x.(phase := Phase.Told))
      ensures Left(j) == old(Left(j)) + if outcome.Skipped? then [] else [Reported(j, x.user, x.epoch, outcome)]
    {
      if outcome.Skipped? {
        Move(j, Step.Tell(j), x.(phase := Phase.Told));
      } else {
        Emit(j, Step.Tell(j), x.(phase := Phase.Told), Reported(j, x.user, x.epoch, outcome));
      }
    }

    // The finally clause, the report and the release.
    method CloseFence(c: Course, x: Job, primary: Outcome) returns (outcome: Outcome)
      requires Valid() && JobAt(c.job) == Some(x) && x.phase == Settled(primary)
      modifies this
      ensures Valid() && JobAt(c.job) == Some(x.(phase := Over))
      ensures Left(c.job) == old(Left(c.job)) + Ending(x, c.job, outcome, c.world(Moment.CleanUp).works)
      ensures outcome == if primary.Collected? && !c.world(Moment.CleanUp).works then Failed else primary
    {
      var cleans := c.world(Moment.CleanUp).works;
      Others(c.job, c.world(Moment.CleanUp).others);
      outcome := if primary.Collected? && !cleans then Failed else primary;
      Emit(c.job, Step.CleanUp(c.job, cleans), x.(phase := Cleaned(outcome)), CleanedUp(c.job, cleans));
      TellAndRelease(c, x.(phase := Cleaned(outcome)), outcome);
    }

    method PublishOnce(c: Course, x: Job) returns (succeeded: bool)
      requires Standing(c, x, 12) && x.phase.Confirmed?
      modifies this
      ensures Valid() && JobAt(c.job) == Some(x.(phase := Settled(if succeeded then Collected else Failed)))
      ensures Left(c.job) == old(Left(c.job)) + [Published(c.job, x.user, x.epoch, succeeded)]
      ensures succeeded <==> Reaches(c, |COURSE|)
      ensures !succeeded ==> StopsAt(c, 12, Stop(Failed))
    {
      hide Exec, Trace, Arrived, Reached;
      Arrive(c, x, 12);
      succeeded := c.world(Moment.Publish).works;
      ReachesNext(c, 12);
      Emit(c.job, Step.Publish(c.job, succeeded), x.(phase := Settled(if succeeded then Collected else Failed)),
           Published(c.job, x.user, x.epoch, succeeded));
    }

    // The fenced part of _collect_with_token.
    method PublishFenced(c: Course, x: Job) returns (outcome: Outcome, published: bool, succeeded: bool)
      requires Standing(c, x, 11) && x.phase.Fenced?
      modifies this
      ensures Valid() && JobAt(c.job) == Some(x.(phase := Over))
      ensures var cleans := c.world(Moment.CleanUp).works;
        && Left(c.job) == old(Left(c.job)) + FencedEnding(x, c.job, outcome, published, succeeded, cleans)
        && outcome == if !published then Skipped else if succeeded && cleans then Collected else Failed
      ensures published <==> Reaches(c, 12)
      ensures succeeded <==> Reaches(c, |COURSE|)
      ensures !published ==> StopsAt(c, 11, Stop(Skipped))
      ensures published && !succeeded ==> StopsAt(c, 12, Stop(Failed))
    {
      hide Exec, Trace, Arrived, Reached, Well, Reaches, FindsChange;
      ghost var before := Left(c.job);
      published := Confirmation(c, x);
      succeeded := false;
      var primary := Skipped;
      if published {
        succeeded := PublishOnce(c, x.(phase := Confirmed));
        primary := if succeeded then Collected else Failed;
      } else {
        Stopped(c, 11, Stop(Skipped));
      }
      outcome := CloseFence(c, x.(phase := Settled(primary)), primary);
      assert Left(c.job) == before + FencedEnding(x, c.job, outcome, published, succeeded, c.world(Moment.CleanUp).works);
    }

    // The first part: create the profile, look, enter it. Stops with nothing to clean up when it
    // could not be created.
    method OpenProfile(c: Course, x: Job) returns (verdict: Verdict, trace: Ended)
      requires Standing(c, x, 0) && x.phase.Begun?
      modifies this
      ensures Valid() && JobAt(c.job) == Some(x.(phase := if verdict.Go? then Entered else Over))
      ensures verdict.Go? ==> Left(c.job) == old(Left(c.job)) && Standing(c, x.(phase := Entered), 3)
      ensures verdict.Stop? ==>
        (exists i :: 0 <= i < 3 && StopsAt(c, i, verdict) && trace == if i == 0 then Ended.NoProfile else Early(c.world(Moment.CleanUp).works))
        && Left(c.job) == old(Left(c.job)) + Events(x, c.job, verdict.outcome, trace)
    {
      hide Exec, Trace, Arrived;
      trace := Early(c.world(Moment.CleanUp).works);
      Arrive(c, x, 0);
      if !c.world(Moment.Create).works {
        Emit(c.job, Step.NoProfile(c.job), x.(phase := Over), Reported(c.job, x.user, x.epoch, Failed));
        assert StopsAt(c, 0, Stop(Failed));
        return Stop(Failed), Ended.NoProfile;
      }
      verdict := LookFirst(c, x);
      if verdict.Stop? { return; }
      verdict := Call(c, x.(phase := Entered), 2);
    }

    // _collect_with_token. The profile of the attempt is cleaned up exactly once on every
    // path that created one, a skipped attempt publishes and reports nothing, and collected
    // is reported last, after a publish and a cleanup that both succeeded. Which of them happens
    // is decided by the world alone: by the first thing that goes wrong in it.
    method CollectWithToken(c: Course, x: Job) returns (outcome: Outcome, trace: Ended)
      requires Valid() && c.start == sys && JobAt(c.job) == Some(x)
      requires x.phase.Begun? && x.user == c.user && x.epoch == c.epoch
      modifies this
      ensures Valid() && JobAt(c.job) == Some(x.(phase := Over))
      ensures Left(c.job) == old(Left(c.job)) + Events(x, c.job, outcome, trace)
      ensures outcome.Collected? <==> Reaches(c, |COURSE|) && c.world(Moment.CleanUp).works
      ensures outcome.Skipped? <==> exists i :: 0 <= i < |COURSE| && Reaches(c, i) && FindsChange(c, i)
      ensures trace.NoProfile? <==> !Reaches(c, 1)
      ensures trace.Early? <==> Reaches(c, 1) && !Reaches(c, 11)
      ensures trace.Early? || trace.InFence? ==> trace.cleans == c.world(Moment.CleanUp).works
      ensures trace.InFence? ==> (trace.published <==> Reaches(c, 12)) && (trace.succeeded <==> Reaches(c, 13))
    {
      hide Exec, Trace, Arrived, Reached, Well, FindsChange, Reaches, StopsAt;
      Starts(c);
      var verdict;
      verdict, trace := OpenProfile(c, x);
      if verdict.Stop? {
        ghost var i :| 0 <= i < 3 && StopsAt(c, i, verdict) && trace == if i == 0 then Ended.NoProfile else Early(c.world(Moment.CleanUp).works);
        OnlyOneStop(c, i, verdict);
        Stopped(c, i, verdict);
        return verdict.outcome, trace;
      }
      trace := Early(c.world(Moment.CleanUp).works);
      var deeds;
      ghost var looks;
      verdict, deeds, looks := DriveProfile(c, x.(phase := Entered));
      if verdict.Stop? {
        OnlyOneStop(c, 2 + |deeds|, verdict);
        Stopped(c, 2 + |deeds|, verdict);
        return verdict.outcome, trace;
      }
      verdict := TakeFence(c, x.(phase := Driven));
      if verdict.Stop? {
        OnlyOneStop(c, 10, verdict);
        Stopped(c, 10, verdict);
        return verdict.outcome, trace;
      }
      var published, succeeded;
      outcome, published, succeeded := PublishFenced(c, x.(phase := Fenced));
      trace := InFence(published, succeeded, c.world(Moment.CleanUp).works);
      ghost var k := if !published then 11 else 12;
      if !succeeded {
        OnlyOneStop(c, k, Stop(if published then Failed else Skipped));
        Stopped(c, k, Stop(if published then Failed else Skipped));
      } else {
        AllWell(c);
      }
    }
  }
}
