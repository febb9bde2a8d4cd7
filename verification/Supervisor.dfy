// The restart limiter of aistat/supervisor.py: a sliding window of restart times
// together with an exponential backoff, one per supervised contour.
module Supervisor {
  import opened Prelude

  datatype Params = Params(maxRestarts: nat, window: real, backoffBase: real, backoffCap: real)

  const DEFAULTS := Params(5, 60.0, 1.0, 30.0)

  datatype Child = Child(
    running: bool, restartAt: real, restarts: seq<real>, startCount: nat, lastExit: Option<int>)

  function Min(a: real, b: real): real { if a <= b then a else b }
  function Max(a: real, b: real): real { if a >= b then a else b }

  function Pow2(n: nat): real { if n == 0 then 1.0 else 2.0 * Pow2(n - 1) }

  // _backoff_for, with n entries in the window.
  function Backoff(p: Params, n: nat): real { Min(p.backoffCap, p.backoffBase * Pow2(n)) }

  function DropOlder(restarts: seq<real>, start: real): seq<real> {
    if restarts != [] && restarts[0] < start then DropOlder(restarts[1..], start) else restarts
  }

  datatype Event = Quiet | Exited | Respawned | CrashLoop

  function Respawn(p: Params, c: Child, now: real): (Child, Event) {
    var restarts := DropOlder(c.restarts, now - p.window) + [now];
    if |restarts| > p.maxRestarts then (c.(restarts := restarts), CrashLoop)
    else (c.(restarts := restarts, running := true, startCount := c.startCount + 1), Respawned)
  }

  // One monitoring pass over one contour; exit is what its process reports, if it ended.
  function PollChild(p: Params, c: Child, stopping: bool, now: real, exit: Option<int>): (Child, Event) {
    if !c.running then
      if !stopping && now >= c.restartAt then Respawn(p, c, now) else (c, Quiet)
    else if exit.None? then (c, Quiet)
    else if stopping then (c.(running := false, lastExit := exit), Exited)
    else (c.(running := false, lastExit := exit, restartAt := now + Backoff(p, |c.restarts|)), Exited)
  }

  // ---- the limiter over a run of passes ----

  datatype Pass = Pass(now: real, exit: Option<int>)

  const STARTED := Child(true, 0.0, [], 1, None)

  function After(p: Params, run: seq<Pass>): Child {
    if run == [] then STARTED
    else
      var k := |run| - 1;
      PollChild(p, After(p, run[..k]), false, run[k].now, run[k].exit).0
  }

  function EventAt(p: Params, run: seq<Pass>, i: nat): Event
    requires i < |run|
  {
    PollChild(p, After(p, run[..i]), false, run[i].now, run[i].exit).1
  }

  // The times of the successful respawns.
  function Respawns(p: Params, run: seq<Pass>): seq<real> {
    if run == [] then []
    else
      var k := |run| - 1;
      Respawns(p, run[..k]) + (if EventAt(p, run, k) == Respawned then [run[k].now] else [])
  }

  // CrashLoop ends the supervisor, so at most the last pass of a run raises it.
  predicate Alive(p: Params, run: seq<Pass>) {
    forall i :: 0 <= i < |run| ==> EventAt(p, run, i) != CrashLoop
  }

  // Passes at least `gap` seconds apart.
  ghost predicate Spaced(run: seq<Pass>, gap: real) {
    forall i :: 0 < i < |run| ==> run[i].now >= run[i - 1].now + gap
  }

  ghost predicate Sane(p: Params) { p.backoffBase >= 0.0 && p.window >= 0.0 }

  // The least time from one restart to the next when n restarts are in the window: a pass
  // to notice the exit, and a later one once the backoff is over.
  function Gap(p: Params, n: nat, gap: real): real { gap + Max(gap, Backoff(p, n)) }

  function Spread(p: Params, n: nat, gap: real): real {
    if n == 0 then 0.0 else Spread(p, n - 1, gap) + Gap(p, n, gap)
  }

  lemma {:induction false} Pow2Grows(n: nat, m: nat)
    requires n <= m
    ensures 0.0 < Pow2(n) <= Pow2(m)
  {
    if m > 0 {
      if n < m { Pow2Grows(n, m - 1); } else { Pow2Grows(n - 1, m - 1); }
    }
  }

  lemma TimesGrows(b: real, x: real, y: real)
    requires b >= 0.0 && x <= y
    ensures b * x <= b * y
  {
    assert b * (y - x) >= 0.0;
  }

  lemma MinGrows(a: real, x: real, y: real)
    requires x <= y
    ensures Min(a, x) <= Min(a, y)
  {
  }

  lemma MaxGrows(a: real, x: real, y: real)
    requires x <= y
    ensures Max(a, x) <= Max(a, y)
  {
  }

  lemma GapGrows(p: Params, n: nat, m: nat, gap: real)
    requires Sane(p) && n <= m
    ensures Gap(p, n, gap) <= Gap(p, m, gap)
  {
    Pow2Grows(n, m);
    TimesGrows(p.backoffBase, Pow2(n), Pow2(m));
    MinGrows(p.backoffCap, p.backoffBase * Pow2(n), p.backoffBase * Pow2(m));
    MaxGrows(gap, Backoff(p, n), Backoff(p, m));
  }

  // When the last pass of a run was.
  function LastPass(run: seq<Pass>): Option<real> {
    if run == [] then None else Some(run[|run| - 1].now)
  }

  // The entries of the window are as far apart as the backoffs force them to be, and a
  // contour waiting for its restart died at least a gap after the last one.
  ghost predicate BackedOff(p: Params, c: Child, last: Option<real>, gap: real) {
    var r := c.restarts;
    && |r| <= p.maxRestarts
    && (last.None? ==> c.running && r == [])
    && (last.Some? && r != [] ==> r[|r| - 1] <= last.value)
    && (last.Some? && !c.running ==>
          var exitAt := c.restartAt - Backoff(p, |r|);
          exitAt <= last.value && (r != [] ==> exitAt >= r[|r| - 1] + gap))
    && (forall k :: 0 <= k < |r| ==> r[|r| - 1] - r[k] >= Spread(p, |r| - 1 - k, gap))
  }

  // The window holds the latest respawns; everything before them is too old for it.
  ghost predicate Windowed(p: Params, c: Child, times: seq<real>, last: Option<real>) {
    var r := c.restarts;
    && |r| <= |times|
    && (forall k :: |times| - |r| <= k < |times| ==> times[k] == r[k - (|times| - |r|)])
    && (forall k :: 0 <= k < |times| - |r| ==> last.Some? && times[k] < last.value - p.window)
  }

  lemma {:induction false} DropOlderIsASuffix(restarts: seq<real>, start: real)
    ensures var kept := DropOlder(restarts, start); var cut := |restarts| - |kept|;
      && 0 <= cut
      && (forall k :: cut <= k < |restarts| ==> restarts[k] == kept[k - cut])
      && (forall k :: 0 <= k < cut ==> restarts[k] < start)
      && (kept != [] ==> kept[0] >= start)
  {
    if restarts != [] && restarts[0] < start {
      var rest := restarts[1..];
      DropOlderIsASuffix(rest, start);
      var cut := |restarts| - |DropOlder(restarts, start)|;
      forall k | 0 <= k < cut ensures restarts[k] < start {
        if k > 0 { assert rest[k - 1] < start; }
      }
      forall k | cut <= k < |restarts| ensures restarts[k] == DropOlder(restarts, start)[k - cut] {
        assert rest[k - 1] == restarts[k];
      }
    }
  }

  // A respawn attempt at `now`: how far it lies from each restart still in the window.
  lemma AttemptIsFar(p: Params, c: Child, last: Option<real>, now: real, gap: real, k: nat)
    requires Sane(p) && gap >= 0.0 && BackedOff(p, c, last, gap) && last.Some? && now >= last.value + gap
    requires !c.running && now >= c.restartAt && k < |c.restarts|
    ensures now - c.restarts[k] >= Spread(p, |c.restarts| - k, gap)
  {
    var n := |c.restarts|;
    GapGrows(p, n - k, n, gap);
    assert c.restarts[n - 1] - c.restarts[k] >= Spread(p, n - 1 - k, gap);
  }

  lemma PollKeeps(p: Params, c: Child, times: seq<real>, last: Option<real>, now: real, exit: Option<int>, gap: real)
    requires Sane(p) && gap >= 0.0 && BackedOff(p, c, last, gap) && Windowed(p, c, times, last)
    requires last.Some? ==> now >= last.value + gap
    requires PollChild(p, c, false, now, exit).1 != CrashLoop
    ensures var (d, event) := PollChild(p, c, false, now, exit);
      BackedOff(p, d, Some(now), gap)
      && Windowed(p, d, times + (if event == Respawned then [now] else []), Some(now))
  {
    var (d, event) := PollChild(p, c, false, now, exit);
    if event == Respawned {
      RespawnKeeps(p, c, times, last, now, gap);
    } else {
      assert times + [] == times;
      OtherPassKeeps(p, c, times, last, now, exit, gap);
    }
  }

  // A pass that only waits, or notes an exit.
  lemma OtherPassKeeps(p: Params, c: Child, times: seq<real>, last: Option<real>, now: real, exit: Option<int>, gap: real)
    requires Sane(p) && gap >= 0.0 && BackedOff(p, c, last, gap) && Windowed(p, c, times, last)
    requires last.Some? ==> now >= last.value + gap
    requires PollChild(p, c, false, now, exit).1 == Quiet || PollChild(p, c, false, now, exit).1 == Exited
    ensures var d := PollChild(p, c, false, now, exit).0; BackedOff(p, d, Some(now), gap) && Windowed(p, d, times, Some(now))
  {
  }

  lemma RespawnKeeps(p: Params, c: Child, times: seq<real>, last: Option<real>, now: real, gap: real)
    requires Sane(p) && gap >= 0.0 && BackedOff(p, c, last, gap) && Windowed(p, c, times, last)
    requires last.Some? && now >= last.value + gap && !c.running && now >= c.restartAt
    requires Respawn(p, c, now).1 == Respawned
    ensures BackedOff(p, Respawn(p, c, now).0, Some(now), gap) && Windowed(p, Respawn(p, c, now).0, times + [now], Some(now))
  {
    var kept := DropOlder(c.restarts, now - p.window);
    var cut := |c.restarts| - |kept|;
    DropOlderIsASuffix(c.restarts, now - p.window);
    forall k | 0 <= k < |kept| ensures now - kept[k] >= Spread(p, |kept| - k, gap) {
      AttemptIsFar(p, c, last, now, gap, cut + k);
      assert c.restarts[cut + k] == kept[k];
    }
    forall k | 0 <= k < |times| - |kept| ensures times[k] < now - p.window {
      if k >= |times| - |c.restarts| {
        assert c.restarts[k - (|times| - |c.restarts|)] < now - p.window;
      }
    }
  }

  lemma {:induction false} LimiterInvariant(p: Params, run: seq<Pass>, gap: real)
    requires Sane(p) && gap >= 0.0 && Spaced(run, gap) && Alive(p, run)
    ensures BackedOff(p, After(p, run), LastPass(run), gap)
    ensures Windowed(p, After(p, run), Respawns(p, run), LastPass(run))
  {
    if run != [] {
      var k := |run| - 1;
      AlivePrefix(p, run, k);
      LimiterInvariant(p, run[..k], gap);
      assert EventAt(p, run, k) != CrashLoop;
      PollKeeps(p, After(p, run[..k]), Respawns(p, run[..k]), LastPass(run[..k]), run[k].now, run[k].exit, gap);
    }
  }

  lemma AlivePrefix(p: Params, run: seq<Pass>, k: nat)
    requires k <= |run| && Alive(p, run)
    ensures Alive(p, run[..k])
  {
    forall i | 0 <= i < k ensures EventAt(p, run[..k], i) != CrashLoop {
      assert run[..k][..i] == run[..i];
      assert EventAt(p, run, i) != CrashLoop;
    }
  }

  lemma RaisesWhenFull(p: Params, c: Child, times: seq<real>, last: Option<real>, now: real, exit: Option<int>)
    requires Sane(p) && p.maxRestarts >= 1 && BackedOff(p, c, last, 0.0) && Windowed(p, c, times, last)
    requires last.Some? && now >= last.value && !c.running && now >= c.restartAt
    ensures PollChild(p, c, false, now, exit).1 == CrashLoop
       <==> |times| >= p.maxRestarts && now - times[|times| - p.maxRestarts] <= p.window
  {
    var kept := DropOlder(c.restarts, now - p.window);
    var cut := |c.restarts| - |kept|;
    DropOlderIsASuffix(c.restarts, now - p.window);
    if |times| >= p.maxRestarts {
      var j := |times| - p.maxRestarts;
      var k := j - (|times| - |c.restarts|);
      if k >= 0 {
        assert times[j] == c.restarts[k];
        assert k >= cut ==> c.restarts[k] == kept[k - cut];
      }
    }
  }

  // The limiter raises exactly when the last maxRestarts respawns all lie in the window.
  lemma RaisesExactlyWhen(p: Params, run: seq<Pass>, now: real, exit: Option<int>)
    requires Sane(p) && p.maxRestarts >= 1 && Spaced(run, 0.0) && Alive(p, run)
    requires run != [] && now >= run[|run| - 1].now
    requires var c := After(p, run); !c.running && now >= c.restartAt
    ensures var times := Respawns(p, run);
      PollChild(p, After(p, run), false, now, exit).1 == CrashLoop
      <==> |times| >= p.maxRestarts && now - times[|times| - p.maxRestarts] <= p.window
  {
    LimiterInvariant(p, run, 0.0);
    var c, times, last := After(p, run), Respawns(p, run), LastPass(run);
    RaisesWhenFull(p, c, times, last, now, exit);
  }

  // Any maxRestarts + 1 successful respawns span strictly more than the window.
  lemma {:induction false} RespawnsAreSpread(p: Params, run: seq<Pass>, i: nat)
    requires Sane(p) && p.maxRestarts >= 1 && Spaced(run, 0.0) && Alive(p, run)
    requires i + p.maxRestarts < |Respawns(p, run)|
    ensures Respawns(p, run)[i + p.maxRestarts] - Respawns(p, run)[i] > p.window
  {
    var k := |run| - 1;
    AlivePrefix(p, run, k);
    if i + p.maxRestarts < |Respawns(p, run[..k])| {
      RespawnsAreSpread(p, run[..k], i);
    } else {
      assert EventAt(p, run, k) == Respawned;
      assert k > 0;
      RaisesExactlyWhen(p, run[..k], run[k].now, run[k].exit);
    }
  }

  // ---- when can the limiter fire at all ----

  ghost predicate Fires(p: Params, run: seq<Pass>, gap: real) {
    run != [] && Spaced(run, gap) && Alive(p, run[..|run| - 1]) && EventAt(p, run, |run| - 1) == CrashLoop
  }

  ghost predicate CanFire(p: Params, gap: real) { exists run :: Fires(p, run, gap) }

  lemma FiringNeedsRoom(p: Params, run: seq<Pass>, gap: real)
    requires Sane(p) && gap >= 0.0 && Fires(p, run, gap)
    ensures Spread(p, p.maxRestarts, gap) <= p.window
  {
    var k := |run| - 1;
    LimiterInvariant(p, run[..k], gap);
    RaisingNeedsRoom(p, After(p, run[..k]), LastPass(run[..k]), run[k].now, run[k].exit, gap);
  }

  lemma RaisingNeedsRoom(p: Params, c: Child, last: Option<real>, now: real, exit: Option<int>, gap: real)
    requires Sane(p) && gap >= 0.0 && BackedOff(p, c, last, gap) && (last.Some? ==> now >= last.value + gap)
    requires PollChild(p, c, false, now, exit).1 == CrashLoop
    ensures Spread(p, p.maxRestarts, gap) <= p.window
  {
    FullWindowNeedsRoom(p, c, last, now, gap);
  }

  lemma NothingDropped(restarts: seq<real>, start: real)
    requires |DropOlder(restarts, start)| >= |restarts|
    ensures |DropOlder(restarts, start)| == |restarts| && (restarts != [] ==> restarts[0] >= start)
  {
    DropOlderIsASuffix(restarts, start);
  }

  // All maxRestarts restarts are still in the window at a respawn attempt.
  lemma FullWindowNeedsRoom(p: Params, c: Child, last: Option<real>, now: real, gap: real)
    requires Sane(p) && gap >= 0.0 && BackedOff(p, c, last, gap) && (last.Some? ==> now >= last.value + gap)
    requires !c.running && now >= c.restartAt && |DropOlder(c.restarts, now - p.window)| + 1 > p.maxRestarts
    ensures Spread(p, p.maxRestarts, gap) <= p.window
  {
    NothingDropped(c.restarts, now - p.window);
    if p.maxRestarts > 0 { AttemptIsFar(p, c, last, now, gap, 0); }
  }

  // The fastest crash loop: every process is found dead on the next pass and restarted on
  // the first pass its backoff allows.
  function FastLoop(p: Params, n: nat, gap: real): seq<Pass> {
    if n == 0 then []
    else
      var first := Max(gap, Backoff(p, 0));
      var at := if n == 1 then 0.0 else first + Spread(p, n - 2, gap) + gap;
      var again := first + Spread(p, n - 1, gap);
      FastLoop(p, n - 1, gap) + [Pass(at, Some(1)), Pass(again, None)]
  }

  ghost predicate InLoop(p: Params, n: nat, gap: real) {
    var run := FastLoop(p, n, gap);
    var c := After(p, run);
    && Spaced(run, gap) && Alive(p, run)
    && c.running && |c.restarts| == n
    && (n > 0 ==>
          && c.restarts[0] == Max(gap, Backoff(p, 0))
          && run != [] && run[|run| - 1].now == Max(gap, Backoff(p, 0)) + Spread(p, n - 1, gap))
  }

  lemma SpacedMore(run: seq<Pass>, a: Pass, gap: real)
    requires Spaced(run, gap) && (run != [] ==> a.now >= run[|run| - 1].now + gap)
    ensures Spaced(run + [a], gap)
  {
  }

  lemma AfterMore(p: Params, run: seq<Pass>, a: Pass)
    ensures var next := run + [a];
      && After(p, next) == PollChild(p, After(p, run), false, a.now, a.exit).0
      && EventAt(p, next, |run|) == PollChild(p, After(p, run), false, a.now, a.exit).1
  {
    assert (run + [a])[..|run|] == run;
  }

  lemma EventStays(p: Params, run: seq<Pass>, a: Pass, i: nat)
    requires i < |run|
    ensures EventAt(p, run + [a], i) == EventAt(p, run, i)
  {
    assert (run + [a])[..i] == run[..i];
  }

  lemma AliveMore(p: Params, run: seq<Pass>, a: Pass)
    requires Alive(p, run) && EventAt(p, run + [a], |run|) != CrashLoop
    ensures Alive(p, run + [a])
  {
    forall i | 0 <= i < |run + [a]| ensures EventAt(p, run + [a], i) != CrashLoop {
      if i < |run| { EventStays(p, run, a, i); }
    }
  }

  // One more pass at the end of a run.
  lemma OneMore(p: Params, run: seq<Pass>, a: Pass, gap: real)
    requires Spaced(run, gap) && Alive(p, run) && (run != [] ==> a.now >= run[|run| - 1].now + gap)
    ensures var next := run + [a];
      && Spaced(next, gap)
      && After(p, next) == PollChild(p, After(p, run), false, a.now, a.exit).0
      && EventAt(p, next, |run|) == PollChild(p, After(p, run), false, a.now, a.exit).1
      && (EventAt(p, next, |run|) != CrashLoop ==> Alive(p, next))
  {
    SpacedMore(run, a, gap);
    AfterMore(p, run, a);
    if EventAt(p, run + [a], |run|) != CrashLoop { AliveMore(p, run, a); }
  }

  // Two more passes at the end of a run.
  lemma TwoMore(p: Params, run: seq<Pass>, a: Pass, b: Pass, gap: real)
    requires Spaced(run, gap) && Alive(p, run) && (run != [] ==> a.now >= run[|run| - 1].now + gap) && b.now >= a.now + gap
    requires PollChild(p, After(p, run), false, a.now, a.exit).1 != CrashLoop
    ensures var next := run + [a, b];
      && Spaced(next, gap) && Alive(p, next[..|next| - 1])
      && After(p, next[..|next| - 1]) == PollChild(p, After(p, run), false, a.now, a.exit).0
      && (EventAt(p, next, |next| - 1) != CrashLoop ==> Alive(p, next))
  {
    var next := run + [a, b];
    assert next == (run + [a]) + [b] && next[..|next| - 1] == run + [a];
    OneMore(p, run, a, gap);
    OneMore(p, run + [a], b, gap);
  }

  lemma FastLoopTurn(p: Params, n: nat, gap: real)
    requires Sane(p) && gap >= 0.0 && InLoop(p, n, gap) && (n > 0 ==> Spread(p, n, gap) <= p.window)
    ensures var run := FastLoop(p, n + 1, gap);
      && Spaced(run, gap) && Alive(p, run[..|run| - 1])
      && (n + 1 <= p.maxRestarts ==> InLoop(p, n + 1, gap))
      && (n + 1 > p.maxRestarts ==> EventAt(p, run, |run| - 1) == CrashLoop)
  {
    var run, next := FastLoop(p, n, gap), FastLoop(p, n + 1, gap);
    var m := |run|;
    var a, b := next[m], next[m + 1];
    assert next == run + [a, b];
    var c := After(p, run);
    TwoMore(p, run, a, b, gap);
    var dead := PollChild(p, c, false, a.now, a.exit).0;
    assert dead.restarts == c.restarts && dead.restartAt == a.now + Backoff(p, n);
    assert b.now == a.now + Max(gap, Backoff(p, n));
    assert n > 0 ==> c.restarts[0] >= b.now - p.window;
    assert DropOlder(c.restarts, b.now - p.window) == c.restarts;
  }

  lemma FastLoopGoesOn(p: Params, n: nat, gap: real)
    requires Sane(p) && gap >= 0.0 && n < p.maxRestarts && InLoop(p, n, gap) && Spread(p, n, gap) <= p.window
    ensures InLoop(p, n + 1, gap)
  {
    FastLoopTurn(p, n, gap);
  }

  lemma FastLoopBegins(p: Params, gap: real)
    ensures InLoop(p, 0, gap)
  {
  }

  lemma {:induction false} FastLoopRuns(p: Params, n: nat, gap: real)
    requires Sane(p) && gap >= 0.0 && n <= p.maxRestarts && Spread(p, p.maxRestarts, gap) <= p.window
    ensures InLoop(p, n, gap)
  {
    if n == 0 {
      FastLoopBegins(p, gap);
    } else {
      FastLoopRuns(p, n - 1, gap);
      SpreadGrows(p, n - 1, p.maxRestarts, gap);
      FastLoopGoesOn(p, n - 1, gap);
    }
  }

  lemma {:induction false} SpreadGrows(p: Params, n: nat, m: nat, gap: real)
    requires gap >= 0.0 && n <= m
    ensures 0.0 <= Spread(p, n, gap) <= Spread(p, m, gap)
  {
    if n < m { SpreadGrows(p, n, m - 1, gap); } else if n > 0 { SpreadGrows(p, n - 1, n - 1, gap); }
  }

  // The limiter can ever fire if and only if the window has room for maxRestarts backoffs
  // and the passes between them.
  lemma CanFireExactlyWhen(p: Params, gap: real)
    requires Sane(p) && gap >= 0.0
    ensures CanFire(p, gap) <==> Spread(p, p.maxRestarts, gap) <= p.window
  {
    if CanFire(p, gap) {
      var run :| Fires(p, run, gap);
      FiringNeedsRoom(p, run, gap);
    }
    if Spread(p, p.maxRestarts, gap) <= p.window {
      FastLoopRuns(p, p.maxRestarts, gap);
      FastLoopTurn(p, p.maxRestarts, gap);
      assert Fires(p, FastLoop(p, p.maxRestarts + 1, gap), gap);
    }
  }

  // With the default constants 2 + 4 + 8 + 16 + 30 is the whole window: the fail-fast exit
  // needs every pass to happen at one instant, and any pause between passes rules it out.
  lemma DefaultsFireOnlyWithoutPauses(gap: real)
    requires gap >= 0.0
    ensures CanFire(DEFAULTS, gap) <==> gap == 0.0
  {
    CanFireExactlyWhen(DEFAULTS, gap);
    DefaultGaps(gap);
    SpreadOfFive(DEFAULTS, gap);
  }

  lemma SpreadOfFive(p: Params, gap: real)
    ensures Spread(p, 5, gap) == Gap(p, 1, gap) + Gap(p, 2, gap) + Gap(p, 3, gap) + Gap(p, 4, gap) + Gap(p, 5, gap)
  {
    assert Spread(p, 1, gap) == Gap(p, 1, gap);
    assert Spread(p, 2, gap) == Spread(p, 1, gap) + Gap(p, 2, gap);
    assert Spread(p, 3, gap) == Spread(p, 2, gap) + Gap(p, 3, gap);
    assert Spread(p, 4, gap) == Spread(p, 3, gap) + Gap(p, 4, gap);
  }

  lemma DefaultGaps(gap: real)
    ensures Gap(DEFAULTS, 1, gap) == gap + Max(gap, 2.0) && Gap(DEFAULTS, 2, gap) == gap + Max(gap, 4.0)
    ensures Gap(DEFAULTS, 3, gap) == gap + Max(gap, 8.0) && Gap(DEFAULTS, 4, gap) == gap + Max(gap, 16.0)
    ensures Gap(DEFAULTS, 5, gap) == gap + Max(gap, 30.0)
  {
    assert Pow2(1) == 2.0;
    assert Pow2(2) == 4.0;
    assert Pow2(3) == 8.0;
    assert Pow2(4) == 16.0;
    assert Pow2(5) == 32.0;
  }

  // ---- the objects the monitoring pass updates ----

  class ChildState {
    var running: bool
    var restartAt: real
    var restarts: seq<real>
    var startCount: nat
    var lastExit: Option<int>

    constructor ()
      ensures View() == STARTED
    {
      running, restartAt, restarts, startCount, lastExit := true, 0.0, [], 1, None;
    }

    function View(): Child
      reads this
    {
      Child(running, restartAt, restarts, startCount, lastExit)
    }

    method Poll(p: Params, stopping: bool, now: real, exit: Option<int>) returns (event: Event)
      modifies this
      ensures (View(), event) == PollChild(p, old(View()), stopping, now, exit)
    {
      if !running {
        if stopping || now < restartAt { return Quiet; }
        ghost var start := now - p.window;
        while restarts != [] && restarts[0] < now - p.window
          invariant DropOlder(restarts, start) == DropOlder(old(restarts), start)
          invariant View() == old(View()).(restarts := restarts)
          decreases |restarts|
        {
          restarts := restarts[1..];
        }
        restarts := restarts + [now];
        if |restarts| > p.maxRestarts { return CrashLoop; }
        running := true;
        startCount := startCount + 1;
        return Respawned;
      }
      if exit.None? { return Quiet; }
      lastExit := exit;
      running := false;
      if !stopping { restartAt := now + Backoff(p, |restarts|); }
      return Exited;
    }
  }

  class Supervisor {
    const params: Params
    const children: seq<ChildState>
    var stopping: bool

    constructor (params: Params, children: seq<ChildState>)
      ensures this.params == params && this.children == children && !stopping
    {
      this.params, this.children, stopping := params, children, false;
    }

    ghost predicate Valid()
    {
      forall i, j :: 0 <= i < j < |children| ==> children[i] != children[j]
    }

    // One pass over all contours; the contour that exceeds its budget ends it at once.
    method PollOnce(now: real, exits: seq<Option<int>>) returns (failed: Option<nat>)
      requires Valid() && |exits| == |children|
      modifies children
      ensures forall i :: 0 <= i < |children| && (failed.None? || i <= failed.value) ==>
        children[i].View() == PollChild(params, old(children[i].View()), stopping, now, exits[i]).0
      ensures forall i :: 0 <= i < |children| && failed.Some? && i > failed.value ==>
        children[i].View() == old(children[i].View())
      ensures forall i :: 0 <= i < |children| && (failed.None? || i < failed.value) ==>
        PollChild(params, old(children[i].View()), stopping, now, exits[i]).1 != CrashLoop
      ensures failed.Some? ==>
        failed.value < |children| && PollChild(params, old(children[failed.value].View()), stopping, now, exits[failed.value]).1 == CrashLoop
    {
      for k := 0 to |children|
        invariant forall i :: 0 <= i < k ==>
          && children[i].View() == PollChild(params, old(children[i].View()), stopping, now, exits[i]).0
          && PollChild(params, old(children[i].View()), stopping, now, exits[i]).1 != CrashLoop
        invariant forall i :: k <= i < |children| ==> children[i].View() == old(children[i].View())
      {
        var event := children[k].Poll(params, stopping, now, exits[k]);
        if event == CrashLoop { return Some(k); }
      }
      return None;
    }
  }

  // ---- while the supervisor is stopping ----

  // What the process of the contour reports in the passes after the signal.
  function AfterStopping(p: Params, c: Child, run: seq<Pass>): Child {
    if run == [] then c
    else
      var k := |run| - 1;
      PollChild(p, AfterStopping(p, c, run[..k]), true, run[k].now, run[k].exit).0
  }

  // The first exit reported, if any.
  function FirstExit(run: seq<Pass>): Option<int> {
    if run == [] then None
    else if FirstExit(run[..|run| - 1]).Some? then FirstExit(run[..|run| - 1])
    else run[|run| - 1].exit
  }

  // Passes after the signal only collect exits: nothing is started again, no restart is counted or
  // scheduled, none of them can raise, and the exit that counts is the first one of a running process.
  lemma {:induction false} StoppingOnlyCollects(p: Params, c: Child, run: seq<Pass>)
    ensures var d := AfterStopping(p, c, run);
      && d.startCount == c.startCount && d.restarts == c.restarts && d.restartAt == c.restartAt
      && (d.running <==> c.running && FirstExit(run).None?)
      && d.lastExit == if c.running && FirstExit(run).Some? then FirstExit(run) else c.lastExit
    ensures forall now, exit :: var event := PollChild(p, AfterStopping(p, c, run), true, now, exit).1;
      event == if AfterStopping(p, c, run).running && exit.Some? then Exited else Quiet
  {
    if run != [] { StoppingOnlyCollects(p, c, run[..|run| - 1]); }
  }
}
