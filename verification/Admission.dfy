// Two admission checks of aistat/handoff.py on a shared table: single use of a worker
// nonce, and the fixed-window throttle on token submissions.
module Admission {
  import opened Prelude

  type Time = int

  const NONCE_TTL_FACTOR := 3
  const WINDOW_SECONDS := 900
  const MAX_SUBMISSIONS := 10

  // ---- worker requests ----

  // authentic: the signature header matches path, timestamp, nonce and body.
  datatype Request = Request(timestamp: Time, nonce: string, authentic: bool)

  predicate NonceChar(c: char) {
    'A' <= c <= 'Z' || 'a' <= c <= 'z' || '0' <= c <= '9' || c == '-' || c == '_'
  }

  predicate ValidNonce(nonce: string) {
    16 <= |nonce| <= 128 && forall i :: 0 <= i < |nonce| ==> NonceChar(nonce[i])
  }

  predicate Verified(r: Request, maxAge: nat, now: Time) {
    0 - maxAge <= now - r.timestamp <= maxAge && ValidNonce(r.nonce) && r.authentic
  }

  // A duplicate key rolls the whole transaction back, the purge included.
  function Consume(table: map<string, Time>, nonce: string, maxAge: nat, now: Time): (map<string, Time>, bool) {
    var kept := map n | n in table && table[n] > now - maxAge * NONCE_TTL_FACTOR :: table[n];
    if nonce in kept then (table, false) else (kept[nonce := now], true)
  }

  // One request: checked at one moment, its nonce consumed at a later one.
  datatype Attempt = Attempt(request: Request, checkedAt: Time, consumedAt: Time)

  function Served(table: map<string, Time>, a: Attempt, maxAge: nat): (map<string, Time>, bool) {
    if Verified(a.request, maxAge, a.checkedAt) then Consume(table, a.request.nonce, maxAge, a.consumedAt)
    else (table, false)
  }

  function TableAfter(run: seq<Attempt>, maxAge: nat): map<string, Time> {
    if run == [] then map[]
    else Served(TableAfter(run[..|run| - 1], maxAge), run[|run| - 1], maxAge).0
  }

  predicate AcceptedAt(run: seq<Attempt>, i: nat, maxAge: nat)
    requires i < |run|
  {
    Served(TableAfter(run[..i], maxAge), run[i], maxAge).1
  }

  // Attempts in the order of their (serialised) consumption, each at most lag seconds
  // after its own signature check.
  ghost predicate Timely(run: seq<Attempt>, lag: int) {
    && (forall i, j :: 0 <= i < j < |run| ==> run[i].consumedAt <= run[j].consumedAt)
    && (forall i :: 0 <= i < |run| ==> run[i].checkedAt <= run[i].consumedAt <= run[i].checkedAt + lag)
  }

  // Until three ages after it was consumed, a nonce stays in the table.
  lemma {:induction false} NonceIsRemembered(run: seq<Attempt>, i: nat, k: nat, maxAge: nat, lag: int)
    requires Timely(run, lag) && i < k <= |run| && AcceptedAt(run, i, maxAge)
    requires forall j :: i < j < k ==> run[j].consumedAt < run[i].consumedAt + maxAge * NONCE_TTL_FACTOR
    ensures var t := TableAfter(run[..k], maxAge);
      run[i].request.nonce in t && t[run[i].request.nonce] == run[i].consumedAt
  {
    assert run[..k][..k - 1] == run[..k - 1];
    if i < k - 1 {
      NonceIsRemembered(run, i, k - 1, maxAge, lag);
    }
  }

  // Two requests with one timestamp and nonce are never both accepted.
  lemma NonceSingleUse(run: seq<Attempt>, i: nat, j: nat, maxAge: nat, lag: int)
    requires Timely(run, lag) && lag < maxAge && i < j < |run|
    requires run[i].request.nonce == run[j].request.nonce && run[i].request.timestamp == run[j].request.timestamp
    ensures !(AcceptedAt(run, i, maxAge) && AcceptedAt(run, j, maxAge))
  {
    if AcceptedAt(run, i, maxAge) && AcceptedAt(run, j, maxAge) {
      NonceIsRemembered(run, i, j, maxAge, lag);
    }
  }

  ghost predicate SingleUse(maxAge: nat, lag: int) {
    forall run: seq<Attempt>, i: nat, j: nat ::
      Timely(run, lag) && i < j < |run|
      && run[i].request.nonce == run[j].request.nonce && run[i].request.timestamp == run[j].request.timestamp
      ==> !(AcceptedAt(run, i, maxAge) && AcceptedAt(run, j, maxAge))
  }

  // The slack between check and consumption that the purge horizon buys is exactly the
  // maximum age: with one second more, one request is accepted twice.
  lemma SingleUseExactly(maxAge: nat, lag: int)
    requires lag >= 0
    ensures SingleUse(maxAge, lag) <==> lag < maxAge
  {
    if lag < maxAge {
      forall run: seq<Attempt>, i: nat, j: nat |
        Timely(run, lag) && i < j < |run|
        && run[i].request.nonce == run[j].request.nonce && run[i].request.timestamp == run[j].request.timestamp
        ensures !(AcceptedAt(run, i, maxAge) && AcceptedAt(run, j, maxAge))
      {
        NonceSingleUse(run, i, j, maxAge, lag);
      }
    } else {
      var r := Request(0, "AAAAAAAAAAAAAAAA", true);
      var first := Attempt(r, 0 - maxAge, 0 - maxAge);
      var second := Attempt(r, maxAge, 2 * maxAge);
      var run := [first, second];
      assert run[..0] == [] && run[..1] == [first] && [first][..0] == [];
      assert AcceptedAt(run, 0, maxAge);
      assert TableAfter([first], maxAge) == map["AAAAAAAAAAAAAAAA" := 0 - maxAge];
      assert AcceptedAt(run, 1, maxAge);
      assert Timely(run, lag);
    }
  }

  // ---- the submission throttle ----

  datatype Window = Window(started: Time, submissions: int)

  // Zero grants a slot; a positive result is the delay until the window ends.
  function Reserve(w: Option<Window>, now: Time): (Option<Window>, int) {
    if w.Some? && w.value.started + WINDOW_SECONDS > now then
      if w.value.submissions >= MAX_SUBMISSIONS then (w, w.value.started + WINDOW_SECONDS - now)
      else (Some(Window(w.value.started, w.value.submissions + 1)), 0)
    else (Some(Window(now, 1)), 0)
  }

  function WindowAfter(times: seq<Time>): Option<Window> {
    if times == [] then None else Reserve(WindowAfter(times[..|times| - 1]), times[|times| - 1]).0
  }

  // Slots granted among the attempts falling into [t, t + 900).
  function GrantsWithin(times: seq<Time>, t: Time): nat {
    if times == [] then 0
    else
      var k := |times| - 1;
      GrantsWithin(times[..k], t)
      + (if t <= times[k] < t + WINDOW_SECONDS && Reserve(WindowAfter(times[..k]), times[k]).1 == 0 then 1 else 0)
  }

  ghost predicate Monotone(times: seq<Time>) {
    forall i, j :: 0 <= i < j < |times| ==> times[i] <= times[j]
  }

  ghost predicate WindowBound(times: seq<Time>, t: Time) {
    match WindowAfter(times)
    case None => times == []
    case Some(w) =>
      && times != []
      && 1 <= w.submissions <= MAX_SUBMISSIONS
      && w.started <= times[|times| - 1]
      && (w.started < t ==> GrantsWithin(times, t) <= w.submissions - 1)
      && (t <= w.started < t + WINDOW_SECONDS ==> GrantsWithin(times, t) <= MAX_SUBMISSIONS - 1 + w.submissions)
      && GrantsWithin(times, t) <= 2 * MAX_SUBMISSIONS - 1
  }

  lemma {:induction false} WindowBoundHolds(times: seq<Time>, t: Time)
    requires Monotone(times)
    ensures WindowBound(times, t)
    ensures times != [] && times[|times| - 1] < t ==> GrantsWithin(times, t) == 0
  {
    if times != [] {
      var k := |times| - 1;
      WindowBoundHolds(times[..k], t);
      if k > 0 { assert times[k - 1] <= times[k]; }
    }
  }

  // A fixed window of ten lets up to nineteen through in 900 seconds, never twenty.
  lemma AtMostNineteen(times: seq<Time>, t: Time)
    requires Monotone(times)
    ensures GrantsWithin(times, t) <= 19
  {
    WindowBoundHolds(times, t);
  }

  function Repeat(now: Time, n: nat): seq<Time> { seq(n, _ => now) }

  // n more attempts at one instant of a running window with room for them.
  lemma {:induction false} BurstIsGranted(times: seq<Time>, now: Time, n: nat, t: Time)
    requires WindowAfter(times).Some?
    requires WindowAfter(times).value.started + WINDOW_SECONDS > now
    requires WindowAfter(times).value.submissions + n <= MAX_SUBMISSIONS
    ensures var w := WindowAfter(times).value;
      WindowAfter(times + Repeat(now, n)) == Some(Window(w.started, w.submissions + n))
    ensures t <= now < t + WINDOW_SECONDS ==> GrantsWithin(times + Repeat(now, n), t) == GrantsWithin(times, t) + n
  {
    if n == 0 {
      assert times + Repeat(now, 0) == times;
    } else {
      BurstIsGranted(times, now, n - 1, t);
      var all := times + Repeat(now, n);
      assert all[..|all| - 1] == times + Repeat(now, n - 1);
    }
  }

  // The bound is reached: nine slots at the end of one window, ten at the start of the next.
  lemma NineteenIsReached()
    ensures exists times :: Monotone(times) && GrantsWithin(times, 1) == 19
  {
    var a := [0];
    assert a[..0] == [];
    BurstIsGranted(a, 899, 9, 1);
    var b := a + Repeat(899, 9);
    var c := b + [900];
    assert c[..|c| - 1] == b;
    BurstIsGranted(c, 900, 9, 1);
    var d := c + Repeat(900, 9);
    assert Monotone(d);
  }

  // A rejection names the exact moment from which the next attempt is granted.
  lemma RetryAfterIsExact(times: seq<Time>, now: Time)
    requires Monotone(times + [now])
    ensures var w := WindowAfter(times); var delay := Reserve(w, now).1;
      delay > 0 ==>
        && 1 <= delay <= WINDOW_SECONDS
        && Reserve(w, now).0 == w
        && Reserve(w, now + delay) == (Some(Window(now + delay, 1)), 0)
        && forall later :: now <= later < now + delay ==> Reserve(w, later).1 == now + delay - later
  {
    assert forall i, j :: 0 <= i < j < |times| ==> times[i] == (times + [now])[i] && times[j] == (times + [now])[j];
    WindowBoundHolds(times, 0);
    if times != [] { assert (times + [now])[|times| - 1] <= (times + [now])[|times|]; }
  }

  // The two tables as the host updates them.
  class AdmissionTables {
    var nonces: map<string, Time>
    var throttle: map<int, Window>

    constructor ()
      ensures nonces == map[] && throttle == map[]
    {
      nonces, throttle := map[], map[];
    }

    method ConsumeWorkerNonce(nonce: string, maxAge: nat, now: Time) returns (accepted: bool)
      modifies this`nonces
      ensures (nonces, accepted) == Consume(old(nonces), nonce, maxAge, now)
    {
      var before := nonces;
      var ttl := maxAge * NONCE_TTL_FACTOR;
      nonces := map n | n in before && !(before[n] <= now - ttl) :: before[n];
      assert nonces == map n | n in before && before[n] > now - maxAge * NONCE_TTL_FACTOR :: before[n];
      if nonce in nonces {
        nonces := before;
        return false;
      }
      nonces := nonces[nonce := now];
      return true;
    }

    function RowOf(u: int): Option<Window>
      reads this`throttle
    {
      if u in throttle then Some(throttle[u]) else None
    }

    method ReserveConnectionSubmission(u: int, now: Time) returns (delay: int)
      modifies this`throttle
      ensures (RowOf(u), delay) == Reserve(old(RowOf(u)), now)
      ensures forall v :: v != u ==> RowOf(v) == old(RowOf(v))
    {
      var started, submissions := now, 1;
      if u in throttle && throttle[u].started + WINDOW_SECONDS > now {
        started, submissions := throttle[u].started, throttle[u].submissions;
        if submissions >= MAX_SUBMISSIONS {
          return started + WINDOW_SECONDS - now;
        }
        submissions := submissions + 1;
      }
      throttle := throttle[u := Window(started, submissions)];
      return 0;
    }
  }
}
