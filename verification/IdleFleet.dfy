// _idle of aistat/flow_metrics.py: consecutive fleet snapshots, clipped to the window and
// booked as idle, covered, paused, unobserved or gap seconds.
module IdleFleet {
  import opened Prelude

  const SNAPSHOT_GAP := 900

  // at is None when the stored timestamp does not parse; a missing starved count reads as 0.
  datatype Snapshot = Snapshot(at: Option<int>, starved: int, paused: bool, observed: bool)

  datatype Reading = Reading(at: int, starved: int, paused: bool, observed: bool)

  datatype Kind = Gap | Unavailable | Paused | Busy | Idle

  datatype Totals = Totals(idle: int, covered: int, paused: int, unavailable: int, gap: int)

  const NOTHING := Totals(0, 0, 0, 0, 0)

  function Readable(rows: seq<Snapshot>): seq<Reading> {
    if rows == [] then []
    else
      var r := rows[|rows| - 1];
      Readable(rows[..|rows| - 1]) + (if r.at.Some? then [Reading(r.at.value, r.starved, r.paused, r.observed)] else [])
  }

  ghost predicate Sorted(ps: seq<Reading>) { forall i, j :: 0 <= i < j < |ps| ==> ps[i].at <= ps[j].at }

  // Seconds of [a, b) inside [lo, hi).
  function Common(a: int, b: int, lo: int, hi: int): int {
    var left, right := if a >= lo then a else lo, if b <= hi then b else hi;
    if right > left then right - left else 0
  }

  // What the time between two consecutive readings was.
  function KindOf(p: Reading, q: Reading): Kind {
    if q.at - p.at > SNAPSHOT_GAP then Gap
    else if !p.observed then Unavailable
    else if p.paused then Paused
    else if p.starved > 0 then Idle
    else Busy
  }

  // ---- the reference: what was going on at second t ----

  // The state at t is decided by the reading before it and by how far away the next one is;
  // before the first and from the last reading on nothing is known.
  function StateAt(ps: seq<Reading>, t: int): Option<Kind> {
    if |ps| < 2 then None
    else
      var p, q := ps[|ps| - 2], ps[|ps| - 1];
      if p.at <= t < q.at then Some(KindOf(p, q)) else StateAt(ps[..|ps| - 1], t)
  }

  // Number of seconds of [lo, hi) that were in state k.
  function SecondsIn(ps: seq<Reading>, k: Kind, lo: int, hi: int): nat
    decreases hi - lo
  {
    if hi <= lo then 0 else SecondsIn(ps, k, lo, hi - 1) + if StateAt(ps, hi - 1) == Some(k) then 1 else 0
  }

  // ---- the loop ----

  function Book(t: Totals, p: Reading, q: Reading, lo: int, hi: int): Totals {
    var overlap := Common(p.at, q.at, lo, hi);
    match KindOf(p, q)
    case Gap => t.(gap := t.gap + overlap)
    case Unavailable => t.(unavailable := t.unavailable + overlap)
    case Paused => t.(paused := t.paused + overlap)
    case Busy => t.(covered := t.covered + overlap)
    case Idle => t.(covered := t.covered + overlap, idle := t.idle + overlap)
  }

  function Account(ps: seq<Reading>, lo: int, hi: int): Totals {
    if |ps| < 2 then NOTHING
    else Book(Account(ps[..|ps| - 1], lo, hi), ps[|ps| - 2], ps[|ps| - 1], lo, hi)
  }

  function BusyAndIdle(ps: seq<Reading>, lo: int, hi: int): nat { SecondsIn(ps, Busy, lo, hi) + SecondsIn(ps, Idle, lo, hi) }

  lemma {:induction false} NothingAfterTheLast(ps: seq<Reading>, t: int)
    requires Sorted(ps) && (ps == [] || ps[|ps| - 1].at <= t)
    ensures StateAt(ps, t) == None
  {
    if |ps| >= 2 { NothingAfterTheLast(ps[..|ps| - 1], t); }
  }

  // One more reading adds the seconds between it and the one before, and only those.
  lemma {:induction false} OneMoreReading(ps: seq<Reading>, k: Kind, lo: int, hi: int)
    requires Sorted(ps) && |ps| >= 2
    ensures var p, q := ps[|ps| - 2], ps[|ps| - 1];
      SecondsIn(ps, k, lo, hi) == SecondsIn(ps[..|ps| - 1], k, lo, hi) + if KindOf(p, q) == k then Common(p.at, q.at, lo, hi) else 0
    decreases hi - lo
  {
    var p, q := ps[|ps| - 2], ps[|ps| - 1];
    if hi > lo {
      OneMoreReading(ps, k, lo, hi - 1);
      if p.at <= hi - 1 < q.at {
        NothingAfterTheLast(ps[..|ps| - 1], hi - 1);
      }
    }
  }

  // The window counted second by second.
  function Counted(ps: seq<Reading>, lo: int, hi: int): Totals {
    Totals(SecondsIn(ps, Idle, lo, hi), BusyAndIdle(ps, lo, hi), SecondsIn(ps, Paused, lo, hi),
           SecondsIn(ps, Unavailable, lo, hi), SecondsIn(ps, Gap, lo, hi))
  }

  // Every counter of the loop is the number of seconds in its state.
  lemma {:induction false} CountersAreSeconds(ps: seq<Reading>, lo: int, hi: int)
    requires Sorted(ps)
    ensures Account(ps, lo, hi) == Counted(ps, lo, hi)
  {
    if |ps| < 2 {
      NoSeconds(ps, lo, hi);
    } else {
      CountersAreSeconds(ps[..|ps| - 1], lo, hi);
      OneMoreReading(ps, Idle, lo, hi);
      OneMoreReading(ps, Busy, lo, hi);
      OneMoreReading(ps, Paused, lo, hi);
      OneMoreReading(ps, Unavailable, lo, hi);
      OneMoreReading(ps, Gap, lo, hi);
    }
  }

  lemma {:induction false} NoSeconds(ps: seq<Reading>, lo: int, hi: int)
    requires |ps| < 2
    ensures forall k :: SecondsIn(ps, k, lo, hi) == 0
    decreases hi - lo
  {
    if hi > lo { NoSeconds(ps, lo, hi - 1); }
  }

  // The part of the window between the first and the last reading.
  function Observed(ps: seq<Reading>, lo: int, hi: int): int {
    if ps == [] then 0 else Common(ps[0].at, ps[|ps| - 1].at, lo, hi)
  }

  ghost predicate Partitioned(t: Totals, seen: int, window: int) {
    && t.covered + t.paused + t.unavailable + t.gap == seen <= window
    && 0 <= t.idle <= t.covered && 0 <= t.paused && 0 <= t.unavailable && 0 <= t.gap
  }

  // Booking one more stretch of time keeps the counters a partition.
  lemma BookPartitions(t: Totals, p: Reading, q: Reading, lo: int, hi: int, seen: int)
    requires Partitioned(t, seen, hi - lo) && seen + Common(p.at, q.at, lo, hi) <= hi - lo
    ensures Partitioned(Book(t, p, q, lo, hi), seen + Common(p.at, q.at, lo, hi), hi - lo)
  {
  }

  // The counters partition the observed part of the window.
  lemma {:induction false} CountersPartition(ps: seq<Reading>, lo: int, hi: int)
    requires Sorted(ps) && lo <= hi
    ensures Partitioned(Account(ps, lo, hi), Observed(ps, lo, hi), hi - lo)
  {
    if |ps| >= 2 {
      var n := |ps| - 1;
      CountersPartition(ps[..n], lo, hi);
      CommonJoins(ps[0].at, ps[n - 1].at, ps[n].at, lo, hi);
      BookPartitions(Account(ps[..n], lo, hi), ps[n - 1], ps[n], lo, hi, Observed(ps[..n], lo, hi));
    }
  }

  lemma CommonJoins(a: int, b: int, c: int, lo: int, hi: int)
    requires a <= b <= c && lo <= hi
    ensures Common(a, b, lo, hi) + Common(b, c, lo, hi) == Common(a, c, lo, hi) <= hi - lo
  {
  }

  lemma AccountNext(before: seq<Reading>, r: Reading, lo: int, hi: int)
    ensures Account(before + [r], lo, hi)
         == if before == [] then NOTHING else Book(Account(before, lo, hi), before[|before| - 1], r, lo, hi)
  {
    assert (before + [r])[..|before|] == before;
  }

  // The loop body once a previous reading exists.
  method BookPair(t: Totals, prev: Reading, row: Reading, lo: int, hi: int) returns (next: Totals)
    ensures next == Book(t, prev, row, lo, hi)
  {
    next := t;
    var span := row.at - prev.at;
    var left := if prev.at >= lo then prev.at else lo;
    var right := if row.at <= hi then row.at else hi;
    var overlap := if right > left then right - left else 0;
    if span > SNAPSHOT_GAP {
      next := next.(gap := next.gap + overlap);
    } else if overlap > 0 {
      if !prev.observed {
        next := next.(unavailable := next.unavailable + overlap);
      } else if prev.paused {
        next := next.(paused := next.paused + overlap);
      } else {
        next := next.(covered := next.covered + overlap);
        if prev.starved > 0 { next := next.(idle := next.idle + overlap); }
      }
    }
  }

  // The loop over the fetched snapshots.
  method IdleTotals(rows: seq<Snapshot>, lo: int, hi: int) returns (t: Totals)
    ensures t == Account(Readable(rows), lo, hi)
  {
    t := NOTHING;
    var previous: Option<Reading> := None;
    for i := 0 to |rows|
      invariant t == Account(Readable(rows[..i]), lo, hi)
      invariant previous == Last(Readable(rows[..i]))
    {
      assert rows[..i + 1][..i] == rows[..i];
      var row := rows[i];
      if row.at.Some? {
        var reading := Reading(row.at.value, row.starved, row.paused, row.observed);
        AccountNext(Readable(rows[..i]), reading, lo, hi);
        if previous.Some? { t := BookPair(t, previous.value, reading, lo, hi); }
        previous := Some(reading);
      } else {
        assert Readable(rows[..i + 1]) == Readable(rows[..i]);
      }
    }
    assert rows[..|rows|] == rows;
  }

  // The figures of _idle: each counter is the number of seconds in its state, together they
  // partition the observed part of the window, and the share is a share.
  method IdleShare(rows: seq<Snapshot>, lo: int, hi: int) returns (t: Totals, share: Option<real>)
    requires Sorted(Readable(rows)) && lo <= hi
    ensures t == Counted(Readable(rows), lo, hi)
    ensures t.covered + t.paused + t.unavailable + t.gap == Observed(Readable(rows), lo, hi)
    ensures t.idle <= t.covered <= hi - lo
    ensures share.Some? <==> t.covered > 0
    ensures share.Some? ==> 0.0 <= share.value <= 1.0 && share.value * t.covered as real == t.idle as real
  {
    hide Account, Counted, Observed, Readable;
    t := IdleTotals(rows, lo, hi);
    CountersAreSeconds(Readable(rows), lo, hi);
    CountersPartition(Readable(rows), lo, hi);
    share := ShareOf(t.idle, t.covered);
  }

  method ShareOf(idle: int, covered: int) returns (share: Option<real>)
    requires 0 <= idle <= covered
    ensures share.Some? <==> covered > 0
    ensures share.Some? ==> 0.0 <= share.value <= 1.0 && share.value * covered as real == idle as real
  {
    share := None;
    if covered > 0 {
      share := Some(idle as real / covered as real);
      ShareOfWhole(idle as real, covered as real);
    }
  }

  function Last(ps: seq<Reading>): Option<Reading> { if ps == [] then None else Some(ps[|ps| - 1]) }

  lemma ShareOfWhole(part: real, whole: real)
    requires 0.0 <= part <= whole && whole > 0.0
    ensures 0.0 <= part / whole <= 1.0 && part / whole * whole == part
  {
  }

  // ---- what the states mean ----

  // What a second is by the reading before it, once the next one is near enough.
  predicate IsState(p: Reading, q: Reading, k: Kind) {
    match k
    case Gap => q.at - p.at > 900
    case Unavailable => q.at - p.at <= 900 && !p.observed
    case Paused => q.at - p.at <= 900 && p.observed && p.paused
    case Idle => q.at - p.at <= 900 && p.observed && !p.paused && p.starved > 0
    case Busy => q.at - p.at <= 900 && p.observed && !p.paused && p.starved <= 0
  }

  // Second t lies between readings i and i + 1, which make it a second of state k.
  ghost predicate Makes(ps: seq<Reading>, i: int, t: int, k: Kind) {
    0 <= i && i + 1 < |ps| && ps[i].at <= t < ps[i + 1].at && IsState(ps[i], ps[i + 1], k)
  }

  // A second is in a state exactly when it lies between two consecutive readings that make it so.
  lemma {:induction false} StateExactlyWhen(ps: seq<Reading>, t: int, k: Kind)
    requires Sorted(ps)
    ensures StateAt(ps, t) == Some(k) <==> exists i :: Makes(ps, i, t, k)
  {
    if |ps| >= 2 {
      var n := |ps| - 2;
      var rest := ps[..n + 1];
      StateExactlyWhen(rest, t, k);
      assert Makes(ps, n, t, k) <==> ps[n].at <= t < ps[n + 1].at && KindOf(ps[n], ps[n + 1]) == k;
      forall i | i != n ensures Makes(ps, i, t, k) <==> Makes(rest, i, t, k) && !(ps[n].at <= t < ps[n + 1].at) {
        OtherPair(ps, i, t, k);
      }
      assert !Makes(rest, n, t, k);
    }
  }

  lemma OtherPair(ps: seq<Reading>, i: int, t: int, k: Kind)
    requires Sorted(ps) && |ps| >= 2 && i != |ps| - 2
    ensures var n := |ps| - 2;
      Makes(ps, i, t, k) <==> Makes(ps[..n + 1], i, t, k) && !(ps[n].at <= t < ps[n + 1].at)
  {
    var n := |ps| - 2;
    if 0 <= i < n { assert ps[i + 1].at <= ps[n].at; }
  }
}
