// The data-freshness guard of aistat/snapshot.py: what a SQLite file says about daily
// usage, and when a snapshot may replace the one a tenant is served from.
module Freshness {
  import opened Prelude

  // A column value as SQLite hands it over; dates are ranked by their text order.
  datatype Cell<T> = Null | Text(value: T) | NonText
  datatype Counter = Integer(n: int) | NonInteger

  datatype RawRow = RawRow(
    runtime: Cell<string>, model: Cell<string>, date: Cell<int>,
    input: Counter, output: Counter, cacheRead: Counter, cacheWrite: Counter)

  // NoTable: no regular file, no daily_usage columns, or any read error.
  datatype Table = NoTable | Rows(rows: seq<RawRow>)

  datatype Key = Key(runtime: string, model: string, date: int)
  datatype Counters = Counters(input: int, output: int, cacheRead: int, cacheWrite: int)

  datatype Usage = Unreadable | Readable(latest: Option<int>, rows: map<Key, Counters>)

  predicate GoodCounter(c: Counter) { c.Integer? && c.n >= 0 }

  predicate GoodRow(r: RawRow) {
    && r.runtime.Text? && r.model.Text? && r.date.Text?
    && GoodCounter(r.input) && GoodCounter(r.output) && GoodCounter(r.cacheRead) && GoodCounter(r.cacheWrite)
  }

  function KeyOf(r: RawRow): Key
    requires GoodRow(r)
  {
    Key(r.runtime.value, r.model.value, r.date.value)
  }

  function CountersOf(r: RawRow): Counters
    requires GoodRow(r)
  {
    Counters(r.input.n, r.output.n, r.cacheRead.n, r.cacheWrite.n)
  }

  // SELECT MAX(date): NULLs are ignored, and any non-text value outranks or mixes with
  // text in a way that only ever meets unreadable rows.
  function MaxDate(rows: seq<RawRow>): Cell<int> {
    if rows == [] then Null
    else
      var d := rows[|rows| - 1].date;
      match MaxDate(rows[..|rows| - 1])
      case Null => d
      case NonText => NonText
      case Text(m) => if d.Text? && d.value > m then d else if d.NonText? then d else Text(m)
  }

  // The dictionary the reading loop builds, or None where it gives up.
  function Collect(rows: seq<RawRow>): Option<map<Key, Counters>> {
    if rows == [] then Some(map[])
    else
      var r := rows[|rows| - 1];
      match Collect(rows[..|rows| - 1])
      case None => None
      case Some(m) => if GoodRow(r) && KeyOf(r) !in m then Some(m[KeyOf(r) := CountersOf(r)]) else None
  }

  function UsageOf(t: Table): Usage {
    if t.NoTable? then Unreadable
    else if MaxDate(t.rows).Null? then Readable(None, map[])
    else match Collect(t.rows)
      case None => Unreadable
      case Some(m) => Readable(if MaxDate(t.rows).Text? then Some(MaxDate(t.rows).value) else None, m)
  }

  // In a readable table the latest day is the day of some row and no row is later; a
  // table without a latest day has no rows that count.
  lemma {:induction false} LatestIsTheLastDay(rows: seq<RawRow>)
    requires Collect(rows).Some?
    ensures var m := Collect(rows).value;
      if rows == [] then m == map[] && MaxDate(rows).Null?
      else
        && MaxDate(rows).Text?
        && (exists k :: k in m && k.date == MaxDate(rows).value)
        && (forall k :: k in m ==> k.date <= MaxDate(rows).value)
  {
    if rows != [] {
      var r := rows[|rows| - 1];
      LatestIsTheLastDay(rows[..|rows| - 1]);
      assert KeyOf(r) in Collect(rows).value;
      if |rows| > 1 {
        var k :| k in Collect(rows[..|rows| - 1]).value && k.date == MaxDate(rows[..|rows| - 1]).value;
        assert k in Collect(rows).value;
      }
    }
  }

  predicate AtLeast(a: Counters, b: Counters) {
    a.input >= b.input && a.output >= b.output && a.cacheRead >= b.cacheRead && a.cacheWrite >= b.cacheWrite
  }

  // Every row of the older state survives in the newer one, no counter smaller.
  ghost predicate Dominates(newer: map<Key, Counters>, older: map<Key, Counters>) {
    forall k :: k in older ==> k in newer && AtLeast(newer[k], older[k])
  }

  // The file a snapshot would replace.
  datatype Target = Absent | Present(table: Table) | Inaccessible

  // What the guard is for.
  ghost predicate Safe(incoming: Table, target: Target) {
    && UsageOf(incoming).Readable?
    && (target.Absent?
        || (target.Present? && UsageOf(target.table).Readable?
            && Dominates(UsageOf(incoming).rows, UsageOf(target.table).rows)))
  }

  datatype Reason =
    | NoReason | IncomingUnreadable | TargetUnreadable | IncomingEmpty | OlderDay | MissingRows | DecreasedCounters

  datatype Summary = Summary(incomingRows: nat, targetRows: nat, missingRows: nat, decreasedRows: nat)
  datatype Report = Report(accept: bool, reason: Reason, summary: Summary)

  method DailyUsageState(t: Table) returns (usage: Usage)
    ensures usage == UsageOf(t)
  {
    if t.NoTable? { return Unreadable; }
    var latest := MaxDate(t.rows);
    if latest.Null? { return Readable(None, map[]); }
    var collected: map<Key, Counters> := map[];
    for i := 0 to |t.rows|
      invariant Collect(t.rows[..i]) == Some(collected)
    {
      assert t.rows[..i + 1][..i] == t.rows[..i];
      if !GoodRow(t.rows[i]) || KeyOf(t.rows[i]) in collected {
        GivesUpForGood(t.rows, i + 1);
        return Unreadable;
      }
      collected := collected[KeyOf(t.rows[i]) := CountersOf(t.rows[i])];
    }
    assert t.rows[..|t.rows|] == t.rows;
    return Readable(if latest.Text? then Some(latest.value) else None, collected);
  }

  lemma {:induction false} GivesUpForGood(rows: seq<RawRow>, i: nat)
    requires i <= |rows| && Collect(rows[..i]).None?
    ensures Collect(rows).None?
    decreases |rows| - i
  {
    if i == |rows| {
      assert rows[..i] == rows;
    } else {
      assert rows[..i + 1][..i] == rows[..i];
      GivesUpForGood(rows, i + 1);
    }
  }

  ghost function Missing(newer: map<Key, Counters>, older: map<Key, Counters>): set<Key> {
    set k | k in older && k !in newer
  }

  ghost function Decreased(newer: map<Key, Counters>, older: map<Key, Counters>): set<Key> {
    set k | k in older && k in newer && !AtLeast(newer[k], older[k])
  }

  method CountLosses(newer: map<Key, Counters>, older: map<Key, Counters>) returns (missing: nat, decreased: nat)
    ensures missing == |Missing(newer, older)| && decreased == |Decreased(newer, older)|
    ensures missing == 0 && decreased == 0 <==> Dominates(newer, older)
  {
    missing, decreased := 0, 0;
    var rest := older.Keys;
    NothingCounted(newer, older);
    while rest != {}
      invariant rest <= older.Keys
      invariant missing == |Missing(newer, older) - rest|
      invariant decreased == |Decreased(newer, older) - rest|
      decreases |rest|
    {
      var k :| k in rest;
      OneLess(Missing(newer, older), rest, k);
      OneLess(Decreased(newer, older), rest, k);
      rest := rest - {k};
      if k !in newer {
        missing := missing + 1;
      } else if !AtLeast(newer[k], older[k]) {
        decreased := decreased + 1;
      }
    }
    NoLosses(newer, older);
    WithoutNothing(Missing(newer, older), rest);
    WithoutNothing(Decreased(newer, older), rest);
  }

  lemma NothingCounted(newer: map<Key, Counters>, older: map<Key, Counters>)
    ensures |Missing(newer, older) - older.Keys| == 0 && |Decreased(newer, older) - older.Keys| == 0
  {
    assert Missing(newer, older) - older.Keys == {} && Decreased(newer, older) - older.Keys == {};
  }

  lemma WithoutNothing(s: set<Key>, rest: set<Key>)
    requires rest == {}
    ensures |s - rest| == |s|
  {
    assert s - rest == s;
  }

  lemma OneLess(s: set<Key>, rest: set<Key>, k: Key)
    requires k in rest
    ensures |s - (rest - {k})| == |s - rest| + (if k in s then 1 else 0)
  {
    if k in s {
      assert s - (rest - {k}) == (s - rest) + {k};
    } else {
      assert s - (rest - {k}) == s - rest;
    }
  }

  lemma NoLosses(newer: map<Key, Counters>, older: map<Key, Counters>)
    ensures |Missing(newer, older)| == 0 && |Decreased(newer, older)| == 0 <==> Dominates(newer, older)
  {
    if !Dominates(newer, older) {
      var k :| k in older && !(k in newer && AtLeast(newer[k], older[k]));
      assert k in Missing(newer, older) || k in Decreased(newer, older);
    } else {
      assert Missing(newer, older) == {} && Decreased(newer, older) == {};
    }
  }

  // Both files can be read and the one that is served holds rows to lose.
  ghost predicate Populated(incoming: Table, target: Target) {
    && UsageOf(incoming).Readable? && target.Present? && UsageOf(target.table).Readable?
    && UsageOf(target.table).rows != map[]
  }

  // Some day of the older state lies after every day of the newer one.
  ghost predicate Outdated(newer: map<Key, Counters>, older: map<Key, Counters>) {
    exists k :: k in older && forall j :: j in newer ==> j.date < k.date
  }

  // Comparing the two latest days is comparing every day with every other.
  lemma LatestCompares(newer: Table, older: Table)
    requires UsageOf(newer).Readable? && UsageOf(older).Readable?
    ensures var a, b := UsageOf(newer), UsageOf(older);
      && (a.latest.None? <==> a.rows == map[]) && (b.latest.None? <==> b.rows == map[])
      && (a.latest.Some? && b.latest.Some? ==> (a.latest.value < b.latest.value <==> Outdated(a.rows, b.rows)))
      && (b.latest.Some? && a.latest.None? ==> Outdated(a.rows, b.rows))
  {
    LatestDescribes(newer);
    LatestDescribes(older);
  }

  // The verdict accepts exactly the safe replacements: the checks for an empty upload
  // and for an older day reject nothing that the row comparison would have let through.
  method FreshnessReport(incoming: Table, target: Target) returns (report: Report)
    ensures report.accept <==> Safe(incoming, target)
    ensures report.accept <==> report.reason == NoReason
    ensures report.reason == IncomingUnreadable <==> UsageOf(incoming).Unreadable?
    ensures report.reason == TargetUnreadable <==>
      UsageOf(incoming).Readable? && (target.Inaccessible? || (target.Present? && UsageOf(target.table).Unreadable?))
    ensures report.reason == IncomingEmpty <==> Populated(incoming, target) && UsageOf(incoming).rows == map[]
    ensures report.reason == OlderDay <==>
      Populated(incoming, target) && UsageOf(incoming).rows != map[] && Outdated(UsageOf(incoming).rows, UsageOf(target.table).rows)
    ensures report.reason == MissingRows <==>
      && Populated(incoming, target) && !Outdated(UsageOf(incoming).rows, UsageOf(target.table).rows)
      && Missing(UsageOf(incoming).rows, UsageOf(target.table).rows) != {}
    ensures report.reason == DecreasedCounters <==>
      && Populated(incoming, target) && !Outdated(UsageOf(incoming).rows, UsageOf(target.table).rows)
      && Missing(UsageOf(incoming).rows, UsageOf(target.table).rows) == {}
      && Decreased(UsageOf(incoming).rows, UsageOf(target.table).rows) != {}
    ensures report.reason == MissingRows || report.reason == DecreasedCounters ==>
      && report.summary.missingRows == |Missing(UsageOf(incoming).rows, UsageOf(target.table).rows)|
      && report.summary.decreasedRows == |Decreased(UsageOf(incoming).rows, UsageOf(target.table).rows)|
  {
    var now := DailyUsageState(incoming);
    if now.Unreadable? { return Report(false, IncomingUnreadable, Summary(0, 0, 0, 0)); }
    var summary := Summary(|now.rows|, 0, 0, 0);
    if target.Absent? { return Report(true, NoReason, summary); }
    if target.Inaccessible? { return Report(false, TargetUnreadable, summary); }
    var current := DailyUsageState(target.table);
    if current.Unreadable? { return Report(false, TargetUnreadable, summary); }
    summary := summary.(targetRows := |current.rows|);
    LatestCompares(incoming, target.table);
    if current.latest.None? { return Report(true, NoReason, summary); }
    if now.latest.None? { return Report(false, IncomingEmpty, summary); }
    if now.latest.value < current.latest.value { return Report(false, OlderDay, summary); }
    var missing, decreased := CountLosses(now.rows, current.rows);
    summary := summary.(missingRows := missing, decreasedRows := decreased);
    if missing > 0 { return Report(false, MissingRows, summary); }
    if decreased > 0 { return Report(false, DecreasedCounters, summary); }
    return Report(true, NoReason, summary);
  }

  lemma LatestDescribes(t: Table)
    requires UsageOf(t).Readable?
    ensures var u := UsageOf(t);
      if u.latest.None? then u.rows == map[]
      else (exists k :: k in u.rows && k.date == u.latest.value) && forall k :: k in u.rows ==> k.date <= u.latest.value
  {
    if !MaxDate(t.rows).Null? {
      LatestIsTheLastDay(t.rows);
    }
  }

  // Acceptance composes: what may replace b, once b may replace a, may replace a.
  lemma SafetyIsTransitive(a: Target, b: Table, c: Table)
    requires Safe(b, a) && Safe(c, Present(b))
    ensures Safe(c, a)
  {
    if a.Present? {
      var ra, rb, rc := UsageOf(a.table).rows, UsageOf(b).rows, UsageOf(c).rows;
      forall k | k in ra ensures k in rc && AtLeast(rc[k], ra[k]) {
        assert k in rb && AtLeast(rb[k], ra[k]);
        assert AtLeast(rc[k], rb[k]);
      }
    }
  }

  // ---- the same from the rows as they stand in the table ----

  // A row that can be used: three texts and four whole numbers, none below zero.
  predicate Legible(r: RawRow) {
    && r.runtime.Text? && r.model.Text? && r.date.Text?
    && r.input.Integer? && r.input.n >= 0 && r.output.Integer? && r.output.n >= 0
    && r.cacheRead.Integer? && r.cacheRead.n >= 0 && r.cacheWrite.Integer? && r.cacheWrite.n >= 0
  }

  predicate SameUse(a: RawRow, b: RawRow) { a.runtime == b.runtime && a.model == b.model && a.date == b.date }

  // No row carries a date: such a table counts as empty.
  ghost predicate NoDates(rows: seq<RawRow>) { forall i :: 0 <= i < |rows| ==> rows[i].date.Null? }

  ghost predicate AllLegible(rows: seq<RawRow>) {
    && (forall i :: 0 <= i < |rows| ==> Legible(rows[i]))
    && (forall i, j :: 0 <= i < j < |rows| ==> !SameUse(rows[i], rows[j]))
  }

  ghost predicate Legibly(t: Table) { t.Rows? && (NoDates(t.rows) || AllLegible(t.rows)) }

  // The row that stands for what the target has lost nothing of: same use, no counter smaller.
  predicate Keeps(newer: RawRow, older: RawRow) {
    && SameUse(newer, older)
    && newer.input.Integer? && older.input.Integer? && newer.input.n >= older.input.n
    && newer.output.Integer? && older.output.Integer? && newer.output.n >= older.output.n
    && newer.cacheRead.Integer? && older.cacheRead.Integer? && newer.cacheRead.n >= older.cacheRead.n
    && newer.cacheWrite.Integer? && older.cacheWrite.Integer? && newer.cacheWrite.n >= older.cacheWrite.n
  }

  lemma {:induction false} NoDatesMeansNoMax(rows: seq<RawRow>)
    ensures MaxDate(rows).Null? <==> NoDates(rows)
  {
    if rows != [] {
      NoDatesMeansNoMax(rows[..|rows| - 1]);
      assert NoDates(rows) <==> NoDates(rows[..|rows| - 1]) && rows[|rows| - 1].date.Null?;
    }
  }

  // The dictionary has a key for each row and no other, with the counters of the row.
  ghost predicate SaysTheRows(rows: seq<RawRow>, m: map<Key, Counters>) {
    && (forall k :: k in m ==> exists i :: 0 <= i < |rows| && GoodRow(rows[i]) && KeyOf(rows[i]) == k)
    && (forall i :: 0 <= i < |rows| ==> GoodRow(rows[i]) && KeyOf(rows[i]) in m && m[KeyOf(rows[i])] == CountersOf(rows[i]))
  }

  lemma {:induction false} CollectSaysTheRows(rows: seq<RawRow>)
    ensures Collect(rows).Some? ==> SaysTheRows(rows, Collect(rows).value)
  {
    if rows != [] && Collect(rows).Some? {
      var n := |rows| - 1;
      CollectSaysTheRows(rows[..n]);
      var before, m := Collect(rows[..n]).value, Collect(rows).value;
      assert m == before[KeyOf(rows[n]) := CountersOf(rows[n])] && KeyOf(rows[n]) !in before;
      forall k | k in m ensures exists i :: 0 <= i < |rows| && GoodRow(rows[i]) && KeyOf(rows[i]) == k {
        if k == KeyOf(rows[n]) {
          assert rows[n] == rows[|rows| - 1];
        } else {
          var i :| 0 <= i < n && GoodRow(rows[..n][i]) && KeyOf(rows[..n][i]) == k;
          assert rows[..n][i] == rows[i];
        }
      }
      forall i | 0 <= i < |rows| ensures GoodRow(rows[i]) && KeyOf(rows[i]) in m && m[KeyOf(rows[i])] == CountersOf(rows[i]) {
        if i < n { assert rows[..n][i] == rows[i]; }
      }
    }
  }

  // The reading loop gives up on every other table.
  lemma {:induction false} CollectIs(rows: seq<RawRow>)
    ensures Collect(rows).Some? <==> AllLegible(rows)
  {
    if rows != [] {
      var n := |rows| - 1;
      CollectIs(rows[..n]);
      CollectSaysTheRows(rows[..n]);
      LegibleNext(rows);
      if Collect(rows[..n]).Some? && Legible(rows[n]) { KeyIsNew(rows[..n], rows[n], Collect(rows[..n]).value); }
    }
  }

  lemma LegibleNext(rows: seq<RawRow>)
    requires rows != []
    ensures var n := |rows| - 1;
      AllLegible(rows) <==> AllLegible(rows[..n]) && Legible(rows[n]) && forall i :: 0 <= i < n ==> !SameUse(rows[..n][i], rows[n])
  {
    var n := |rows| - 1;
    assert forall i :: 0 <= i < n ==> rows[..n][i] == rows[i];
  }

  lemma KeyIsNew(rows: seq<RawRow>, r: RawRow, m: map<Key, Counters>)
    requires SaysTheRows(rows, m) && Legible(r)
    ensures KeyOf(r) !in m <==> forall i :: 0 <= i < |rows| ==> !SameUse(rows[i], r)
  {
  }

  // A table can be read exactly when none of its rows has a date, or all can be used and no two are
  // about the same use.
  lemma ReadableExactlyWhen(t: Table)
    ensures UsageOf(t).Readable? <==> Legibly(t)
  {
    if t.Rows? {
      NoDatesMeansNoMax(t.rows);
      CollectIs(t.rows);
    }
  }

  // A snapshot is safe exactly when it can be read and there is nothing to replace, or what it replaces
  // can be read too and each of its rows is still there with no counter smaller.
  lemma SafeExactlyWhen(incoming: Table, target: Target)
    ensures Safe(incoming, target) <==>
      && Legibly(incoming)
      && (|| target.Absent?
          || (&& target.Present? && Legibly(target.table)
              && (NoDates(target.table.rows)
                  || (&& !NoDates(incoming.rows)
                      && forall r :: r in target.table.rows ==> exists q :: q in incoming.rows && Keeps(q, r)))))
  {
    ReadableExactlyWhen(incoming);
    if target.Present? {
      ReadableExactlyWhen(target.table);
      if UsageOf(incoming).Readable? && UsageOf(target.table).Readable? { DominatesExactlyWhen(incoming.rows, target.table.rows); }
    }
  }

  lemma DominatesExactlyWhen(newer: seq<RawRow>, older: seq<RawRow>)
    requires UsageOf(Rows(newer)).Readable? && UsageOf(Rows(older)).Readable?
    ensures Dominates(UsageOf(Rows(newer)).rows, UsageOf(Rows(older)).rows)
      <==> NoDates(older) || (!NoDates(newer) && forall r :: r in older ==> exists q :: q in newer && Keeps(q, r))
  {
    NoDatesMeansNoMax(newer);
    NoDatesMeansNoMax(older);
    CollectSaysTheRows(newer);
    CollectSaysTheRows(older);
    if !NoDates(older) && !NoDates(newer) {
      RowsDominateExactlyWhen(newer, older, UsageOf(Rows(newer)).rows, UsageOf(Rows(older)).rows);
    } else if !NoDates(older) {
      assert KeyOf(older[0]) in UsageOf(Rows(older)).rows;
    }
  }

  lemma RowsDominateExactlyWhen(newer: seq<RawRow>, older: seq<RawRow>, a: map<Key, Counters>, b: map<Key, Counters>)
    requires SaysTheRows(newer, a) && SaysTheRows(older, b)
    ensures Dominates(a, b) <==> forall r :: r in older ==> exists q :: q in newer && Keeps(q, r)
  {
    forall i | 0 <= i < |older|
      ensures (KeyOf(older[i]) in a && AtLeast(a[KeyOf(older[i])], b[KeyOf(older[i])])) <==> exists q :: q in newer && Keeps(q, older[i])
    {
      RowKept(newer, a, older[i]);
    }
    if Dominates(a, b) {
      forall r | r in older ensures exists q :: q in newer && Keeps(q, r) {
        var i :| 0 <= i < |older| && older[i] == r;
        assert KeyOf(older[i]) in b;
      }
    } else if forall r :: r in older ==> exists q :: q in newer && Keeps(q, r) {
      forall k | k in b ensures k in a && AtLeast(a[k], b[k]) {
        var i :| 0 <= i < |older| && GoodRow(older[i]) && KeyOf(older[i]) == k;
        assert older[i] in older;
      }
    }
  }

  // One row of the replaced table is still there, in the dictionary and among the rows alike.
  lemma RowKept(newer: seq<RawRow>, a: map<Key, Counters>, r: RawRow)
    requires SaysTheRows(newer, a) && GoodRow(r)
    ensures (KeyOf(r) in a && AtLeast(a[KeyOf(r)], CountersOf(r))) <==> exists q :: q in newer && Keeps(q, r)
  {
    if KeyOf(r) in a && AtLeast(a[KeyOf(r)], CountersOf(r)) {
      var j :| 0 <= j < |newer| && GoodRow(newer[j]) && KeyOf(newer[j]) == KeyOf(r);
      assert newer[j] in newer && Keeps(newer[j], r);
    }
    if q :| q in newer && Keeps(q, r) {
      var j :| 0 <= j < |newer| && newer[j] == q;
      assert GoodRow(newer[j]) && KeyOf(newer[j]) == KeyOf(r);
    }
  }
}
