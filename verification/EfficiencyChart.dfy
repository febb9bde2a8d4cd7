// efficiency_chart_breakdown of aistat/aggregates.py: every selected run contributes a
// segment of its issue's totals, and segments are poured into hour or day buckets.
module EfficiencyChart {
  import opened Prelude
  import opened Sums
  import opened Efficiency
  import A = Attribution

  datatype Segment = Segment(
    issue: Id, agent: Option<Id>, model: Option<Id>, start: int, end: int, tokens: real, points: real)

  datatype Bucket = Bucket(tokens: real, points: real, issues: set<Id>)

  const EMPTY := Bucket(0.0, 0.0, {})

  datatype Granularity = Hour | Day

  function Size(g: Granularity): int { if g.Hour? then 3600 else 86400 }

  // _bucket_start
  function Floor(t: int, g: Granularity): int { if g.Hour? then t - t % 3600 else t - t % 86400 }

  predicate Aligned(t: int, g: Granularity) { if g.Hour? then t % 3600 == 0 else t % 86400 == 0 }

  const HOURLY_MAX := 48 * 3600

  // ---- segments ----

  function ShareOf(runs: seq<WorkRun>, f: RunFilter, issue: Id, r: WorkRun): real {
    if WholeSeconds(runs, issue) > 0.0 then Cut(f, r) / WholeSeconds(runs, issue) else 0.0
  }

  function SegmentWith(f: RunFilter, row: IssueRow, r: WorkRun, share: real): Segment
    requires Dated(r)
  {
    Segment(row.id, r.agent, r.model, Left(f, r), Right(f, r), Total(row.usage) * share, row.points * share)
  }

  function SegmentOf(runs: seq<WorkRun>, f: RunFilter, row: IssueRow, r: WorkRun): seq<Segment> {
    if Cut(f, r) > 0.0 then [SegmentWith(f, row, r, ShareOf(runs, f, row.id, r))] else []
  }

  function SegmentsOf(runs: seq<WorkRun>, f: RunFilter, row: IssueRow, mine: seq<WorkRun>): seq<Segment> {
    if mine == [] then []
    else SegmentsOf(runs, f, row, mine[..|mine| - 1]) + SegmentOf(runs, f, row, mine[|mine| - 1])
  }

  function Segments(rows: seq<IssueRow>, runs: seq<WorkRun>, f: RunFilter): seq<Segment> {
    if rows == [] then []
    else
      var row := rows[|rows| - 1];
      Segments(rows[..|rows| - 1], runs, f) + SegmentsOf(runs, f, row, RunsOf(runs, row.id))
  }

  function TokensOf(s: Segment): real { s.tokens }
  function PointsOf(s: Segment): real { s.points }
  function SelectedTokens(runs: seq<WorkRun>, f: RunFilter): IssueRow -> real {
    (row: IssueRow) => Total(row.usage) * Fraction(runs, f, row.id)
  }
  function SelectedPoints(runs: seq<WorkRun>, f: RunFilter): IssueRow -> real {
    (row: IssueRow) => row.points * Fraction(runs, f, row.id)
  }
  function ShareBy(runs: seq<WorkRun>, f: RunFilter, issue: Id): WorkRun -> real { (r: WorkRun) => ShareOf(runs, f, issue, r) }

  // part stands for a run's share of the issue's tokens or story points, field for the segment's.
  lemma {:induction false} SegmentsOfSum(
      runs: seq<WorkRun>, f: RunFilter, row: IssueRow, mine: seq<WorkRun>, part: WorkRun -> real, field: Segment -> real)
    requires forall r :: Sum(SegmentOf(runs, f, row, r), field) == part(r)
    ensures Sum(SegmentsOf(runs, f, row, mine), field) == Sum(mine, part)
  {
    if mine != [] {
      var n := |mine| - 1;
      SegmentsOfSum(runs, f, row, mine[..n], part, field);
      SumConcat(SegmentsOf(runs, f, row, mine[..n]), SegmentOf(runs, f, row, mine[n]), field);
    }
  }

  function TokensShare(runs: seq<WorkRun>, f: RunFilter, row: IssueRow): WorkRun -> real {
    Times(Total(row.usage), ShareBy(runs, f, row.id))
  }

  function PointsShare(runs: seq<WorkRun>, f: RunFilter, row: IssueRow): WorkRun -> real {
    Times(row.points, ShareBy(runs, f, row.id))
  }

  lemma SegmentSum(runs: seq<WorkRun>, f: RunFilter, row: IssueRow, r: WorkRun)
    ensures Sum(SegmentOf(runs, f, row, r), TokensOf) == TokensShare(runs, f, row)(r)
    ensures Sum(SegmentOf(runs, f, row, r), PointsOf) == PointsShare(runs, f, row)(r)
  {
    CutIsPart(f, r);
    var one := SegmentOf(runs, f, row, r);
    if one != [] { assert one[..0] == []; }
  }

  lemma ShareIsCut(runs: seq<WorkRun>, f: RunFilter, issue: Id, c: real, r: WorkRun)
    requires c == if WholeSeconds(runs, issue) > 0.0 then 1.0 / WholeSeconds(runs, issue) else 0.0
    ensures ShareBy(runs, f, issue)(r) == Times(c, CutBy(f))(r)
  {
  }

  lemma CutIsFraction(runs: seq<WorkRun>, f: RunFilter, issue: Id, c: real)
    requires c == if WholeSeconds(runs, issue) > 0.0 then 1.0 / WholeSeconds(runs, issue) else 0.0
    ensures c * CutSeconds(runs, f, issue) == Fraction(runs, f, issue)
  {
  }

  lemma SharesMakeTheFraction(runs: seq<WorkRun>, f: RunFilter, issue: Id)
    ensures Sum(RunsOf(runs, issue), ShareBy(runs, f, issue)) == Fraction(runs, f, issue)
  {
    var c := if WholeSeconds(runs, issue) > 0.0 then 1.0 / WholeSeconds(runs, issue) else 0.0;
    forall r ensures ShareBy(runs, f, issue)(r) == Times(c, CutBy(f))(r) { ShareIsCut(runs, f, issue, c, r); }
    SumSame(RunsOf(runs, issue), ShareBy(runs, f, issue), Times(c, CutBy(f)));
    SumOfTimes(RunsOf(runs, issue), c, CutBy(f));
    RunsOfSum(runs, f, issue);
    CutIsFraction(runs, f, issue, c);
  }

  lemma AmountShares(runs: seq<WorkRun>, f: RunFilter, issue: Id, a: real)
    ensures Sum(RunsOf(runs, issue), Times(a, ShareBy(runs, f, issue))) == a * Fraction(runs, f, issue)
  {
    SumOfTimes(RunsOf(runs, issue), a, ShareBy(runs, f, issue));
    SharesMakeTheFraction(runs, f, issue);
  }

  lemma RowShares(runs: seq<WorkRun>, f: RunFilter, row: IssueRow)
    ensures Sum(RunsOf(runs, row.id), TokensShare(runs, f, row)) == SelectedTokens(runs, f)(row)
    ensures Sum(RunsOf(runs, row.id), PointsShare(runs, f, row)) == SelectedPoints(runs, f)(row)
  {
    AmountShares(runs, f, row.id, Total(row.usage));
    AmountShares(runs, f, row.id, row.points);
  }

  lemma RowSegments(runs: seq<WorkRun>, f: RunFilter, row: IssueRow)
    ensures Sum(SegmentsOf(runs, f, row, RunsOf(runs, row.id)), TokensOf) == SelectedTokens(runs, f)(row)
    ensures Sum(SegmentsOf(runs, f, row, RunsOf(runs, row.id)), PointsOf) == SelectedPoints(runs, f)(row)
  {
    forall r
      ensures Sum(SegmentOf(runs, f, row, r), TokensOf) == TokensShare(runs, f, row)(r)
      ensures Sum(SegmentOf(runs, f, row, r), PointsOf) == PointsShare(runs, f, row)(r)
    {
      SegmentSum(runs, f, row, r);
    }
    SegmentsOfSum(runs, f, row, RunsOf(runs, row.id), TokensShare(runs, f, row), TokensOf);
    SegmentsOfSum(runs, f, row, RunsOf(runs, row.id), PointsShare(runs, f, row), PointsOf);
    RowShares(runs, f, row);
  }

  // The chart's segments carry, issue by issue, the fraction the selection computes.
  lemma {:induction false} SegmentsCarryTheFractions(rows: seq<IssueRow>, runs: seq<WorkRun>, f: RunFilter)
    ensures Sum(Segments(rows, runs, f), TokensOf) == Sum(rows, SelectedTokens(runs, f))
    ensures Sum(Segments(rows, runs, f), PointsOf) == Sum(rows, SelectedPoints(runs, f))
  {
    if rows != [] {
      var n := |rows| - 1;
      SegmentsCarryTheFractions(rows[..n], runs, f);
      RowSegments(runs, f, rows[n]);
      SumConcat(Segments(rows[..n], runs, f), SegmentsOf(runs, f, rows[n], RunsOf(runs, rows[n].id)), TokensOf);
      SumConcat(Segments(rows[..n], runs, f), SegmentsOf(runs, f, rows[n], RunsOf(runs, rows[n].id)), PointsOf);
    }
  }

  // ---- buckets ----

  function Pour(b: Bucket, issue: Id, tokens: real, points: real): Bucket {
    Bucket(b.tokens + tokens, b.points + points, b.issues + {issue})
  }

  predicate Proper(s: Segment) { s.start < s.end }

  // The part of a segment that falls into the bucket starting at b.
  function Piece(s: Segment, g: Granularity, b: int): real {
    if Proper(s) then A.Overlap(s.start, s.end, b, b + Size(g)) as real / (s.end - s.start) as real else 0.0
  }

  function PourShare(b: Bucket, s: Segment, share: real): Bucket { Pour(b, s.issue, s.tokens * share, s.points * share) }

  // The bucket starting at b after one segment.
  function Poured(bucket: Bucket, s: Segment, g: Granularity, b: int): Bucket {
    if A.Overlap(s.start, s.end, b, b + Size(g)) > 0 then PourShare(bucket, s, Piece(s, g, b)) else bucket
  }

  function BucketOf(segments: seq<Segment>, g: Granularity, b: int): Bucket {
    if segments == [] then EMPTY
    else
      Poured(BucketOf(segments[..|segments| - 1], g, b), segments[|segments| - 1], g, b)
  }

  // first, first + size, first + 2 size, ...
  function Rung(first: int, g: Granularity, n: nat): int { if g.Hour? then first + 3600 * n else first + 86400 * n }

  function Ladder(first: int, g: Granularity, n: nat): (bs: seq<int>)
    ensures |bs| == n && forall j :: 0 <= j < n ==> bs[j] == Rung(first, g, j)
  {
    if n == 0 then [] else Ladder(first, g, n - 1) + [Rung(first, g, n - 1)]
  }

  lemma MultipleOfHour(q: int)
    ensures (3600 * q) % 3600 == 0 && (3600 * q) / 3600 == q
  {
    var x := 3600 * q;
    assert x == 3600 * (x / 3600) + x % 3600;
  }

  lemma MultipleOfDay(q: int)
    ensures (86400 * q) % 86400 == 0 && (86400 * q) / 86400 == q
  {
    var x := 86400 * q;
    assert x == 86400 * (x / 86400) + x % 86400;
  }

  lemma FloorIsAligned(t: int, g: Granularity)
    ensures Aligned(Floor(t, g), g) && t - Size(g) < Floor(t, g) <= t
  {
    MultipleOfHour(t / 3600);
    MultipleOfDay(t / 86400);
  }

  lemma AlignedNext(t: int, g: Granularity)
    requires Aligned(t, g)
    ensures Aligned(t + Size(g), g)
  {
    MultipleOfHour(t / 3600 + 1);
    MultipleOfDay(t / 86400 + 1);
  }

  lemma AlignedGap(a: int, b: int, g: Granularity)
    requires Aligned(a, g) && Aligned(b, g) && a < b
    ensures a + Size(g) <= b
  {
    if g.Hour? {
      assert a == 3600 * (a / 3600) && b == 3600 * (b / 3600);
    } else {
      assert a == 86400 * (a / 86400) && b == 86400 * (b / 86400);
    }
  }

  lemma {:induction false} LadderHas(first: int, g: Granularity, n: nat)
    requires Aligned(first, g)
    ensures Aligned(Rung(first, g, n), g)
    ensures forall b :: b in Ladder(first, g, n) <==> Aligned(b, g) && first <= b < Rung(first, g, n)
    ensures Distinct(Ladder(first, g, n))
  {
    if n > 0 {
      LadderHas(first, g, n - 1);
      var last := Rung(first, g, n - 1);
      AlignedNext(last, g);
      forall b | Aligned(b, g) && last < b ensures Rung(first, g, n) <= b { AlignedGap(last, b, g); }
    }
  }

  function PieceAt(s: Segment, g: Granularity): int -> real { (b: int) => Piece(s, g, b) }

  lemma {:induction false} Telescope(first: int, g: Granularity, n: nat, piece: int -> real, reach: int -> real)
    requires forall b :: first <= b ==> reach(b + Size(g)) == reach(b) + piece(b)
    ensures Sum(Ladder(first, g, n), piece) == reach(Rung(first, g, n)) - reach(first)
  {
    if n > 0 {
      var b := Rung(first, g, n - 1);
      Telescope(first, g, n - 1, piece, reach);
      SumLast(Ladder(first, g, n), Ladder(first, g, n - 1), b, piece);
      assert reach(b + Size(g)) == reach(b) + piece(b);
    }
  }

  lemma SumLast(keys: seq<int>, before: seq<int>, b: int, f: int -> real)
    requires keys == before + [b]
    ensures Sum(keys, f) == Sum(before, f) + f(b)
  {
    assert keys[..|keys| - 1] == before;
  }

  // The part of a segment between first and upto.
  function Reach(s: Segment, first: int): int -> real {
    (upto: int) => if Proper(s) then A.Overlap(s.start, s.end, first, upto) as real / (s.end - s.start) as real else 0.0
  }

  lemma ReachNext(s: Segment, first: int, b: int, g: Granularity)
    requires Proper(s) && first <= b
    ensures Reach(s, first)(b + Size(g)) == Reach(s, first)(b) + PieceAt(s, g)(b)
  {
    assert A.Overlap(s.start, s.end, first, b) + A.Overlap(s.start, s.end, b, b + Size(g))
        == A.Overlap(s.start, s.end, first, b + Size(g));
    A.SharesAdd((s.end - s.start) as real, A.Overlap(s.start, s.end, first, b) as real,
                A.Overlap(s.start, s.end, b, b + Size(g)) as real, A.Overlap(s.start, s.end, first, b + Size(g)) as real);
  }

  lemma ReachEnds(s: Segment, first: int, last: int)
    requires Proper(s) && first <= s.start && s.end <= last
    ensures Reach(s, first)(first) == 0.0 && Reach(s, first)(last) == 1.0
  {
    assert A.Overlap(s.start, s.end, first, first) == 0;
    assert A.Overlap(s.start, s.end, first, last) == s.end - s.start;
    SelfRatio((s.end - s.start) as real);
  }

  // Buckets that cover a segment hold all of it: its pieces telescope.
  lemma PiecesCover(s: Segment, first: int, g: Granularity, n: nat)
    requires Proper(s) && first <= s.start && s.end <= Rung(first, g, n)
    ensures Sum(Ladder(first, g, n), PieceAt(s, g)) == 1.0
  {
    forall b | first <= b ensures Reach(s, first)(b + Size(g)) == Reach(s, first)(b) + PieceAt(s, g)(b) {
      ReachNext(s, first, b, g);
    }
    Telescope(first, g, n, PieceAt(s, g), Reach(s, first));
    ReachEnds(s, first, Rung(first, g, n));
  }

  lemma SelfRatio(x: real)
    requires x > 0.0
    ensures x / x == 1.0
  {
  }

  function BucketTokens(segments: seq<Segment>, g: Granularity): int -> real { (b: int) => BucketOf(segments, g, b).tokens }
  function BucketPoints(segments: seq<Segment>, g: Granularity): int -> real { (b: int) => BucketOf(segments, g, b).points }

  // The time buckets of the chart lose and invent nothing.
  lemma {:induction false} BucketsConserve(segments: seq<Segment>, first: int, g: Granularity, n: nat)
    requires forall s :: s in segments ==> Proper(s) && first <= s.start && s.end <= Rung(first, g, n)
    ensures Sum(Ladder(first, g, n), BucketTokens(segments, g)) == Sum(segments, TokensOf)
    ensures Sum(Ladder(first, g, n), BucketPoints(segments, g)) == Sum(segments, PointsOf)
  {
    var keys := Ladder(first, g, n);
    if segments == [] {
      SumAllZero(keys, BucketTokens(segments, g));
      SumAllZero(keys, BucketPoints(segments, g));
    } else {
      var s, before := segments[|segments| - 1], segments[..|segments| - 1];
      BucketsConserve(before, first, g, n);
      PiecesCover(s, first, g, n);
      PourAdds(keys, before, s, segments, g);
    }
  }

  function TokensPiece(s: Segment, g: Granularity): int -> real { Times(s.tokens, PieceAt(s, g)) }
  function PointsPiece(s: Segment, g: Granularity): int -> real { Times(s.points, PieceAt(s, g)) }

  lemma PieceTotal(keys: seq<int>, c: real, f: int -> real)
    requires Sum(keys, f) == 1.0
    ensures Sum(keys, Times(c, f)) == c
  {
    SumOfTimes(keys, c, f);
  }

  lemma ColumnNext(before: seq<Segment>, s: Segment, g: Granularity, b: int)
    ensures BucketTokens(before + [s], g)(b) == BucketTokens(before, g)(b) + TokensPiece(s, g)(b)
    ensures BucketPoints(before + [s], g)(b) == BucketPoints(before, g)(b) + PointsPiece(s, g)(b)
  {
    BucketNext(before, s, g, b);
    PouredAdds(BucketOf(before, g, b), s, g, b);
  }

  lemma PourAdds(keys: seq<int>, before: seq<Segment>, s: Segment, segments: seq<Segment>, g: Granularity)
    requires segments == before + [s] && Sum(keys, PieceAt(s, g)) == 1.0
    ensures Sum(keys, BucketTokens(segments, g)) == Sum(keys, BucketTokens(before, g)) + s.tokens
    ensures Sum(keys, BucketPoints(segments, g)) == Sum(keys, BucketPoints(before, g)) + s.points
  {
    PieceTotal(keys, s.tokens, PieceAt(s, g));
    PieceTotal(keys, s.points, PieceAt(s, g));
    forall b
      ensures BucketTokens(before + [s], g)(b) == BucketTokens(before, g)(b) + TokensPiece(s, g)(b)
      ensures BucketPoints(before + [s], g)(b) == BucketPoints(before, g)(b) + PointsPiece(s, g)(b)
    {
      ColumnNext(before, s, g, b);
    }
    SumPlus(keys, BucketTokens(before, g), TokensPiece(s, g), BucketTokens(before + [s], g));
    SumPlus(keys, BucketPoints(before, g), PointsPiece(s, g), BucketPoints(before + [s], g));
  }

  lemma BucketNext(before: seq<Segment>, s: Segment, g: Granularity, b: int)
    ensures BucketOf(before + [s], g, b) == Poured(BucketOf(before, g, b), s, g, b)
  {
    assert (before + [s])[..|before|] == before;
  }

  lemma PouredAdds(bucket: Bucket, s: Segment, g: Granularity, b: int)
    ensures Poured(bucket, s, g, b).tokens == bucket.tokens + TokensPiece(s, g)(b)
    ensures Poured(bucket, s, g, b).points == bucket.points + PointsPiece(s, g)(b)
  {
    PieceNonNegative(s, g, b);
  }

  lemma PieceNonNegative(s: Segment, g: Granularity, b: int)
    ensures Piece(s, g, b) >= 0.0
    ensures Piece(s, g, b) > 0.0 <==> Proper(s) && s.start < b + Size(g) && b < s.end
  {
    if Proper(s) { RatioIsAShare(A.Overlap(s.start, s.end, b, b + Size(g)) as real, (s.end - s.start) as real); }
  }

  // ---- rows per agent and per model ----

  function BucketAt(m: map<Id, Bucket>, k: Id): Bucket { if k in m then m[k] else EMPTY }

  // setdefault(key, empty_bucket(...)) bumped by one contribution.
  function Credit(m: map<Id, Bucket>, k: Option<Id>, s: Segment): map<Id, Bucket> {
    if k.Some? then m[k.value := Pour(BucketAt(m, k.value), s.issue, s.tokens, s.points)] else m
  }

  function Keyed(segments: seq<Segment>, key: Segment -> Option<Id>): map<Id, Bucket> {
    if segments == [] then map[]
    else
      var s := segments[|segments| - 1];
      Credit(Keyed(segments[..|segments| - 1], key), key(s), s)
  }

  function ModelName(s: Segment): Option<Id> { s.model }

  // Only runs whose model has a name get a model row; the empty text is no name.
  function ModelKey(s: Segment): Option<Id> { if s.model.Some? && s.model.value != NAMELESS then s.model else None }

  const NAMELESS := Id("")

  // Only runs of agents the catalogue can name get an agent row.
  function AgentKey(named: set<Id>): Segment -> Option<Id> {
    (s: Segment) => if s.agent.Some? && s.agent.value in named then s.agent else None
  }

  lemma {:induction false} KeyedIs(segments: seq<Segment>, key: Segment -> Option<Id>, k: Id)
    ensures BucketAt(Keyed(segments, key), k).tokens == SumFor(segments, key, TokensOf, Some(k))
    ensures BucketAt(Keyed(segments, key), k).points == SumFor(segments, key, PointsOf, Some(k))
  {
    if segments != [] { KeyedIs(segments[..|segments| - 1], key, k); }
  }

  lemma {:induction false} NamelessHasNoRow(segments: seq<Segment>)
    ensures NAMELESS !in Keyed(segments, ModelKey)
  {
    if segments != [] { NamelessHasNoRow(segments[..|segments| - 1]); }
  }

  // For every other name the row collects the segments that carry it.
  lemma {:induction false} NamedSum(segments: seq<Segment>, field: Segment -> real, m: Id)
    requires m != NAMELESS
    ensures SumFor(segments, ModelKey, field, Some(m)) == SumFor(segments, ModelName, field, Some(m))
  {
    if segments != [] { NamedSum(segments[..|segments| - 1], field, m); }
  }

  // ---- the loops ----

  method WholeOf(mine: seq<WorkRun>) returns (whole: real)
    ensures whole == Sum(mine, Length)
  {
    whole := 0.0;
    for i := 0 to |mine|
      invariant whole == Sum(mine[..i], Length)
    {
      assert mine[..i + 1][..i] == mine[..i];
      if Dated(mine[i]) { whole := whole + (mine[i].end.value - mine[i].start.value) as real; }
    }
    assert mine[..|mine|] == mine;
  }

  // One run of an issue: at most one segment.
  method ReadRun(row: IssueRow, r: WorkRun, f: RunFilter, whole: real, ghost runs: seq<WorkRun>) returns (found: seq<Segment>)
    requires whole == WholeSeconds(runs, row.id) > 0.0
    ensures found == SegmentOf(runs, f, row, r)
  {
    found := [];
    if Dated(r) && In(r.agent, f.agents) && In(r.model, f.models) {
      var seconds := Right(f, r) - Left(f, r);
      if seconds > 0 {
        var share := seconds as real / whole;
        assert Cut(f, r) == seconds as real && share == ShareOf(runs, f, row.id, r);
        found := [SegmentWith(f, row, r, share)];
        return;
      }
    }
    assert Cut(f, r) == 0.0;
  }

  method CreditSegment(s: Segment, named: set<Id>, agents: map<Id, Bucket>, models: map<Id, Bucket>, ghost segments: seq<Segment>)
    returns (agents': map<Id, Bucket>, models': map<Id, Bucket>)
    requires agents == Keyed(segments, AgentKey(named)) && models == Keyed(segments, ModelKey)
    ensures agents' == Keyed(segments + [s], AgentKey(named)) && models' == Keyed(segments + [s], ModelKey)
  {
    KeyedNext(segments, s, AgentKey(named));
    KeyedNext(segments, s, ModelKey);
    agents' := Credit(agents, if s.agent.Some? && s.agent.value in named then s.agent else None, s);
    models' := Credit(models, if s.model.Some? && s.model.value.text != "" then s.model else None, s);
  }

  // The segments of one issue, credited to their agents and models as they are met.
  method ReadIssue(row: IssueRow, runs: seq<WorkRun>, f: RunFilter, named: set<Id>,
                   segments: seq<Segment>, agents: map<Id, Bucket>, models: map<Id, Bucket>)
    returns (segments': seq<Segment>, agents': map<Id, Bucket>, models': map<Id, Bucket>)
    requires agents == Keyed(segments, AgentKey(named)) && models == Keyed(segments, ModelKey)
    ensures segments' == segments + SegmentsOf(runs, f, row, RunsOf(runs, row.id))
    ensures agents' == Keyed(segments', AgentKey(named)) && models' == Keyed(segments', ModelKey)
  {
    segments', agents', models' := segments, agents, models;
    var mine := RunsOf(runs, row.id);
    var whole := WholeOf(mine);
    OnlySum(runs, IssueOf, Length, row.id);
    if whole <= 0.0 {
      NothingToSplit(runs, f, row, mine);
      assert segments + [] == segments;
      return;
    }
    for i := 0 to |mine|
      invariant segments' == segments + SegmentsOf(runs, f, row, mine[..i])
      invariant agents' == Keyed(segments', AgentKey(named)) && models' == Keyed(segments', ModelKey)
    {
      var found := ReadRun(row, mine[i], f, whole, runs);
      SegmentsOfNext(runs, f, row, mine, i, segments);
      if found != [] {
        agents', models' := CreditSegment(found[0], named, agents', models', segments');
        segments' := segments' + [found[0]];
      }
    }
    assert mine[..|mine|] == mine;
  }

  lemma SegmentsOfNext(runs: seq<WorkRun>, f: RunFilter, row: IssueRow, mine: seq<WorkRun>, i: nat, segments: seq<Segment>)
    requires i < |mine|
    ensures var found, next := SegmentOf(runs, f, row, mine[i]), segments + SegmentsOf(runs, f, row, mine[..i + 1]);
      next == if found == [] then segments + SegmentsOf(runs, f, row, mine[..i])
              else segments + SegmentsOf(runs, f, row, mine[..i]) + [found[0]]
  {
    assert mine[..i + 1][..i] == mine[..i];
  }

  lemma KeyedNext(segments: seq<Segment>, s: Segment, key: Segment -> Option<Id>)
    ensures Keyed(segments + [s], key) == Credit(Keyed(segments, key), key(s), s)
  {
    assert (segments + [s])[..|segments|] == segments;
  }

  lemma {:induction false} NothingToSplit(runs: seq<WorkRun>, f: RunFilter, row: IssueRow, mine: seq<WorkRun>)
    requires Sum(mine, Length) <= 0.0
    ensures SegmentsOf(runs, f, row, mine) == []
  {
    if mine != [] {
      forall r ensures Length(r) >= 0.0 { CutIsPart(f, r); }
      SumNonNegative(mine[..|mine| - 1], Length);
      CutIsPart(f, mine[|mine| - 1]);
      NothingToSplit(runs, f, row, mine[..|mine| - 1]);
    }
  }

  method ReadIssues(rows: seq<IssueRow>, runs: seq<WorkRun>, f: RunFilter, named: set<Id>)
    returns (segments: seq<Segment>, agents: map<Id, Bucket>, models: map<Id, Bucket>)
    ensures segments == Segments(rows, runs, f)
    ensures agents == Keyed(segments, AgentKey(named)) && models == Keyed(segments, ModelKey)
  {
    segments, agents, models := [], map[], map[];
    for i := 0 to |rows|
      invariant segments == Segments(rows[..i], runs, f)
      invariant agents == Keyed(segments, AgentKey(named)) && models == Keyed(segments, ModelKey)
    {
      assert rows[..i + 1][..i] == rows[..i];
      segments, agents, models := ReadIssue(rows[i], runs, f, named, segments, agents, models);
    }
    assert rows[..|rows|] == rows;
  }

  // Every bucket of the window, empty to begin with.
  method EmptyBuckets(since: int, until: int, g: Granularity) returns (keys: seq<int>, time: map<int, Bucket>)
    requires since < until
    ensures keys == Ladder(Floor(since, g), g, |keys|)
    ensures until <= Rung(Floor(since, g), g, |keys|) < until + Size(g)
    ensures Buckets(time, g, Floor(since, g), Rung(Floor(since, g), g, |keys|))
    ensures forall b :: b in time ==> time[b] == EMPTY
  {
    keys, time := [], map[];
    var current := Floor(since, g);
    FloorIsAligned(since, g);
    while current < until
      invariant keys == Ladder(Floor(since, g), g, |keys|) && current == Rung(Floor(since, g), g, |keys|)
      invariant Aligned(current, g) && Floor(since, g) <= current < until + Size(g)
      invariant Buckets(time, g, Floor(since, g), current)
      invariant forall b :: b in time ==> time[b] == EMPTY
      decreases until - current
    {
      BucketsGrow(time, g, Floor(since, g), current);
      AlignedNext(current, g);
      keys, time := keys + [current], time[current := EMPTY];
      current := current + Size(g);
    }
  }

  lemma BucketsGrow(time: map<int, Bucket>, g: Granularity, first: int, current: int)
    requires Buckets(time, g, first, current) && Aligned(current, g) && first <= current
    ensures Buckets(time[current := EMPTY], g, first, current + Size(g))
  {
    forall b | Aligned(b, g) && current < b ensures current + Size(g) <= b { AlignedGap(current, b, g); }
  }

  method PourOne(bucket: Bucket, s: Segment, g: Granularity, cursor: int) returns (poured: Bucket)
    requires Proper(s)
    ensures poured == Poured(bucket, s, g, cursor)
  {
    PieceNonNegative(s, g, cursor);
    var overlap := A.Overlap(s.start, s.end, cursor, cursor + Size(g));
    if overlap > 0 {
      var fraction := overlap as real / (s.end - s.start) as real;
      poured := PourShare(bucket, s, fraction);
    } else {
      poured := bucket;
    }
  }

  // A bucket the segment does not reach.
  lemma Untouched(bucket: Bucket, s: Segment, g: Granularity, b: int)
    requires b + Size(g) <= s.start || s.end <= b
    ensures Poured(bucket, s, g, b) == bucket
  {
    PieceNonNegative(s, g, b);
  }

  // The buckets behind the cursor have their part of the segment, the others not yet.
  function PouredUpTo(time: map<int, Bucket>, s: Segment, g: Granularity, cursor: int): map<int, Bucket> {
    map b | b in time :: if b < cursor then Poured(time[b], s, g, b) else time[b]
  }

  function PouredAll(time: map<int, Bucket>, s: Segment, g: Granularity): map<int, Bucket> {
    map b | b in time :: Poured(time[b], s, g, b)
  }

  ghost predicate Buckets(time: map<int, Bucket>, g: Granularity, first: int, last: int) {
    forall b :: b in time <==> Aligned(b, g) && first <= b < last
  }

  lemma PouredNext(time: map<int, Bucket>, s: Segment, g: Granularity, first: int, last: int, cursor: int)
    requires Buckets(time, g, first, last) && cursor in time
    ensures PouredUpTo(time, s, g, cursor)[cursor := Poured(time[cursor], s, g, cursor)] == PouredUpTo(time, s, g, cursor + Size(g))
  {
    forall b | b in time && cursor < b ensures cursor + Size(g) <= b { AlignedGap(cursor, b, g); }
  }

  lemma PouredBegins(time: map<int, Bucket>, s: Segment, g: Granularity, first: int, last: int)
    requires Buckets(time, g, first, last)
    ensures PouredUpTo(time, s, g, Floor(s.start, g)) == time
  {
    FloorIsAligned(s.start, g);
    forall b | b in time && b < Floor(s.start, g) ensures Poured(time[b], s, g, b) == time[b] {
      BehindTheSegment(time[b], s, g, b);
    }
  }

  lemma BehindTheSegment(bucket: Bucket, s: Segment, g: Granularity, b: int)
    requires Aligned(b, g) && b < Floor(s.start, g)
    ensures Poured(bucket, s, g, b) == bucket
  {
    FloorIsAligned(s.start, g);
    AlignedGap(b, Floor(s.start, g), g);
    Untouched(bucket, s, g, b);
  }

  lemma PouredEnds(time: map<int, Bucket>, s: Segment, g: Granularity, cursor: int)
    requires s.end <= cursor
    ensures PouredUpTo(time, s, g, cursor) == PouredAll(time, s, g)
  {
    forall b | b in time && b >= cursor ensures Poured(time[b], s, g, b) == time[b] { Untouched(time[b], s, g, b); }
  }

  // Pouring one segment. The bucket of every cursor position exists: time[...] never misses.
  method PourSegment(s: Segment, g: Granularity, time: map<int, Bucket>, first: int, last: int) returns (poured: map<int, Bucket>)
    requires Proper(s) && first <= s.start && s.end <= last && Aligned(first, g) && Buckets(time, g, first, last)
    ensures poured == PouredAll(time, s, g)
  {
    poured := time;
    var cursor := Floor(s.start, g);
    PouredBegins(time, s, g, first, last);
    FloorIsAligned(s.start, g);
    while cursor < s.end
      invariant Aligned(cursor, g) && Floor(s.start, g) <= cursor
      invariant poured == PouredUpTo(time, s, g, cursor)
      decreases s.end - cursor
    {
      CursorExists(time, s, g, first, last, cursor);
      AlignedNext(cursor, g);
      PouredNext(time, s, g, first, last, cursor);
      var bucket := PourOne(poured[cursor], s, g, cursor);
      poured := poured[cursor := bucket];
      cursor := cursor + Size(g);
    }
    PouredEnds(time, s, g, cursor);
  }

  lemma CursorExists(time: map<int, Bucket>, s: Segment, g: Granularity, first: int, last: int, cursor: int)
    requires first <= s.start && s.end <= last && Aligned(first, g) && Buckets(time, g, first, last)
    requires Aligned(cursor, g) && Floor(s.start, g) <= cursor < s.end
    ensures cursor in time && cursor in PouredUpTo(time, s, g, cursor)
    ensures PouredUpTo(time, s, g, cursor)[cursor] == time[cursor]
  {
    if cursor < first { AlignedGap(cursor, first, g); }
  }

  // ---- the whole chart ----

  // Selected runs lie inside the window.
  lemma {:induction false} SegmentsInWindow(rows: seq<IssueRow>, runs: seq<WorkRun>, f: RunFilter)
    ensures forall s :: s in Segments(rows, runs, f) ==> InWindow(s, f)
  {
    if rows != [] {
      var row := rows[|rows| - 1];
      SegmentsInWindow(rows[..|rows| - 1], runs, f);
      IssueInWindow(runs, f, row, RunsOf(runs, row.id));
    }
  }

  predicate InWindow(s: Segment, f: RunFilter) {
    Proper(s) && (f.from.Some? ==> f.from.value <= s.start) && (f.to.Some? ==> s.end <= f.to.value)
  }

  lemma {:induction false} IssueInWindow(runs: seq<WorkRun>, f: RunFilter, row: IssueRow, mine: seq<WorkRun>)
    ensures forall s :: s in SegmentsOf(runs, f, row, mine) ==> InWindow(s, f)
  {
    if mine != [] {
      IssueInWindow(runs, f, row, mine[..|mine| - 1]);
      assert forall s :: s in SegmentOf(runs, f, row, mine[|mine| - 1]) ==> InWindow(s, f);
    }
  }

  ghost predicate IsWindow(segments: seq<Segment>, f: RunFilter, since: int, until: int) {
    && (if f.from.Some? then since == f.from.value else exists s :: s in segments && s.start == since)
    && (if f.to.Some? then until == f.to.value else exists s :: s in segments && s.end == until)
    && forall s :: s in segments ==> since <= s.start && s.end <= until
  }

  // filters["from"] or the earliest start, filters["to"] or the latest end.
  method WindowOf(segments: seq<Segment>, f: RunFilter) returns (since: int, until: int)
    requires segments != [] && forall s :: s in segments ==> InWindow(s, f)
    ensures IsWindow(segments, f, since, until)
  {
    since, until := segments[0].start, segments[0].end;
    assert segments[0] in segments;
    for i := 0 to |segments|
      invariant exists s :: s in segments && s.start == since
      invariant exists s :: s in segments && s.end == until
      invariant forall j :: 0 <= j < i ==> since <= segments[j].start && segments[j].end <= until
    {
      assert segments[i] in segments;
      if segments[i].start < since { since := segments[i].start; }
      if segments[i].end > until { until := segments[i].end; }
    }
    if f.from.Some? { since := f.from.value; }
    if f.to.Some? { until := f.to.value; }
  }

  // All segments poured into the buckets of the window.
  method PourSegments(segments: seq<Segment>, g: Granularity, since: int, until: int) returns (keys: seq<int>, time: map<int, Bucket>)
    requires since < until && forall s :: s in segments ==> Proper(s) && since <= s.start && s.end <= until
    ensures keys == Ladder(Floor(since, g), g, |keys|)
    ensures until <= Rung(Floor(since, g), g, |keys|) < until + Size(g)
    ensures forall b :: b in time <==> Aligned(b, g) && Floor(since, g) <= b < Rung(Floor(since, g), g, |keys|)
    ensures forall b :: b in time ==> time[b] == BucketOf(segments, g, b)
  {
    keys, time := EmptyBuckets(since, until, g);
    FloorIsAligned(since, g);
    var first, last := Floor(since, g), Rung(Floor(since, g), g, |keys|);
    for i := 0 to |segments|
      invariant Buckets(time, g, first, last)
      invariant forall b :: b in time ==> time[b] == BucketOf(segments[..i], g, b)
    {
      assert segments[i] in segments;
      var poured := PourSegment(segments[i], g, time, first, last);
      BucketsNext(time, segments, i, g);
      time := poured;
    }
    assert segments[..|segments|] == segments;
  }

  // The buckets from the first to the last are those that the window touches.
  lemma WindowBuckets(time: map<int, Bucket>, g: Granularity, since: int, until: int, last: int)
    requires Aligned(last, g) && until <= last < until + Size(g)
    requires forall b :: b in time <==> Aligned(b, g) && Floor(since, g) <= b < last
    ensures forall b :: b in time <==> Aligned(b, g) && since < b + Size(g) && b < until
  {
    FloorIsAligned(since, g);
    forall b | Aligned(b, g) ensures (b < last <==> b < until) && (Floor(since, g) <= b <==> since < b + Size(g)) {
      if b < last { AlignedGap(b, last, g); }
      if b < Floor(since, g) { AlignedGap(b, Floor(since, g), g); }
    }
  }

  lemma BucketsNext(time: map<int, Bucket>, segments: seq<Segment>, i: nat, g: Granularity)
    requires i < |segments| && forall b :: b in time ==> time[b] == BucketOf(segments[..i], g, b)
    ensures forall b :: b in time ==> PouredAll(time, segments[i], g)[b] == BucketOf(segments[..i + 1], g, b)
  {
    assert segments[..i + 1] == segments[..i] + [segments[i]];
    forall b | b in time ensures PouredAll(time, segments[i], g)[b] == BucketOf(segments[..i + 1], g, b) {
      BucketNext(segments[..i], segments[i], g, b);
    }
  }

  function TokensAt(time: map<int, Bucket>): int -> real { (b: int) => BucketIn(time, b).tokens }
  function PointsAt(time: map<int, Bucket>): int -> real { (b: int) => BucketIn(time, b).points }
  function BucketIn(time: map<int, Bucket>, b: int): Bucket { if b in time then time[b] else EMPTY }

  // Buckets that hold what was poured add up to the segments.
  lemma TimeConserves(segments: seq<Segment>, keys: seq<int>, time: map<int, Bucket>, first: int, g: Granularity)
    requires keys == Ladder(first, g, |keys|) && Aligned(first, g)
    requires forall s :: s in segments ==> Proper(s) && first <= s.start && s.end <= Rung(first, g, |keys|)
    requires forall b :: b in time <==> Aligned(b, g) && first <= b < Rung(first, g, |keys|)
    requires forall b :: b in time ==> time[b] == BucketOf(segments, g, b)
    ensures Distinct(keys) && forall b: int :: b in keys <==> b in time
    ensures Sum(keys, TokensAt(time)) == Sum(segments, TokensOf)
    ensures Sum(keys, PointsAt(time)) == Sum(segments, PointsOf)
  {
    LadderHas(first, g, |keys|);
    BucketsConserve(segments, first, g, |keys|);
    forall b: int | b in keys
      ensures TokensAt(time)(b) == BucketTokens(segments, g)(b) && PointsAt(time)(b) == BucketPoints(segments, g)(b)
    {
      assert b in time;
    }
    SumSame(keys, TokensAt(time), BucketTokens(segments, g));
    SumSame(keys, PointsAt(time), BucketPoints(segments, g));
  }

  // The time rows of the chart: the buckets that the window touches, each with what was poured into it.
  method TimeRows(segments: seq<Segment>, f: RunFilter, g: Granularity)
    returns (keys: seq<int>, time: map<int, Bucket>, ghost since: int, ghost until: int)
    requires forall s :: s in segments ==> InWindow(s, f)
    ensures Distinct(keys) && forall b: int :: b in keys <==> b in time
    ensures forall b :: b in time ==> time[b] == BucketOf(segments, g, b)
    ensures if segments == [] then time == map[] else IsWindow(segments, f, since, until)
    ensures segments != [] ==> forall b :: b in time <==> Aligned(b, g) && since < b + Size(g) && b < until
    ensures Sum(keys, TokensAt(time)) == Sum(segments, TokensOf)
    ensures Sum(keys, PointsAt(time)) == Sum(segments, PointsOf)
  {
    hide BucketOf, TokensAt, PointsAt, Floor;
    keys, time, since, until := [], map[], 0, 0;
    if segments != [] {
      var from, to := WindowOf(segments, f);
      since, until := from, to;
      assert segments[0] in segments;
      keys, time := PourSegments(segments, g, from, to);
      FloorIsAligned(from, g);
      LadderHas(Floor(from, g), g, |keys|);
      TimeConserves(segments, keys, time, Floor(from, g), g);
      WindowBuckets(time, g, from, to, Rung(Floor(from, g), g, |keys|));
    }
  }

  // efficiency_chart_breakdown. Whatever the filter, the unrounded time rows add up to the
  // issues' totals taken at their selection fractions, and so do the segments that feed the
  // agent and model rows.
  method Chart(rows: seq<IssueRow>, runs: seq<WorkRun>, f: RunFilter, named: set<Id>)
    returns (agents: map<Id, Bucket>, models: map<Id, Bucket>, g: Granularity, keys: seq<int>, time: map<int, Bucket>,
             ghost since: int, ghost until: int)
    ensures g.Hour? <==> f.from.Some? && f.to.Some? && f.to.value - f.from.value <= 48 * 3600
    ensures agents == Keyed(Segments(rows, runs, f), AgentKey(named)) && models == Keyed(Segments(rows, runs, f), ModelKey)
    ensures NAMELESS !in models
    ensures Distinct(keys) && forall b: int :: b in keys <==> b in time
    ensures forall b :: b in time ==> time[b] == BucketOf(Segments(rows, runs, f), g, b)
    ensures if Segments(rows, runs, f) == [] then time == map[] else IsWindow(Segments(rows, runs, f), f, since, until)
    ensures Segments(rows, runs, f) != [] ==> forall b :: b in time <==> Aligned(b, g) && since < b + Size(g) && b < until
    ensures Sum(keys, TokensAt(time)) == Sum(rows, SelectedTokens(runs, f))
    ensures Sum(keys, PointsAt(time)) == Sum(rows, SelectedPoints(runs, f))
  {
    hide BucketOf, TokensAt, PointsAt, Aligned, IsWindow, InWindow, Sum, Distinct, Keyed;
    var segments;
    segments, agents, models := ReadIssues(rows, runs, f, named);
    NamelessHasNoRow(segments);
    g := if f.from.Some? && f.to.Some? && f.to.value - f.from.value <= HOURLY_MAX then Hour else Day;
    SegmentsCarryTheFractions(rows, runs, f);
    SegmentsInWindow(rows, runs, f);
    keys, time, since, until := TimeRows(segments, f, g);
  }
}
