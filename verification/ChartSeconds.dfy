// What every row of the efficiency chart says, told second by second: each second of a run that the
// filter selects carries an equal part of its issue, and goes to the bucket, the agent and the model
// it belongs to.
module ChartSeconds {
  import opened Prelude
  import opened Sums
  import opened Efficiency
  import opened EfficiencyChart
  import A = Attribution

  // ---- the reference ----

  // Selected seconds of a run between two moments.
  function SelectedIn(f: RunFilter, lower: int, upper: int): WorkRun -> real {
    (r: WorkRun) => SelectedWithin(f, r, lower, upper) as real
  }

  // Selected seconds of a run, when its row is k.
  function SelectedOf(f: RunFilter, key: WorkRun -> Option<Id>, k: Id): WorkRun -> real {
    (r: WorkRun) => if key(r) == Some(k) then SelectedSeconds(f)(r) else 0.0
  }

  const EVERYTHING := RunFilter({}, {}, None, None)

  // All the seconds of an issue's runs.
  function AllSeconds(runs: seq<WorkRun>, issue: Id): real { SumFor(runs, IssueOf, SelectedSeconds(EVERYTHING), issue) }

  // What so many seconds carry of an amount that all of them share.
  function Carried(amount: real, seconds: real, all: real): real { if all > 0.0 then amount * seconds / all else 0.0 }

  function TokensIn(row: IssueRow): real { Total(row.usage) }
  function PointsIn(row: IssueRow): real { row.points }

  // The issues' amounts, as far as the seconds that count carry them.
  function CarriedBy(runs: seq<WorkRun>, amount: IssueRow -> real, seconds: WorkRun -> real): IssueRow -> real {
    (row: IssueRow) => Carried(amount(row), SumFor(runs, IssueOf, seconds, row.id), AllSeconds(runs, row.id))
  }

  // ---- seconds of a run ----

  lemma {:induction false} SelectedIsOverlap(f: RunFilter, r: WorkRun, lower: int, upper: int)
    ensures SelectedWithin(f, r, lower, upper) == if Picks(f, r) then A.Overlap(Left(f, r), Right(f, r), lower, upper) else 0
    decreases upper - lower
  {
    if lower < upper {
      SelectedIsOverlap(f, r, lower, upper - 1);
      ChosenIs(r.agent, f.agents);
      ChosenIs(r.model, f.models);
      assert Selects(f, r, upper - 1) <==> Picks(f, r) && Left(f, r) <= upper - 1 < Right(f, r);
    }
  }

  lemma AllSecondsAre(runs: seq<WorkRun>, issue: Id)
    ensures AllSeconds(runs, issue) == WholeSeconds(runs, issue)
  {
    FractionIsSeconds(runs, EVERYTHING, issue);
    forall r | r in runs ensures SelectedSeconds(EVERYTHING)(r) == Length(r) { CutIsSeconds(EVERYTHING, r); }
    SumForSame(runs, IssueOf, SelectedSeconds(EVERYTHING), Length, issue);
  }

  // ---- what a segment adds to a figure of the chart ----

  // A figure that gives every segment of a run its amount times its seconds over the whole.
  ghost predicate CarriesSeconds(runs: seq<WorkRun>, f: RunFilter, amount: IssueRow -> real, seconds: WorkRun -> real, field: Segment -> real) {
    forall row, r :: Sum(SegmentOf(runs, f, row, r), field) == Carried(amount(row), seconds(r), WholeSeconds(runs, row.id))
  }

  function RunCarries(runs: seq<WorkRun>, row: IssueRow, amount: real, seconds: WorkRun -> real): WorkRun -> real {
    (r: WorkRun) => Carried(amount, seconds(r), WholeSeconds(runs, row.id))
  }

  lemma CarriedTimes(amount: real, seconds: real, all: real, c: real)
    requires c == if all > 0.0 then amount / all else 0.0
    ensures Carried(amount, seconds, all) == c * seconds
  {
  }

  lemma IssueCarries(runs: seq<WorkRun>, row: IssueRow, amount: real, seconds: WorkRun -> real)
    ensures Sum(RunsOf(runs, row.id), RunCarries(runs, row, amount, seconds))
         == Carried(amount, SumFor(runs, IssueOf, seconds, row.id), WholeSeconds(runs, row.id))
  {
    hide Carried, WholeSeconds;
    var all := WholeSeconds(runs, row.id);
    var c := if all > 0.0 then amount / all else 0.0;
    forall r ensures RunCarries(runs, row, amount, seconds)(r) == Times(c, seconds)(r) { CarriedTimes(amount, seconds(r), all, c); }
    SumSame(RunsOf(runs, row.id), RunCarries(runs, row, amount, seconds), Times(c, seconds));
    SumOfTimes(RunsOf(runs, row.id), c, seconds);
    OnlySum(runs, IssueOf, seconds, row.id);
    CarriedTimes(amount, SumFor(runs, IssueOf, seconds, row.id), all, c);
  }

  lemma {:induction false} ChartCarries(
      rows: seq<IssueRow>, runs: seq<WorkRun>, f: RunFilter, amount: IssueRow -> real, seconds: WorkRun -> real, field: Segment -> real)
    requires CarriesSeconds(runs, f, amount, seconds, field)
    ensures Sum(Segments(rows, runs, f), field) == Sum(rows, CarriedBy(runs, amount, seconds))
  {
    if rows != [] {
      var n := |rows| - 1;
      var row := rows[n];
      ChartCarries(rows[..n], runs, f, amount, seconds, field);
      var mine := RunsOf(runs, row.id);
      SegmentsOfSum(runs, f, row, mine, RunCarries(runs, row, amount(row), seconds), field);
      IssueCarries(runs, row, amount(row), seconds);
      AllSecondsAre(runs, row.id);
      SumConcat(Segments(rows[..n], runs, f), SegmentsOf(runs, f, row, mine), field);
    }
  }

  // ---- time rows ----

  lemma CancelCut(amount: real, cut: real, whole: real, overlap: real)
    requires cut > 0.0 && whole > 0.0
    ensures amount * (cut / whole) * (overlap / cut) == amount * overlap / whole
  {
    assert (cut / whole) * (overlap / cut) == overlap / whole;
    assert amount * ((cut / whole) * (overlap / cut)) == amount * (cut / whole) * (overlap / cut);
  }

  // What a segment pours into the bucket that starts at b.
  function TokensIntoBucket(g: Granularity, b: int): Segment -> real { (s: Segment) => s.tokens * Piece(s, g, b) }
  function PointsIntoBucket(g: Granularity, b: int): Segment -> real { (s: Segment) => s.points * Piece(s, g, b) }

  lemma SegmentCarries(runs: seq<WorkRun>, f: RunFilter, row: IssueRow, r: WorkRun, g: Granularity, b: int)
    ensures Sum(SegmentOf(runs, f, row, r), TokensIntoBucket(g, b))
         == Carried(Total(row.usage), SelectedIn(f, b, b + Size(g))(r), WholeSeconds(runs, row.id))
    ensures Sum(SegmentOf(runs, f, row, r), PointsIntoBucket(g, b))
         == Carried(row.points, SelectedIn(f, b, b + Size(g))(r), WholeSeconds(runs, row.id))
  {
    hide Piece, ShareOf, Carried, Total, SelectedIn, Cut, Picks, WholeSeconds;
    SelectedPiece(f, r, b, b + Size(g));
    if Cut(f, r) > 0.0 {
      CutIsDated(f, r);
      var s := SegmentWith(f, row, r, ShareOf(runs, f, row.id, r));
      OneSegment([s], TokensIntoBucket(g, b));
      OneSegment([s], PointsIntoBucket(g, b));
      PieceCarries(runs, f, row, r, g, b, Total(row.usage));
      PieceCarries(runs, f, row, r, g, b, row.points);
    } else {
      NothingCarried(Total(row.usage), WholeSeconds(runs, row.id));
      NothingCarried(row.points, WholeSeconds(runs, row.id));
    }
  }

  lemma CutIsDated(f: RunFilter, r: WorkRun)
    ensures Cut(f, r) > 0.0 ==> Dated(r)
  {
  }

  lemma NothingCarried(amount: real, all: real)
    ensures Carried(amount, 0.0, all) == 0.0
  {
  }

  lemma SelectedPiece(f: RunFilter, r: WorkRun, lower: int, upper: int)
    ensures Cut(f, r) > 0.0 ==> Dated(r) && SelectedIn(f, lower, upper)(r) == A.Overlap(Left(f, r), Right(f, r), lower, upper) as real
    ensures !(Cut(f, r) > 0.0) ==> SelectedIn(f, lower, upper)(r) == 0.0
  {
    SelectedIsOverlap(f, r, lower, upper);
  }

  lemma PieceCarries(runs: seq<WorkRun>, f: RunFilter, row: IssueRow, r: WorkRun, g: Granularity, b: int, amount: real)
    requires Cut(f, r) > 0.0 && Dated(r)
    ensures var share := ShareOf(runs, f, row.id, r);
      (amount * share) * Piece(SegmentWith(f, row, r, share), g, b)
      == Carried(amount, A.Overlap(Left(f, r), Right(f, r), b, b + Size(g)) as real, WholeSeconds(runs, row.id))
  {
    var whole, share := WholeSeconds(runs, row.id), ShareOf(runs, f, row.id, r);
    var overlap := A.Overlap(Left(f, r), Right(f, r), b, b + Size(g)) as real;
    assert Piece(SegmentWith(f, row, r, share), g, b) == overlap / Cut(f, r);
    if whole > 0.0 { CancelCut(amount, Cut(f, r), whole, overlap); }
  }

  lemma OneSegment(one: seq<Segment>, field: Segment -> real)
    requires |one| == 1
    ensures Sum(one, field) == field(one[0])
  {
    assert one[..0] == [];
  }

  lemma IntoBucketIs(s: Segment, g: Granularity, b: int)
    ensures TokensIntoBucket(g, b)(s) == TokensPiece(s, g)(b) && PointsIntoBucket(g, b)(s) == PointsPiece(s, g)(b)
  {
  }

  lemma {:induction false} BucketIsSum(segments: seq<Segment>, g: Granularity, b: int)
    ensures BucketTokens(segments, g)(b) == Sum(segments, TokensIntoBucket(g, b))
    ensures BucketPoints(segments, g)(b) == Sum(segments, PointsIntoBucket(g, b))
  {
    hide Piece, Poured, TokensPiece, PointsPiece, TokensIntoBucket, PointsIntoBucket;
    if segments != [] {
      var n := |segments| - 1;
      BucketIsSum(segments[..n], g, b);
      ColumnNext(segments[..n], segments[n], g, b);
      IntoBucketIs(segments[n], g, b);
      assert segments == segments[..n] + [segments[n]];
    }
  }

  // A time row holds what the selected seconds between its start and its end carry of their issues.
  lemma TimeRowIs(rows: seq<IssueRow>, runs: seq<WorkRun>, f: RunFilter, g: Granularity, b: int)
    ensures var seconds := SelectedIn(f, b, b + if g.Hour? then 3600 else 86400);
      && BucketOf(Segments(rows, runs, f), g, b).tokens == Sum(rows, CarriedBy(runs, TokensIn, seconds))
      && BucketOf(Segments(rows, runs, f), g, b).points == Sum(rows, CarriedBy(runs, PointsIn, seconds))
  {
    var seconds := SelectedIn(f, b, b + Size(g));
    forall row, r
      ensures Sum(SegmentOf(runs, f, row, r), TokensIntoBucket(g, b)) == Carried(TokensIn(row), seconds(r), WholeSeconds(runs, row.id))
      ensures Sum(SegmentOf(runs, f, row, r), PointsIntoBucket(g, b)) == Carried(PointsIn(row), seconds(r), WholeSeconds(runs, row.id))
    {
      SegmentCarries(runs, f, row, r, g, b);
    }
    BucketIsSum(Segments(rows, runs, f), g, b);
    ChartCarries(rows, runs, f, TokensIn, seconds, TokensIntoBucket(g, b));
    ChartCarries(rows, runs, f, PointsIn, seconds, PointsIntoBucket(g, b));
  }

  // ---- rows per agent and per model ----

  // The agent of a run that the catalogue can name, and the model of a run that has a name.
  function NamedAgent(named: set<Id>): WorkRun -> Option<Id> {
    (r: WorkRun) => if r.agent.Some? && r.agent.value in named then r.agent else None
  }

  function NamedModel(r: WorkRun): Option<Id> { if r.model.Some? && r.model.value.text != "" then r.model else None }

  // The two keys of a segment and of its run say the same.
  ghost predicate SameKeys(f: RunFilter, onSegment: Segment -> Option<Id>, onRun: WorkRun -> Option<Id>) {
    forall row, r, share :: Dated(r) ==> onSegment(SegmentWith(f, row, r, share)) == onRun(r)
  }

  function InRow(key: Segment -> Option<Id>, k: Id, field: Segment -> real): Segment -> real {
    (s: Segment) => if key(s) == Some(k) then field(s) else 0.0
  }

  lemma KeyedCarries(runs: seq<WorkRun>, f: RunFilter, row: IssueRow, r: WorkRun, key: Segment -> Option<Id>, of: WorkRun -> Option<Id>, k: Id)
    requires SameKeys(f, key, of)
    ensures Sum(SegmentOf(runs, f, row, r), InRow(key, k, TokensOf))
         == Carried(Total(row.usage), SelectedOf(f, of, k)(r), WholeSeconds(runs, row.id))
    ensures Sum(SegmentOf(runs, f, row, r), InRow(key, k, PointsOf))
         == Carried(row.points, SelectedOf(f, of, k)(r), WholeSeconds(runs, row.id))
  {
    CutIsSeconds(f, r);
    CutIsPart(f, r);
    if Cut(f, r) > 0.0 {
      var s := SegmentWith(f, row, r, ShareOf(runs, f, row.id, r));
      assert key(s) == of(r);
      OneSegment([s], InRow(key, k, TokensOf));
      OneSegment([s], InRow(key, k, PointsOf));
    }
  }

  // A row per agent or model holds what the selected seconds of its runs carry of their issues.
  lemma KeyedRowIs(rows: seq<IssueRow>, runs: seq<WorkRun>, f: RunFilter, key: Segment -> Option<Id>, of: WorkRun -> Option<Id>, k: Id)
    requires SameKeys(f, key, of)
    ensures var bucket, seconds := BucketAt(Keyed(Segments(rows, runs, f), key), k), SelectedOf(f, of, k);
      && bucket.tokens == Sum(rows, CarriedBy(runs, TokensIn, seconds))
      && bucket.points == Sum(rows, CarriedBy(runs, PointsIn, seconds))
  {
    var segments, seconds := Segments(rows, runs, f), SelectedOf(f, of, k);
    forall row, r
      ensures Sum(SegmentOf(runs, f, row, r), InRow(key, k, TokensOf)) == Carried(TokensIn(row), seconds(r), WholeSeconds(runs, row.id))
      ensures Sum(SegmentOf(runs, f, row, r), InRow(key, k, PointsOf)) == Carried(PointsIn(row), seconds(r), WholeSeconds(runs, row.id))
    {
      KeyedCarries(runs, f, row, r, key, of, k);
    }
    KeyedIs(segments, key, k);
    SumForIsSum(segments, key, TokensOf, Some(k), InRow(key, k, TokensOf));
    SumForIsSum(segments, key, PointsOf, Some(k), InRow(key, k, PointsOf));
    ChartCarries(rows, runs, f, TokensIn, seconds, InRow(key, k, TokensOf));
    ChartCarries(rows, runs, f, PointsIn, seconds, InRow(key, k, PointsOf));
  }

  lemma AgentRowIs(rows: seq<IssueRow>, runs: seq<WorkRun>, f: RunFilter, named: set<Id>, agent: Id)
    ensures var bucket, seconds := BucketAt(Keyed(Segments(rows, runs, f), AgentKey(named)), agent), SelectedOf(f, NamedAgent(named), agent);
      && bucket.tokens == Sum(rows, CarriedBy(runs, TokensIn, seconds))
      && bucket.points == Sum(rows, CarriedBy(runs, PointsIn, seconds))
  {
    KeyedRowIs(rows, runs, f, AgentKey(named), NamedAgent(named), agent);
  }

  lemma ModelRowIs(rows: seq<IssueRow>, runs: seq<WorkRun>, f: RunFilter, model: Id)
    ensures var bucket, seconds := BucketAt(Keyed(Segments(rows, runs, f), ModelKey), model), SelectedOf(f, NamedModel, model);
      && bucket.tokens == Sum(rows, CarriedBy(runs, TokensIn, seconds))
      && bucket.points == Sum(rows, CarriedBy(runs, PointsIn, seconds))
  {
    forall m: Id ensures m != NAMELESS <==> m.text != "" { }
    KeyedRowIs(rows, runs, f, ModelKey, NamedModel, model);
  }
}
