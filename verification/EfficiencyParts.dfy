// What a model's part of an issue puts into the model's row and into the report's totals, from the
// issue, its entry and the rates alone.
module EfficiencyParts {
  import opened Prelude
  import opened Sums
  import opened Efficiency
  import opened EfficiencyCost
  import B = EfficiencyBreakdown
  import R = EfficiencyReport

  datatype Figure =
    | Tokens(kind: TokenKind) | StoryPoints | ActiveHours | Dollars | PricedPoints | UnpricedTokens | Numerator | Denominator

  function Share(amount: real, e: Entry, u: ModelUse): real { amount * e.fraction * PartOf(e.models, u) }

  function PartFigure(x: Figure, row: IssueRow, e: Entry, rates: B.Rates, u: ModelUse): real {
    var rated := rates(row.id, u.model).Some?;
    match x
    case Tokens(kind) => Share(TokensOf(kind, row.usage), e, u)
    case StoryPoints => Share(row.points, e, u)
    case ActiveHours => u.days * 24.0
    case Dollars => AllKinds(KindCosts(row, e, rates, u))
    case PricedPoints => if rated then Share(row.points, e, u) else 0.0
    case UnpricedTokens => if rated then 0.0 else Share(Total(row.usage), e, u)
    case Numerator => if rated && u.days > 0.0 then AllKinds(KindCosts(row, e, rates, u)) / (u.days * 24.0) else 0.0
    case Denominator => if rated && u.days > 0.0 then Share(row.points, e, u) else 0.0
  }

  // Of all models, or of one.
  predicate IsOf(model: Option<Option<Id>>, m: Option<Id>) { model.None? || model == Some(m) }

  function PartsOf(x: Figure, model: Option<Option<Id>>, row: IssueRow, e: Entry, rates: B.Rates): ModelUse -> real {
    (u: ModelUse) => if IsOf(model, u.model) then PartFigure(x, row, e, rates, u) else 0.0
  }

  function FiguresOf(x: Figure, model: Option<Option<Id>>, entries: B.Entries, rates: B.Rates): IssueRow -> real {
    (row: IssueRow) =>
      if entries(row).Some? then Sum(entries(row).value.models, PartsOf(x, model, row, entries(row).value, rates)) else 0.0
  }

  // ---- a share says the same ----

  function ShareFigure(x: Figure, s: B.Share): real {
    match x
    case Tokens(kind) => TokensOf(kind, s.tokens)
    case StoryPoints => s.points
    case ActiveHours => s.hours
    case Dollars => B.CostOf(s)
    case PricedPoints => if s.cost.Some? then s.points else 0.0
    case UnpricedTokens => if s.cost.Some? then 0.0 else Total(s.tokens)
    case Numerator => if s.cost.Some? && s.hours > 0.0 then B.CostOf(s) / s.hours else 0.0
    case Denominator => if s.cost.Some? && s.hours > 0.0 then s.points else 0.0
  }

  function SharesIn(x: Figure, model: Option<Option<Id>>): B.Share -> real {
    (s: B.Share) => if IsOf(model, s.model) then ShareFigure(x, s) else 0.0
  }

  lemma UseShareSays(row: IssueRow, e: Entry, rates: B.Rates, u: ModelUse)
    requires u in e.models
    ensures var s := B.UseShare(row, e, rates, u);
      && s.model == u.model && s.points == Share(row.points, e, u) && s.hours == u.days * 24.0
      && (forall kind :: TokensOf(kind, s.tokens) == Share(TokensOf(kind, row.usage), e, u))
      && Total(s.tokens) == Share(Total(row.usage), e, u)
      && (s.cost.Some? <==> rates(row.id, u.model).Some?) && B.CostOf(s) == AllKinds(KindCosts(row, e, rates, u))
  {
    hide PartOf, B.UseWeight, KindCosts, AllKinds, B.Scale, B.Dollars, Total, TokensOf;
    ShareCosts(row, e, rates, u);
    PartIsTheWeight(e.models, u);
    forall kind ensures TokensOf(kind, B.UseShare(row, e, rates, u).tokens) == Share(TokensOf(kind, row.usage), e, u) {
      ScaledKind(kind, row.usage, e.fraction, PartOf(e.models, u));
    }
    R.ScaleTotal(row.usage, e.fraction);
    R.ScaleTotal(B.Scale(row.usage, e.fraction), PartOf(e.models, u));
  }

  lemma ScaledKind(kind: TokenKind, t: Kinds, fraction: real, weight: real)
    ensures TokensOf(kind, B.Scale(B.Scale(t, fraction), weight)) == TokensOf(kind, t) * fraction * weight
  {
    match kind
    case Input =>
    case Output =>
    case CacheRead =>
    case CacheWrite =>
  }

  lemma FigureSays(x: Figure, row: IssueRow, e: Entry, rates: B.Rates, u: ModelUse)
    requires u in e.models
    ensures ShareFigure(x, B.UseShare(row, e, rates, u)) == PartFigure(x, row, e, rates, u)
  {
    hide Share, KindCosts, AllKinds, B.UseShare, B.CostOf, TokensOf, Total;
    UseShareSays(row, e, rates, u);
    match x
    case Tokens(kind) =>
    case StoryPoints =>
    case ActiveHours =>
    case Dollars =>
    case PricedPoints =>
    case UnpricedTokens =>
    case Numerator =>
    case Denominator =>
  }

  lemma NoShare(amount: real, e: Entry, u: ModelUse)
    requires PartOf(e.models, u) == 0.0
    ensures Share(amount, e, u) == 0.0
  {
  }

  lemma WeightlessIsNothing(x: Figure, row: IssueRow, e: Entry, rates: B.Rates, u: ModelUse)
    requires B.Measured(e) && u in e.models && B.UseWeight(e.models, u) <= 0.0
    ensures PartFigure(x, row, e, rates, u) == 0.0
  {
    hide KindCosts, AllKinds, Share, PartOf, B.UseWeight;
    B.UseWeightsSum(e);
    PartIsTheWeight(e.models, u);
    B.WeightlessHasNoHours(e, u);
    WeightlessCostsNothing(row, e, rates, u);
    NoShare(row.points, e, u);
    NoShare(Total(row.usage), e, u);
    match x
    case Tokens(kind) => NoShare(TokensOf(kind, row.usage), e, u);
    case StoryPoints =>
    case ActiveHours =>
    case Dollars =>
    case PricedPoints =>
    case UnpricedTokens =>
    case Numerator =>
    case Denominator =>
  }

  lemma OneIssue(x: Figure, model: Option<Option<Id>>, row: IssueRow, e: Entry, rates: B.Rates)
    requires B.Measured(e)
    ensures Sum(B.SharesOf(row, e, rates), SharesIn(x, model)) == Sum(e.models, PartsOf(x, model, row, e, rates))
  {
    hide ShareFigure, PartFigure, B.UseWeight, IsOf;
    forall u | u in e.models && B.UseWeight(e.models, u) > 0.0
      ensures SharesIn(x, model)(B.UseShare(row, e, rates, u)) == PartsOf(x, model, row, e, rates)(u)
    {
      FigureSays(x, row, e, rates, u);
    }
    forall u | u in e.models && B.UseWeight(e.models, u) <= 0.0 ensures PartsOf(x, model, row, e, rates)(u) == 0.0 {
      WeightlessIsNothing(x, row, e, rates, u);
    }
    B.SharesFromSum(row, e, rates, e.models, SharesIn(x, model), PartsOf(x, model, row, e, rates));
  }

  lemma {:induction false} SharesSum(x: Figure, model: Option<Option<Id>>, rows: seq<IssueRow>, entries: B.Entries, rates: B.Rates)
    requires B.AllMeasured(rows, entries)
    ensures Sum(B.AllShares(rows, entries, rates), SharesIn(x, model)) == Sum(rows, FiguresOf(x, model, entries, rates))
  {
    hide SharesIn, PartsOf;
    if rows != [] {
      var n := |rows| - 1;
      var row := rows[n];
      assert row in rows;
      SharesSum(x, model, rows[..n], entries, rates);
      var mine := if entries(row).Some? then B.SharesOf(row, entries(row).value, rates) else [];
      SumConcat(B.AllShares(rows[..n], entries, rates), mine, SharesIn(x, model));
      if entries(row).Some? { OneIssue(x, model, row, entries(row).value, rates); }
    }
  }

  // ---- the rows per model ----

  predicate OfARow(x: Figure) { !x.PricedPoints? && !x.UnpricedTokens? }

  function RowFigure(b: B.ModelRow, x: Figure): real {
    match x
    case Tokens(kind) => TokensOf(kind, b.tokens)
    case StoryPoints => b.points
    case ActiveHours => b.hours
    case Dollars => b.cost
    case Numerator => b.weightedNum
    case Denominator => b.weightedDen
    case _ => 0.0
  }

  lemma AddedFigure(b: B.ModelRow, s: B.Share, x: Figure)
    requires OfARow(x)
    ensures RowFigure(B.AddToModel(b, s), x) == RowFigure(b, x) + ShareFigure(x, s)
  {
    match x
    case Tokens(kind) => { match kind case Input => case Output => case CacheRead => case CacheWrite => }
    case StoryPoints =>
    case ActiveHours =>
    case Dollars =>
    case Numerator =>
    case Denominator =>
  }

  lemma NewRow(x: Figure)
    ensures RowFigure(B.NEW_MODEL, x) == 0.0
  {
    if x.Tokens? { match x.kind case Input => case Output => case CacheRead => case CacheWrite => }
  }

  lemma {:induction false} ModelSums(shares: seq<B.Share>, k: Option<Id>, x: Figure)
    requires OfARow(x)
    ensures RowFigure(B.ModelAt(B.ModelsOf(shares), k), x) == Sum(shares, SharesIn(x, Some(k)))
  {
    hide RowFigure, ShareFigure, B.AddToModel;
    if shares == [] {
      NewRow(x);
    } else {
      var n := |shares| - 1;
      ModelSums(shares[..n], k, x);
      AddedFigure(B.ModelAt(B.ModelsOf(shares[..n]), k), shares[n], x);
    }
  }

  // A model that has a part in the issue, and whether there is a rate for it.
  predicate TakesPart(row: IssueRow, entries: B.Entries, u: ModelUse) {
    entries(row).Some? && u in entries(row).value.models && PartOf(entries(row).value.models, u) > 0.0
  }

  ghost predicate PricedIn(rows: seq<IssueRow>, entries: B.Entries, rates: B.Rates, model: Option<Option<Id>>) {
    forall row, u :: row in rows && TakesPart(row, entries, u) && IsOf(model, u.model) ==> rates(row.id, u.model).Some?
  }

  // A model's row holds its parts of the issues and nothing else.
  lemma ModelRowSays(r: R.Report, rows: seq<IssueRow>, entries: B.Entries, rates: B.Rates, k: Option<Id>, x: Figure)
    requires R.Says(r, rows, entries, rates) && B.AllMeasured(rows, entries) && OfARow(x)
    ensures RowFigure(B.ModelAt(r.models, k), x) == Sum(rows, FiguresOf(x, Some(k), entries, rates))
  {
    hide FiguresOf, SharesIn, RowFigure;
    ModelSums(B.AllShares(rows, entries, rates), k, x);
    SharesSum(x, Some(k), rows, entries, rates);
  }

  // There is a row for every model that takes part in some issue and for no other, and it is priced
  // exactly when there is a rate for each of its parts.
  lemma ModelRowExactlyWhen(r: R.Report, rows: seq<IssueRow>, entries: B.Entries, rates: B.Rates, k: Option<Id>)
    requires R.Says(r, rows, entries, rates)
    ensures k in r.models <==> exists row, u :: row in rows && TakesPart(row, entries, u) && u.model == k
    ensures k in r.models ==> (r.models[k].priced <==> PricedIn(rows, entries, rates, Some(k)))
  {
    hide TakesPart, B.AllShares, B.ModelsOf, PricedIn, IsOf;
    ShareMembers(rows, entries, rates);
    SharesPriced(rows, entries, rates, Some(k));
    SharesOfModel(rows, entries, rates, k);
    RowOfModel(B.AllShares(rows, entries, rates), k);
  }

  lemma RowOfModel(shares: seq<B.Share>, k: Option<Id>)
    ensures k in B.ModelsOf(shares) <==> exists s :: s in shares && s.model == k
    ensures k in B.ModelsOf(shares) ==>
      (B.ModelsOf(shares)[k].priced <==> forall s :: s in shares && IsOf(Some(k), s.model) ==> s.cost.Some?)
  {
    hide B.ModelsOf;
    B.ModelRowsAre(shares);
    OfModelOrNot(shares, k);
  }

  lemma OfModelOrNot(shares: seq<B.Share>, k: Option<Id>)
    ensures k in FirstSeen(shares, B.ModelKey, B.Always) <==> exists s :: s in shares && s.model == k
  {
    if s :| s in shares && s.model == k { assert B.Always(s) && B.ModelKey(s) == k; }
  }

  function ShareAs(row: IssueRow, entries: B.Entries, rates: B.Rates, u: ModelUse): B.Share
    requires entries(row).Some?
  {
    B.UseShare(row, entries(row).value, rates, u)
  }

  lemma {:induction false} SharesFromMembers(row: IssueRow, e: Entry, rates: B.Rates, uses: seq<ModelUse>, s: B.Share)
    requires forall u :: u in uses ==> u in e.models
    ensures s in B.SharesFrom(row, e, rates, uses) <==> exists u :: u in uses && PartOf(e.models, u) > 0.0 && s == B.UseShare(row, e, rates, u)
  {
    hide PartOf, B.UseWeight, B.UseShare;
    if uses != [] {
      var n := |uses| - 1;
      SharesFromMembers(row, e, rates, uses[..n], s);
      assert uses == uses[..n] + [uses[n]];
      assert uses[n] in uses && uses[n] in e.models;
      PartIsTheWeight(e.models, uses[n]);
    }
  }

  // The shares are the parts.
  lemma {:induction false} ShareMembers(rows: seq<IssueRow>, entries: B.Entries, rates: B.Rates)
    ensures forall s :: s in B.AllShares(rows, entries, rates) <==>
      exists row, u :: row in rows && TakesPart(row, entries, u) && s == ShareAs(row, entries, rates, u)
  {
    hide B.SharesFrom, B.UseShare, PartOf;
    if rows != [] {
      var n := |rows| - 1;
      ShareMembers(rows[..n], entries, rates);
      assert rows == rows[..n] + [rows[n]];
      var before, row := B.AllShares(rows[..n], entries, rates), rows[n];
      var mine := if entries(row).Some? then B.SharesOf(row, entries(row).value, rates) else [];
      forall s ensures s in before + mine <==> exists row, u :: row in rows && TakesPart(row, entries, u) && s == ShareAs(row, entries, rates, u) {
        if entries(row).Some? { SharesFromMembers(row, entries(row).value, rates, entries(row).value.models, s); }
        if s in mine {
          var u :| u in entries(row).value.models && PartOf(entries(row).value.models, u) > 0.0 && s == B.UseShare(row, entries(row).value, rates, u);
          assert TakesPart(row, entries, u) && s == ShareAs(row, entries, rates, u);
        }
        if row', u :| row' in rows && TakesPart(row', entries, u) && s == ShareAs(row', entries, rates, u) {
          if row' !in rows[..n] { assert row' == row && s in mine; }
        }
      }
    }
  }

  lemma SharesPriced(rows: seq<IssueRow>, entries: B.Entries, rates: B.Rates, model: Option<Option<Id>>)
    requires forall s :: s in B.AllShares(rows, entries, rates) <==>
      exists row, u :: row in rows && TakesPart(row, entries, u) && s == ShareAs(row, entries, rates, u)
    ensures (forall s :: s in B.AllShares(rows, entries, rates) && IsOf(model, s.model) ==> s.cost.Some?)
      <==> PricedIn(rows, entries, rates, model)
  {
    hide TakesPart, B.AllShares;
    PartsAreShares(rows, entries, rates);
  }

  lemma PartsAreShares(rows: seq<IssueRow>, entries: B.Entries, rates: B.Rates)
    requires forall s :: s in B.AllShares(rows, entries, rates) <==>
      exists row, u :: row in rows && TakesPart(row, entries, u) && s == ShareAs(row, entries, rates, u)
    ensures forall row, u :: row in rows && TakesPart(row, entries, u) ==>
      var s := ShareAs(row, entries, rates, u);
      s in B.AllShares(rows, entries, rates) && s.model == u.model && (s.cost.Some? <==> rates(row.id, u.model).Some?)
  {
    hide B.AllShares, PartOf;
  }

  lemma SharesOfModel(rows: seq<IssueRow>, entries: B.Entries, rates: B.Rates, k: Option<Id>)
    requires forall s :: s in B.AllShares(rows, entries, rates) <==>
      exists row, u :: row in rows && TakesPart(row, entries, u) && s == ShareAs(row, entries, rates, u)
    ensures (exists s :: s in B.AllShares(rows, entries, rates) && s.model == k)
      <==> exists row, u :: row in rows && TakesPart(row, entries, u) && u.model == k
  {
    hide B.AllShares, PartOf;
    PartsAreShares(rows, entries, rates);
    if row, u :| row in rows && TakesPart(row, entries, u) && u.model == k {
      assert ShareAs(row, entries, rates, u) in B.AllShares(rows, entries, rates);
    }
  }

  // What the report says of the whole: the story points that have a price, the tokens that have none,
  // and whether there are any of those.
  lemma TotalsSay(r: R.Report, rows: seq<IssueRow>, entries: B.Entries, rates: B.Rates)
    requires R.Says(r, rows, entries, rates) && B.AllMeasured(rows, entries)
    ensures r.costPoints == Sum(rows, FiguresOf(PricedPoints, None, entries, rates))
    ensures r.unpriced == Sum(rows, FiguresOf(UnpricedTokens, None, entries, rates))
    ensures r.hasUnpriced <==> !PricedIn(rows, entries, rates, None)
  {
    hide FiguresOf, TakesPart;
    var shares := B.AllShares(rows, entries, rates);
    SumSame(shares, B.PricedPoints, SharesIn(PricedPoints, None));
    SumSame(shares, B.UnpricedTokens, SharesIn(UnpricedTokens, None));
    SharesSum(PricedPoints, None, rows, entries, rates);
    SharesSum(UnpricedTokens, None, rows, entries, rates);
    ShareMembers(rows, entries, rates);
    SharesPriced(rows, entries, rates, None);
  }
}
