// Exact sums over lists, the insertion-ordered grouping that Python's dictionaries do,
// and the one lemma everything about attribution rests on: grouping conserves.
module Sums {
  function Sum<T(!new)>(xs: seq<T>, f: T -> real): real {
    if xs == [] then 0.0 else Sum(xs[..|xs| - 1], f) + f(xs[|xs| - 1])
  }

  ghost predicate Distinct<T(!new)>(xs: seq<T>) { forall i, j :: 0 <= i < j < |xs| ==> xs[i] != xs[j] }

  lemma {:induction false} SumSame<T(!new)>(xs: seq<T>, f: T -> real, g: T -> real)
    requires forall x :: x in xs ==> f(x) == g(x)
    ensures Sum(xs, f) == Sum(xs, g)
  {
    if xs != [] { SumSame(xs[..|xs| - 1], f, g); }
  }

  lemma {:induction false} SumPlus<T(!new)>(xs: seq<T>, f: T -> real, g: T -> real, h: T -> real)
    requires forall x :: x in xs ==> h(x) == f(x) + g(x)
    ensures Sum(xs, h) == Sum(xs, f) + Sum(xs, g)
  {
    if xs != [] { SumPlus(xs[..|xs| - 1], f, g, h); }
  }

  lemma {:induction false} SumTimes<T(!new)>(xs: seq<T>, c: real, f: T -> real, h: T -> real)
    requires forall x :: x in xs ==> h(x) == c * f(x)
    ensures Sum(xs, h) == c * Sum(xs, f)
  {
    if xs != [] { SumTimes(xs[..|xs| - 1], c, f, h); }
  }

  function Times<T(!new)>(c: real, f: T -> real): T -> real { (x: T) => c * f(x) }

  lemma {:induction false} SumOfTimes<T(!new)>(xs: seq<T>, c: real, f: T -> real)
    ensures Sum(xs, Times(c, f)) == c * Sum(xs, f)
  {
    if xs != [] {
      SumOfTimes(xs[..|xs| - 1], c, f);
      Distribute(c, Sum(xs[..|xs| - 1], f), f(xs[|xs| - 1]));
    }
  }

  lemma Distribute(c: real, x: real, y: real)
    ensures c * (x + y) == c * x + c * y
  {
  }

  lemma {:induction false} SumConcat<T(!new)>(xs: seq<T>, ys: seq<T>, f: T -> real)
    ensures Sum(xs + ys, f) == Sum(xs, f) + Sum(ys, f)
  {
    if ys == [] {
      assert xs + ys == xs;
    } else {
      assert (xs + ys)[..|xs + ys| - 1] == xs + ys[..|ys| - 1];
      SumConcat(xs, ys[..|ys| - 1], f);
    }
  }

  lemma {:induction false} SumNonNegative<T(!new)>(xs: seq<T>, f: T -> real)
    requires forall x :: x in xs ==> f(x) >= 0.0
    ensures Sum(xs, f) >= 0.0
    ensures forall x :: x in xs ==> f(x) <= Sum(xs, f)
  {
    if xs != [] { SumNonNegative(xs[..|xs| - 1], f); }
  }

  lemma {:induction false} SumBelow<T(!new)>(xs: seq<T>, f: T -> real, g: T -> real)
    requires forall x :: x in xs ==> f(x) <= g(x)
    ensures Sum(xs, f) <= Sum(xs, g)
  {
    if xs != [] { SumBelow(xs[..|xs| - 1], f, g); }
  }

  // One key of a list of distinct keys carries v.
  lemma {:induction false} SumAtOne<K(!new)>(ks: seq<K>, k: K, v: real, f: K -> real)
    requires Distinct(ks) && forall x :: x in ks ==> f(x) == if x == k then v else 0.0
    ensures Sum(ks, f) == if k in ks then v else 0.0
  {
    if ks != [] {
      var n := |ks| - 1;
      SumAtOne(ks[..n], k, v, f);
      assert ks == ks[..n] + [ks[n]];
    }
  }

  // The value a dictionary entry accumulates from the items that map to key k.
  function SumFor<T(!new), K(!new, ==)>(xs: seq<T>, key: T -> K, f: T -> real, k: K): real {
    if xs == [] then 0.0
    else
      var x := xs[|xs| - 1];
      SumFor(xs[..|xs| - 1], key, f, k) + (if key(x) == k then f(x) else 0.0)
  }

  lemma SumForNext<T(!new), K(!new)>(xs: seq<T>, x: T, key: T -> K, f: T -> real, k: K)
    ensures SumFor(xs + [x], key, f, k) == SumFor(xs, key, f, k) + if key(x) == k then f(x) else 0.0
  {
    assert (xs + [x])[..|xs|] == xs;
  }

  lemma {:induction false} SumForIsSum<T(!new), K(!new)>(xs: seq<T>, key: T -> K, f: T -> real, k: K, g: T -> real)
    requires forall x :: x in xs ==> g(x) == if key(x) == k then f(x) else 0.0
    ensures SumFor(xs, key, f, k) == Sum(xs, g)
  {
    if xs != [] { SumForIsSum(xs[..|xs| - 1], key, f, k, g); }
  }

  lemma {:induction false} SumForNonNegative<T(!new), K(!new)>(xs: seq<T>, key: T -> K, f: T -> real, k: K)
    requires forall x :: x in xs ==> f(x) >= 0.0
    ensures SumFor(xs, key, f, k) >= 0.0
    ensures (exists x :: x in xs && key(x) == k && f(x) > 0.0) ==> SumFor(xs, key, f, k) > 0.0
  {
    if xs != [] {
      SumForNonNegative(xs[..|xs| - 1], key, f, k);
      assert xs == xs[..|xs| - 1] + [xs[|xs| - 1]];
    }
  }

  lemma {:induction false} SumForPlus<T(!new), K(!new)>(xs: seq<T>, key: T -> K, f: T -> real, g: T -> real, h: T -> real, k: K)
    requires forall x :: x in xs ==> h(x) == f(x) + g(x)
    ensures SumFor(xs, key, h, k) == SumFor(xs, key, f, k) + SumFor(xs, key, g, k)
  {
    if xs != [] { SumForPlus(xs[..|xs| - 1], key, f, g, h, k); }
  }

  lemma {:induction false} SumForSame<T(!new), K(!new)>(xs: seq<T>, key: T -> K, f: T -> real, g: T -> real, k: K)
    requires forall x :: x in xs ==> f(x) == g(x)
    ensures SumFor(xs, key, f, k) == SumFor(xs, key, g, k)
  {
    if xs != [] { SumForSame(xs[..|xs| - 1], key, f, g, k); }
  }

  lemma {:induction false} SumForNothing<T(!new), K(!new)>(xs: seq<T>, key: T -> K, f: T -> real, k: K)
    requires forall x :: x in xs && key(x) == k ==> f(x) == 0.0
    ensures SumFor(xs, key, f, k) == 0.0
  {
    if xs != [] { SumForNothing(xs[..|xs| - 1], key, f, k); }
  }

  // Grouping conserves: over any distinct keys that cover the items contributing
  // something, the entries selected by p add up to the items selected by p.
  lemma {:induction false} Regroup<T(!new), K(!new)>(
      xs: seq<T>, ks: seq<K>, key: T -> K, f: T -> real, p: K -> bool, entry: K -> real, item: T -> real)
    requires Distinct(ks) && forall x :: x in xs && f(x) != 0.0 ==> key(x) in ks
    requires forall k :: k in ks ==> entry(k) == if p(k) then SumFor(xs, key, f, k) else 0.0
    requires forall x :: x in xs ==> item(x) == if p(key(x)) then f(x) else 0.0
    ensures Sum(ks, entry) == Sum(xs, item)
  {
    if xs == [] {
      SumAllZero(ks, entry);
    } else {
      var n := |xs| - 1;
      var x := xs[n];
      var before := (k: K) => if p(k) then SumFor(xs[..n], key, f, k) else 0.0;
      var last := (k: K) => if k == key(x) then item(x) else 0.0;
      Regroup(xs[..n], ks, key, f, p, before, item);
      SumPlus(ks, before, last, entry);
      SumAtOne(ks, key(x), item(x), last);
    }
  }

  lemma {:induction false} SumAllZero<T(!new)>(xs: seq<T>, f: T -> real)
    requires forall x :: x in xs ==> f(x) == 0.0
    ensures Sum(xs, f) == 0.0
  {
    if xs != [] { SumAllZero(xs[..|xs| - 1], f); }
  }

  // Keys in the order in which a loop first meets them.
  function FirstSeen<T(!new), K(!new, ==)>(xs: seq<T>, key: T -> K, counts: T -> bool): (ks: seq<K>)
    ensures Distinct(ks)
    ensures forall k :: k in ks <==> exists x :: x in xs && counts(x) && key(x) == k
  {
    if xs == [] then []
    else
      var x := xs[|xs| - 1];
      var ks := FirstSeen(xs[..|xs| - 1], key, counts);
      assert xs == xs[..|xs| - 1] + [x];
      if counts(x) && key(x) !in ks then ks + [key(x)] else ks
  }

  // _weights of aistat/aggregates.py: durations, else counts, else an equal split.
  function Weight<K(!new)>(keys: seq<K>, durations: K -> real, counts: K -> real, k: K): real
    requires keys != []
  {
    if Sum(keys, durations) > 0.0 then durations(k) / Sum(keys, durations)
    else if Sum(keys, counts) > 0.0 then counts(k) / Sum(keys, counts)
    else 1.0 / |keys| as real
  }

  // Whatever branch is taken the weights are a distribution over the keys.
  lemma WeightsSumToOne<K(!new)>(keys: seq<K>, durations: K -> real, counts: K -> real, w: K -> real)
    requires keys != [] && forall k :: k in keys ==> w(k) == Weight(keys, durations, counts, k)
    ensures Sum(keys, w) == 1.0
  {
    var d, c := Sum(keys, durations), Sum(keys, counts);
    if d > 0.0 {
      SumTimes(keys, 1.0 / d, durations, w);
    } else if c > 0.0 {
      SumTimes(keys, 1.0 / c, counts, w);
    } else {
      SumConstant(keys, 1.0 / |keys| as real, w);
    }
  }

  lemma {:induction false} SumConstant<T(!new)>(xs: seq<T>, c: real, f: T -> real)
    requires forall x :: x in xs ==> f(x) == c
    ensures Sum(xs, f) == |xs| as real * c
  {
    if xs != [] { SumConstant(xs[..|xs| - 1], c, f); }
  }

  lemma WeightNonNegative<K(!new)>(keys: seq<K>, durations: K -> real, counts: K -> real, k: K)
    requires k in keys && durations(k) >= 0.0 && counts(k) >= 0.0
    ensures Weight(keys, durations, counts, k) >= 0.0
  {
  }

  // A Python dictionary of running totals: keys in insertion order, and their values.
  datatype Dict<!K> = Dict(keys: seq<K>, values: map<K, real>)

  // d.get(k, 0)
  function Get<K(!new, ==)>(d: Dict<K>, k: K): real { if k in d.values then d.values[k] else 0.0 }

  // d[k] = d.get(k, 0) + v
  function Bump<K(!new, ==)>(d: Dict<K>, k: K, v: real): Dict<K> {
    Dict(if k in d.values then d.keys else d.keys + [k], d.values[k := Get(d, k) + v])
  }

  // What a loop over xs leaves behind when it bumps key(x) by f(x) for every x that counts.
  function Tally<T(!new), K(!new, ==)>(xs: seq<T>, key: T -> K, counts: T -> bool, f: T -> real): Dict<K> {
    if xs == [] then Dict([], map[])
    else
      var x, d := xs[|xs| - 1], Tally(xs[..|xs| - 1], key, counts, f);
      if counts(x) then Bump(d, key(x), f(x)) else d
  }

  // Its keys are in first-seen order, and every entry is the sum of the items of that key.
  lemma {:induction false} TallyIs<T(!new), K(!new)>(xs: seq<T>, key: T -> K, counts: T -> bool, f: T -> real)
    requires forall x :: x in xs && !counts(x) ==> f(x) == 0.0
    ensures Tally(xs, key, counts, f).keys == FirstSeen(xs, key, counts)
    ensures forall k :: k in Tally(xs, key, counts, f).values <==> k in FirstSeen(xs, key, counts)
    ensures forall k :: Get(Tally(xs, key, counts, f), k) == SumFor(xs, key, f, k)
  {
    if xs != [] {
      var n := |xs| - 1;
      var x, d := xs[n], Tally(xs[..n], key, counts, f);
      TallyIs(xs[..n], key, counts, f);
      forall k ensures Get(Tally(xs, key, counts, f), k) == SumFor(xs, key, f, k) {
        assert SumFor(xs, key, f, k) == SumFor(xs[..n], key, f, k) + if key(x) == k then f(x) else 0.0;
        assert Get(d, k) == SumFor(xs[..n], key, f, k);
      }
    }
  }

  lemma TallyNext<T(!new), K(!new)>(xs: seq<T>, x: T, key: T -> K, counts: T -> bool, f: T -> real)
    ensures Tally(xs + [x], key, counts, f)
         == if counts(x) then Bump(Tally(xs, key, counts, f), key(x), f(x)) else Tally(xs, key, counts, f)
  {
    assert (xs + [x])[..|xs|] == xs;
  }

  // The running totals of a tally add up to the items, whatever the keys.
  lemma TallyTotals<T(!new), K(!new)>(xs: seq<T>, key: T -> K, counts: T -> bool, f: T -> real, entry: K -> real)
    requires forall x :: x in xs && !counts(x) ==> f(x) == 0.0
    requires forall k :: entry(k) == Get(Tally(xs, key, counts, f), k)
    ensures Sum(Tally(xs, key, counts, f).keys, entry) == Sum(xs, f)
  {
    TallyIs(xs, key, counts, f);
    Regroup(xs, FirstSeen(xs, key, counts), key, f, (k: K) => true, entry, f);
  }

  // The items of one group, in order.
  function Only<T(!new), G(!new, ==)>(xs: seq<T>, group: T -> G, g: G): seq<T> {
    if xs == [] then []
    else
      var x := xs[|xs| - 1];
      Only(xs[..|xs| - 1], group, g) + (if group(x) == g then [x] else [])
  }

  lemma {:induction false} OnlySum<T(!new), G(!new)>(xs: seq<T>, group: T -> G, f: T -> real, g: G)
    ensures Sum(Only(xs, group, g), f) == SumFor(xs, group, f, g)
  {
    if xs != [] {
      var x := xs[|xs| - 1];
      OnlySum(xs[..|xs| - 1], group, f, g);
      if group(x) == g {
        assert (Only(xs[..|xs| - 1], group, g) + [x])[..|Only(xs, group, g)| - 1] == Only(xs[..|xs| - 1], group, g);
      } else {
        assert Only(xs, group, g) == Only(xs[..|xs| - 1], group, g);
      }
    }
  }

  // A dictionary of dictionaries: m.setdefault(g, {}) bumped at k.
  function GroupAt<G(!new, ==), K>(m: map<G, Dict<K>>, g: G): Dict<K> { if g in m then m[g] else Dict([], map[]) }

  function GroupBump<G(!new, ==), K(!new, ==)>(m: map<G, Dict<K>>, g: G, k: K, v: real): map<G, Dict<K>> {
    m[g := Bump(GroupAt(m, g), k, v)]
  }

  function GroupTally<T(!new), G(!new, ==), K(!new, ==)>(
      xs: seq<T>, group: T -> G, key: T -> K, counts: T -> bool, f: T -> real): map<G, Dict<K>>
  {
    if xs == [] then map[]
    else
      var x, m := xs[|xs| - 1], GroupTally(xs[..|xs| - 1], group, key, counts, f);
      if counts(x) then GroupBump(m, group(x), key(x), f(x)) else m
  }

  lemma {:induction false} GroupTallyIs<T(!new), G(!new), K(!new)>(
      xs: seq<T>, group: T -> G, key: T -> K, counts: T -> bool, f: T -> real, g: G)
    ensures GroupAt(GroupTally(xs, group, key, counts, f), g) == Tally(Only(xs, group, g), key, counts, f)
  {
    if xs != [] {
      var x, before := xs[|xs| - 1], xs[..|xs| - 1];
      GroupTallyIs(before, group, key, counts, f, g);
      if group(x) == g {
        assert Only(xs, group, g) == Only(before, group, g) + [x];
        TallyNext(Only(before, group, g), x, key, counts, f);
      } else {
        assert Only(xs, group, g) == Only(before, group, g);
      }
    }
  }
}
