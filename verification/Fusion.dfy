/** Reciprocal rank fusion. */
module Fusion {
  import opened Sequences
  import opened Sums
  import opened Order

  /** The contributions of one ranking: `1 / (k + rank)`, with ranks from 1. */
  function EntriesOf(ranking: seq<string>, k: nat): (r: seq<Entry>)
    ensures |r| == |ranking|
    ensures forall i | 0 <= i < |ranking| :: r[i] == (ranking[i], 1.0 / (k + i + 1) as real)
  {
    seq(|ranking|, i requires 0 <= i < |ranking| => (ranking[i], 1.0 / (k + i + 1) as real))
  }

  function AllEntries(rankings: seq<seq<string>>, k: nat): seq<Entry> {
    if rankings == [] then []
    else AllEntries(rankings[..|rankings| - 1], k) + EntriesOf(rankings[|rankings| - 1], k)
  }

  /** What an identifier scores in all rankings together. */
  function Score(rankings: seq<seq<string>>, k: nat, id: string): real {
    if rankings == [] then 0.0
    else Score(rankings[..|rankings| - 1], k, id) + KeySum(EntriesOf(rankings[|rankings| - 1], k), id)
  }

  lemma {:induction false} ScoreIsKeySum(rankings: seq<seq<string>>, k: nat, id: string)
    ensures KeySum(AllEntries(rankings, k), id) == Score(rankings, k, id)
  {
    hide EntriesOf;
    if rankings == [] {
      assert AllEntries(rankings, k) == [];
    } else {
      var n := |rankings| - 1;
      ScoreIsKeySum(rankings[..n], k, id);
      KeySumAppend(AllEntries(rankings[..n], k), EntriesOf(rankings[n], k), id);
    }
  }

  /** The identifier occurs in one of the rankings. */
  ghost predicate Occurs(rankings: seq<seq<string>>, id: string) {
    exists r, i :: 0 <= r < |rankings| && 0 <= i < |rankings[r]| && rankings[r][i] == id
  }

  lemma HasEntryAppend(a: seq<Entry>, b: seq<Entry>, id: string)
    ensures HasEntry(a + b, id) <==> HasEntry(a, id) || HasEntry(b, id)
  {
    if HasEntry(a, id) {
      var i :| 0 <= i < |a| && a[i].0 == id;
      assert (a + b)[i].0 == id;
    }
    if HasEntry(b, id) {
      var i :| 0 <= i < |b| && b[i].0 == id;
      assert (a + b)[|a| + i].0 == id;
    }
  }

  lemma EntriesOfHas(ranking: seq<string>, k: nat, id: string)
    ensures HasEntry(EntriesOf(ranking, k), id) <==> id in ranking
  {
    if id in ranking {
      var i :| 0 <= i < |ranking| && ranking[i] == id;
      assert EntriesOf(ranking, k)[i].0 == id;
    }
  }

  lemma OccursStep(rankings: seq<seq<string>>, last: seq<string>, id: string)
    ensures Occurs(rankings + [last], id) <==> Occurs(rankings, id) || id in last
  {
    var all := rankings + [last];
    if Occurs(rankings, id) {
      var r, i :| 0 <= r < |rankings| && 0 <= i < |rankings[r]| && rankings[r][i] == id;
      assert all[r][i] == id;
    }
    if id in last {
      var i :| 0 <= i < |last| && last[i] == id;
      assert all[|rankings|][i] == id;
    }
  }

  lemma {:induction false} EntriesOccur(rankings: seq<seq<string>>, k: nat, id: string)
    ensures HasEntry(AllEntries(rankings, k), id) <==> Occurs(rankings, id)
  {
    hide EntriesOf, HasEntry, Occurs;
    if rankings == [] {
      assert !HasEntry([], id) && !Occurs([], id) by { NothingOccurs(id); }
    } else {
      var init, last := rankings[..|rankings| - 1], rankings[|rankings| - 1];
      EntriesOccur(init, k, id);
      HasEntryAppend(AllEntries(init, k), EntriesOf(last, k), id);
      EntriesOfHas(last, k, id);
      OccursStep(init, last, id);
      assert rankings == init + [last];
    }
  }

  lemma NothingOccurs(id: string)
    ensures !HasEntry([], id) && !Occurs([], id)
  {
  }

  function Names(fused: seq<(string, real)>): (r: seq<string>)
    ensures |r| == |fused| && forall i | 0 <= i < |fused| :: r[i] == fused[i].0
  {
    seq(|fused|, i requires 0 <= i < |fused| => fused[i].0)
  }

  /** What a fusion of the rankings is: each occurring identifier once, with its score, in strict
      `(-score, identifier)` order. */
  ghost predicate IsFusion(fused: seq<(string, real)>, rankings: seq<seq<string>>, k: nat) {
    && (forall i | 0 <= i < |fused| :: fused[i].1 == Score(rankings, k, fused[i].0))
    && (forall id :: id in Names(fused) <==> Occurs(rankings, id))
    && (forall i, j | 0 <= i < j < |fused| ::
          fused[i].1 > fused[j].1 || (fused[i].1 == fused[j].1 && StrLess(fused[i].0, fused[j].0)))
  }

  /** `reciprocal_rank_fusion`. */
  method ReciprocalRankFusion(rankings: seq<seq<string>>, k: nat) returns (fused: seq<(string, real)>)
    ensures IsFusion(fused, rankings, k)
  {
    hide Accumulates, KeySum, Score, Add, StrLess, IsRanking;
    var scores := Dict([], map[]);
    ghost var entries := [];
    StartAccumulates();
    var i := 0;
    while i < |rankings|
      invariant 0 <= i <= |rankings|
      invariant entries == AllEntries(rankings[..i], k)
      invariant Accumulates(scores, entries)
    {
      var ranking := rankings[i];
      ghost var before := entries;
      var j := 0;
      while j < |ranking|
        invariant 0 <= j <= |ranking|
        invariant entries == before + EntriesOf(ranking, k)[..j]
        invariant Accumulates(scores, entries)
      {
        AddAccumulates(scores, entries, ranking[j], 1.0 / (k + j + 1) as real);
        scores := Add(scores, ranking[j], 1.0 / (k + j + 1) as real);
        entries := entries + [(ranking[j], 1.0 / (k + j + 1) as real)];
        assert EntriesOf(ranking, k)[..j + 1] == EntriesOf(ranking, k)[..j] + [EntriesOf(ranking, k)[j]];
        j := j + 1;
      }
      assert EntriesOf(ranking, k)[..j] == EntriesOf(ranking, k);
      assert rankings[..i + 1][..i] == rankings[..i];
      i := i + 1;
    }
    assert rankings[..i] == rankings;
    RankIsRanking(scores, entries);
    var ids := Rank(scores.keys, scores.values);
    fused := seq(|ids|, n requires 0 <= n < |ids| => (ids[n], scores.values[ids[n]]));
    RankedIsFusion(scores, ids, rankings, k, fused);
  }

  lemma StartAccumulates()
    ensures Accumulates(Dict([], map[]), [])
  {
  }

  lemma RankedIsFusion(d: Dict, ids: seq<string>, rankings: seq<seq<string>>, k: nat, fused: seq<(string, real)>)
    requires Accumulates(d, AllEntries(rankings, k)) && IsRanking(ids, d.values)
    requires |fused| == |ids| && forall n | 0 <= n < |ids| :: fused[n] == (ids[n], d.values[ids[n]])
    ensures IsFusion(fused, rankings, k)
  {
    hide KeySum, Score, StrLess, AllEntries;
    forall id ensures id in Names(fused) <==> Occurs(rankings, id) {
      EntriesOccur(rankings, k, id);
      assert Names(fused) == ids;
      assert id in ids <==> id in d.values;
    }
    forall i | 0 <= i < |fused| ensures fused[i].1 == Score(rankings, k, fused[i].0) {
      ScoreIsKeySum(rankings, k, fused[i].0);
    }
    forall i, j | 0 <= i < j < |fused|
      ensures fused[i].1 > fused[j].1 || (fused[i].1 == fused[j].1 && StrLess(fused[i].0, fused[j].0))
    {
      assert Before(d.values, ids[i], ids[j]);
    }
  }

  // ---------------------------------------------------------------------------------------------
  // Properties of a fusion
  // ---------------------------------------------------------------------------------------------

  lemma ScoreStep(rankings: seq<seq<string>>, last: seq<string>, k: nat, id: string)
    ensures Score(rankings + [last], k, id) == Score(rankings, k, id) + KeySum(EntriesOf(last, k), id)
  {
    hide KeySum, EntriesOf;
    assert (rankings + [last])[..|rankings|] == rankings;
  }

  lemma {:induction false} ScoreRemove(rankings: seq<seq<string>>, k: nat, id: string, j: nat)
    requires j < |rankings|
    ensures Score(rankings, k, id)
         == Score(rankings[..j] + rankings[j + 1..], k, id) + KeySum(EntriesOf(rankings[j], k), id)
    decreases |rankings|
  {
    hide KeySum, EntriesOf, Score;
    var init, last := rankings[..|rankings| - 1], rankings[|rankings| - 1];
    assert rankings == init + [last];
    ScoreStep(init, last, k, id);
    if j == |rankings| - 1 {
      assert rankings[..j] + rankings[j + 1..] == init;
    } else {
      ScoreRemove(init, k, id, j);
      ScoreStep(init[..j] + init[j + 1..], last, k, id);
      assert rankings[..j] + rankings[j + 1..] == init[..j] + init[j + 1..] + [last];
    }
  }

  lemma FindRanking(rankings: seq<seq<string>>, r: seq<string>) returns (j: nat)
    requires r in multiset(rankings)
    ensures j < |rankings| && rankings[j] == r
    ensures multiset(rankings[..j] + rankings[j + 1..]) == multiset(rankings) - multiset{r}
  {
    assert r in rankings;
    j :| j < |rankings| && rankings[j] == r;
    assert rankings == rankings[..j] + [r] + rankings[j + 1..];
  }

  /** The score does not depend on the order of the rankings. */
  lemma {:induction false} ScorePermuted(a: seq<seq<string>>, b: seq<seq<string>>, k: nat, id: string)
    requires multiset(a) == multiset(b)
    ensures Score(a, k, id) == Score(b, k, id)
    decreases |a|
  {
    hide KeySum, EntriesOf, Score;
    assert |a| == |multiset(a)| == |multiset(b)| == |b|;
    if a == [] {
      assert a == b;
    } else {
      var init, last := a[..|a| - 1], a[|a| - 1];
      assert a == init + [last];
      var j := FindRanking(b, last);
      ScorePermuted(init, b[..j] + b[j + 1..], k, id);
      ScoreRemove(b, k, id, j);
      ScoreStep(init, last, k, id);
    }
  }

  lemma OccursPermuted(a: seq<seq<string>>, b: seq<seq<string>>, id: string)
    requires multiset(a) == multiset(b) && Occurs(a, id)
    ensures Occurs(b, id)
  {
    var r, i :| 0 <= r < |a| && 0 <= i < |a[r]| && a[r][i] == id;
    assert a[r] in multiset(a);
    assert a[r] in b;
    var q :| 0 <= q < |b| && b[q] == a[r];
    assert b[q][i] == id;
  }

  /** Two fusions with the same scores and identifiers are equal. */
  lemma FusionUnique(f: seq<(string, real)>, g: seq<(string, real)>, values: map<string, real>)
    requires IsRanking(Names(f), values) && IsRanking(Names(g), values)
    requires forall i | 0 <= i < |f| :: f[i].1 == values[Names(f)[i]]
    requires forall i | 0 <= i < |g| :: g[i].1 == values[Names(g)[i]]
    ensures f == g
  {
    hide IsRanking;
    RankingUnique(Names(f), Names(g), values);
    assert |f| == |g|;
    forall i | 0 <= i < |f| ensures f[i] == g[i] {
      assert Names(f)[i] == Names(g)[i];
    }
  }

  ghost function ScoreTable(names: seq<string>, rankings: seq<seq<string>>, k: nat): map<string, real> {
    map id | id in names :: Score(rankings, k, id)
  }

  lemma FusionIsRanking(f: seq<(string, real)>, rankings: seq<seq<string>>, k: nat, names: seq<string>)
    requires IsFusion(f, rankings, k) && forall id :: id in names <==> Occurs(rankings, id)
    ensures IsRanking(Names(f), ScoreTable(names, rankings, k))
    ensures forall i | 0 <= i < |f| ::
      Names(f)[i] in ScoreTable(names, rankings, k) && f[i].1 == ScoreTable(names, rankings, k)[Names(f)[i]]
  {
    hide Score, StrLess, Occurs;
    var values, ids := ScoreTable(names, rankings, k), Names(f);
    forall i | 0 <= i < |ids| ensures ids[i] in values {
      assert ids[i] in Names(f);
    }
    forall i, j | 0 <= i < j < |ids| ensures Before(values, ids[i], ids[j]) {
      assert f[i].1 > f[j].1 || (f[i].1 == f[j].1 && StrLess(f[i].0, f[j].0));
    }
  }

  /** The fused list is the same whatever order the rankings come in. */
  lemma FusionIgnoresRankingOrder(f: seq<(string, real)>, g: seq<(string, real)>,
                                  a: seq<seq<string>>, b: seq<seq<string>>, k: nat)
    requires IsFusion(f, a, k) && IsFusion(g, b, k) && multiset(a) == multiset(b)
    ensures f == g
  {
    hide Score, StrLess, Occurs, IsRanking;
    var names := Names(f);
    forall id ensures Occurs(a, id) <==> Occurs(b, id) {
      if Occurs(a, id) { OccursPermuted(a, b, id); }
      if Occurs(b, id) { OccursPermuted(b, a, id); }
    }
    FusionIsRanking(f, a, k, names);
    FusionIsRanking(g, b, k, names);
    assert ScoreTable(names, a, k) == ScoreTable(names, b, k) by {
      forall id | id in names ensures Score(a, k, id) == Score(b, k, id) { ScorePermuted(a, b, k, id); }
    }
    FusionUnique(f, g, ScoreTable(names, a, k));
  }

  function MassOf(rankings: seq<seq<string>>, k: nat): real {
    if rankings == [] then 0.0
    else MassOf(rankings[..|rankings| - 1], k) + Total(EntriesOf(rankings[|rankings| - 1], k))
  }

  lemma {:induction false} MassIsTotal(rankings: seq<seq<string>>, k: nat)
    ensures Total(AllEntries(rankings, k)) == MassOf(rankings, k)
  {
    hide EntriesOf;
    if rankings == [] {
      assert AllEntries(rankings, k) == [];
    } else {
      var n := |rankings| - 1;
      MassIsTotal(rankings[..n], k);
      TotalAppend(AllEntries(rankings[..n], k), EntriesOf(rankings[n], k));
    }
  }

  function ScoreSum(fused: seq<(string, real)>): real {
    if fused == [] then 0.0 else ScoreSum(fused[..|fused| - 1]) + fused[|fused| - 1].1
  }

  lemma {:induction false} ScoreSumIsTotalBy(fused: seq<(string, real)>, entries: seq<Entry>)
    requires forall i | 0 <= i < |fused| :: fused[i].1 == KeySum(entries, fused[i].0)
    ensures ScoreSum(fused) == TotalBy(Names(fused), entries)
  {
    hide KeySum;
    if fused != [] {
      var n := |fused| - 1;
      ScoreSumIsTotalBy(fused[..n], entries);
      assert Names(fused)[..n] == Names(fused[..n]);
    }
  }

  /** Fusion conserves mass: the fused scores add up to all contributions, none lost or doubled. */
  lemma FusionConservesMass(fused: seq<(string, real)>, rankings: seq<seq<string>>, k: nat)
    requires IsFusion(fused, rankings, k)
    ensures ScoreSum(fused) == MassOf(rankings, k)
  {
    hide Score, KeySum, Total, TotalBy, AllEntries, Occurs;
    var entries := AllEntries(rankings, k);
    forall i | 0 <= i < |fused| ensures fused[i].1 == KeySum(entries, fused[i].0) {
      ScoreIsKeySum(rankings, k, fused[i].0);
    }
    ScoreSumIsTotalBy(fused, entries);
    forall i | 0 <= i < |entries| ensures entries[i].0 in Names(fused) {
      assert HasEntry(entries, entries[i].0);
      EntriesOccur(rankings, k, entries[i].0);
    }
    FusionDistinct(fused, rankings, k);
    GroupSum(Names(fused), entries);
    MassIsTotal(rankings, k);
  }

  lemma FusionDistinct(fused: seq<(string, real)>, rankings: seq<seq<string>>, k: nat)
    requires IsFusion(fused, rankings, k)
    ensures Distinct(Names(fused))
  {
    hide Score, Occurs, StrLess;
    forall i, j | 0 <= i < j < |fused| ensures fused[i].0 != fused[j].0 {
      StrLessTotal(fused[i].0, fused[j].0);
    }
  }

  /** In this ranking `a` stands at least as high as `b`, if `b` stands in it at all. */
  ghost predicate AtLeastAsHigh(ranking: seq<string>, a: string, b: string) {
    forall j | 0 <= j < |ranking| && ranking[j] == b :: exists i :: 0 <= i <= j && ranking[i] == a
  }

  lemma {:induction false} OnePlace(ranking: seq<string>, k: nat, i: nat, n: nat)
    requires Distinct(ranking) && i < |ranking| && n <= |ranking|
    ensures KeySum(EntriesOf(ranking, k)[..n], ranking[i]) == if i < n then 1.0 / (k + i + 1) as real else 0.0
  {
    if n > 0 {
      OnePlace(ranking, k, i, n - 1);
      var part := EntriesOf(ranking, k)[..n];
      assert part[..n - 1] == EntriesOf(ranking, k)[..n - 1];
    }
  }

  /** What one more ranking without repeats adds: `1 / (k + rank)` for its identifiers, ranks from 1. */
  lemma ScoreOfPlace(rankings: seq<seq<string>>, ranking: seq<string>, k: nat, id: string)
    requires Distinct(ranking)
    ensures Score([], k, id) == 0.0
    ensures forall i | 0 <= i < |ranking| && ranking[i] == id ::
      Score(rankings + [ranking], k, id) == Score(rankings, k, id) + 1.0 / (k + i + 1) as real
    ensures id !in ranking ==> Score(rankings + [ranking], k, id) == Score(rankings, k, id)
  {
    hide KeySum, EntriesOf;
    assert (rankings + [ranking])[..|rankings|] == rankings;
    var entries := EntriesOf(ranking, k);
    assert entries[..|ranking|] == entries;
    if id in ranking {
      var i :| 0 <= i < |ranking| && ranking[i] == id;
      OnePlace(ranking, k, i, |ranking|);
    } else {
      NoEntries(entries, id);
    }
  }

  lemma RankingDominates(ranking: seq<string>, k: nat, a: string, b: string)
    requires Distinct(ranking) && AtLeastAsHigh(ranking, a, b)
    ensures KeySum(EntriesOf(ranking, k), a) >= KeySum(EntriesOf(ranking, k), b)
  {
    hide KeySum;
    var entries := EntriesOf(ranking, k);
    assert entries[..|ranking|] == entries;
    if b in ranking {
      var j :| 0 <= j < |ranking| && ranking[j] == b;
      var i :| 0 <= i <= j && ranking[i] == a;
      OnePlace(ranking, k, i, |ranking|);
      OnePlace(ranking, k, j, |ranking|);
      Reciprocal((k + i + 1) as real, (k + j + 1) as real);
    } else {
      NoEntries(entries, b);
      NotNegative(ranking, k, a, |ranking|);
    }
  }

  lemma Reciprocal(x: real, y: real)
    requires 0.0 < x <= y
    ensures 1.0 / x >= 1.0 / y
  {
    assert 1.0 / x == y / (x * y);
    assert 1.0 / y == x / (x * y);
  }

  lemma {:induction false} NotNegative(ranking: seq<string>, k: nat, id: string, n: nat)
    requires n <= |ranking|
    ensures KeySum(EntriesOf(ranking, k)[..n], id) >= 0.0
  {
    if n > 0 {
      NotNegative(ranking, k, id, n - 1);
      assert EntriesOf(ranking, k)[..n][..n - 1] == EntriesOf(ranking, k)[..n - 1];
    }
  }

  /** An identifier that stands at least as high wherever another stands never scores lower. */
  lemma {:induction false} HigherEverywhereScoresHigher(rankings: seq<seq<string>>, k: nat, a: string, b: string)
    requires forall r | 0 <= r < |rankings| :: Distinct(rankings[r]) && AtLeastAsHigh(rankings[r], a, b)
    ensures Score(rankings, k, a) >= Score(rankings, k, b)
  {
    hide KeySum, EntriesOf, AtLeastAsHigh, Distinct;
    if rankings != [] {
      var n := |rankings| - 1;
      HigherEverywhereScoresHigher(rankings[..n], k, a, b);
      RankingDominates(rankings[n], k, a, b);
    }
  }
}
