/** Identifiers in the order of their characters, and rankings by falling score. */
module Order {
  import opened Sequences
  import opened Sums

  predicate StrLess(a: string, b: string) {
    if b == "" then false
    else if a == "" then true
    else if a[0] != b[0] then a[0] < b[0] else StrLess(a[1..], b[1..])
  }

  lemma {:induction false} StrLessTotal(a: string, b: string)
    ensures a == b || StrLess(a, b) || StrLess(b, a)
    ensures !(StrLess(a, b) && (a == b || StrLess(b, a)))
  {
    if a != "" && b != "" && a[0] == b[0] {
      StrLessTotal(a[1..], b[1..]);
      assert a == [a[0]] + a[1..] && b == [b[0]] + b[1..];
    }
  }

  lemma {:induction false} StrLessTransitive(a: string, b: string, c: string)
    requires StrLess(a, b) && StrLess(b, c)
    ensures StrLess(a, c)
  {
    if a != "" && a[0] == b[0] && b[0] == c[0] { StrLessTransitive(a[1..], b[1..], c[1..]); }
  }

  /** Strings compare by their first different characters, and a proper prefix comes first. */
  lemma {:induction false} StrLessMeans(a: string, b: string)
    ensures StrLess(a, b) <==> a < b || exists k :: FirstDifference(a, b, k) && a[k] < b[k]
  {
    if a != "" && b != "" && a[0] == b[0] {
      var x, y := a[1..], b[1..];
      StrLessMeans(x, y);
      assert a == [a[0]] + x && b == [a[0]] + y;
      if k :| FirstDifference(x, y, k) && x[k] < y[k] { assert FirstDifference(a, b, k + 1); }
      if k :| FirstDifference(a, b, k) && a[k] < b[k] {
        assert k > 0;
        assert FirstDifference(x, y, k - 1);
      }
    } else if a != "" && b != "" {
      assert FirstDifference(a, b, 0);
      assert forall k | FirstDifference(a, b, k) :: k == 0;
    }
  }

  predicate FirstDifference(a: string, b: string, k: int) {
    0 <= k < |a| && k < |b| && a[k] != b[k] && forall i | 0 <= i < k :: a[i] == b[i]
  }

  /** The sort key `(-score, identifier)`. */
  predicate Before(values: map<string, real>, a: string, b: string)
    requires a in values && b in values
  {
    values[a] > values[b] || (values[a] == values[b] && StrLess(a, b))
  }

  lemma BeforeTotal(values: map<string, real>, a: string, b: string)
    requires a in values && b in values
    ensures a == b || Before(values, a, b) || Before(values, b, a)
    ensures !(Before(values, a, b) && (a == b || Before(values, b, a)))
  {
    StrLessTotal(a, b);
  }

  lemma BeforeTransitive(values: map<string, real>, a: string, b: string, c: string)
    requires a in values && b in values && c in values
    requires Before(values, a, b) && Before(values, b, c)
    ensures Before(values, a, c)
  {
    if values[a] == values[b] == values[c] { StrLessTransitive(a, b, c); }
  }

  ghost predicate Within(ids: seq<string>, values: map<string, real>) {
    forall i | 0 <= i < |ids| :: ids[i] in values
  }

  ghost predicate Sorted(ids: seq<string>, values: map<string, real>)
    requires Within(ids, values)
  {
    forall i, j | 0 <= i < j < |ids| :: Before(values, ids[i], ids[j])
  }

  /** The one ranking of a score table: every identifier once, in strict `(-score, identifier)` order. */
  ghost predicate IsRanking(ids: seq<string>, values: map<string, real>) {
    Within(ids, values) && Sorted(ids, values) && forall k | k in values :: k in ids
  }

  function Insert(id: string, ids: seq<string>, values: map<string, real>): seq<string>
    requires id in values && Within(ids, values)
  {
    if ids == [] || Before(values, id, ids[0]) then [id] + ids
    else [ids[0]] + Insert(id, ids[1..], values)
  }

  /** `sorted(keys, key=lambda k: (-values[k], k))`. */
  function Rank(ids: seq<string>, values: map<string, real>): (r: seq<string>)
    requires Within(ids, values)
    ensures Within(r, values)
    ensures multiset(r) == multiset(ids)
  {
    if ids == [] then []
    else
      var init := ids[..|ids| - 1];
      assert ids == init + [ids[|ids| - 1]];
      var r := Rank(init, values);
      InsertKeeps(ids[|ids| - 1], r, values);
      Insert(ids[|ids| - 1], r, values)
  }

  lemma {:induction false} InsertKeeps(id: string, ids: seq<string>, values: map<string, real>)
    requires id in values && Within(ids, values)
    ensures Within(Insert(id, ids, values), values)
    ensures multiset(Insert(id, ids, values)) == multiset(ids) + multiset{id}
  {
    if !(ids == [] || Before(values, id, ids[0])) {
      InsertKeeps(id, ids[1..], values);
      assert ids == [ids[0]] + ids[1..];
    }
  }

  lemma {:induction false} InsertSorted(id: string, ids: seq<string>, values: map<string, real>)
    requires id in values && Within(ids, values) && Sorted(ids, values) && id !in ids
    ensures Within(Insert(id, ids, values), values) && Sorted(Insert(id, ids, values), values)
  {
    hide StrLess, Before;
    InsertKeeps(id, ids, values);
    if ids != [] {
      BeforeTotal(values, id, ids[0]);
      if Before(values, id, ids[0]) {
        forall j | 0 <= j < |ids| ensures Before(values, id, ids[j]) {
          if j > 0 { BeforeTransitive(values, id, ids[0], ids[j]); }
        }
      } else {
        InsertSorted(id, ids[1..], values);
        InsertKeeps(id, ids[1..], values);
        var rest := Insert(id, ids[1..], values);
        forall j | 0 <= j < |rest| ensures Before(values, ids[0], rest[j]) {
          assert rest[j] in multiset(rest);
          assert rest[j] == id || rest[j] in ids[1..];
        }
      }
    }
  }

  lemma {:induction false} RankSorted(ids: seq<string>, values: map<string, real>)
    requires Within(ids, values) && Distinct(ids)
    ensures Sorted(Rank(ids, values), values)
  {
    hide Before;
    if ids != [] {
      var init, id := ids[..|ids| - 1], ids[|ids| - 1];
      RankSorted(init, values);
      PermutationMember(Rank(init, values), init, id);
      InsertSorted(id, Rank(init, values), values);
    }
  }

  lemma RankIsRanking(d: Dict, entries: seq<Entry>)
    requires Accumulates(d, entries)
    ensures Within(d.keys, d.values) && IsRanking(Rank(d.keys, d.values), d.values)
  {
    hide Before, KeySum;
    RankSorted(d.keys, d.values);
    forall k | k in d.values ensures k in Rank(d.keys, d.values) {
      PermutationMember(Rank(d.keys, d.values), d.keys, k);
    }
  }

  lemma {:induction false} RankingSplit(a: seq<string>, values: map<string, real>)
    requires IsRanking(a, values)
    ensures Distinct(a)
  {
    forall i, j | 0 <= i < j < |a| ensures a[i] != a[j] {
      assert Before(values, a[i], a[j]);
      BeforeTotal(values, a[i], a[j]);
    }
  }

  lemma EmptyRanking(a: seq<string>, values: map<string, real>)
    requires IsRanking(a, values)
    ensures a == [] <==> values == map[]
  {
    hide Before;
    if a != [] { assert a[0] in values; }
    if values != map[] {
      var k :| k in values;
      assert k in a;
    }
  }

  /** There is only one: whatever order the keys were inserted in, the ranking is the same. */
  lemma {:induction false} RankingUnique(a: seq<string>, b: seq<string>, values: map<string, real>)
    requires IsRanking(a, values) && IsRanking(b, values)
    ensures a == b
    decreases |a|
  {
    hide IsRanking;
    EmptyRanking(a, values);
    EmptyRanking(b, values);
    if a != [] {
      FirstUnique(a, b, values);
      TailRanking(a, values);
      TailRanking(b, values);
      RankingUnique(a[1..], b[1..], values - {a[0]});
      assert a == [a[0]] + a[1..] && b == [b[0]] + b[1..];
    }
  }

  lemma FirstUnique(a: seq<string>, b: seq<string>, values: map<string, real>)
    requires IsRanking(a, values) && IsRanking(b, values) && a != [] && b != []
    ensures a[0] == b[0]
  {
    hide StrLess;
    assert a[0] in b && b[0] in a;
    var i :| 0 <= i < |b| && b[i] == a[0];
    var j :| 0 <= j < |a| && a[j] == b[0];
    if i > 0 && j > 0 {
      assert Before(values, b[0], b[i]) && Before(values, a[0], a[j]);
      BeforeTotal(values, a[0], b[0]);
    }
  }

  lemma TailRanking(a: seq<string>, values: map<string, real>)
    requires IsRanking(a, values) && a != []
    ensures IsRanking(a[1..], values - {a[0]})
  {
    hide StrLess;
    RankingSplit(a, values);
    var rest := values - {a[0]};
    forall i, j | 0 <= i < j < |a[1..]| ensures Before(values, a[1..][i], a[1..][j]) {
      assert Before(values, a[i + 1], a[j + 1]);
    }
    forall k | k in rest ensures k in a[1..] {
      assert k in a;
      var i :| 0 <= i < |a| && a[i] == k;
      assert a[1..][i - 1] == k;
    }
  }
}
