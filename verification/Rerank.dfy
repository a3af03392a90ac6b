/** Reordering the fused candidates by a list of identifiers that a language model returned. */
module Rerank {
  import opened Wrappers
  import opened Sequences
  import opened Numbers

  /** The text reranker's answer is untrusted: keep what names a candidate, up to the limit. */
  function Allowed(answer: seq<string>, candidates: seq<string>): seq<string> {
    if answer == [] then []
    else
      var init, id := answer[..|answer| - 1], answer[|answer| - 1];
      Allowed(init, candidates) + if id in candidates then [id] else []
  }

  function Cleaned(answer: seq<string>, candidates: seq<string>, limit: nat): seq<string> {
    var all := Allowed(answer, candidates);
    if |all| <= limit then all else all[..limit]
  }

  /** `{identifier: index for index, identifier in enumerate(ordered)}`: the last place wins. */
  function LastIndex(ordered: seq<string>, id: string): (i: nat)
    requires id in ordered
    ensures i < |ordered| && ordered[i] == id
    ensures forall j | i < j < |ordered| :: ordered[j] != id
  {
    if ordered[|ordered| - 1] == id then |ordered| - 1 else LastIndex(ordered[..|ordered| - 1], id)
  }

  /** The sort key: the place in the answer, or the number of different identifiers in it. */
  function Key(ordered: seq<string>, id: string): nat {
    if id in ordered then LastIndex(ordered, id) else |set x | x in ordered|
  }

  function InsertAfter(ordered: seq<string>, id: string, rows: seq<string>): seq<string> {
    if rows == [] || Key(ordered, id) < Key(ordered, rows[0]) then [id] + rows
    else [rows[0]] + InsertAfter(ordered, id, rows[1..])
  }

  /** `rows.sort(key=...)`, which is stable. */
  function StableSort(ordered: seq<string>, rows: seq<string>): seq<string> {
    if rows == [] then []
    else InsertAfter(ordered, rows[|rows| - 1], StableSort(ordered, rows[..|rows| - 1]))
  }

  /** The rows after the rerank step: a failed call leaves the fused order. */
  function Reranked(rows: seq<string>, answer: Result<seq<string>, string>, limit: nat): seq<string> {
    match answer
    case Failure(_) => rows
    case Success(ids) => StableSort(Cleaned(ids, rows, limit), rows)
  }

  // ---------------------------------------------------------------------------------------------
  // What a stable sort is
  // ---------------------------------------------------------------------------------------------

  ghost predicate KeySorted(ordered: seq<string>, rows: seq<string>) {
    forall i, j | 0 <= i < j < |rows| :: Key(ordered, rows[i]) <= Key(ordered, rows[j])
  }

  /** The rows of one key, in their order. */
  function WithKey(ordered: seq<string>, rows: seq<string>, key: int): seq<string> {
    if rows == [] then []
    else
      var rest := WithKey(ordered, rows[1..], key);
      if Key(ordered, rows[0]) == key then [rows[0]] + rest else rest
  }

  lemma {:induction false} WithKeyAppend(ordered: seq<string>, a: seq<string>, b: seq<string>, key: int)
    ensures WithKey(ordered, a + b, key) == WithKey(ordered, a, key) + WithKey(ordered, b, key)
  {
    hide Key;
    if a == [] {
      assert a + b == b;
    } else {
      assert (a + b)[1..] == a[1..] + b && (a + b)[0] == a[0];
      WithKeyAppend(ordered, a[1..], b, key);
    }
  }

  lemma {:induction false} WithKeyNone(ordered: seq<string>, rows: seq<string>, key: int)
    requires forall i | 0 <= i < |rows| :: Key(ordered, rows[i]) != key
    ensures WithKey(ordered, rows, key) == []
  {
    if rows != [] { WithKeyNone(ordered, rows[1..], key); }
  }

  lemma {:induction false} InsertWithKey(ordered: seq<string>, id: string, rows: seq<string>, key: int)
    requires KeySorted(ordered, rows)
    ensures WithKey(ordered, InsertAfter(ordered, id, rows), key)
         == WithKey(ordered, rows, key) + WithKey(ordered, [id], key)
  {
    hide Key;
    if rows == [] {
      assert [id] + [] == [id];
    } else if Key(ordered, id) < Key(ordered, rows[0]) {
      WithKeyAppend(ordered, [id], rows, key);
      if Key(ordered, id) == key {
        WithKeyNone(ordered, rows, key);
      } else {
        WithKeyNone(ordered, [id], key);
      }
    } else {
      InsertWithKey(ordered, id, rows[1..], key);
      WithKeyAppend(ordered, [rows[0]], InsertAfter(ordered, id, rows[1..]), key);
      WithKeyAppend(ordered, [rows[0]], rows[1..], key);
      assert rows == [rows[0]] + rows[1..];
    }
  }

  lemma {:induction false} InsertAfterSpec(ordered: seq<string>, id: string, rows: seq<string>)
    requires KeySorted(ordered, rows)
    ensures multiset(InsertAfter(ordered, id, rows)) == multiset(rows) + multiset{id}
    ensures KeySorted(ordered, InsertAfter(ordered, id, rows))
  {
    hide Key, KeySorted, InsertAfter;
    InsertAfterStep(ordered, id, rows);
    if rows == [] {
      PutFirst(ordered, id, rows);
    } else {
      AtLeastFirst(ordered, rows);
      if Key(ordered, id) < Key(ordered, rows[0]) {
        PutFirst(ordered, id, rows);
      } else {
        InsertAfterSpec(ordered, id, rows[1..]);
        assert rows == [rows[0]] + rows[1..];
        PutBehind(ordered, rows[0], rows[1..], id, InsertAfter(ordered, id, rows[1..]));
      }
    }
  }

  lemma InsertAfterStep(ordered: seq<string>, id: string, rows: seq<string>)
    ensures InsertAfter(ordered, id, rows)
         == if rows == [] || Key(ordered, id) < Key(ordered, rows[0]) then [id] + rows
            else [rows[0]] + InsertAfter(ordered, id, rows[1..])
  {
    hide Key;
  }

  /** Putting the old first row back in front of the rest with the new one. */
  lemma PutBehind(ordered: seq<string>, first: string, rows: seq<string>, id: string, rest: seq<string>)
    requires KeySorted(ordered, rest) && multiset(rest) == multiset(rows) + multiset{id}
    requires Key(ordered, first) <= Key(ordered, id)
    requires forall j | 0 <= j < |rows| :: Key(ordered, first) <= Key(ordered, rows[j])
    ensures KeySorted(ordered, [first] + rest)
    ensures multiset([first] + rest) == multiset([first] + rows) + multiset{id}
  {
    hide Key, KeySorted;
    forall j | 0 <= j < |rest| ensures Key(ordered, first) <= Key(ordered, rest[j]) {
      assert rest[j] in multiset(rest);
      assert rest[j] == id || rest[j] in rows;
    }
    PutFirst(ordered, first, rest);
  }

  lemma PutFirst(ordered: seq<string>, id: string, rows: seq<string>)
    requires KeySorted(ordered, rows) && forall j | 0 <= j < |rows| :: Key(ordered, id) <= Key(ordered, rows[j])
    ensures KeySorted(ordered, [id] + rows)
  {
    hide Key;
  }

  lemma AtLeastFirst(ordered: seq<string>, rows: seq<string>)
    requires KeySorted(ordered, rows) && rows != []
    ensures KeySorted(ordered, rows[1..])
    ensures forall j | 0 <= j < |rows| :: Key(ordered, rows[0]) <= Key(ordered, rows[j])
  {
    hide Key;
  }

  /** The reranker cannot add or lose evidence: whatever the model answers, the rows are a
      permutation of the candidates, sorted by key, and rows of one key keep their fused order. */
  lemma {:induction false} SortSpec(ordered: seq<string>, rows: seq<string>)
    ensures var r := StableSort(ordered, rows);
      && multiset(r) == multiset(rows)
      && KeySorted(ordered, r)
      && forall key :: WithKey(ordered, r, key) == WithKey(ordered, rows, key)
  {
    hide Key, WithKey, KeySorted;
    if rows != [] {
      var init, id := rows[..|rows| - 1], rows[|rows| - 1];
      SortSpec(ordered, init);
      InsertAfterSpec(ordered, id, StableSort(ordered, init));
      assert rows == init + [id];
      forall key ensures WithKey(ordered, StableSort(ordered, rows), key) == WithKey(ordered, rows, key) {
        InsertWithKey(ordered, id, StableSort(ordered, init), key);
        WithKeyAppend(ordered, init, [id], key);
      }
    } else {
      assert KeySorted(ordered, rows) by { NothingToSort(ordered); }
    }
  }

  lemma NothingToSort(ordered: seq<string>)
    ensures KeySorted(ordered, [])
  {
  }

  lemma RerankPermutes(rows: seq<string>, answer: Result<seq<string>, string>, limit: nat)
    ensures multiset(Reranked(rows, answer, limit)) == multiset(rows)
  {
    if answer.Success? { SortSpec(Cleaned(answer.value, rows, limit), rows); }
  }

  lemma {:induction false} FirstOfKey(ordered: seq<string>, rows: seq<string>, i: nat)
    requires i < |rows|
    ensures rows[i] in WithKey(ordered, rows, Key(ordered, rows[i]))
  {
    hide Key;
    if i > 0 { FirstOfKey(ordered, rows[1..], i - 1); }
  }

  lemma {:induction false} WithKeyMember(ordered: seq<string>, rows: seq<string>, key: int, id: string)
    requires id in WithKey(ordered, rows, key)
    ensures id in rows && Key(ordered, id) == key
  {
    hide Key;
    if rows != [] && !(id == rows[0] && Key(ordered, id) == key) {
      WithKeyMember(ordered, rows[1..], key, id);
    }
  }

  lemma HeadKey(ordered: seq<string>, a: seq<string>, b: seq<string>)
    requires KeySorted(ordered, a) && a != [] && b != []
    requires forall key :: WithKey(ordered, a, key) == WithKey(ordered, b, key)
    ensures Key(ordered, a[0]) <= Key(ordered, b[0])
  {
    hide Key;
    FirstOfKey(ordered, b, 0);
    WithKeyMember(ordered, a, Key(ordered, b[0]), b[0]);
    var i :| 0 <= i < |a| && a[i] == b[0];
  }

  lemma SameEmpty(ordered: seq<string>, a: seq<string>, b: seq<string>)
    requires forall key :: WithKey(ordered, a, key) == WithKey(ordered, b, key)
    ensures a == [] <==> b == []
  {
    hide Key;
    if a != [] { FirstOfKey(ordered, a, 0); }
    if b != [] { FirstOfKey(ordered, b, 0); }
  }

  /** Those three facts determine the result. */
  lemma {:induction false} StableUnique(ordered: seq<string>, a: seq<string>, b: seq<string>)
    requires KeySorted(ordered, a) && KeySorted(ordered, b)
    requires forall key :: WithKey(ordered, a, key) == WithKey(ordered, b, key)
    ensures a == b
  {
    hide Key;
    SameEmpty(ordered, a, b);
    if a != [] {
      HeadKey(ordered, a, b);
      HeadKey(ordered, b, a);
      var key := Key(ordered, a[0]);
      assert WithKey(ordered, a, key)[0] == a[0] && WithKey(ordered, b, key)[0] == b[0];
      forall q ensures WithKey(ordered, a[1..], q) == WithKey(ordered, b[1..], q) {
        var front := if q == key then [a[0]] else [];
        assert WithKey(ordered, a, q) == front + WithKey(ordered, a[1..], q);
        assert WithKey(ordered, b, q) == front + WithKey(ordered, b[1..], q);
        assert WithKey(ordered, a[1..], q) == WithKey(ordered, a, q)[|front|..];
        assert WithKey(ordered, b[1..], q) == WithKey(ordered, b, q)[|front|..];
      }
      StableUnique(ordered, a[1..], b[1..]);
      assert a == [a[0]] + a[1..] && b == [b[0]] + b[1..];
    }
  }

  // ---------------------------------------------------------------------------------------------
  // An answer without repeats is followed
  // ---------------------------------------------------------------------------------------------

  function NotIn(rows: seq<string>, ordered: seq<string>): seq<string> {
    if rows == [] then []
    else (if rows[0] in ordered then [] else [rows[0]]) + NotIn(rows[1..], ordered)
  }

  lemma {:induction false} NotInIsKept(rows: seq<string>, ordered: seq<string>, keep: set<string>)
    requires forall i | 0 <= i < |rows| :: rows[i] in keep <==> rows[i] !in ordered
    ensures NotIn(rows, ordered) == Kept(rows, keep)
  {
    if rows != [] { NotInIsKept(rows[1..], ordered, keep); }
  }

  lemma {:induction false} AllowedIsKept(answer: seq<string>, candidates: seq<string>)
    ensures Allowed(answer, candidates) == Kept(answer, set x | x in candidates)
  {
    if answer != [] {
      var init, id := answer[..|answer| - 1], answer[|answer| - 1];
      AllowedIsKept(init, candidates);
      assert answer == init + [id];
      KeptSplit(init, [id], set x | x in candidates);
      assert Kept([id], set x | x in candidates) == if id in candidates then [id] else [];
    }
  }

  lemma {:induction false} AllowedPrefix(answer: seq<string>, candidates: seq<string>, n: nat)
    requires n <= |answer|
    ensures Allowed(answer[..n], candidates) <= Allowed(answer, candidates)
  {
    if n == |answer| {
      assert answer[..n] == answer;
    } else {
      AllowedPrefix(answer[..|answer| - 1], candidates, n);
      assert answer[..|answer| - 1][..n] == answer[..n];
    }
  }

  /** The first `limit` names of candidates in an answer, in its order; all of them if there are fewer. */
  ghost predicate FirstNames(named: seq<string>, answer: seq<string>, candidates: seq<string>, limit: nat) {
    exists n :: 0 <= n <= |answer|
      && named == Kept(answer[..n], set x | x in candidates)
      && (|named| == limit || (n == |answer| && |named| < limit))
  }

  lemma CleanedIsFirst(named: seq<string>, answer: seq<string>, candidates: seq<string>, limit: nat)
    requires FirstNames(named, answer, candidates, limit)
    ensures Cleaned(answer, candidates, limit) == named
  {
    hide Kept, Allowed;
    var n :| 0 <= n <= |answer| && named == Kept(answer[..n], set x | x in candidates)
      && (|named| == limit || (n == |answer| && |named| < limit));
    AllowedIsKept(answer[..n], candidates);
    AllowedPrefix(answer, candidates, n);
    if n == |answer| { assert answer[..n] == answer; }
  }

  /** An answer of candidates that is short enough is its own first names. */
  lemma PlainAnswer(answer: seq<string>, candidates: seq<string>, limit: nat)
    requires |answer| <= limit && forall i | 0 <= i < |answer| :: answer[i] in candidates
    ensures FirstNames(answer, answer, candidates, limit)
  {
    hide Kept;
    KeptWhole(answer, set x | x in candidates);
    assert answer[..|answer|] == answer;
  }

  lemma DistinctKeys(ordered: seq<string>)
    requires Distinct(ordered)
    ensures forall i | 0 <= i < |ordered| :: Key(ordered, ordered[i]) == i
    ensures forall id | id !in ordered :: Key(ordered, id) == |ordered|
  {
    ElementsCard(ordered);
    forall i | 0 <= i < |ordered| ensures Key(ordered, ordered[i]) == i {
      assert ordered[i] in ordered;
    }
  }

  lemma {:induction false} NotInSpec(rows: seq<string>, ordered: seq<string>)
    ensures forall i | 0 <= i < |NotIn(rows, ordered)| :: NotIn(rows, ordered)[i] !in ordered
  {
    if rows != [] { NotInSpec(rows[1..], ordered); }
  }

  lemma {:induction false} UnlistedKey(ordered: seq<string>, rows: seq<string>)
    requires Distinct(ordered)
    ensures WithKey(ordered, rows, |ordered|) == NotIn(rows, ordered)
    ensures WithKey(ordered, NotIn(rows, ordered), |ordered|) == NotIn(rows, ordered)
  {
    hide Key;
    DistinctKeys(ordered);
    if rows != [] {
      UnlistedKey(ordered, rows[1..]);
      if rows[0] in ordered {
        assert Key(ordered, rows[0]) < |ordered|;
        assert NotIn(rows, ordered) == NotIn(rows[1..], ordered);
      } else {
        assert NotIn(rows, ordered)[1..] == NotIn(rows[1..], ordered);
      }
    }
  }

  /** A key of a listed identifier picks that identifier, once, from any list without repeats. */
  lemma {:induction false} ListedKey(ordered: seq<string>, rows: seq<string>, i: nat)
    requires Distinct(ordered) && Distinct(rows) && i < |ordered|
    ensures WithKey(ordered, rows, i) == if ordered[i] in rows then [ordered[i]] else []
  {
    hide Key;
    DistinctKeys(ordered);
    if rows != [] {
      ListedKey(ordered, rows[1..], i);
      assert rows[0] !in rows[1..];
      assert rows == [rows[0]] + rows[1..];
      assert Key(ordered, rows[0]) == i ==> rows[0] == ordered[i];
    }
  }

  /** The model's order is followed: when its answer holds candidates without repeats, they come
      first, in its order, and all other rows follow in their fused order. */
  lemma RerankFollowsAnswer(ordered: seq<string>, rows: seq<string>)
    requires Distinct(ordered) && Candidates(ordered, rows)
    ensures StableSort(ordered, rows) == ordered + NotIn(rows, ordered)
  {
    hide Key, StableSort, WithKey, NotIn;
    var goal, rest := ordered + NotIn(rows, ordered), NotIn(rows, ordered);
    SortSpec(ordered, rows);
    DistinctKeys(ordered);
    NotInSpec(rows, ordered);
    forall i, j | 0 <= i < j < |goal| ensures Key(ordered, goal[i]) <= Key(ordered, goal[j]) {
      assert i < |ordered| ==> goal[i] == ordered[i];
      assert j < |ordered| ==> goal[j] == ordered[j];
      assert i >= |ordered| ==> goal[i] == rest[i - |ordered|];
      assert j >= |ordered| ==> goal[j] == rest[j - |ordered|];
    }
    forall key ensures WithKey(ordered, goal, key) == WithKey(ordered, rows, key) {
      WithKeyAppend(ordered, ordered, rest, key);
      if 0 <= key < |ordered| {
        ListedKey(ordered, ordered, key);
        ListedKey(ordered, rows, key);
        WithKeyNone(ordered, rest, key);
      } else {
        WithKeyNone(ordered, ordered, key);
        if key == |ordered| {
          UnlistedKey(ordered, rows);
        } else {
          WithKeyNone(ordered, rest, key);
          RowKeys(ordered, rows);
          WithKeyNone(ordered, rows, key);
        }
      }
    }
    StableUnique(ordered, StableSort(ordered, rows), goal);
  }

  /** The rerank step for any answer, with repeats or without: the rows stay a permutation, sorted stably
      by the last place that the first names of the answer give them, and by the number of different
      names if they are not named. */
  lemma RerankSorts(rows: seq<string>, answer: seq<string>, limit: nat, named: seq<string>)
    requires FirstNames(named, answer, rows, limit)
    ensures var r := Reranked(rows, Success(answer), limit);
      && multiset(r) == multiset(rows) && KeySorted(named, r)
      && forall key :: WithKey(named, r, key) == WithKey(named, rows, key)
    ensures forall id | id in named ::
      var k := Key(named, id);
      k < |named| && named[k] == id && id !in named[k + 1..]
    ensures forall id | id !in named :: Key(named, id) == |set x | x in named|
  {
    hide Key, KeySorted, WithKey, FirstNames;
    CleanedIsFirst(named, answer, rows, limit);
    SortSpec(named, rows);
    forall id | id in named
      ensures Key(named, id) < |named| && named[Key(named, id)] == id && id !in named[Key(named, id) + 1..]
    {
      LastPlace(named, id);
    }
    forall id | id !in named ensures Key(named, id) == |set x | x in named| { Unnamed(named, id); }
  }

  lemma LastPlace(named: seq<string>, id: string)
    requires id in named
    ensures Key(named, id) < |named| && named[Key(named, id)] == id && id !in named[Key(named, id) + 1..]
  {
  }

  lemma Unnamed(named: seq<string>, id: string)
    requires id !in named
    ensures Key(named, id) == |set x | x in named|
  {
  }

  lemma RowKeys(ordered: seq<string>, rows: seq<string>)
    requires Distinct(ordered)
    ensures forall i | 0 <= i < |rows| :: Key(ordered, rows[i]) <= |ordered|
  {
    DistinctKeys(ordered);
  }

  /** Every named row stands before every row that the answer does not name. */
  ghost predicate NamedFirst(ordered: seq<string>, rows: seq<string>) {
    forall i, j | 0 <= i < j < |rows| && rows[j] in ordered :: rows[i] in ordered
  }

  lemma {:induction false} SomeOther(ordered: seq<string>, n: nat) returns (id: string)
    ensures |id| >= n && id !in ordered
  {
    if ordered == [] {
      id := seq(n, _ => 'a');
    } else {
      var last := ordered[|ordered| - 1];
      id := SomeOther(ordered[..|ordered| - 1], Max(n, |last| + 1));
      assert ordered == ordered[..|ordered| - 1] + [last];
    }
  }

  function Once(s: seq<string>): (r: seq<string>)
    ensures forall x :: x in r <==> x in s
    ensures |set x | x in r| == |r|
  {
    if s == [] then
      assert (set x: string | x in []) == {};
      []
    else
      var init, last := Once(s[..|s| - 1]), s[|s| - 1];
      assert s == s[..|s| - 1] + [last];
      if last in init then init
      else
        assert (set x | x in init + [last]) == (set x | x in init) + {last};
        init + [last]
  }

  lemma {:induction false} HeadOfKey(ordered: seq<string>, rows: seq<string>, j: nat)
    requires j < |rows|
    ensures var mine := WithKey(ordered, rows, Key(ordered, rows[j]));
      mine != [] && exists p :: 0 <= p <= j && rows[p] == mine[0]
  {
    hide Key;
    var key := Key(ordered, rows[j]);
    if Key(ordered, rows[0]) == key {
      assert WithKey(ordered, rows, key)[0] == rows[0];
    } else {
      HeadOfKey(ordered, rows[1..], j - 1);
      var p :| 0 <= p <= j - 1 && rows[1..][p] == WithKey(ordered, rows[1..], key)[0];
      assert rows[p + 1] == WithKey(ordered, rows, key)[0];
    }
  }

  /** The sort is stable: no row of the first row's key gets in front of it. */
  lemma FirstOfItsKey(ordered: seq<string>, rows: seq<string>, r: seq<string>, i: nat, j: nat)
    requires rows != [] && Distinct(r) && i < |r| && j < |r|
    requires r[i] == rows[0] && Key(ordered, r[j]) == Key(ordered, rows[0])
    requires var key := Key(ordered, rows[0]); WithKey(ordered, r, key) == WithKey(ordered, rows, key)
    ensures i <= j
  {
    hide Key;
    HeadOfKey(ordered, r, j);
  }

  /** A repeated name in the answer: the last name of the answer falls behind a row that is not
      named and stood first in the fused order. */
  lemma RepeatFallsBehind(ordered: seq<string>, other: string)
    requires !Distinct(ordered) && other !in ordered
    ensures Distinct([other] + Once(ordered))
    ensures !NamedFirst(ordered, StableSort(ordered, [other] + Once(ordered)))
  {
    hide WithKey, StableSort, Once;
    var rows, last := [other] + Once(ordered), ordered[|ordered| - 1];
    ElementsCard(ordered);
    ElementsCard(Once(ordered));
    SortSpec(ordered, rows);
    var r := StableSort(ordered, rows);
    PermutationDistinct(r, rows);
    assert Key(ordered, last) == |ordered| - 1 >= Key(ordered, other);
    PermutationMember(r, rows, other);
    PermutationMember(r, rows, last);
    var i :| 0 <= i < |r| && r[i] == other;
    var j :| 0 <= j < |r| && r[j] == last;
    if Key(ordered, last) == Key(ordered, other) { FirstOfItsKey(ordered, rows, r, i, j); }
    assert i < j;
  }

  /** Exactly when that works for all candidate lists: the answer names nothing twice.  A repeated
      name raises the last places to the key of the rows that are not named, or above it. */
  lemma NamedFirstExactlyWithoutRepeats(ordered: seq<string>)
    ensures (forall rows :: Candidates(ordered, rows) ==> NamedFirst(ordered, StableSort(ordered, rows)))
       <==> Distinct(ordered)
  {
    if Distinct(ordered) {
      forall rows | Candidates(ordered, rows) ensures NamedFirst(ordered, StableSort(ordered, rows)) {
        SortSpec(ordered, rows);
        DistinctKeys(ordered);
        var r := StableSort(ordered, rows);
        forall i, j | 0 <= i < j < |r| && r[j] in ordered ensures r[i] in ordered {
          assert Key(ordered, r[i]) <= Key(ordered, r[j]) < |ordered|;
        }
      }
    } else {
      var other := SomeOther(ordered, 0);
      RepeatFallsBehind(ordered, other);
      assert Candidates(ordered, [other] + Once(ordered));
    }
  }

  /** The candidate rows are distinct, and a cleaned answer names candidates only. */
  ghost predicate Candidates(ordered: seq<string>, rows: seq<string>) {
    Distinct(rows) && forall i | 0 <= i < |ordered| :: ordered[i] in rows
  }

  /** What the text reranker hands on is made of candidates only, no more than the limit. */
  lemma {:induction false} AllowedSpec(answer: seq<string>, candidates: seq<string>, limit: nat)
    ensures forall i | 0 <= i < |Allowed(answer, candidates)| :: Allowed(answer, candidates)[i] in candidates
    ensures var cleaned := Cleaned(answer, candidates, limit);
      forall i | 0 <= i < |cleaned| :: cleaned[i] in candidates
    ensures |Cleaned(answer, candidates, limit)| <= limit
  {
    if answer != [] { AllowedSpec(answer[..|answer| - 1], candidates, limit); }
  }
}
