/** Option and Result, shared by the other modules. */
module Wrappers {
  datatype Option<+T> = None | Some(value: T)

  datatype Result<+T, +E> = Success(value: T) | Failure(error: E)
}

module Numbers {
  function Min(a: int, b: int): (m: int)
    ensures m <= a && m <= b && (m == a || m == b)
  {
    if a < b then a else b
  }

  function Max(a: int, b: int): (m: int)
    ensures a <= m && b <= m && (m == a || m == b)
  {
    if a < b then b else a
  }
}

/** Facts about sequences and sets that several modules need. */
module Sequences {
  ghost predicate Distinct<T>(s: seq<T>) { forall i, j | 0 <= i < j < |s| :: s[i] != s[j] }

  function Concat(pieces: seq<string>): string {
    if pieces == [] then "" else Concat(pieces[..|pieces| - 1]) + pieces[|pieces| - 1]
  }

  lemma ConcatStep(pieces: seq<string>, i: nat)
    requires i < |pieces|
    ensures Concat(pieces[..i + 1]) == Concat(pieces[..i]) + pieces[i]
  {
    assert pieces[..i + 1][..i] == pieces[..i];
  }

  lemma {:induction false} ElementsCard(s: seq<string>)
    ensures |(set x | x in s)| <= |s|
    ensures |(set x | x in s)| == |s| <==> Distinct(s)
  {
    if s == [] {
      assert (set x | x in s) == {};
    } else {
      var init, last := s[..|s| - 1], s[|s| - 1];
      ElementsCard(init);
      assert (set x | x in s) == (set x | x in init) + {last};
      if Distinct(s) {
        assert last !in init;
      } else if last in init {
        assert (set x | x in s) == (set x | x in init);
      }
    }
  }

  /** The elements of a set, in the order in which the sequence has them. */
  function Kept(s: seq<string>, keep: set<string>): seq<string> {
    if s == [] then []
    else
      var rest := Kept(s[1..], keep);
      if s[0] in keep then [s[0]] + rest else rest
  }

  lemma {:induction false} KeptSplit(a: seq<string>, b: seq<string>, keep: set<string>)
    ensures Kept(a + b, keep) == Kept(a, keep) + Kept(b, keep)
  {
    if a == [] {
      assert a + b == b;
    } else {
      assert (a + b)[0] == a[0] && (a + b)[1..] == a[1..] + b;
      KeptSplit(a[1..], b, keep);
    }
  }

  /** Everything is kept of what lies in the set, and nothing of what lies outside; with KeptSplit this
      determines what is kept of any sequence. */
  lemma {:induction false} KeptWhole(s: seq<string>, keep: set<string>)
    ensures (forall i | 0 <= i < |s| :: s[i] in keep) ==> Kept(s, keep) == s
    ensures (forall i | 0 <= i < |s| :: s[i] !in keep) ==> Kept(s, keep) == []
  {
    if s != [] { KeptWhole(s[1..], keep); }
  }

  lemma PermutationMember<T>(a: seq<T>, b: seq<T>, x: T)
    requires multiset(a) == multiset(b)
    ensures x in a <==> x in b
  {
    assert x in a <==> x in multiset(a);
    assert x in b <==> x in multiset(b);
  }

  lemma PermutationDistinct(a: seq<string>, b: seq<string>)
    requires multiset(a) == multiset(b) && Distinct(b)
    ensures Distinct(a)
  {
    ElementsCard(a);
    ElementsCard(b);
    assert forall x :: x in a <==> x in multiset(a);
    assert forall x :: x in b <==> x in multiset(b);
    assert (set x | x in a) == (set x | x in b);
    assert |a| == |multiset(a)| == |b|;
  }

  lemma SubsetCard<T>(a: set<T>, b: set<T>)
    requires a <= b
    ensures |a| <= |b|
  {
    assert b == a + (b - a);
  }
}
