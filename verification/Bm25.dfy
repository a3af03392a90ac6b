/** The BM25 score of one term in one chunk. */
module Bm25 {
  // ---------------------------------------------------------------------------------------------
  // The score of one term
  // ---------------------------------------------------------------------------------------------

  /** The natural logarithm; what a result needs of it is said there. */
  type Log = real -> real

  function InverseFrequency(df: nat, count: nat, ln: Log): real {
    ln(1.0 + (count as real - df as real + 0.5) / (df as real + 0.5))
  }

  function Denominator(tf: nat, length: nat, average: real): (d: real)
    requires average >= 0.0
    ensures d >= tf as real + 0.375
  {
    var mean := if average == 0.0 then 1.0 else average;
    assert 0.75 * length as real / mean >= 0.0;
    tf as real + 1.5 * (1.0 - 0.75 + 0.75 * length as real / mean)
  }

  /** `bm25_score` with the default `k1 = 1.5` and `b = 0.75`. */
  function Bm25Score(tf: nat, df: nat, length: nat, average: real, count: nat, ln: Log): real
    requires average >= 0.0
  {
    if tf == 0 || df == 0 || count == 0 then 0.0
    else InverseFrequency(df, count, ln) * (tf as real * 2.5) / Denominator(tf, length, average)
  }

  /** Zero at 1, and strictly increasing over the positive numbers. */
  ghost predicate IsLog(ln: Log) {
    ln(1.0) == 0.0 && forall x, y | 0.0 < x < y :: ln(x) < ln(y)
  }

  lemma Quotient(q: real, n: real, d: real)
    requires d > 0.0 && q * d == n
    ensures n / d == q
  {
  }

  lemma QuotientLess(a: real, b: real, c: real, d: real)
    requires b > 0.0 && d > 0.0 && a * d < c * b
    ensures a / b < c / d
  {
    var x, y := a / b, c / d;
    assert x * b == a && y * d == c;
    assert x * (b * d) == a * d && y * (b * d) == c * b;
    if x >= y {
      ScaleKeepsOrder(y, x, b * d);
    }
  }

  lemma ScaleKeepsOrder(x: real, y: real, k: real)
    requires x <= y && k >= 0.0
    ensures x * k <= y * k
  {
  }

  lemma ScaleKeepsStrictOrder(x: real, y: real, k: real)
    requires x < y && k > 0.0
    ensures x * k < y * k
  {
  }

  /** The argument of the logarithm is always positive, and above 1 exactly for a term that occurs in
      no more chunks than the corpus statistics count. */
  lemma LogArgument(df: nat, count: nat)
    ensures var x := 1.0 + (count as real - df as real + 0.5) / (df as real + 0.5);
      && x == (count as real + 1.0) / (df as real + 0.5)
      && x > 0.0 && (x > 1.0 <==> df <= count) && x != 1.0
  {
    var n, d := count as real - df as real + 0.5, df as real + 0.5;
    var q := n / d;
    assert (1.0 + q) * d == d + n;
    Quotient(1.0 + q, d + n, d);
    QuotientLess(0.0, 1.0, d + n, d);
    if df <= count { QuotientLess(1.0, 1.0, d + n, d); } else { QuotientLess(d + n, d, 1.0, 1.0); }
  }

  lemma FrequencySign(df: nat, count: nat, ln: Log)
    requires IsLog(ln)
    ensures InverseFrequency(df, count, ln) > 0.0 <==> df <= count
    ensures InverseFrequency(df, count, ln) < 0.0 <==> df > count
  {
    LogArgument(df, count);
    var x := 1.0 + (count as real - df as real + 0.5) / (df as real + 0.5);
    if x > 1.0 { assert ln(1.0) < ln(x); } else { assert ln(x) < ln(1.0); }
  }

  lemma ScoreSplit(tf: nat, df: nat, length: nat, average: real, count: nat, ln: Log)
    requires average >= 0.0 && tf > 0 && df > 0 && count > 0
    ensures Bm25Score(tf, df, length, average, count, ln)
         == InverseFrequency(df, count, ln) * (tf as real * 2.5 / Denominator(tf, length, average))
    ensures tf as real * 2.5 / Denominator(tf, length, average) > 0.0
  {
    hide InverseFrequency, Denominator;
    var w, n, d := InverseFrequency(df, count, ln), tf as real * 2.5, Denominator(tf, length, average);
    assert n / d * d == n;
    assert (w * (n / d)) * d == w * n;
    Quotient(w * (n / d), w * n, d);
    QuotientLess(0.0, 1.0, n, d);
  }

  /** A match counts in favour of a chunk exactly when the term occurs in no more chunks than the
      corpus statistics count; with statistics that lag behind the index it counts against it. */
  lemma MatchHelpsExactly(tf: nat, df: nat, length: nat, average: real, count: nat, ln: Log)
    requires average >= 0.0 && tf > 0 && df > 0 && count > 0 && IsLog(ln)
    ensures Bm25Score(tf, df, length, average, count, ln) > 0.0 <==> df <= count
    ensures Bm25Score(tf, df, length, average, count, ln) < 0.0 <==> df > count
  {
    hide InverseFrequency, Denominator, Bm25Score, IsLog;
    ScoreSplit(tf, df, length, average, count, ln);
    FrequencySign(df, count, ln);
    var w, x := InverseFrequency(df, count, ln), tf as real * 2.5 / Denominator(tf, length, average);
    if w > 0.0 { ScaleKeepsStrictOrder(0.0, w, x); } else { ScaleKeepsStrictOrder(w, 0.0, x); }
  }

  /** More occurrences in a chunk of the same length score higher. */
  lemma MoreOccurrencesScoreHigher(tf: nat, more: nat, df: nat, length: nat, average: real, count: nat, ln: Log)
    requires average >= 0.0 && 0 < tf < more && 0 < df <= count && IsLog(ln)
    ensures Bm25Score(tf, df, length, average, count, ln) < Bm25Score(more, df, length, average, count, ln)
  {
    hide InverseFrequency, Bm25Score, IsLog;
    ScoreSplit(tf, df, length, average, count, ln);
    ScoreSplit(more, df, length, average, count, ln);
    FrequencySign(df, count, ln);
    var k := Denominator(0, length, average);
    var a, b := tf as real, more as real;
    assert Denominator(tf, length, average) == a + k && Denominator(more, length, average) == b + k;
    ScaleKeepsStrictOrder(a, b, k);
    assert (a * 2.5) * (b + k) < (b * 2.5) * (a + k);
    QuotientLess(a * 2.5, a + k, b * 2.5, b + k);
    ScaleKeepsStrictOrder(a * 2.5 / (a + k), b * 2.5 / (b + k), InverseFrequency(df, count, ln));
  }

  /** The same occurrences in a longer chunk score lower. */
  lemma LongerChunksScoreLower(tf: nat, df: nat, length: nat, longer: nat, average: real, count: nat, ln: Log)
    requires average >= 0.0 && 0 < tf && length < longer && 0 < df <= count && IsLog(ln)
    ensures Bm25Score(tf, df, longer, average, count, ln) < Bm25Score(tf, df, length, average, count, ln)
  {
    hide InverseFrequency, Bm25Score, IsLog;
    ScoreSplit(tf, df, length, average, count, ln);
    ScoreSplit(tf, df, longer, average, count, ln);
    FrequencySign(df, count, ln);
    var mean := if average == 0.0 then 1.0 else average;
    var n, d, e := tf as real * 2.5, Denominator(tf, length, average), Denominator(tf, longer, average);
    QuotientLess(0.75 * length as real, mean, 0.75 * longer as real, mean) by {
      ScaleKeepsStrictOrder(0.75 * length as real, 0.75 * longer as real, mean);
    }
    ScaleKeepsStrictOrder(d, e, n);
    QuotientLess(n, e, n, d);
    ScaleKeepsStrictOrder(n / e, n / d, InverseFrequency(df, count, ln));
  }

  /** A rarer term scores higher. */
  lemma RarerTermsScoreHigher(tf: nat, df: nat, rarer: nat, length: nat, average: real, count: nat, ln: Log)
    requires average >= 0.0 && 0 < tf && 0 < rarer < df && count > 0 && IsLog(ln)
    ensures Bm25Score(tf, df, length, average, count, ln) < Bm25Score(tf, rarer, length, average, count, ln)
  {
    hide Denominator, Bm25Score;
    ScoreSplit(tf, df, length, average, count, ln);
    ScoreSplit(tf, rarer, length, average, count, ln);
    LogArgument(df, count);
    LogArgument(rarer, count);
    var n, d, e := count as real + 1.0, df as real + 0.5, rarer as real + 0.5;
    ScaleKeepsStrictOrder(e, d, n);
    QuotientLess(n, d, n, e);
    assert InverseFrequency(df, count, ln) < InverseFrequency(rarer, count, ln);
    ScaleKeepsStrictOrder(InverseFrequency(df, count, ln), InverseFrequency(rarer, count, ln),
                          tf as real * 2.5 / Denominator(tf, length, average));
  }

  // ---------------------------------------------------------------------------------------------
  // The average length
  // ---------------------------------------------------------------------------------------------

  /** The score without its denominator: one equation that determines it for every positive average. */
  lemma ScoreEquation(tf: nat, df: nat, length: nat, average: real, count: nat, ln: Log)
    requires average > 0.0 && tf > 0 && df > 0 && count > 0
    ensures Bm25Score(tf, df, length, average, count, ln)
            * (tf as real * average + 0.375 * average + 1.125 * length as real)
         == ln((count as real + 1.0) / (df as real + 0.5)) * tf as real * 2.5 * average
  {
    hide InverseFrequency, Denominator;
    FrequencyFormula(df, count, ln);
    DenominatorFormula(tf, length, average);
    var w, n, d := InverseFrequency(df, count, ln), tf as real * 2.5, Denominator(tf, length, average);
    var score := Bm25Score(tf, df, length, average, count, ln);
    assert score * d == w * n;
    assert d * average == tf as real * average + 0.375 * average + 1.125 * length as real;
    Regroup(score, d, average, w * n);
  }

  lemma Regroup(score: real, d: real, average: real, top: real)
    requires score * d == top
    ensures score * (d * average) == top * average
  {
  }

  lemma FrequencyFormula(df: nat, count: nat, ln: Log)
    ensures InverseFrequency(df, count, ln) == ln((count as real + 1.0) / (df as real + 0.5))
  {
    LogArgument(df, count);
  }

  lemma DenominatorFormula(tf: nat, length: nat, average: real)
    requires average > 0.0
    ensures Denominator(tf, length, average) * average
         == tf as real * average + 0.375 * average + 1.125 * length as real
  {
    var q := 0.75 * length as real / average;
    assert q * average == 0.75 * length as real;
    assert Denominator(tf, length, average) == tf as real + 1.5 * (0.25 + q);
    Spread(tf as real, q, average);
  }

  lemma Spread(tf: real, q: real, average: real)
    ensures (tf + 1.5 * (0.25 + q)) * average == tf * average + 0.375 * average + 1.5 * (q * average)
  {
  }

  lemma SameQuotient(x: real, y: real, d: real, top: real)
    requires d > 0.0 && x * d == top && y * d == top
    ensures x == y
  {
    Quotient(x, top, d);
    Quotient(y, top, d);
  }

  /** A chunk of average length has the factor `tf * 2.5 / (tf + 1.5)`. */
  lemma AtTheAverage(tf: nat, df: nat, length: nat, count: nat, ln: Log)
    requires length > 0 && tf > 0 && df > 0 && count > 0
    ensures Bm25Score(tf, df, length, length as real, count, ln)
         == ln((count as real + 1.0) / (df as real + 0.5)) * tf as real * 2.5 / (tf as real + 1.5)
  {
    hide Bm25Score;
    var a, score, w := length as real, Bm25Score(tf, df, length, length as real, count, ln),
                       ln((count as real + 1.0) / (df as real + 0.5));
    ScoreEquation(tf, df, length, a, count, ln);
    assert tf as real * a + 0.375 * a + 1.125 * a == (tf as real + 1.5) * a;
    CancelAverage(score, tf as real + 1.5, w * tf as real * 2.5, a);
  }

  lemma CancelAverage(score: real, d: real, top: real, a: real)
    requires a > 0.0 && d > 0.0 && score * (d * a) == top * a
    ensures score == top / d
  {
    assert (score * d) * a == top * a;
    SameQuotient(score * d, top, a, top * a);
    Quotient(score, top, d);
  }

  /** A chunk of no length would have the factor `tf * 2.5 / (tf + 0.375)`, at any average. */
  lemma AtNoLength(tf: nat, df: nat, average: real, count: nat, ln: Log)
    requires average > 0.0 && tf > 0 && df > 0 && count > 0
    ensures Bm25Score(tf, df, 0, average, count, ln)
         == ln((count as real + 1.0) / (df as real + 0.5)) * tf as real * 2.5 / (tf as real + 0.375)
  {
    hide Bm25Score;
    var score, w := Bm25Score(tf, df, 0, average, count, ln), ln((count as real + 1.0) / (df as real + 0.5));
    ScoreEquation(tf, df, 0, average, count, ln);
    assert tf as real * average + 0.375 * average + 0.0 == (tf as real + 0.375) * average;
    CancelAverage(score, tf as real + 0.375, w * tf as real * 2.5, average);
  }

  /** Only the ratio of length and average counts. */
  lemma OnlyTheRatioCounts(tf: nat, df: nat, length: nat, average: real, length': nat, average': real,
                           count: nat, ln: Log)
    requires average > 0.0 && average' > 0.0 && length as real * average' == length' as real * average
    ensures Bm25Score(tf, df, length, average, count, ln) == Bm25Score(tf, df, length', average', count, ln)
  {
    hide InverseFrequency, Denominator;
    if tf > 0 && df > 0 && count > 0 { RatioOfMatch(tf, df, length, average, length', average', count, ln); }
  }

  lemma RatioOfMatch(tf: nat, df: nat, length: nat, average: real, length': nat, average': real, count: nat, ln: Log)
    requires average > 0.0 && average' > 0.0 && length as real * average' == length' as real * average
    requires tf > 0 && df > 0 && count > 0
    ensures Bm25Score(tf, df, length, average, count, ln) == Bm25Score(tf, df, length', average', count, ln)
  {
    hide Bm25Score;
    var x, y := Bm25Score(tf, df, length, average, count, ln), Bm25Score(tf, df, length', average', count, ln);
    ScoreEquation(tf, df, length, average, count, ln);
    ScoreEquation(tf, df, length', average', count, ln);
    var top := ln((count as real + 1.0) / (df as real + 0.5)) * tf as real * 2.5;
    CrossScale(tf as real, length as real, average, length' as real, average');
    EqualScores(x, y, tf as real, length as real, average, length' as real, average', top);
  }

  lemma EqualScores(x: real, y: real, t: real, l: real, a: real, l': real, a': real, top: real)
    requires t > 0.0 && l >= 0.0 && a > 0.0 && a' > 0.0
    requires var d, d' := t * a + 0.375 * a + 1.125 * l, t * a' + 0.375 * a' + 1.125 * l';
      d * a' == d' * a && x * d == top * a && y * d' == top * a'
    ensures x == y
  {
    var d, d' := t * a + 0.375 * a + 1.125 * l, t * a' + 0.375 * a' + 1.125 * l';
    ScaleKeepsOrder(0.0, t, a);
    assert (x * d) * a' == (y * d') * a;
    Reorder(x, y, d, d', a, a');
  }

  lemma CrossScale(t: real, l: real, a: real, l': real, a': real)
    requires l * a' == l' * a
    ensures (t * a + 0.375 * a + 1.125 * l) * a' == (t * a' + 0.375 * a' + 1.125 * l') * a
  {
    assert (t * a + 0.375 * a + 1.125 * l) * a' == t * a * a' + 0.375 * a * a' + 1.125 * (l * a');
    assert (t * a' + 0.375 * a' + 1.125 * l') * a == t * a' * a + 0.375 * a' * a + 1.125 * (l' * a);
  }

  lemma Reorder(x: real, y: real, d: real, d': real, a: real, a': real)
    requires (x * d) * a' == (y * d') * a && d * a' == d' * a && d > 0.0 && a' > 0.0
    ensures x == y
  {
    assert x * (d * a') == y * (d * a');
    ScaleKeepsStrictOrder(0.0, d, a');
    SameQuotient(x, y, d * a', x * (d * a'));
  }

  /** The same match counts for more where chunks are longer on average. */
  lemma LongerAverageScoresHigher(tf: nat, df: nat, length: nat, average: real, longer: real, count: nat, ln: Log)
    requires 0.0 < average < longer && 0 < tf && 0 < length && 0 < df <= count && IsLog(ln)
    ensures Bm25Score(tf, df, length, average, count, ln) < Bm25Score(tf, df, length, longer, count, ln)
  {
    hide InverseFrequency, Bm25Score, IsLog;
    ScoreSplit(tf, df, length, average, count, ln);
    ScoreSplit(tf, df, length, longer, count, ln);
    FrequencySign(df, count, ln);
    var n, d, e := tf as real * 2.5, Denominator(tf, length, average), Denominator(tf, length, longer);
    ScaleKeepsStrictOrder(average, longer, 0.75 * length as real);
    QuotientLess(0.75 * length as real, longer, 0.75 * length as real, average);
    ScaleKeepsStrictOrder(e, d, n);
    QuotientLess(n, d, n, e);
    ScaleKeepsStrictOrder(n / d, n / e, InverseFrequency(df, count, ln));
  }

  /** An average of zero, which an empty index has, counts as one; and a term that does not occur, or
      statistics without chunks, score nothing. */
  lemma ScoreEdges(tf: nat, df: nat, length: nat, average: real, count: nat, ln: Log)
    requires average >= 0.0
    ensures Bm25Score(tf, df, length, 0.0, count, ln) == Bm25Score(tf, df, length, 1.0, count, ln)
    ensures tf == 0 || df == 0 || count == 0 ==> Bm25Score(tf, df, length, average, count, ln) == 0.0
  {
    hide InverseFrequency;
  }
}
