/** Sums grouped by key, as a dictionary accumulates them. */
module Sums {
  import opened Sequences

  type Entry = (string, real)

  function Total(entries: seq<Entry>): real {
    if entries == [] then 0.0 else Total(entries[..|entries| - 1]) + entries[|entries| - 1].1
  }

  /** What the entries of one key add up to. */
  function KeySum(entries: seq<Entry>, key: string): real {
    if entries == [] then 0.0
    else
      var e := entries[|entries| - 1];
      KeySum(entries[..|entries| - 1], key) + if e.0 == key then e.1 else 0.0
  }

  function TotalBy(keys: seq<string>, entries: seq<Entry>): real {
    if keys == [] then 0.0
    else TotalBy(keys[..|keys| - 1], entries) + KeySum(entries, keys[|keys| - 1])
  }

  lemma {:induction false} TotalByStep(keys: seq<string>, entries: seq<Entry>, e: Entry)
    requires Distinct(keys)
    ensures TotalBy(keys, entries + [e]) == TotalBy(keys, entries) + if e.0 in keys then e.1 else 0.0
  {
    assert (entries + [e])[..|entries|] == entries;
    if keys != [] {
      var init, k := keys[..|keys| - 1], keys[|keys| - 1];
      TotalByStep(init, entries, e);
      assert k !in init;
      assert e.0 in keys <==> e.0 in init || e.0 == k;
    }
  }

  lemma {:induction false} TotalByNothing(keys: seq<string>)
    ensures TotalBy(keys, []) == 0.0
  {
    if keys != [] { TotalByNothing(keys[..|keys| - 1]); }
  }

  /** Conservation: grouping by distinct keys that cover all entries keeps the total. */
  lemma {:induction false} GroupSum(keys: seq<string>, entries: seq<Entry>)
    requires Distinct(keys) && forall i | 0 <= i < |entries| :: entries[i].0 in keys
    ensures TotalBy(keys, entries) == Total(entries)
  {
    if entries == [] {
      TotalByNothing(keys);
    } else {
      var init, e := entries[..|entries| - 1], entries[|entries| - 1];
      GroupSum(keys, init);
      TotalByStep(keys, init, e);
      assert entries == init + [e];
    }
  }

  lemma {:induction false} KeySumAppend(a: seq<Entry>, b: seq<Entry>, key: string)
    ensures KeySum(a + b, key) == KeySum(a, key) + KeySum(b, key)
  {
    if b == [] {
      assert a + b == a;
    } else {
      assert (a + b)[..|a + b| - 1] == a + b[..|b| - 1];
      KeySumAppend(a, b[..|b| - 1], key);
    }
  }

  lemma {:induction false} TotalAppend(a: seq<Entry>, b: seq<Entry>)
    ensures Total(a + b) == Total(a) + Total(b)
  {
    if b == [] {
      assert a + b == a;
    } else {
      assert (a + b)[..|a + b| - 1] == a + b[..|b| - 1];
      TotalAppend(a, b[..|b| - 1]);
    }
  }

  /** A dictionary that keeps the order in which its keys were inserted. */
  datatype Dict = Dict(keys: seq<string>, values: map<string, real>)

  ghost predicate HasEntry(entries: seq<Entry>, key: string) {
    exists i :: 0 <= i < |entries| && entries[i].0 == key
  }

  /** The dictionary holds, for exactly the keys that occur, the sum of their entries. */
  ghost predicate Accumulates(d: Dict, entries: seq<Entry>) {
    && Distinct(d.keys)
    && (forall k :: k in d.keys <==> k in d.values)
    && (forall k :: k in d.values <==> HasEntry(entries, k))
    && (forall k | k in d.values :: d.values[k] == KeySum(entries, k))
  }

  /** `scores[key] = scores.get(key, 0.0) + weight`. */
  function Add(d: Dict, key: string, weight: real): Dict {
    if key in d.values then d.(values := d.values[key := d.values[key] + weight])
    else Dict(d.keys + [key], d.values[key := 0.0 + weight])
  }

  lemma {:induction false} NoEntries(entries: seq<Entry>, key: string)
    requires forall i | 0 <= i < |entries| :: entries[i].0 != key
    ensures KeySum(entries, key) == 0.0
  {
    if entries != [] { NoEntries(entries[..|entries| - 1], key); }
  }

  lemma AddAccumulates(d: Dict, entries: seq<Entry>, key: string, weight: real)
    requires Accumulates(d, entries)
    ensures Accumulates(Add(d, key, weight), entries + [(key, weight)])
  {
    var next, all := Add(d, key, weight), entries + [(key, weight)];
    assert all[..|entries|] == entries;
    if key !in d.values {
      assert !HasEntry(entries, key);
      NoEntries(entries, key);
    }
    forall k ensures HasEntry(all, k) <==> k == key || HasEntry(entries, k) {
      assert all[|entries|].0 == key;
      assert forall i | 0 <= i < |entries| :: all[i] == entries[i];
      if HasEntry(all, k) && k != key {
        var i :| 0 <= i < |all| && all[i].0 == k;
        assert entries[i].0 == k;
      }
    }
  }
}
