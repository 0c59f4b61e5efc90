/**
 * Counting with `collections.defaultdict(int)`: a map from keys to counts in
 * which a missing key reads as 0 and `counts[key] += 1` creates it.
 */
module Counting {

  /** The count of `k`, 0 when the key was never incremented. */
  function Lookup(m: map<string, nat>, k: string): nat {
    if k in m then m[k] else 0
  }

  /** `m[k] += 1`. */
  function Increment(m: map<string, nat>, k: string): map<string, nat> {
    m[k := Lookup(m, k) + 1]
  }

  /** Number of positions of `s` holding `x`. */
  function Occurrences<T(==)>(s: seq<T>, x: T): nat
    decreases |s|
  {
    if s == [] then 0
    else Occurrences(s[..|s| - 1], x) + (if s[|s| - 1] == x then 1 else 0)
  }

  /** The defaultdict after incrementing `keys` one after another, from empty. */
  function Histogram(keys: seq<string>): map<string, nat>
    decreases |keys|
  {
    if keys == [] then map[] else Increment(Histogram(keys[..|keys| - 1]), keys[|keys| - 1])
  }

  lemma HistogramAppend(keys: seq<string>, k: string)
    ensures Histogram(keys + [k]) == Increment(Histogram(keys), k)
  {
    assert (keys + [k])[..|keys|] == keys;
  }

  /** The histogram holds exactly the keys that occur, each with its number of
      occurrences. */
  lemma {:induction false} HistogramCounts(keys: seq<string>, k: string)
    ensures Lookup(Histogram(keys), k) == Occurrences(keys, k)
    ensures k in Histogram(keys) <==> k in keys
    decreases |keys|
  {
    if keys != [] {
      var init := keys[..|keys| - 1];
      HistogramCounts(init, k);
      assert keys == init + [keys[|keys| - 1]];
      assert k in keys <==> k in init || k == keys[|keys| - 1];
    }
  }

  /** The sum of all counts. */
  ghost function SumValues(m: map<string, nat>): nat
    decreases |m|
  {
    if m == map[] then 0
    else
      var k :| k in m;
      m[k] + SumValues(m - {k})
  }

  /** The sum does not depend on which key is taken out first. */
  lemma SumValuesRemove(m: map<string, nat>, k: string)
    requires k in m
    ensures SumValues(m) == m[k] + SumValues(m - {k})
    decreases |m|
  {
    var j :| j in m && SumValues(m) == m[j] + SumValues(m - {j});
    if j != k {
      var mj, mk := m - {j}, m - {k};
      SumValuesRemove(mj, k);
      SumValuesRemove(mk, j);
      assert mj - {k} == mk - {j};
    }
  }

  /** One increment adds one to the sum of the counts. */
  lemma SumValuesIncrement(m: map<string, nat>, k: string)
    ensures SumValues(Increment(m, k)) == SumValues(m) + 1
  {
    var m' := Increment(m, k);
    SumValuesRemove(m', k);
    if k in m {
      SumValuesRemove(m, k);
      assert m' - {k} == m - {k};
    } else {
      assert m' - {k} == m;
    }
  }

  /** The counts of a histogram add up to the number of keys counted. */
  lemma {:induction false} HistogramTotal(keys: seq<string>)
    ensures SumValues(Histogram(keys)) == |keys|
    decreases |keys|
  {
    if keys != [] {
      HistogramTotal(keys[..|keys| - 1]);
      SumValuesIncrement(Histogram(keys[..|keys| - 1]), keys[|keys| - 1]);
    }
  }
}
