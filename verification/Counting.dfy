/** Counting the entries of a finite map that satisfy a predicate, one update at a time. */
module Counting {

  ghost function Having<K, V>(m: map<K, V>, p: V -> bool): set<K> {
    set k | k in m && p(m[k])
  }

  ghost function Count<K, V>(m: map<K, V>, p: V -> bool): nat {
    |Having(m, p)|
  }

  lemma CountUpdate<K, V>(m: map<K, V>, k: K, v: V, p: V -> bool)
    ensures Count(m[k := v], p)
         == Count(m, p) - (if k in m && p(m[k]) then 1 else 0) + (if p(v) then 1 else 0)
  {
    var others := Having(m, p) - {k};
    OneMore(others, k, Having(m, p), k in m && p(m[k]));
    OneMore(others, k, Having(m[k := v], p), p(v));
  }

  lemma OneMore<K>(others: set<K>, k: K, whole: set<K>, present: bool)
    requires k !in others
    requires whole == if present then others + {k} else others
    ensures |whole| == |others| + (if present then 1 else 0)
  {
  }

  lemma CountMember<K, V>(m: map<K, V>, k: K, p: V -> bool)
    requires k in m && p(m[k])
    ensures Count(m, p) >= 1
  {
    assert k in Having(m, p);
  }

  /** Two different entries are counted twice. */
  lemma CountTwo<K, V>(m: map<K, V>, j: K, k: K, p: V -> bool)
    requires j in m && k in m && j != k && p(m[j]) && p(m[k])
    ensures Count(m, p) >= 2
  {
    assert {j, k} <= Having(m, p);
    assert |Having(m, p) - {j, k}| == |Having(m, p)| - 2;
  }
}
