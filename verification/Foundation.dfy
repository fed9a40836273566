/** Shared vocabulary: bytes, options and sums over finite maps. */
module Foundation {

  newtype byte = x: int | 0 <= x < 256

  /** The content of an artifact. */
  type Bytes = seq<byte>

  datatype Option<+T> = None | Some(value: T)

  /** The sum of weight(m[k]) over the keys of a finite map. */
  ghost function Sum<K, V>(m: map<K, V>, weight: V -> int): int
    decreases m.Keys
  {
    if m.Keys == {} then
      0
    else
      var k :| k in m.Keys;
      weight(m[k]) + Sum(m - {k}, weight)
  }

  /** Any key can be taken out first. */
  lemma {:induction false} SumWithout<K, V>(m: map<K, V>, k: K, weight: V -> int)
    requires k in m
    ensures Sum(m, weight) == weight(m[k]) + Sum(m - {k}, weight)
    decreases m.Keys
  {
    var j :| j in m.Keys && Sum(m, weight) == weight(m[j]) + Sum(m - {j}, weight);
    if j != k {
      SumWithout(m - {j}, k, weight);
      SumWithout(m - {k}, j, weight);
      assert m - {j} - {k} == m - {k} - {j};
    }
  }

  /** Adding a key, or replacing the value of one, changes the sum by the difference of weights. */
  lemma SumUpdate<K, V>(m: map<K, V>, k: K, v: V, weight: V -> int)
    ensures Sum(m[k := v], weight) == Sum(m, weight) - (if k in m then weight(m[k]) else 0) + weight(v)
  {
    SumWithout(m[k := v], k, weight);
    if k in m {
      SumWithout(m, k, weight);
      assert m[k := v] - {k} == m - {k};
    } else {
      assert m[k := v] - {k} == m;
    }
  }

  lemma {:induction false} SumBound<K, V>(m: map<K, V>, weight: V -> int, c: nat, other: V -> int)
    requires forall k :: k in m ==> weight(m[k]) <= c * other(m[k])
    ensures Sum(m, weight) <= c * Sum(m, other)
    decreases m.Keys
  {
    if m.Keys != {} {
      var k :| k in m.Keys;
      SumWithout(m, k, weight);
      SumWithout(m, k, other);
      SumBound(m - {k}, weight, c, other);
      assert c * (other(m[k]) + Sum(m - {k}, other)) == c * other(m[k]) + c * Sum(m - {k}, other);
    }
  }

  lemma {:induction false} SumZero<K, V>(m: map<K, V>, weight: V -> int)
    requires forall k :: k in m ==> weight(m[k]) == 0
    ensures Sum(m, weight) == 0
    decreases m.Keys
  {
    if m.Keys != {} {
      var k :| k in m.Keys;
      SumWithout(m, k, weight);
      SumZero(m - {k}, weight);
    }
  }
}
