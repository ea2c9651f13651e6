/** Weighted sums over a keyed table that remembers its insertion order. */
module Tables {

  ghost predicate Distinct<K>(keys: seq<K>) {
    forall i, j :: 0 <= i < j < |keys| ==> keys[i] != keys[j]
  }

  function Sum<K(==), V>(order: seq<K>, rows: map<K, V>, weight: V -> real): real {
    if order == [] then 0.0
    else
      var key := order[|order| - 1];
      Sum(order[..|order| - 1], rows, weight) + if key in rows then weight(rows[key]) else 0.0
  }

  lemma {:induction false} SumUntouched<K, V>(order: seq<K>, rows: map<K, V>, weight: V -> real, key: K, row: V)
    requires key !in order
    ensures Sum(order, rows[key := row], weight) == Sum(order, rows, weight)
  {
    if order != [] {
      SumUntouched(order[..|order| - 1], rows, weight, key, row);
    }
  }

  /** Replacing one row moves the sum by the difference of the two weights. */
  lemma {:induction false} SumReplace<K, V>(order: seq<K>, rows: map<K, V>, weight: V -> real, key: K, row: V)
    requires Distinct(order) && key in order && key in rows
    ensures Sum(order, rows[key := row], weight) == Sum(order, rows, weight) - weight(rows[key]) + weight(row)
  {
    var rest := order[..|order| - 1];
    if order[|order| - 1] == key {
      SumUntouched(rest, rows, weight, key, row);
    } else {
      SumReplace(rest, rows, weight, key, row);
    }
  }

  lemma SumAppend<K, V>(order: seq<K>, rows: map<K, V>, weight: V -> real, key: K, row: V)
    requires key !in order
    ensures Sum(order + [key], rows[key := row], weight) == Sum(order, rows, weight) + weight(row)
  {
    assert (order + [key])[..|order|] == order;
    SumUntouched(order, rows, weight, key, row);
  }

  lemma {:induction false} SumCongruent<K, V>(order: seq<K>, rows: map<K, V>, f: V -> real, g: V -> real)
    requires forall key :: key in order && key in rows ==> f(rows[key]) == g(rows[key])
    ensures Sum(order, rows, f) == Sum(order, rows, g)
  {
    if order != [] {
      SumCongruent(order[..|order| - 1], rows, f, g);
    }
  }

  lemma {:induction false} SumZero<K, V>(order: seq<K>, rows: map<K, V>, weight: V -> real)
    requires forall key :: key in order && key in rows ==> weight(rows[key]) == 0.0
    ensures Sum(order, rows, weight) == 0.0
  {
    if order != [] {
      SumZero(order[..|order| - 1], rows, weight);
    }
  }

  lemma {:induction false} SumNonNegative<K, V>(order: seq<K>, rows: map<K, V>, weight: V -> real)
    requires forall key :: key in order && key in rows ==> 0.0 <= weight(rows[key])
    ensures 0.0 <= Sum(order, rows, weight)
  {
    if order != [] {
      SumNonNegative(order[..|order| - 1], rows, weight);
    }
  }

  /** With non-negative weights every single row is bounded by the total. */
  lemma {:induction false} SumCoversRow<K, V>(order: seq<K>, rows: map<K, V>, weight: V -> real, key: K)
    requires forall k :: k in order && k in rows ==> 0.0 <= weight(rows[k])
    requires key in order && key in rows
    ensures weight(rows[key]) <= Sum(order, rows, weight)
  {
    var rest := order[..|order| - 1];
    if order[|order| - 1] == key {
      SumNonNegative(rest, rows, weight);
    } else {
      SumCoversRow(rest, rows, weight, key);
    }
  }

  // ---------- a sum split at some keys ----------

  /** The weights of the rows at these keys. */
  function ListSum<K(==), V>(rows: map<K, V>, keys: seq<K>, weight: V -> real): real {
    if keys == [] then 0.0
    else
      var last := keys[|keys| - 1];
      ListSum(rows, keys[..|keys| - 1], weight) + if last in rows then weight(rows[last]) else 0.0
  }

  function Without<K, V>(rows: map<K, V>, keys: seq<K>): map<K, V> {
    map key | key in rows && key !in keys :: rows[key]
  }

  lemma {:induction false} ListSumSame<K, V>(a: map<K, V>, b: map<K, V>, keys: seq<K>, f: V -> real, g: V -> real)
    requires forall key :: key in keys ==> key in a && key in b && f(a[key]) == g(b[key])
    ensures ListSum(a, keys, f) == ListSum(b, keys, g)
  {
    if keys != [] {
      ListSumSame(a, b, keys[..|keys| - 1], f, g);
    }
  }

  lemma {:induction false} ListSumZero<K, V>(rows: map<K, V>, keys: seq<K>, weight: V -> real)
    requires forall key :: key in keys && key in rows ==> weight(rows[key]) == 0.0
    ensures ListSum(rows, keys, weight) == 0.0
  {
    if keys != [] {
      ListSumZero(rows, keys[..|keys| - 1], weight);
    }
  }

  lemma {:induction false} SumLess<K, V>(order: seq<K>, rows: map<K, V>, weight: V -> real, key: K)
    requires Distinct(order) && key in order && key in rows
    ensures Sum(order, rows - {key}, weight) == Sum(order, rows, weight) - weight(rows[key])
  {
    var rest := order[..|order| - 1];
    if order[|order| - 1] == key {
      SumUntouched(rest, rows - {key}, weight, key, rows[key]);
      assert (rows - {key})[key := rows[key]] == rows;
    } else {
      SumLess(rest, rows, weight, key);
    }
  }

  lemma WithoutOneMore<K, V>(rows: map<K, V>, rest: seq<K>, key: K)
    ensures Without(rows, rest + [key]) == Without(rows, rest) - {key}
  {
  }

  lemma {:induction false} SumSplits<K, V>(order: seq<K>, rows: map<K, V>, keys: seq<K>, weight: V -> real)
    requires Distinct(order) && Distinct(keys) && forall key :: key in order <==> key in rows
    ensures Sum(order, rows, weight) == Sum(order, Without(rows, keys), weight) + ListSum(rows, keys, weight)
  {
    hide Sum;
    if keys == [] {
      assert Without(rows, keys) == rows;
    } else {
      var rest, last := keys[..|keys| - 1], keys[|keys| - 1];
      assert keys == rest + [last] && last !in rest;
      SumSplits(order, rows, rest, weight);
      WithoutOneMore(rows, rest, last);
      if last in rows {
        SumLess(order, Without(rows, rest), weight, last);
      } else {
        assert Without(rows, rest) - {last} == Without(rows, rest);
      }
    }
  }

  lemma {:induction false} WithoutWeighsLess<K, V>(order: seq<K>, rows: map<K, V>, keys: seq<K>, weight: V -> real)
    requires forall key :: key in order && key in rows ==> 0.0 <= weight(rows[key])
    ensures 0.0 <= Sum(order, Without(rows, keys), weight) <= Sum(order, rows, weight)
  {
    if order != [] {
      WithoutWeighsLess(order[..|order| - 1], rows, keys, weight);
    }
  }

  function Total(quantities: seq<real>): real {
    if quantities == [] then 0.0 else Total(quantities[..|quantities| - 1]) + quantities[|quantities| - 1]
  }

  /** All entries but one are as they were. */
  ghost predicate OnlyAt<K(!new), V>(before: map<K, V>, after: map<K, V>, key: K) {
    && key in after && after.Keys == before.Keys + {key}
    && forall k :: k in before && k != key ==> k in after && after[k] == before[k]
  }
}
