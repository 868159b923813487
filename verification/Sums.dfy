// Sums over finite sets.
module Sums {
  ghost function Sum<K>(keys: set<K>, f: K -> real): real {
    if keys == {} then 0.0 else var k :| k in keys; f(k) + Sum(keys - {k}, f)
  }

  lemma {:induction false} SumSplit<K>(keys: set<K>, f: K -> real, k: K)
    requires k in keys
    ensures Sum(keys, f) == f(k) + Sum(keys - {k}, f)
    decreases keys
  {
    var picked :| picked in keys && Sum(keys, f) == f(picked) + Sum(keys - {picked}, f);
    if picked != k {
      SumSplit(keys - {picked}, f, k);
      SumSplit(keys - {k}, f, picked);
      assert keys - {picked} - {k} == keys - {k} - {picked};
    }
  }

  lemma {:induction false} SumSame<K>(keys: set<K>, f: K -> real, g: K -> real)
    requires forall k <- keys :: f(k) == g(k)
    ensures Sum(keys, f) == Sum(keys, g)
    decreases keys
  {
    if k :| k in keys {
      SumSplit(keys, f, k);
      SumSplit(keys, g, k);
      SumSame(keys - {k}, f, g);
    }
  }

  lemma {:induction false} SumNonNegative<K>(keys: set<K>, f: K -> real)
    requires forall k <- keys :: f(k) >= 0.0
    ensures Sum(keys, f) >= 0.0
    decreases keys
  {
    if k :| k in keys {
      SumSplit(keys, f, k);
      SumNonNegative(keys - {k}, f);
    }
  }

  lemma {:induction false} SumZero<K>(keys: set<K>, f: K -> real)
    requires forall k <- keys :: f(k) == 0.0
    ensures Sum(keys, f) == 0.0
    decreases keys
  {
    if k :| k in keys {
      SumSplit(keys, f, k);
      SumZero(keys - {k}, f);
    }
  }
}
