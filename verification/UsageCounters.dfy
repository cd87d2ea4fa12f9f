/** Arithmetic on usage counters. */
module UsageCounters {
  import opened Schema

  const ZERO := Counters(0, 0, 0, 0)

  function Add(a: Counters, b: Counters): Counters {
    Counters(a.input + b.input, a.output + b.output, a.cache + b.cache, a.requests + b.requests)
  }

  lemma AddSwaps(a: Counters, b: Counters, c: Counters)
    ensures Add(a, Add(b, c)) == Add(b, Add(a, c))
  {
  }

  lemma AddIsSymmetric(a: Counters, b: Counters)
    ensures Add(a, b) == Add(b, a)
  {
  }

  lemma AddZero(a: Counters)
    ensures Add(a, ZERO) == a
  {
  }

  function Subtract(current: Counters, previous: Counters): Counters {
    Counters(current.input - previous.input, current.output - previous.output,
             current.cache - previous.cache, current.requests - previous.requests)
  }

  predicate NonNegative(c: Counters) {
    c.input >= 0 && c.output >= 0 && c.cache >= 0 && c.requests >= 0
  }

  predicate AtMost(a: Counters, b: Counters) {
    a.input <= b.input && a.output <= b.output && a.cache <= b.cache && a.requests <= b.requests
  }

  /** Some counter went down. */
  predicate RolledBack(previous: Counters, current: Counters) {
    current.input < previous.input || current.output < previous.output ||
    current.cache < previous.cache || current.requests < previous.requests
  }

  function Tokens(c: Counters): int {
    c.input + c.output + c.cache
  }

  /** The sum of some rows of a table. */
  ghost function Sum<K(!new)>(rows: map<K, Counters>, keys: set<K>): Counters
    requires keys <= rows.Keys
  {
    if keys == {} then ZERO else
      var k :| k in keys;
      Add(rows[k], Sum(rows, keys - {k}))
  }

  lemma {:induction false} SumTakesAny<K(!new)>(rows: map<K, Counters>, keys: set<K>, k: K)
    requires keys <= rows.Keys && k in keys
    ensures Sum(rows, keys) == Add(rows[k], Sum(rows, keys - {k}))
    decreases keys
  {
    var j :| j in keys && Sum(rows, keys) == Add(rows[j], Sum(rows, keys - {j}));
    if j == k {
      assert keys - {j} == keys - {k};
    } else {
      var rest := keys - {j} - {k};
      assert rest == keys - {k} - {j};
      SumTakesAny(rows, keys - {j}, k);
      SumTakesAny(rows, keys - {k}, j);
      assert Sum(rows, keys - {j}) == Add(rows[k], Sum(rows, rest));
      assert Sum(rows, keys - {k}) == Add(rows[j], Sum(rows, rest));
      AddSwaps(rows[j], rows[k], Sum(rows, rest));
    }
  }

  lemma {:induction false} SumsAgree<K(!new)>(rows: map<K, Counters>, others: map<K, Counters>, keys: set<K>)
    requires keys <= rows.Keys && keys <= others.Keys && forall k <- keys :: rows[k] == others[k]
    ensures Sum(rows, keys) == Sum(others, keys)
    decreases keys
  {
    if keys != {} {
      var k :| k in keys;
      SumTakesAny(rows, keys, k);
      SumTakesAny(others, keys, k);
      SumsAgree(rows, others, keys - {k});
    }
  }
}
