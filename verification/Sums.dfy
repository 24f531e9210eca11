/** Sums of a quantity over the rows of a table, and how a single row write moves them. */
module Sums {

  ghost function SumOver<K, V>(table: map<K, V>, quantity: V -> int): int
    decreases |table|
  {
    if table == map[] then 0
    else
      var k :| k in table;
      quantity(table[k]) + SumOver(table - {k}, quantity)
  }

  lemma {:induction false} SumRemove<K, V>(table: map<K, V>, quantity: V -> int, k: K)
    requires k in table
    ensures SumOver(table, quantity) == quantity(table[k]) + SumOver(table - {k}, quantity)
    decreases |table|
  {
    var j :| j in table && SumOver(table, quantity) == quantity(table[j]) + SumOver(table - {j}, quantity);
    if j != k {
      SumRemove(table - {j}, quantity, k);
      SumRemove(table - {k}, quantity, j);
      assert table - {j} - {k} == table - {k} - {j};
    }
  }

  /** Writing one row moves the sum by the difference between the new row and the old one. */
  lemma SumWrite<K, V>(table: map<K, V>, quantity: V -> int, k: K, v: V)
    ensures SumOver(table[k := v], quantity)
         == SumOver(table, quantity) + quantity(v) - (if k in table then quantity(table[k]) else 0)
  {
    var written := table[k := v];
    SumRemove(written, quantity, k);
    if k in table {
      SumRemove(table, quantity, k);
      assert written - {k} == table - {k};
    } else {
      assert written - {k} == table;
    }
  }

  /** The sum depends only on what each row contributes. */
  lemma {:induction false} SumCongruence<K, V>(a: map<K, V>, f: V -> int, b: map<K, V>, g: V -> int)
    requires a.Keys == b.Keys
    requires forall k :: k in a ==> f(a[k]) == g(b[k])
    ensures SumOver(a, f) == SumOver(b, g)
    decreases |a|
  {
    if a == map[] {
      assert b.Keys == {};
      assert b == map[];
    } else {
      var k :| k in a && SumOver(a, f) == f(a[k]) + SumOver(a - {k}, f);
      assert k in b;
      SumRemove(b, g, k);
      SumCongruence(a - {k}, f, b - {k}, g);
    }
  }

  lemma {:induction false} SumNonNegative<K, V>(table: map<K, V>, quantity: V -> int)
    requires forall k :: k in table ==> quantity(table[k]) >= 0
    ensures SumOver(table, quantity) >= 0
    decreases |table|
  {
    if table != map[] {
      var k :| k in table && SumOver(table, quantity) == quantity(table[k]) + SumOver(table - {k}, quantity);
      SumNonNegative(table - {k}, quantity);
    }
  }

  /** One row never contributes more than the whole of a nonnegative sum. */
  lemma SumBoundsRow<K, V>(table: map<K, V>, quantity: V -> int, k: K)
    requires k in table
    requires forall j :: j in table ==> quantity(table[j]) >= 0
    ensures quantity(table[k]) <= SumOver(table, quantity)
  {
    SumRemove(table, quantity, k);
    SumNonNegative(table - {k}, quantity);
  }

  lemma {:induction false} SumZero<K, V>(table: map<K, V>, quantity: V -> int)
    requires forall k :: k in table ==> quantity(table[k]) == 0
    ensures SumOver(table, quantity) == 0
    decreases |table|
  {
    if table != map[] {
      var k :| k in table && SumOver(table, quantity) == quantity(table[k]) + SumOver(table - {k}, quantity);
      SumZero(table - {k}, quantity);
    }
  }
}
