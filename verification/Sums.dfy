/** Sums down the columns of a table, whatever the order of its rows. */
module Sums {
  type Row = map<nat, real>
  type Table = map<nat, Row>

  function At(row: Row, c: nat): real { if c in row then row[c] else 0.0 }

  function Amount(table: Table, r: nat, c: nat): real { if r in table then At(table[r], c) else 0.0 }

  lemma {:induction false} HasLast(s: set<nat>)
    requires s != {}
    ensures exists x :: x in s && forall y :: y in s ==> y <= x
  {
    var x :| x in s;
    var rest := s - {x};
    var top := x;
    if rest != {} {
      HasLast(rest);
      var m :| m in rest && forall y :: y in rest ==> y <= m;
      top := if m < x then x else m;
    }
    assert forall y :: y in s ==> y == x || y in rest;
    assert top in s && forall y :: y in s ==> y <= top;
  }

  lemma {:induction false} HasFirst(s: set<nat>, x: nat)
    requires x in s
    ensures exists low :: low in s && forall y :: y in s ==> low <= y
  {
    if y :| y in s && y < x {
      HasFirst(s, y);
    }
  }

  method First(s: set<nat>) returns (x: nat)
    requires s != {}
    ensures x in s && forall y :: y in s ==> x <= y
  {
    ghost var some :| some in s;
    HasFirst(s, some);
    x :| x in s && forall y :: y in s ==> x <= y;
  }

  ghost function Last(s: set<nat>): (x: nat)
    requires s != {}
    ensures x in s && forall y :: y in s ==> y <= x
  {
    HasLast(s);
    var x :| x in s && forall y :: y in s ==> y <= x;
    x
  }

  /** The sum of a column over some rows. */
  ghost function Sum(table: Table, rows: set<nat>, c: nat): real {
    if rows == {} then 0.0
    else Amount(table, Last(rows), c) + Sum(table, rows - {Last(rows)}, c)
  }

  /** The order of the rows does not matter. */
  lemma {:induction false} SumTake(table: Table, rows: set<nat>, c: nat, r: nat)
    requires r in rows
    ensures Sum(table, rows, c) == Amount(table, r, c) + Sum(table, rows - {r}, c)
    decreases |rows|
  {
    var m := Last(rows);
    if r != m {
      SumTake(table, rows - {m}, c, r);
      assert rows - {m} - {r} == rows - {r} - {m};
      assert Last(rows - {r}) == m;
    }
  }

  lemma SumAdd(table: Table, rows: set<nat>, c: nat, r: nat)
    requires r !in rows
    ensures Sum(table, rows + {r}, c) == Sum(table, rows, c) + Amount(table, r, c)
  {
    SumTake(table, rows + {r}, c, r);
    assert rows + {r} - {r} == rows;
  }

  /** Rows that add nothing do not count. */
  lemma {:induction false} SumSame(a: Table, s: set<nat>, b: Table, t: set<nat>, c: nat)
    requires s <= t
    requires forall r :: r in t ==> Amount(b, r, c) == if r in s then Amount(a, r, c) else 0.0
    ensures Sum(a, s, c) == Sum(b, t, c)
    decreases |t|
  {
    if t != {} {
      var m := Last(t);
      if m in s {
        SumTake(a, s, c, m);
        SumSame(a, s - {m}, b, t - {m}, c);
      } else {
        SumSame(a, s, b, t - {m}, c);
      }
    }
  }
}
