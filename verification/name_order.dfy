/** The order of the customer list (CustomerAdmin.ordering): by first name,
    then by last name, each compared character by character. */
module NameOrder {
  import opened Models

  /** Lexicographic order on strings by character code; a prefix comes first. */
  predicate LexLe(a: string, b: string)
    decreases |a|
  {
    |a| == 0 || (|b| > 0 && (a[0] < b[0] || (a[0] == b[0] && LexLe(a[1..], b[1..]))))
  }

  predicate LexLt(a: string, b: string)
  {
    LexLe(a, b) && a != b
  }

  lemma {:induction false} LexLeReflexive(a: string)
    ensures LexLe(a, a)
    decreases |a|
  {
    if |a| > 0 {
      LexLeReflexive(a[1..]);
    }
  }

  lemma {:induction false} LexLeTotal(a: string, b: string)
    ensures LexLe(a, b) || LexLe(b, a)
    decreases |a|
  {
    if |a| > 0 && |b| > 0 && a[0] == b[0] {
      LexLeTotal(a[1..], b[1..]);
    }
  }

  lemma {:induction false} LexLeAntisymmetric(a: string, b: string)
    requires LexLe(a, b) && LexLe(b, a)
    ensures a == b
    decreases |a|
  {
    if |a| > 0 {
      LexLeAntisymmetric(a[1..], b[1..]);
      assert a == [a[0]] + a[1..] && b == [b[0]] + b[1..];
    }
  }

  lemma {:induction false} LexLeTransitive(a: string, b: string, c: string)
    requires LexLe(a, b) && LexLe(b, c)
    ensures LexLe(a, c)
    decreases |a|
  {
    if |a| > 0 && a[0] == b[0] && b[0] == c[0] {
      LexLeTransitive(a[1..], b[1..], c[1..]);
    }
  }

  /** `x` may be listed before `y`: ordering = ["first_name", "last_name"]. */
  predicate NameLe(x: Customer, y: Customer)
  {
    LexLt(x.firstName, y.firstName) || (x.firstName == y.firstName && LexLe(x.lastName, y.lastName))
  }

  /** Any two customers can be compared. */
  lemma NameLeTotal(x: Customer, y: Customer)
    ensures NameLe(x, y) || NameLe(y, x)
  {
    LexLeTotal(x.firstName, y.firstName);
    LexLeTotal(x.lastName, y.lastName);
    if x.firstName != y.firstName && LexLe(x.firstName, y.firstName) && LexLe(y.firstName, x.firstName) {
      LexLeAntisymmetric(x.firstName, y.firstName);
    }
  }

  lemma NameLeTransitive(x: Customer, y: Customer, z: Customer)
    requires NameLe(x, y) && NameLe(y, z)
    ensures NameLe(x, z)
  {
    if x.firstName == y.firstName && y.firstName == z.firstName {
      LexLeTransitive(x.lastName, y.lastName, z.lastName);
    } else if LexLt(x.firstName, y.firstName) && LexLt(y.firstName, z.firstName) {
      LexLeTransitive(x.firstName, y.firstName, z.firstName);
      if x.firstName == z.firstName {
        LexLeAntisymmetric(x.firstName, y.firstName);
      }
    }
  }

  /** Customers that compare both ways have the same first and last name:
      rows the ordering does not separate differ only in other columns. */
  lemma NameLeTies(x: Customer, y: Customer)
    requires NameLe(x, y) && NameLe(y, x)
    ensures x.firstName == y.firstName && x.lastName == y.lastName
  {
    if x.firstName != y.firstName {
      LexLeAntisymmetric(x.firstName, y.firstName);
    }
    LexLeAntisymmetric(x.lastName, y.lastName);
  }

  predicate SortedByName(rows: seq<(Id, Customer)>)
  {
    forall i, j :: 0 <= i < j < |rows| ==> NameLe(rows[i].1, rows[j].1)
  }

  /** A row that may precede every row of a sorted list may be put in front of it. */
  lemma ConsSorted(row: (Id, Customer), rows: seq<(Id, Customer)>)
    requires SortedByName(rows)
    requires forall x :: x in multiset(rows) ==> NameLe(row.1, x.1)
    ensures SortedByName([row] + rows)
  {
    forall j | 0 <= j < |rows|
      ensures NameLe(row.1, rows[j].1)
    {
      assert rows[j] in multiset(rows);
    }
  }

  function InsertByName(row: (Id, Customer), rows: seq<(Id, Customer)>): (r: seq<(Id, Customer)>)
    requires SortedByName(rows)
    ensures SortedByName(r)
    ensures multiset(r) == multiset(rows) + multiset{row}
    decreases |rows|
  {
    if |rows| == 0 then [row]
    else if NameLe(row.1, rows[0].1) then
      assert forall x :: x in multiset(rows) ==> NameLe(row.1, x.1) by {
        forall x | x in multiset(rows)
          ensures NameLe(row.1, x.1)
        {
          var j :| 0 <= j < |rows| && rows[j] == x;
          if j > 0 {
            NameLeTransitive(row.1, rows[0].1, x.1);
          }
        }
      }
      ConsSorted(row, rows);
      [row] + rows
    else
      var rest := InsertByName(row, rows[1..]);
      assert rows == [rows[0]] + rows[1..];
      assert forall x :: x in multiset(rest) ==> NameLe(rows[0].1, x.1) by {
        forall x | x in multiset(rest)
          ensures NameLe(rows[0].1, x.1)
        {
          if x == row {
            NameLeTotal(row.1, rows[0].1);
          } else {
            assert x in multiset(rows[1..]);
            var j :| 0 <= j < |rows[1..]| && rows[1..][j] == x;
            assert rows[j + 1] == x;
          }
        }
      }
      ConsSorted(rows[0], rest);
      [rows[0]] + rest
  }

  /** The customer list in display order: the same rows, sorted by
      (first name, last name). */
  function SortByName(rows: seq<(Id, Customer)>): (r: seq<(Id, Customer)>)
    ensures SortedByName(r)
    ensures multiset(r) == multiset(rows)
    decreases |rows|
  {
    if |rows| == 0 then []
    else
      assert rows == [rows[0]] + rows[1..];
      InsertByName(rows[0], SortByName(rows[1..]))
  }
}
