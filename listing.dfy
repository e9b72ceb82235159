/**
 * The display listing of a shopping list: tuples (quantity, base unit, ingredient name)
 * ordered by ingredient name, as the SQL query `ORDER BY ingredient_name` returns them.
 * Names are compared lexicographically, character by character.
 */
module Listing {

  /** One displayed row: (aggregate_quantity, base_unit, ingredient_name). */
  type Line = (real, string, string)

  /** Lexicographic "less than or equal" on names. */
  predicate NameLe(a: string, b: string)
    decreases |a|
  {
    |a| == 0 || (|b| > 0 && (a[0] < b[0] || (a[0] == b[0] && NameLe(a[1..], b[1..]))))
  }

  predicate SortedByName(s: seq<Line>) {
    forall i, j :: 0 <= i < j < |s| ==> NameLe(s[i].2, s[j].2)
  }

  /** Inserts `x` before the first line whose name is not smaller than its own. */
  function InsertByName(x: Line, s: seq<Line>): seq<Line>
  {
    if |s| == 0 then [x]
    else if NameLe(x.2, s[0].2) then [x] + s
    else [s[0]] + InsertByName(x, s[1..])
  }

  function SortByName(s: seq<Line>): seq<Line>
  {
    if |s| == 0 then [] else InsertByName(s[0], SortByName(s[1..]))
  }

  lemma {:induction false} NameLeTotal(a: string, b: string)
    ensures NameLe(a, b) || NameLe(b, a)
    decreases |a|
  {
    if |a| > 0 && |b| > 0 && a[0] == b[0] {
      NameLeTotal(a[1..], b[1..]);
    }
  }

  lemma {:induction false} NameLeTransitive(a: string, b: string, c: string)
    requires NameLe(a, b) && NameLe(b, c)
    ensures NameLe(a, c)
    decreases |a|
  {
    if |a| > 0 && a[0] == b[0] && b[0] == c[0] {
      NameLeTransitive(a[1..], b[1..], c[1..]);
    }
  }

  /** Inserting adds exactly `x` to the lines. */
  lemma {:induction false} InsertByNameMultiset(x: Line, s: seq<Line>)
    ensures multiset(InsertByName(x, s)) == multiset(s) + multiset{x}
  {
    if |s| > 0 && !NameLe(x.2, s[0].2) {
      InsertByNameMultiset(x, s[1..]);
      assert s == [s[0]] + s[1..];
    }
  }

  /** Every line of a sorted listing after its head has a name no smaller than the head's. */
  lemma HeadIsSmallest(s: seq<Line>, j: int)
    requires SortedByName(s) && 0 < j < |s|
    ensures NameLe(s[0].2, s[j].2)
  {
  }

  /** Putting a line in front of a sorted listing keeps it sorted when the line's name is no larger than any name in it. */
  lemma PrependSorted(x: Line, s: seq<Line>)
    requires SortedByName(s)
    requires forall j :: 0 <= j < |s| ==> NameLe(x.2, s[j].2)
    ensures SortedByName([x] + s)
  {
    var r := [x] + s;
    forall i, j | 0 <= i < j < |r|
      ensures NameLe(r[i].2, r[j].2)
    {
      if i == 0 {
        assert r[j] == s[j - 1];
      } else {
        assert r[i] == s[i - 1] && r[j] == s[j - 1];
      }
    }
  }

  /** Inserting into a sorted listing keeps it sorted. */
  lemma {:induction false} InsertByNameSorted(x: Line, s: seq<Line>)
    requires SortedByName(s)
    ensures SortedByName(InsertByName(x, s))
  {
    if |s| == 0 {
    } else if NameLe(x.2, s[0].2) {
      forall j | 0 <= j < |s|
        ensures NameLe(x.2, s[j].2)
      {
        if j > 0 {
          HeadIsSmallest(s, j);
          NameLeTransitive(x.2, s[0].2, s[j].2);
        }
      }
      PrependSorted(x, s);
    } else {
      var rest := s[1..];
      assert SortedByName(rest) by {
        forall i, j | 0 <= i < j < |rest| ensures NameLe(rest[i].2, rest[j].2) {
          assert rest[i] == s[i + 1] && rest[j] == s[j + 1];
        }
      }
      InsertByNameSorted(x, rest);
      InsertByNameMultiset(x, rest);
      var t := InsertByName(x, rest);
      NameLeTotal(x.2, s[0].2);
      forall j | 0 <= j < |t|
        ensures NameLe(s[0].2, t[j].2)
      {
        assert t[j] in multiset(t);
        if t[j] != x {
          assert t[j] in multiset(rest);
          var i :| 0 <= i < |rest| && rest[i] == t[j];
          HeadIsSmallest(s, i + 1);
        }
      }
      PrependSorted(s[0], t);
    }
  }

  /** The listing is ordered by name and holds exactly the given lines. */
  lemma {:induction false} SortByNameCorrect(s: seq<Line>)
    ensures SortedByName(SortByName(s))
    ensures multiset(SortByName(s)) == multiset(s)
  {
    if |s| > 0 {
      SortByNameCorrect(s[1..]);
      InsertByNameSorted(s[0], SortByName(s[1..]));
      InsertByNameMultiset(s[0], SortByName(s[1..]));
      assert s == [s[0]] + s[1..];
    }
  }
}
