/** `ORDER BY <text column> [DESC]`: the rows come out ordered by the column under
    SQLite's BINARY collation. SQL leaves the order of equal keys unspecified; the
    model resolves it with a stable insertion sort, and contracts promise only
    "ordered, and a permutation of the selected rows". */
module Sorting {
  import opened Strings

  predicate InOrder(a: string, b: string, descending: bool)
  {
    if descending then StrLe(b, a) else StrLe(a, b)
  }

  lemma InOrderTotal(a: string, b: string, descending: bool)
    ensures InOrder(a, b, descending) || InOrder(b, a, descending)
  {
    StrLeTotal(a, b);
  }

  lemma InOrderTransitive(a: string, b: string, c: string, descending: bool)
    requires InOrder(a, b, descending) && InOrder(b, c, descending)
    ensures InOrder(a, c, descending)
  {
    if descending {
      StrLeTransitive(c, b, a);
    } else {
      StrLeTransitive(a, b, c);
    }
  }

  predicate SortedBy<T>(s: seq<T>, key: T -> string, descending: bool)
  {
    forall i, j :: 0 <= i < j < |s| ==> InOrder(key(s[i]), key(s[j]), descending)
  }

  /** Puts `x` in front of the first element it may precede. */
  function Insert<T(==)>(x: T, s: seq<T>, key: T -> string, descending: bool): (r: seq<T>)
    requires SortedBy(s, key, descending)
    ensures SortedBy(r, key, descending)
    ensures multiset(r) == multiset(s) + multiset{x}
  {
    if s == [] then [x]
    else if InOrder(key(x), key(s[0]), descending) then
      assert forall j :: 0 <= j < |s| ==> InOrder(key(x), key(s[j]), descending) by {
        forall j | 0 < j < |s| ensures InOrder(key(x), key(s[j]), descending) {
          InOrderTransitive(key(x), key(s[0]), key(s[j]), descending);
        }
      }
      [x] + s
    else
      var rest := Insert(x, s[1..], key, descending);
      InOrderTotal(key(x), key(s[0]), descending);
      assert s == [s[0]] + s[1..];
      assert forall k :: 0 <= k < |rest| ==> InOrder(key(s[0]), key(rest[k]), descending) by {
        forall k | 0 <= k < |rest| ensures InOrder(key(s[0]), key(rest[k]), descending) {
          assert rest[k] in multiset(rest);
          if rest[k] != x {
            assert rest[k] in multiset(s[1..]);
            var j :| 0 <= j < |s[1..]| && s[1..][j] == rest[k];
            assert s[j + 1] == rest[k];
          }
        }
      }
      [s[0]] + rest
  }

  /** The rows of `s` ordered by `key`; equal keys keep their relative order. */
  function SortBy<T(==)>(s: seq<T>, key: T -> string, descending: bool): (r: seq<T>)
    ensures SortedBy(r, key, descending)
    ensures multiset(r) == multiset(s)
    ensures |r| == |s|
  {
    if s == [] then []
    else
      assert s == [s[0]] + s[1..];
      Insert(s[0], SortBy(s[1..], key, descending), key, descending)
  }
}
