// Sequences without repetition.
module Sequences {
  predicate NoDuplicates<T(==)>(s: seq<T>) {
    forall i, j :: 0 <= i < j < |s| ==> s[i] != s[j]
  }

  /** The sequence without any occurrence of `x`. */
  function Without<T(==,!new)>(s: seq<T>, x: T): (r: seq<T>)
    ensures forall y :: y in r <==> y in s && y != x
    ensures NoDuplicates(s) ==> NoDuplicates(r)
  {
    if s == [] then []
    else
      var rest := Without(s[1..], x);
      assert NoDuplicates(s) ==> NoDuplicates(s[1..]) && s[0] !in s[1..];
      if s[0] == x then rest else [s[0]] + rest
  }

  ghost predicate Precedes<T>(s: seq<T>, x: T, y: T) {
    exists i, j :: 0 <= i < j < |s| && s[i] == x && s[j] == y
  }

  lemma {:induction false} WithoutKeepsOrder<T(!new)>(s: seq<T>, z: T, x: T, y: T)
    requires Precedes(Without(s, z), x, y)
    ensures Precedes(s, x, y)
  {
    if s[0] != z && x == s[0] && !Precedes(Without(s[1..], z), x, y) {
      assert y in Without(s[1..], z);
      var j :| 0 <= j < |s[1..]| && s[1..][j] == y;
      assert s[0] == x && s[j + 1] == y;
    } else {
      if s[0] != z {
        PrecedesInTail(Without(s, z), x, y);
      }
      WithoutKeepsOrder(s[1..], z, x, y);
      var i, j :| 0 <= i < j < |s[1..]| && s[1..][i] == x && s[1..][j] == y;
      assert s[i + 1] == x && s[j + 1] == y;
    }
  }

  lemma PrecedesInTail<T>(s: seq<T>, x: T, y: T)
    requires Precedes(s, x, y) && (s[0] != x || Precedes(s[1..], x, y))
    ensures Precedes(s[1..], x, y)
  {
    if s[0] != x {
      var i, j :| 0 <= i < j < |s| && s[i] == x && s[j] == y;
      assert s[1..][i - 1] == x && s[1..][j - 1] == y;
    }
  }
}
