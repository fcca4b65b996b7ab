/** Concatenation of the pieces a loop produces, one piece per iteration. */
module Lists {

  function Concat<T>(parts: seq<seq<T>>): seq<T> {
    if parts == [] then [] else Concat(parts[..|parts| - 1]) + parts[|parts| - 1]
  }

  lemma {:induction false} ConcatMembers<T>(parts: seq<seq<T>>, x: T)
    ensures x in Concat(parts) <==> exists j :: 0 <= j < |parts| && x in parts[j]
  {
    if parts != [] {
      var n := |parts| - 1;
      ConcatMembers(parts[..n], x);
      if x in Concat(parts[..n]) {
        var j :| 0 <= j < n && x in parts[..n][j];
        assert parts[..n][j] == parts[j];
      }
      if j :| 0 <= j < |parts| && x in parts[j] {
        if j < n {
          assert parts[..n][j] == parts[j];
        }
      }
    }
  }

  /** The step a loop takes: one more piece at the end. */
  lemma ConcatSnoc<T>(parts: seq<seq<T>>, k: nat)
    requires k < |parts|
    ensures Concat(parts[..k + 1]) == Concat(parts[..k]) + parts[k]
  {
    assert parts[..k + 1][..k] == parts[..k];
  }

  /** Pieces keep their order in the concatenation. */
  lemma {:induction false} ConcatOrder<T>(parts: seq<seq<T>>, j1: nat, j2: nat, x: T, y: T)
    requires j1 < j2 < |parts| && x in parts[j1] && y in parts[j2]
    ensures exists a1, a2 :: 0 <= a1 < a2 < |Concat(parts)| && Concat(parts)[a1] == x && Concat(parts)[a2] == y
  {
    var n := |parts| - 1;
    var front := Concat(parts[..n]);
    assert Concat(parts) == front + parts[n];
    if j2 == n {
      assert parts[..n][j1] == parts[j1];
      ConcatMembers(parts[..n], x);
      var a1 :| 0 <= a1 < |front| && front[a1] == x;
      var b :| 0 <= b < |parts[n]| && parts[n][b] == y;
      assert Concat(parts)[a1] == x && Concat(parts)[|front| + b] == y;
    } else {
      assert parts[..n][j1] == parts[j1] && parts[..n][j2] == parts[j2];
      ConcatOrder(parts[..n], j1, j2, x, y);
      var a1, a2 :| 0 <= a1 < a2 < |front| && front[a1] == x && front[a2] == y;
      assert Concat(parts)[a1] == x && Concat(parts)[a2] == y;
    }
  }
}
