/** The order in which a `std::map` with integer keys is traversed. */
module Sorted {

  predicate IsLeast(m: int, s: set<int>) {
    m in s && forall k <- s :: m <= k
  }

  lemma Pick<T>(s: set<T>) returns (x: T)
    requires |s| > 0
    ensures x in s
  {
    x :| x in s;
  }

  lemma {:induction false} HasLeast(s: set<int>)
    requires |s| > 0
    ensures exists m :: IsLeast(m, s)
    decreases |s|
  {
    var x := Pick(s);
    var rest := s - {x};
    if |rest| == 0 {
      assert s == {x};
      assert IsLeast(x, s);
    } else {
      HasLeast(rest);
      var m :| IsLeast(m, rest);
      assert forall k <- s :: k == x || k in rest;
      assert IsLeast(if x < m then x else m, s);
    }
  }

  function Least(s: set<int>): (m: int)
    requires |s| > 0
    ensures IsLeast(m, s)
  {
    HasLeast(s);
    var m :| IsLeast(m, s);
    m
  }

  /** The elements in ascending order. */
  function Ascending(s: set<int>): (a: seq<int>)
    decreases |s|
  {
    if |s| == 0 then [] else [Least(s)] + Ascending(s - {Least(s)})
  }

  lemma {:induction false} AscendingFacts(s: set<int>)
    ensures forall k :: k in Ascending(s) <==> k in s
    ensures forall i, j :: 0 <= i < j < |Ascending(s)| ==> Ascending(s)[i] < Ascending(s)[j]
    decreases |s|
  {
    if |s| > 0 {
      var m, rest := Least(s), Ascending(s - {Least(s)});
      AscendingFacts(s - {m});
      var a := Ascending(s);
      assert a == [m] + rest;
      forall i, j | 0 <= i < j < |a|
        ensures a[i] < a[j]
      {
        assert a[j] == rest[j - 1] && rest[j - 1] in rest;
      }
    }
  }
}
