/*
 * One-time backend selection as a priority order: the first candidate that
 * turns out to be available wins, later candidates are not consulted.
 */
module Selection {
  import opened JsValues

  /** The first available candidate, in priority order. */
  function FirstSome<T(==)>(candidates: seq<Option<T>>): (r: Option<T>)
    ensures r.None? <==> forall i :: 0 <= i < |candidates| ==> candidates[i].None?
    ensures r.Some? ==> exists i :: 0 <= i < |candidates| && candidates[i] == r && NoneBefore(candidates, i)
  {
    if candidates == [] then None
    else if candidates[0].Some? then
      assert NoneBefore(candidates, 0);
      candidates[0]
    else
      var r := FirstSome(candidates[1..]);
      if r.Some? then
        var i :| 0 <= i < |candidates[1..]| && candidates[1..][i] == r && NoneBefore(candidates[1..], i);
        assert candidates[i + 1] == r && NoneBefore(candidates, i + 1);
        r
      else
        r
  }

  /** No candidate before index i is available. */
  predicate NoneBefore<T>(candidates: seq<Option<T>>, i: int)
    requires 0 <= i <= |candidates|
  {
    forall j :: 0 <= j < i ==> candidates[j].None?
  }

  /** Priority: a candidate that is available and preceded only by unavailable
      ones is the one chosen, whatever follows it. */
  lemma FirstAvailableWins<T>(candidates: seq<Option<T>>, i: nat)
    requires i < |candidates| && candidates[i].Some? && NoneBefore(candidates, i)
    ensures FirstSome(candidates) == candidates[i]
  {
    var r := FirstSome(candidates);
    var k :| 0 <= k < |candidates| && candidates[k] == r && NoneBefore(candidates, k);
    assert !(k < i) && !(i < k);
  }

  /** Selection over a list made of two parts: the second part is consulted
      only when nothing in the first is available. */
  lemma {:induction false} FirstSomeAppend<T>(a: seq<Option<T>>, b: seq<Option<T>>)
    ensures FirstSome(a + b) == if FirstSome(a).Some? then FirstSome(a) else FirstSome(b)
  {
    if a != [] {
      assert (a + b)[0] == a[0];
      if a[0].None? {
        assert (a + b)[1..] == a[1..] + b;
        FirstSomeAppend(a[1..], b);
      }
    } else {
      assert a + b == b;
    }
  }
}
