/** Option values for the source's `undefined`/`null` results. */
module Wrappers {

  datatype Option<+T> = None | Some(value: T) {

    /** Returns the value in Some, or a default for None (the source's `x || d`). */
    function GetOr(default: T): T {
      match this
      case Some(v) => v
      case None => default
    }
  }

  /** Every value, when none is missing (the source's `xs.every(x => x
    * !== undefined)` guard in front of using the mapped list). */
  function AllSome<T>(xs: seq<Option<T>>): (r: Option<seq<T>>)
    ensures r.Some? ==> |r.value| == |xs|
  {
    if |xs| == 0 then Some([])
    else
      var rest := AllSome(xs[1..]);
      if xs[0].None? || rest.None? then None else Some([xs[0].value] + rest.value)
  }

  /** When nothing is missing, the values are the ones in the list, in order. */
  lemma {:induction false} AllSomePointwise<T>(xs: seq<Option<T>>)
    ensures AllSome(xs).Some? ==> forall i :: 0 <= i < |xs| ==> xs[i] == Some(AllSome(xs).value[i])
  {
    if |xs| > 0 && AllSome(xs).Some? {
      AllSomePointwise(xs[1..]);
      assert AllSome(xs).value == [xs[0].value] + AllSome(xs[1..]).value;
    }
  }

  /** The result is missing exactly when some element is. */
  lemma {:induction false} AllSomeFails<T>(xs: seq<Option<T>>)
    ensures AllSome(xs).None? <==> exists i :: 0 <= i < |xs| && xs[i].None?
  {
    if |xs| > 0 {
      AllSomeFails(xs[1..]);
      if AllSome(xs[1..]).None? {
        var i :| 0 <= i < |xs[1..]| && xs[1..][i].None?;
        assert xs[i + 1].None?;
      }
      if exists i :: 0 <= i < |xs| && xs[i].None? {
        var i :| 0 <= i < |xs| && xs[i].None?;
        if i > 0 {
          assert xs[1..][i - 1].None?;
        }
      }
    }
  }

  /** A list with every element present collects to exactly those values. */
  lemma {:induction false} AllSomeOfValues<T>(xs: seq<Option<T>>, vs: seq<T>)
    requires |xs| == |vs| && forall i :: 0 <= i < |xs| ==> xs[i] == Some(vs[i])
    ensures AllSome(xs) == Some(vs)
  {
    if |xs| > 0 {
      AllSomeOfValues(xs[1..], vs[1..]);
      assert vs == [vs[0]] + vs[1..];
    }
  }
}
