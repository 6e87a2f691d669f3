/** Two reference definitions for the batch generators of the signal
    pipeline: `Present` keeps the values of the present entries of a list of
    optional results, and `Flatten` joins a list of lists, both in order. */
module Seqs {
  import opened Wrappers

  /** The values of the `Some` entries of `xs`, in their order. */
  function Present<T(==)>(xs: seq<Option<T>>): (r: seq<T>)
    ensures |r| <= |xs|
    ensures forall x <- r :: Some(x) in xs
    ensures forall i :: 0 <= i < |xs| && xs[i].Some? ==> xs[i].value in r
  {
    if |xs| == 0 then []
    else
      var rest := Present(xs[1..]);
      assert forall i :: 0 < i < |xs| ==> xs[i] == xs[1..][i - 1];
      assert forall o <- xs[1..] :: o in xs;
      (if xs[0].Some? then [xs[0].value] else []) + rest
  }

  /** Present distributes over concatenation. */
  lemma {:induction false} PresentAppend<T>(a: seq<Option<T>>, b: seq<Option<T>>)
    ensures Present(a + b) == Present(a) + Present(b)
    decreases |a|
  {
    if |a| > 0 {
      assert (a + b)[1..] == a[1..] + b;
      PresentAppend(a[1..], b);
    } else {
      assert a + b == b;
    }
  }

  /** The lists of `xss` joined end to end, in their order. */
  function Flatten<T>(xss: seq<seq<T>>): (r: seq<T>)
    ensures |r| == 0 <==> forall xs <- xss :: |xs| == 0
  {
    if |xss| == 0 then []
    else
      assert forall xs <- xss[1..] :: xs in xss;
      assert xss == [xss[0]] + xss[1..];
      xss[0] + Flatten(xss[1..])
  }

  /** Flatten distributes over concatenation. */
  lemma {:induction false} FlattenAppend<T>(a: seq<seq<T>>, b: seq<seq<T>>)
    ensures Flatten(a + b) == Flatten(a) + Flatten(b)
    decreases |a|
  {
    if |a| > 0 {
      assert (a + b)[1..] == a[1..] + b;
      FlattenAppend(a[1..], b);
    } else {
      assert a + b == b;
    }
  }
}
