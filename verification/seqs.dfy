/** Order-preserving selection from a sequence and flattening of a sequence
    of sequences, the two sequence operations both the normalizer and the
    serializer are built from. Both recurse on the LAST element, the way a
    `foreach` loop appending to a builder extends its result. */
module Seqs {

  /** The positions of `xs` whose element `keep` accepts, in increasing order. */
  function KeptIndices<T>(xs: seq<T>, keep: T -> bool): (r: seq<nat>)
    ensures forall k :: 0 <= k < |r| ==> r[k] < |xs|
    ensures forall k, l :: 0 <= k < l < |r| ==> r[k] < r[l]
    ensures forall i :: 0 <= i < |xs| ==> (i in r <==> keep(xs[i]))
  {
    if |xs| == 0 then []
    else KeptIndices(xs[..|xs| - 1], keep) + (if keep(xs[|xs| - 1]) then [|xs| - 1] else [])
  }

  /** The elements of `xs` that `keep` accepts, in their original order. */
  function Filter<T>(xs: seq<T>, keep: T -> bool): (r: seq<T>)
    ensures |r| <= |xs|
    ensures forall k :: 0 <= k < |r| ==> keep(r[k])
  {
    if |xs| == 0 then []
    else Filter(xs[..|xs| - 1], keep) + (if keep(xs[|xs| - 1]) then [xs[|xs| - 1]] else [])
  }

  /** Element k of a filtered sequence is the element at the k-th kept
      position: together with the contract of KeptIndices this says the
      filter keeps exactly the accepted elements, in their original order. */
  lemma {:induction false} FilterAtKeptIndices<T>(xs: seq<T>, keep: T -> bool)
    ensures |Filter(xs, keep)| == |KeptIndices(xs, keep)|
    ensures forall k :: 0 <= k < |Filter(xs, keep)| ==> Filter(xs, keep)[k] == xs[KeptIndices(xs, keep)[k]]
  {
    if |xs| != 0 {
      var init := xs[..|xs| - 1];
      FilterAtKeptIndices(init, keep);
      forall k | 0 <= k < |KeptIndices(init, keep)|
        ensures KeptIndices(init, keep)[k] < |init|
        ensures init[KeptIndices(init, keep)[k]] == xs[KeptIndices(init, keep)[k]]
      {
      }
    }
  }

  /** A filter that accepts every element changes nothing. */
  lemma {:induction false} FilterKeepsAll<T>(xs: seq<T>, keep: T -> bool)
    requires forall i :: 0 <= i < |xs| ==> keep(xs[i])
    ensures Filter(xs, keep) == xs
  {
    if |xs| != 0 {
      var init := xs[..|xs| - 1];
      assert forall i :: 0 <= i < |init| ==> keep(init[i]) by {
        forall i | 0 <= i < |init| ensures keep(init[i]) {
          assert init[i] == xs[i];
        }
      }
      FilterKeepsAll(init, keep);
      assert keep(xs[|xs| - 1]);
      calc {
        Filter(xs, keep);
        Filter(init, keep) + [xs[|xs| - 1]];
        init + [xs[|xs| - 1]];
        xs;
      }
    }
  }

  /** A filter that accepts no element yields nothing. */
  lemma {:induction false} FilterKeepsNone<T>(xs: seq<T>, keep: T -> bool)
    requires forall i :: 0 <= i < |xs| ==> !keep(xs[i])
    ensures Filter(xs, keep) == []
  {
    if |xs| != 0 {
      FilterKeepsNone(xs[..|xs| - 1], keep);
    }
  }

  /** Filtering twice with the same test is filtering once. */
  lemma FilterIdempotent<T>(xs: seq<T>, keep: T -> bool)
    ensures Filter(Filter(xs, keep), keep) == Filter(xs, keep)
  {
    var once := Filter(xs, keep);
    FilterKeepsAll(once, keep);
  }

  /** Concatenation is associative. */
  lemma AppendAssoc<T>(a: seq<T>, b: seq<T>, c: seq<T>)
    ensures (a + b) + c == a + (b + c)
  {
  }

  /** The concatenation of `xss` in order. */
  function Flatten<T>(xss: seq<seq<T>>): (r: seq<T>) {
    if |xss| == 0 then [] else Flatten(xss[..|xss| - 1]) + xss[|xss| - 1]
  }

  /** Flattening one more sequence appends it. */
  lemma FlattenSnoc<T>(xss: seq<seq<T>>, xs: seq<T>)
    ensures Flatten(xss + [xs]) == Flatten(xss) + xs
  {
    assert (xss + [xs])[..|xss|] == xss;
  }

  /** Flattening distributes over concatenation. */
  lemma {:induction false} FlattenAppend<T>(a: seq<seq<T>>, b: seq<seq<T>>)
    ensures Flatten(a + b) == Flatten(a) + Flatten(b)
  {
    if |b| == 0 {
      assert a + b == a;
    } else {
      var init := b[..|b| - 1];
      assert (a + b)[..|a + b| - 1] == a + init;
      FlattenAppend(a, init);
    }
  }
}
