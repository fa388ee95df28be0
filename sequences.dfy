/** Concatenation of a sequence of sequences, used for the per-player result lists of the batch analyzers. */
module Sequences {
  import opened Wrappers

  function Concat<T>(xss: seq<seq<T>>): seq<T>
  {
    if xss == [] then [] else Concat(xss[..|xss| - 1]) + xss[|xss| - 1]
  }

  lemma TakeSnoc<T>(s: seq<T>, k: int)
    requires 0 <= k < |s|
    ensures s[..k + 1] == s[..k] + [s[k]]
  {
  }

  lemma ConcatSnoc<T>(xss: seq<seq<T>>, xs: seq<T>)
    ensures Concat(xss + [xs]) == Concat(xss) + xs
  {
    assert (xss + [xs])[..|xss|] == xss;
  }

  /** An element of the concatenation is an element of one of the parts, and conversely. */
  lemma {:induction false} ConcatMembers<T>(xss: seq<seq<T>>, x: T)
    ensures x in Concat(xss) <==> exists k :: 0 <= k < |xss| && x in xss[k]
  {
    if xss != [] {
      var n := |xss| - 1;
      var init := xss[..n];
      ConcatMembers(init, x);
      ConcatSnoc(init, xss[n]);
      assert xss == init + [xss[n]];
      if x in Concat(xss) && x in Concat(init) {
        var k :| 0 <= k < |init| && x in init[k];
        assert x in xss[k];
      }
      if exists k :: 0 <= k < |xss| && x in xss[k] {
        var k :| 0 <= k < |xss| && x in xss[k];
        if k < n {
          assert x in init[k];
        }
      }
    }
  }

  /** The present values of a sequence of options, in order. */
  function Somes<T>(xs: seq<Option<T>>): seq<T>
  {
    if xs == [] then []
    else Somes(xs[..|xs| - 1]) + (match xs[|xs| - 1] case Some(x) => [x] case None => [])
  }

  lemma SomesSnoc<T>(xs: seq<Option<T>>, o: Option<T>)
    ensures Somes(xs + [o]) == Somes(xs) + (match o case Some(x) => [x] case None => [])
  {
    assert (xs + [o])[..|xs|] == xs;
  }

  lemma {:induction false} SomesMembers<T>(xs: seq<Option<T>>, x: T)
    ensures x in Somes(xs) <==> exists i :: 0 <= i < |xs| && xs[i] == Some(x)
  {
    if xs != [] {
      var n := |xs| - 1;
      var init := xs[..n];
      SomesMembers(init, x);
      SomesSnoc(init, xs[n]);
      assert xs == init + [xs[n]];
      if x in Somes(xs) {
        if x in Somes(init) {
          var i :| 0 <= i < |init| && init[i] == Some(x);
          assert xs[i] == Some(x);
        } else {
          assert xs[n] == Some(x);
        }
      }
      if exists i :: 0 <= i < |xs| && xs[i] == Some(x) {
        var i :| 0 <= i < |xs| && xs[i] == Some(x);
        if i < n {
          assert init[i] == Some(x);
        }
      }
    }
  }
}
