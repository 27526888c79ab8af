/**
 * The loop shape the screens share: walk a query result in order, skip the
 * records a function rejects (`?: continue`), and append what it builds.
 */
module Seqs {
  import opened Wrappers

  /** Kotlin's `mapNotNull(f)` / a `for` loop that `continue`s on null. */
  function FilterMap<A, B>(f: A -> Option<B>, s: seq<A>): seq<B>
    decreases |s|
  {
    if s == [] then []
    else
      FilterMap(f, s[..|s| - 1]) + (match f(s[|s| - 1]) case Some(b) => [b] case None => [])
  }

  /** The positions of `s` whose record `f` keeps, in increasing order. */
  function Survivors<A, B>(f: A -> Option<B>, s: seq<A>): seq<nat>
    decreases |s|
  {
    if s == [] then []
    else Survivors(f, s[..|s| - 1]) + (if f(s[|s| - 1]).Some? then [|s| - 1] else [])
  }

  /** One step of the loop: the next record adds its image, or nothing. */
  lemma FilterMapStep<A, B>(f: A -> Option<B>, s: seq<A>, i: nat)
    requires i < |s|
    ensures FilterMap(f, s[..i + 1]) ==
            FilterMap(f, s[..i]) + (match f(s[i]) case Some(b) => [b] case None => [])
  {
    assert s[..i + 1][..i] == s[..i];
  }

  /** Survivors are positions of `s`, listed in strictly increasing order. */
  lemma {:induction false} SurvivorsIncreasing<A, B>(f: A -> Option<B>, s: seq<A>)
    ensures forall k :: 0 <= k < |Survivors(f, s)| ==> Survivors(f, s)[k] < |s|
    ensures forall k, l :: 0 <= k < l < |Survivors(f, s)| ==> Survivors(f, s)[k] < Survivors(f, s)[l]
    decreases |s|
  {
    if s != [] {
      SurvivorsIncreasing(f, s[..|s| - 1]);
    }
  }

  /** Every position whose record `f` keeps is a survivor. */
  lemma {:induction false} SurvivorsComplete<A, B>(f: A -> Option<B>, s: seq<A>)
    ensures forall i :: 0 <= i < |s| && f(s[i]).Some? ==> i in Survivors(f, s)
    decreases |s|
  {
    if s != [] {
      var n := |s| - 1;
      SurvivorsComplete(f, s[..n]);
      forall i | 0 <= i < |s| && f(s[i]).Some? ensures i in Survivors(f, s) {
        if i < n {
          assert s[..n][i] == s[i];
        }
      }
    }
  }

  /** Output element `k` is the image of the `k`-th surviving record. */
  lemma {:induction false} FilterMapImage<A, B>(f: A -> Option<B>, s: seq<A>)
    ensures |FilterMap(f, s)| == |Survivors(f, s)|
    ensures forall k :: 0 <= k < |Survivors(f, s)| ==>
              Survivors(f, s)[k] < |s| && f(s[Survivors(f, s)[k]]) == Some(FilterMap(f, s)[k])
    decreases |s|
  {
    if s != [] {
      var n := |s| - 1;
      var p := s[..n];
      FilterMapImage(f, p);
      SurvivorsIncreasing(f, p);
      forall k | 0 <= k < |Survivors(f, p)| ensures s[Survivors(f, p)[k]] == p[Survivors(f, p)[k]] { }
    }
  }

  /**
   * The output holds exactly one element per kept record, in the order of the
   * records: element `k` is the image of record `Survivors(f, s)[k]`, the
   * survivors increase, and a position survives exactly when `f` keeps its record.
   */
  lemma FilterMapSpec<A, B>(f: A -> Option<B>, s: seq<A>)
    ensures |FilterMap(f, s)| == |Survivors(f, s)|
    ensures forall k, l :: 0 <= k < l < |Survivors(f, s)| ==> Survivors(f, s)[k] < Survivors(f, s)[l]
    ensures forall i :: 0 <= i < |s| ==> (i in Survivors(f, s) <==> f(s[i]).Some?)
    ensures forall k :: 0 <= k < |Survivors(f, s)| ==>
              Survivors(f, s)[k] < |s| && f(s[Survivors(f, s)[k]]) == Some(FilterMap(f, s)[k])
  {
    SurvivorsIncreasing(f, s);
    SurvivorsComplete(f, s);
    FilterMapImage(f, s);
  }

  /** Filtering a concatenation filters each part. */
  lemma {:induction false} FilterMapAppend<A, B>(f: A -> Option<B>, s: seq<A>, t: seq<A>)
    ensures FilterMap(f, s + t) == FilterMap(f, s) + FilterMap(f, t)
    decreases |t|
  {
    if t != [] {
      var n := |t| - 1;
      assert (s + t)[..|s + t| - 1] == s + t[..n];
      FilterMapAppend(f, s, t[..n]);
    } else {
      assert s + t == s;
    }
  }
}
