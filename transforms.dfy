/**
 * The chains of transformation functions that virtual ports attach to a port.
 * A chain is an optional list: `None` and the empty list both mean "no
 * transformation". In-ports and var-ports apply the list front to back;
 * ref-ports apply it back to front.
 */
module Transforms {
  import opened Wrappers
  import opened Vectors

  type Transform = Vec -> Vec

  /** The functions of an optional chain; `None` has none. */
  function Funcs(chain: Option<seq<Transform>>): seq<Transform>
  {
    match chain
    case None => []
    case Some(fs) => fs
  }

  /** Applies `fs[0]` first, then `fs[1]`, and so on. */
  function ApplyAll(fs: seq<Transform>, v: Vec): (r: Vec)
    ensures fs == [] ==> r == v
    ensures |fs| == 1 ==> r == fs[0](v)
    decreases |fs|
  {
    if fs == [] then v else ApplyAll(fs[1..], fs[0](v))
  }

  /** The list in reverse order. */
  function Reversed(fs: seq<Transform>): (r: seq<Transform>)
    ensures |r| == |fs|
    ensures forall i :: 0 <= i < |fs| ==> r[i] == fs[|fs| - 1 - i]
    decreases |fs|
  {
    if fs == [] then [] else [fs[|fs| - 1]] + Reversed(fs[..|fs| - 1])
  }

  /** Applying a concatenated chain is applying the first part, then the second. */
  lemma {:induction false} ApplyAllAppend(a: seq<Transform>, b: seq<Transform>, v: Vec)
    ensures ApplyAll(a + b, v) == ApplyAll(b, ApplyAll(a, v))
    decreases |a|
  {
    if a == [] {
      assert a + b == b;
    } else {
      assert (a + b)[1..] == a[1..] + b;
      ApplyAllAppend(a[1..], b, a[0](v));
    }
  }

  /** In list order, the function appended last is applied last. */
  lemma InOrderAppliesLastOutermost(fs: seq<Transform>, g: Transform, v: Vec)
    ensures ApplyAll(fs + [g], v) == g(ApplyAll(fs, v))
  {
    ApplyAllAppend(fs, [g], v);
  }

  /** In reverse order, the function at the front of the list is applied last. */
  lemma {:induction false} ReversedAppliesFirstOutermost(f: Transform, fs: seq<Transform>, v: Vec)
    ensures ApplyAll(Reversed([f] + fs), v) == f(ApplyAll(Reversed(fs), v))
    decreases |fs|
  {
    if fs == [] {
      assert Reversed([f]) == [f] + Reversed([]);
    } else {
      var n := |fs|;
      assert ([f] + fs)[..n] == [f] + fs[..n - 1];
      assert Reversed([f] + fs) == [fs[n - 1]] + Reversed([f] + fs[..n - 1]);
      assert Reversed(fs) == [fs[n - 1]] + Reversed(fs[..n - 1]);
      ReversedAppliesFirstOutermost(f, fs[..n - 1], fs[n - 1](v));
    }
  }

  /** Reversing a chain twice gives the chain back. */
  lemma {:induction false} ReversedTwice(fs: seq<Transform>)
    ensures Reversed(Reversed(fs)) == fs
    decreases |fs|
  {
    if fs != [] {
      var n := |fs|;
      ReversedTwice(fs[..n - 1]);
      ReversedOfCons(fs[n - 1], Reversed(fs[..n - 1]));
      assert fs == fs[..n - 1] + [fs[n - 1]];
    }
  }

  lemma {:induction false} ReversedOfCons(f: Transform, fs: seq<Transform>)
    ensures Reversed([f] + fs) == Reversed(fs) + [f]
    decreases |fs|
  {
    if fs == [] {
      assert Reversed([f]) == [f] + Reversed([]);
    } else {
      var n := |fs|;
      assert ([f] + fs)[..n] == [f] + fs[..n - 1];
      ReversedOfCons(f, fs[..n - 1]);
    }
  }

  /** `PyInPort._transform` and `PyVarPort._transform`: the loop applying the chain in list order. */
  method TransformInOrder(chain: Option<seq<Transform>>, v: Vec) returns (r: Vec)
    ensures r == ApplyAll(Funcs(chain), v)
    ensures Funcs(chain) == [] ==> r == v
  {
    r := v;
    if chain.Some? && |chain.value| > 0 {
      var fs := chain.value;
      for i := 0 to |fs|
        invariant ApplyAll(fs[i..], r) == ApplyAll(fs, v)
      {
        assert fs[i..][1..] == fs[i + 1..];
        r := fs[i](r);
      }
    }
  }

  /** `PyRefPort._transform`: the loop applying the chain over `reversed(...)`. */
  method TransformReversed(chain: Option<seq<Transform>>, v: Vec) returns (r: Vec)
    ensures r == ApplyAll(Reversed(Funcs(chain)), v)
    ensures Funcs(chain) == [] ==> r == v
  {
    r := v;
    if chain.Some? && |chain.value| > 0 {
      var fs := chain.value;
      var i := |fs|;
      assert fs[..i] == fs;
      while i > 0
        invariant 0 <= i <= |fs|
        invariant ApplyAll(Reversed(fs[..i]), r) == ApplyAll(Reversed(fs), v)
      {
        assert fs[..i][..i - 1] == fs[..i - 1];
        i := i - 1;
        r := fs[i](r);
      }
    }
  }
}
