/**
 * Dense data vectors exchanged between ports. A numpy array is modelled by its
 * flattened contents (a sequence of integers) and its shape (a sequence of
 * dimensions); the number of elements of a shape is the product of its
 * dimensions, so the empty (scalar) shape holds one element.
 */
module Vectors {

  type Vec = seq<int>
  type Shape = seq<nat>

  /** Number of elements of an array of this shape. */
  function Size(shape: Shape): nat
  {
    if shape == [] then 1 else shape[0] * Size(shape[1..])
  }

  /** `np.ones(n) * c`: n copies of c. */
  function Fill(n: nat, c: int): (r: Vec)
    ensures |r| == n
    ensures forall k :: 0 <= k < n ==> r[k] == c
  {
    seq(n, _ => c)
  }

  /** `np.zeros(shape)`, flattened. */
  function Zeros(shape: Shape): (r: Vec)
    ensures |r| == Size(shape)
    ensures forall k :: 0 <= k < |r| ==> r[k] == 0
  {
    Fill(Size(shape), 0)
  }

  /** Element-wise `a + b` of two arrays of the same size. */
  function Add(a: Vec, b: Vec): (r: Vec)
    requires |a| == |b|
    ensures |r| == |a|
    ensures forall k :: 0 <= k < |r| ==> r[k] == a[k] + b[k]
  {
    seq(|a|, k requires 0 <= k < |a| => a[k] + b[k])
  }

  /** Every vector of `vs` has exactly `n` elements. */
  predicate AllOfSize(vs: seq<Vec>, n: nat)
  {
    forall i :: 0 <= i < |vs| ==> |vs[i]| == n
  }

  /** Element `k` summed over all vectors of `vs`. */
  function ColumnSum(vs: seq<Vec>, k: nat): int
    requires forall i :: 0 <= i < |vs| ==> k < |vs[i]|
  {
    if vs == [] then 0 else vs[0][k] + ColumnSum(vs[1..], k)
  }

  /**
   * The left fold `ft.reduce(lambda acc, v: acc + v, vs, acc)` that the
   * dense in-port uses to add up what its channels delivered.
   */
  function FanIn(acc: Vec, vs: seq<Vec>): (r: Vec)
    requires AllOfSize(vs, |acc|)
    ensures |r| == |acc|
    decreases |vs|
  {
    if vs == [] then acc else FanIn(Add(acc, vs[0]), vs[1..])
  }

  /** The fold keeps the size of its start value and adds every vector in at each position. */
  lemma {:induction false} FanInAt(acc: Vec, vs: seq<Vec>)
    requires AllOfSize(vs, |acc|)
    ensures |FanIn(acc, vs)| == |acc|
    ensures forall k :: 0 <= k < |acc| ==> FanIn(acc, vs)[k] == acc[k] + ColumnSum(vs, k)
    decreases |vs|
  {
    if vs != [] {
      FanInAt(Add(acc, vs[0]), vs[1..]);
    }
  }

  /** Starting from zeros, the fan-in of a single vector is that vector. */
  lemma FanInSingle(shape: Shape, v: Vec)
    requires |v| == Size(shape)
    ensures FanIn(Zeros(shape), [v]) == v
  {
    assert [v][1..] == [];
  }

  /** The fan-in does not depend on the order in which the channels are visited: swapping two neighbours changes nothing. */
  lemma {:induction false} FanInSwap(acc: Vec, vs: seq<Vec>, i: nat)
    requires AllOfSize(vs, |acc|)
    requires i + 1 < |vs|
    ensures AllOfSize(vs[..i] + [vs[i + 1], vs[i]] + vs[i + 2..], |acc|)
    ensures FanIn(acc, vs[..i] + [vs[i + 1], vs[i]] + vs[i + 2..]) == FanIn(acc, vs)
  {
    var ws := vs[..i] + [vs[i + 1], vs[i]] + vs[i + 2..];
    assert |ws| == |vs|;
    assert forall j :: 0 <= j < |ws| ==> ws[j] == if j == i then vs[i + 1] else if j == i + 1 then vs[i] else vs[j];
    FanInAt(acc, vs);
    FanInAt(acc, ws);
    forall k | 0 <= k < |acc|
      ensures FanIn(acc, ws)[k] == FanIn(acc, vs)[k]
    {
      ColumnSumSwap(vs, ws, i, k);
    }
  }

  lemma {:induction false} ColumnSumSwap(vs: seq<Vec>, ws: seq<Vec>, i: nat, k: nat)
    requires i + 1 < |vs| == |ws|
    requires forall j :: 0 <= j < |ws| ==> ws[j] == if j == i then vs[i + 1] else if j == i + 1 then vs[i] else vs[j]
    requires forall j :: 0 <= j < |vs| ==> k < |vs[j]|
    ensures forall j :: 0 <= j < |ws| ==> k < |ws[j]|
    ensures ColumnSum(ws, k) == ColumnSum(vs, k)
  {
    assert forall j :: 0 <= j < |ws| ==> k < |ws[j]| by {
      forall j | 0 <= j < |ws| ensures k < |ws[j]| {
        if j == i { assert ws[j] == vs[i + 1]; }
        else if j == i + 1 { assert ws[j] == vs[i]; }
        else { assert ws[j] == vs[j]; }
      }
    }
    if i == 0 {
      assert |ws[2..]| == |vs[2..]|;
      forall j | 0 <= j < |ws[2..]| ensures ws[2..][j] == vs[2..][j] {
        assert ws[j + 2] == vs[j + 2];
      }
      assert ws[2..] == vs[2..];
      assert ws[1..][1..] == ws[2..] && vs[1..][1..] == vs[2..];
      assert ColumnSum(ws, k) == ws[0][k] + (ws[1][k] + ColumnSum(ws[2..], k));
      assert ColumnSum(vs, k) == vs[0][k] + (vs[1][k] + ColumnSum(vs[2..], k));
    } else {
      assert forall j :: 0 <= j < |ws[1..]| ==> ws[1..][j] == ws[j + 1] && vs[1..][j] == vs[j + 1];
      ColumnSumSwap(vs[1..], ws[1..], i - 1, k);
      assert ws[0] == vs[0];
    }
  }
}
