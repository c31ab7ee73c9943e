/**
 * Index arithmetic of a strided n-dimensional array (src/python/numpy.rs):
 * the size of a shape, the row-major decomposition of a flat index into a
 * multi-index, and the offset that the strides give to that multi-index.
 *
 * All recursions peel the LAST dimension, as `offset_of` does.
 */
module Strides {

  /** The number of elements of an array of this shape: the product of its dimensions. */
  function Size(shape: seq<nat>): nat
  {
    if |shape| == 0 then 1 else Size(shape[..|shape| - 1]) * shape[|shape| - 1]
  }

  /** Appending a dimension multiplies the size by it. */
  lemma SizeAppend(shape: seq<nat>, m: nat)
    ensures Size(shape + [m]) == Size(shape) * m
  {
    assert (shape + [m])[..|shape|] == shape;
  }

  lemma MulPos(a: nat, b: nat)
    requires a > 0 && b > 0
    ensures a * b > 0
  {
  }

  /** `size()` is 0 exactly when some dimension is 0. */
  lemma {:induction false} SizeZeroIff(shape: seq<nat>)
    ensures Size(shape) == 0 <==> exists i :: 0 <= i < |shape| && shape[i] == 0
  {
    if |shape| > 0 {
      var n := |shape| - 1;
      var front := shape[..n];
      SizeZeroIff(front);
      if Size(shape) == 0 {
        if Size(front) != 0 && shape[n] != 0 {
          MulPos(Size(front), shape[n]);
        }
        if Size(front) == 0 {
          var i :| 0 <= i < |front| && front[i] == 0;
          assert shape[i] == 0;
        }
      } else {
        forall i | 0 <= i < |shape| ensures shape[i] != 0 {
          if i < n {
            assert shape[i] == front[i];
          }
        }
      }
    }
  }

  lemma PosFactor(index: nat, p: nat, m: nat)
    requires index < p * m
    ensures m > 0
  {
  }

  lemma MulLtCancel(m: int, q: int, p: int)
    requires m > 0 && m * q < m * p
    ensures q < p
  {
  }

  /** Euclidean division has a unique quotient and remainder. */
  lemma DivUnique(x: int, m: int, q: int, r: int)
    requires m > 0 && 0 <= r < m && x == q * m + r
    ensures x / m == q && x % m == r
  {
    var q', r' := x / m, x % m;
    assert x == m * q' + r';
    assert m * (q - q') == r' - r;
    assert m * (q - q') < m * 1;
    MulLtCancel(m, q - q', 1);
    assert m * (-1) < m * (q - q');
    MulLtCancel(m, -1, q - q');
  }

  lemma DivBound(index: nat, p: nat, m: nat)
    requires index < p * m
    ensures m > 0 && index / m < p && index % m < m
  {
    PosFactor(index, p, m);
    MulLtCancel(m, index / m, p);
  }

  /**
   * The row-major multi-index (j0, ..., jn-1) of a flat index: the last
   * dimension varies fastest.
   */
  function Digits(shape: seq<nat>, index: nat): (d: seq<nat>)
    requires index < Size(shape)
    ensures |d| == |shape|
  {
    if |shape| == 0 then []
    else
      var n := |shape| - 1;
      var m := shape[n];
      DivBound(index, Size(shape[..n]), m);
      Digits(shape[..n], index / m) + [index % m]
  }

  /** The flat row-major index of a multi-index: the inverse of Digits. */
  function FlatIndex(shape: seq<nat>, d: seq<nat>): int
    requires |d| == |shape|
  {
    if |shape| == 0 then 0
    else
      var n := |shape| - 1;
      FlatIndex(shape[..n], d[..n]) * shape[n] + d[n]
  }

  /** A multi-index whose every digit is below its dimension. */
  ghost predicate InBounds(shape: seq<nat>, d: seq<nat>)
  {
    |d| == |shape| && forall i :: 0 <= i < |d| ==> d[i] < shape[i]
  }

  /** The dot product of a multi-index with the strides. */
  function Dot(d: seq<nat>, strides: seq<int>): int
    requires |d| == |strides|
  {
    if |d| == 0 then 0
    else
      var n := |d| - 1;
      Dot(d[..n], strides[..n]) + d[n] * strides[n]
  }

  /** The offset that `offset_of` computes for a flat index. */
  function Offset(shape: seq<nat>, strides: seq<int>, index: nat): int
    requires |strides| == |shape| && index < Size(shape)
  {
    if |shape| == 0 then 0 else Dot(Digits(shape, index), strides)
  }

  lemma DivMod(index: nat, m: nat)
    requires m > 0
    ensures index == (index / m) * m + index % m
    ensures (index - index % m) / m == index / m
  {
    DivUnique(index - index % m, m, index / m, 0);
  }

  /** Digits yields in-range digits that recompose the index. */
  lemma {:induction false} DigitsSound(shape: seq<nat>, index: nat)
    requires index < Size(shape)
    ensures InBounds(shape, Digits(shape, index))
    ensures FlatIndex(shape, Digits(shape, index)) == index
  {
    if |shape| > 0 {
      var n := |shape| - 1;
      var m := shape[n];
      var front := shape[..n];
      DivBound(index, Size(front), m);
      DigitsSound(front, index / m);
      var d := Digits(shape, index);
      assert d == Digits(front, index / m) + [index % m];
      assert d[..n] == Digits(front, index / m);
      forall i | 0 <= i < |d| ensures d[i] < shape[i] {
        if i < n {
          assert d[i] == d[..n][i];
          assert shape[i] == front[i];
        }
      }
      DivMod(index, m);
    }
  }

  lemma FlatIndexBound(front: int, p: nat, m: nat, last: nat)
    requires 0 <= front < p && last < m
    ensures 0 <= front * m + last < p * m
  {
    assert front * m <= (p - 1) * m;
  }

  lemma FlatDivMod(q: nat, m: nat, r: nat)
    requires r < m
    ensures (q * m + r) / m == q && (q * m + r) % m == r
  {
    DivUnique(q * m + r, m, q, r);
  }

  /** Every in-range multi-index is the decomposition of its flat index. */
  lemma {:induction false} DigitsComplete(shape: seq<nat>, d: seq<nat>)
    requires InBounds(shape, d)
    ensures 0 <= FlatIndex(shape, d) < Size(shape)
    ensures Digits(shape, FlatIndex(shape, d) as nat) == d
  {
    if |shape| > 0 {
      var n := |shape| - 1;
      var m := shape[n];
      var front := shape[..n];
      assert InBounds(front, d[..n]) by {
        forall i | 0 <= i < n ensures d[..n][i] < front[i] {
          assert d[..n][i] == d[i] && front[i] == shape[i];
        }
      }
      DigitsComplete(front, d[..n]);
      var q := FlatIndex(front, d[..n]);
      FlatIndexBound(q, Size(front), m, d[n]);
      FlatDivMod(q, m, d[n]);
      assert d == d[..n] + [d[n]];
    }
  }

  /**
   * The strides of a C-contiguous array whose items are `itemsize` apart:
   * stride i is itemsize times the product of the dimensions after i.
   */
  function CStrides(shape: seq<nat>, itemsize: int): (s: seq<int>)
    ensures |s| == |shape|
  {
    if |shape| == 0 then []
    else
      var n := |shape| - 1;
      CStrides(shape[..n], itemsize * shape[n]) + [itemsize]
  }

  lemma {:induction false} DotCStrides(shape: seq<nat>, d: seq<nat>, itemsize: int)
    requires |d| == |shape|
    ensures Dot(d, CStrides(shape, itemsize)) == itemsize * FlatIndex(shape, d)
  {
    if |shape| > 0 {
      var n := |shape| - 1;
      var m := shape[n];
      var s := CStrides(shape, itemsize);
      assert s[..n] == CStrides(shape[..n], itemsize * m);
      DotCStrides(shape[..n], d[..n], itemsize * m);
      var f := FlatIndex(shape[..n], d[..n]);
      assert Dot(d, s) == Dot(d[..n], s[..n]) + d[n] * itemsize;
      assert FlatIndex(shape, d) == f * m + d[n];
      Regroup(itemsize, m, f, d[n]);
    }
  }

  lemma Regroup(a: int, m: int, f: int, x: int)
    ensures (a * m) * f + x * a == a * (f * m + x)
  {
    assert (a * m) * f == a * (f * m);
  }

  /** For C-contiguous strides the offset of a flat index is index * itemsize. */
  lemma ContiguousOffset(shape: seq<nat>, itemsize: int, index: nat)
    requires index < Size(shape)
    ensures Offset(shape, CStrides(shape, itemsize), index) == index * itemsize
  {
    if |shape| > 0 {
      DotCStrides(shape, Digits(shape, index), itemsize);
      DigitsSound(shape, index);
    }
  }

  /** Products grow with their left factor. */
  lemma MulMono(a: nat, b: nat, m: nat)
    requires a <= b
    ensures a * m <= b * m
  {
  }

  /** The row after row i of width m starts at (i + 1) * m and ends within n rows. */
  lemma MulStep(i: nat, n: nat, m: nat)
    requires i < n
    ensures (i + 1) * m == i * m + m && i * m + m <= n * m
  {
    MulMono(i + 1, n, m);
  }
}
