// Dense real matrices as sequences of rows, the schoolbook product that
// `multiply` computes and the repeated product that `power` computes.
module Matrices {
  import opened Sums

  type Matrix = seq<seq<real>>

  /** m has `rows` rows of exactly `cols` entries each. */
  predicate IsMatrix(m: Matrix, rows: nat, cols: nat)
  {
    |m| == rows && forall r :: 0 <= r < rows ==> |m[r]| == cols
  }

  predicate IsSquare(m: Matrix)
  {
    |m| > 0 && IsMatrix(m, |m|, |m|)
  }

  /** What `multiply(a, b)` needs to run without touching a missing row:
      both operands non-empty and rectangular, and as many rows in b as a
      has columns (extra rows of b are never read). */
  predicate Conformable(a: Matrix, b: Matrix)
  {
    |a| > 0 && |b| > 0 && IsMatrix(a, |a|, |a[0]|) && IsMatrix(b, |b|, |b[0]|) && |a[0]| <= |b|
  }

  /** v[0] * b[0][c] + ... + v[|v|-1] * b[|v|-1][c], accumulated from the
      left as the innermost loop of `multiply` does. */
  function Dot(v: seq<real>, b: Matrix, c: nat): real
    requires |v| <= |b| && forall i :: 0 <= i < |v| ==> c < |b[i]|
  {
    if |v| == 0 then 0.0 else Dot(v[..|v| - 1], b, c) + v[|v| - 1] * b[|v| - 1][c]
  }

  /** The row vector v times the first |v| rows of b, keeping `cols` columns. */
  function VecMat(v: seq<real>, b: Matrix, cols: nat): (u: seq<real>)
    requires |v| <= |b| && forall i :: 0 <= i < |v| ==> cols <= |b[i]|
    ensures |u| == cols
  {
    seq(cols, c requires 0 <= c < cols => Dot(v, b, c))
  }

  /** The matrix product: entry (r, c) is the dot product of row r of a with
      column c of b. */
  function MatMul(a: Matrix, b: Matrix): (m: Matrix)
    requires Conformable(a, b)
    ensures IsMatrix(m, |a|, |b[0]|)
  {
    seq(|a|, r requires 0 <= r < |a| => VecMat(a[r], b, |b[0]|))
  }

  /** `multiply(a, b)`: three nested loops, the innermost accumulating into
      one cell. */
  method Multiply(a: Matrix, b: Matrix) returns (m: Matrix)
    requires Conformable(a, b)
    ensures IsMatrix(m, |a|, |b[0]|)
    ensures forall r, c :: 0 <= r < |a| && 0 <= c < |b[0]| ==> m[r][c] == Dot(a[r], b, c)
    ensures m == MatMul(a, b)
  {
    var aNumRows, aNumCols, bNumCols := |a|, |a[0]|, |b[0]|;
    m := [];
    var r := 0;
    while r < aNumRows
      invariant 0 <= r <= aNumRows
      invariant IsMatrix(m, r, bNumCols)
      invariant forall r', c :: 0 <= r' < r && 0 <= c < bNumCols ==> m[r'][c] == Dot(a[r'], b, c)
    {
      var row: seq<real> := [];
      var c := 0;
      while c < bNumCols
        invariant 0 <= c <= bNumCols
        invariant |row| == c
        invariant forall c' :: 0 <= c' < c ==> row[c'] == Dot(a[r], b, c')
      {
        var cell := 0.0;
        var i := 0;
        while i < aNumCols
          invariant 0 <= i <= aNumCols
          invariant cell == Dot(a[r][..i], b, c)
        {
          assert a[r][..i + 1][..i] == a[r][..i];
          cell := cell + a[r][i] * b[i][c];
          i := i + 1;
        }
        assert a[r][..i] == a[r];
        row := row + [cell];
        c := c + 1;
      }
      m := m + [row];
      r := r + 1;
    }
    forall r' | 0 <= r' < aNumRows ensures m[r'] == MatMul(a, b)[r'] { }
  }

  /** `power(a, n)` as written: a itself when n <= 1, otherwise n - 1
      products a * a * ... * a taken from the left. */
  function MatPow(a: Matrix, n: int): (m: Matrix)
    requires n <= 1 || Conformable(a, a)
    ensures Conformable(a, a) ==> IsMatrix(m, |a|, |a[0]|)
    decreases n
  {
    if n <= 1 then a else MatMul(MatPow(a, n - 1), a)
  }

  /** `power(a, n)`: reassigns the running product n - 1 times. */
  method Power(a: Matrix, n: int) returns (newmat: Matrix)
    requires n <= 1 || Conformable(a, a)
    ensures newmat == MatPow(a, n)
  {
    newmat := a;
    var i := 0;
    while i < n - 1
      invariant 0 <= i <= (if n >= 1 then n - 1 else 0)
      invariant newmat == MatPow(a, i + 1)
    {
      newmat := Multiply(newmat, a);
      i := i + 1;
    }
  }

  function Identity(n: nat): (m: Matrix)
    ensures IsMatrix(m, n, n)
  {
    seq(n, r requires 0 <= r < n => seq(n, c requires 0 <= c < n => if r == c then 1.0 else 0.0))
  }

  /** The mathematical power: the identity for n = 0. */
  function TruePow(a: Matrix, n: nat): (m: Matrix)
    requires IsSquare(a)
    ensures IsMatrix(m, |a|, |a|)
  {
    if n == 0 then Identity(|a|) else MatMul(TruePow(a, n - 1), a)
  }

  // ----- Dot products with many zero terms -----

  lemma {:induction false} DotZero(v: seq<real>, b: Matrix, c: nat)
    requires |v| <= |b| && forall i :: 0 <= i < |v| ==> c < |b[i]|
    requires forall i :: 0 <= i < |v| ==> v[i] == 0.0 || b[i][c] == 0.0
    ensures Dot(v, b, c) == 0.0
    decreases |v|
  {
    if |v| > 0 {
      DotZero(v[..|v| - 1], b, c);
    }
  }

  lemma {:induction false} DotNonNegative(v: seq<real>, b: Matrix, c: nat)
    requires |v| <= |b| && forall i :: 0 <= i < |v| ==> c < |b[i]|
    requires forall i :: 0 <= i < |v| ==> 0.0 <= v[i] && 0.0 <= b[i][c]
    ensures Dot(v, b, c) >= 0.0
    decreases |v|
  {
    if |v| > 0 {
      DotNonNegative(v[..|v| - 1], b, c);
    }
  }

  /** A unit row vector picks out one row of b. */
  lemma {:induction false} DotUnit(v: seq<real>, b: Matrix, c: nat, k: nat)
    requires |v| <= |b| && forall i :: 0 <= i < |v| ==> c < |b[i]|
    requires k < |v| && v[k] == 1.0 && forall i :: 0 <= i < |v| && i != k ==> v[i] == 0.0
    ensures Dot(v, b, c) == b[k][c]
    decreases |v|
  {
    var n := |v| - 1;
    if n == k {
      DotZero(v[..n], b, c);
    } else {
      DotUnit(v[..n], b, c, k);
    }
  }

  /** When column c of b is zero outside rows c-1 and c, only two terms of
      the dot product survive. */
  lemma {:induction false} DotBidiagonal(v: seq<real>, b: Matrix, c: nat)
    requires |v| <= |b| && forall i :: 0 <= i < |v| ==> c < |b[i]|
    requires c < |v|
    requires forall i :: 0 <= i < |v| && i + 1 != c && i != c ==> b[i][c] == 0.0
    ensures Dot(v, b, c) == v[c] * b[c][c] + (if c == 0 then 0.0 else v[c - 1] * b[c - 1][c])
    decreases |v|
  {
    var n := |v| - 1;
    if n > c {
      DotBidiagonal(v[..n], b, c);
    } else if c == 0 {
      assert v[..n] == [];
    } else {
      var w := v[..n];
      DotZero(w[..c - 1], b, c);
      assert w[..c - 1] == v[..c - 1];
    }
  }

  // ----- Row-stochastic and upper-triangular matrices -----

  /** Every entry is non-negative and every row sums to one. */
  predicate Stochastic(m: Matrix, n: nat)
  {
    IsMatrix(m, n, n) &&
    (forall r :: 0 <= r < n ==> NonNegative(m[r]) && Sum(m[r]) == 1.0)
  }

  /** Every entry below the diagonal is zero. */
  predicate UpperTriangular(m: Matrix, n: nat)
  {
    IsMatrix(m, n, n) && forall r, c :: 0 <= c < r < n ==> m[r][c] == 0.0
  }

  /** Multiplying a row vector by a row-stochastic matrix keeps its total mass. */
  lemma {:induction false} VecMatKeepsMass(v: seq<real>, b: Matrix, n: nat)
    requires |v| <= |b| && forall i :: 0 <= i < |v| ==> |b[i]| == n && Sum(b[i]) == 1.0
    ensures Sum(VecMat(v, b, n)) == Sum(v)
    decreases |v|
  {
    if |v| == 0 {
      SumOfZeros(VecMat(v, b, n));
    } else {
      var k := |v| - 1;
      var u := VecMat(v[..k], b, n);
      var s := VecMat(v, b, n);
      VecMatKeepsMass(v[..k], b, n);
      SumLinear(s, u, b[k], v[k]);
    }
  }

  lemma MulStochastic(a: Matrix, b: Matrix, n: nat)
    requires n > 0 && Stochastic(a, n) && Stochastic(b, n)
    ensures Stochastic(MatMul(a, b), n)
  {
    var m := MatMul(a, b);
    forall r | 0 <= r < n
      ensures NonNegative(m[r]) && Sum(m[r]) == 1.0
    {
      forall c | 0 <= c < n
        ensures 0.0 <= m[r][c]
      {
        DotNonNegative(a[r], b, c);
      }
      VecMatKeepsMass(a[r], b, n);
    }
  }

  lemma MulUpperTriangular(a: Matrix, b: Matrix, n: nat)
    requires n > 0 && UpperTriangular(a, n) && UpperTriangular(b, n)
    ensures UpperTriangular(MatMul(a, b), n)
  {
    forall r, c | 0 <= c < r < n
      ensures MatMul(a, b)[r][c] == 0.0
    {
      DotZero(a[r], b, c);
    }
  }

  /** The identity is a left unit of the product. */
  lemma IdentityLeft(a: Matrix)
    requires |a| > 0 && IsMatrix(a, |a|, |a[0]|)
    ensures MatMul(Identity(|a|), a) == a
  {
    var m := MatMul(Identity(|a|), a);
    forall r | 0 <= r < |a|
      ensures m[r] == a[r]
    {
      forall c | 0 <= c < |a[0]|
        ensures m[r][c] == a[r][c]
      {
        DotUnit(Identity(|a|)[r], a, c, r);
      }
    }
  }

  lemma {:induction false} PowStochastic(a: Matrix, n: int, k: nat)
    requires k > 0 && Stochastic(a, k)
    ensures Stochastic(MatPow(a, n), k)
    decreases n
  {
    if n > 1 {
      PowStochastic(a, n - 1, k);
      MulStochastic(MatPow(a, n - 1), a, k);
    }
  }

  lemma {:induction false} PowUpperTriangular(a: Matrix, n: int, k: nat)
    requires k > 0 && UpperTriangular(a, k)
    ensures UpperTriangular(MatPow(a, n), k)
    decreases n
  {
    if n > 1 {
      PowUpperTriangular(a, n - 1, k);
      MulUpperTriangular(MatPow(a, n - 1), a, k);
    }
  }

  /** `power(a, n)` is the true power a^max(1, n): it performs max(0, n - 1)
      products, so for n = 0 it returns a rather than the identity. */
  lemma {:induction false} PowerIsTruePower(a: Matrix, n: int)
    requires IsSquare(a)
    ensures MatPow(a, n) == TruePow(a, if n <= 1 then 1 else n)
    ensures n <= 0 ==> (MatPow(a, n) == TruePow(a, 0) <==> a == Identity(|a|))
    decreases n
  {
    if n <= 1 {
      IdentityLeft(a);
    } else {
      PowerIsTruePower(a, n - 1);
    }
  }

  /** Powers of the identity are the identity. */
  lemma {:induction false} PowIdentity(n: nat, e: int)
    requires n > 0
    ensures MatPow(Identity(n), e) == Identity(n)
    decreases e
  {
    if e > 1 {
      PowIdentity(n, e - 1);
      IdentityLeft(Identity(n));
    }
  }
}
