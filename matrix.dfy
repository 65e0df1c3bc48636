/** The small dense-matrix helpers behind the Kalman filter. A matrix is a list of rows. */
module Matrices {

  type Matrix = seq<seq<real>>

  /** A has m rows of n entries each. */
  predicate IsMatrix(A: Matrix, m: nat, n: nat)
  {
    |A| == m && forall i :: 0 <= i < m ==> |A[i]| == n
  }

  /** The n-by-n matrix with `scale` on the diagonal and zeros elsewhere. */
  function Identity(n: nat, scale: real): (I: Matrix)
    ensures IsMatrix(I, n, n)
    ensures forall i, j :: 0 <= i < n && 0 <= j < n ==> I[i][j] == if i == j then scale else 0.0
  {
    seq(n, i => seq(n, j => if i == j then scale else 0.0))
  }

  /** Rows become columns; the column count is read off the first row. */
  function Transpose(A: Matrix): (T: Matrix)
    requires |A| > 0 && IsMatrix(A, |A|, |A[0]|)
    ensures IsMatrix(T, |A[0]|, |A|)
    ensures forall i, j :: 0 <= i < |A[0]| && 0 <= j < |A| ==> T[i][j] == A[j][i]
  {
    seq(|A[0]|, c requires 0 <= c < |A[0]| => seq(|A|, r requires 0 <= r < |A| => A[r][c]))
  }

  /** B has A's shape: the same number of rows, row by row of the same length. */
  predicate SameShape(A: Matrix, B: Matrix)
  {
    |A| == |B| && forall i :: 0 <= i < |A| ==> |A[i]| == |B[i]|
  }

  /** Entry-wise sum. */
  function Add(A: Matrix, B: Matrix): (S: Matrix)
    requires SameShape(A, B)
    ensures SameShape(S, A)
    ensures forall i, j :: 0 <= i < |A| && 0 <= j < |A[i]| ==> S[i][j] - B[i][j] == A[i][j]
  {
    seq(|A|, i requires 0 <= i < |A| => seq(|A[i]|, j requires 0 <= j < |A[i]| => A[i][j] + B[i][j]))
  }

  /** Entry-wise difference. */
  function Sub(A: Matrix, B: Matrix): (D: Matrix)
    requires SameShape(A, B)
    ensures SameShape(D, A)
    ensures forall i, j :: 0 <= i < |A| && 0 <= j < |A[i]| ==> D[i][j] + B[i][j] == A[i][j]
  {
    seq(|A|, i requires 0 <= i < |A| => seq(|A[i]|, j requires 0 <= j < |A[i]| => A[i][j] - B[i][j]))
  }

  /** A can multiply B: both non-empty, A rectangular with as many columns as B has rows, and
      B rectangular. */
  predicate Conformable(A: Matrix, B: Matrix)
  {
    |A| > 0 && |B| > 0 && IsMatrix(A, |A|, |B|) && IsMatrix(B, |B|, |B[0]|)
  }

  /** The first k terms of the inner product of row i of A with column j of B. */
  function Dot(A: Matrix, B: Matrix, i: nat, j: nat, k: nat): real
    requires Conformable(A, B) && i < |A| && j < |B[0]| && k <= |B|
  {
    if k == 0 then 0.0 else Dot(A, B, i, j, k - 1) + A[i][k - 1] * B[k - 1][j]
  }

  /** The matrix product: entry (i, j) is row i of A times column j of B. */
  function Product(A: Matrix, B: Matrix): (C: Matrix)
    requires Conformable(A, B)
    ensures IsMatrix(C, |A|, |B[0]|)
  {
    seq(|A|, i requires 0 <= i < |A| => seq(|B[0]|, j requires 0 <= j < |B[0]| => Dot(A, B, i, j, |B|)))
  }

  /** `matMul`: C starts at zero and, for each row i and each k, row k of B scaled by A[i][k]
      is added into row i of C. */
  method MatMul(A: Matrix, B: Matrix) returns (C: Matrix)
    requires Conformable(A, B)
    ensures C == Product(A, B)
  {
    var aR, aC, bC := |A|, |A[0]|, |B[0]|;
    C := seq(aR, _ => seq(bC, _ => 0.0));
    var i := 0;
    while i < aR
      invariant 0 <= i <= aR && IsMatrix(C, aR, bC)
      invariant forall r :: 0 <= r < i ==> C[r] == Product(A, B)[r]
      invariant forall r, c :: i <= r < aR && 0 <= c < bC ==> C[r][c] == 0.0
    {
      var k := 0;
      while k < aC
        invariant 0 <= k <= aC && IsMatrix(C, aR, bC)
        invariant forall r :: 0 <= r < i ==> C[r] == Product(A, B)[r]
        invariant forall r, c :: i < r < aR && 0 <= c < bC ==> C[r][c] == 0.0
        invariant forall c :: 0 <= c < bC ==> C[i][c] == Dot(A, B, i, c, k)
      {
        var aik := A[i][k];
        var j := 0;
        while j < bC
          invariant 0 <= j <= bC && IsMatrix(C, aR, bC)
          invariant forall r :: 0 <= r < i ==> C[r] == Product(A, B)[r]
          invariant forall r, c :: i < r < aR && 0 <= c < bC ==> C[r][c] == 0.0
          invariant forall c :: 0 <= c < j ==> C[i][c] == Dot(A, B, i, c, k + 1)
          invariant forall c :: j <= c < bC ==> C[i][c] == Dot(A, B, i, c, k)
        {
          C := C[i := C[i][j := C[i][j] + aik * B[k][j]]];
          j := j + 1;
        }
        k := k + 1;
      }
      assert C[i] == Product(A, B)[i];
      i := i + 1;
    }
  }

  /** Below this magnitude a 2-by-2 determinant counts as zero. */
  const SingularDet: real := 1e-12
  /** The stand-in inverse of a singular 2-by-2 matrix is this multiple of the identity. */
  const SingularInverseScale: real := 1e12

  function Det2(M: Matrix): real
    requires IsMatrix(M, 2, 2)
  {
    M[0][0] * M[1][1] - M[0][1] * M[1][0]
  }

  function Abs(x: real): real
  {
    if x < 0.0 then -x else x
  }

  /** `inv2x2`: the adjugate over the determinant, or 1e12 times the identity when the
      determinant is within 1e-12 of zero. */
  function Inv2x2(M: Matrix): (N: Matrix)
    requires IsMatrix(M, 2, 2)
    ensures IsMatrix(N, 2, 2)
    ensures Abs(Det2(M)) < SingularDet ==>
              N[0][0] == N[1][1] == SingularInverseScale && N[0][1] == N[1][0] == 0.0
    ensures Abs(Det2(M)) >= SingularDet ==>
              && Det2(M) * N[0][0] == M[1][1] && Det2(M) * N[0][1] == -M[0][1]
              && Det2(M) * N[1][0] == -M[1][0] && Det2(M) * N[1][1] == M[0][0]
  {
    var a, b, c, d := M[0][0], M[0][1], M[1][0], M[1][1];
    var det := Det2(M);
    if Abs(det) < SingularDet then [[SingularInverseScale, 0.0], [0.0, SingularInverseScale]]
    else
      TimesQuotient(d, det); TimesQuotient(-b, det); TimesQuotient(-c, det); TimesQuotient(a, det);
      [[d / det, -b / det], [-c / det, a / det]]
  }

  lemma TimesQuotient(a: real, det: real)
    requires det != 0.0
    ensures det * (a / det) == a
  {
  }

  /** Transposing twice gives back the matrix. */
  lemma TransposeInvolution(A: Matrix)
    requires |A| > 0 && |A[0]| > 0 && IsMatrix(A, |A|, |A[0]|)
    ensures Transpose(Transpose(A)) == A
  {
    var T := Transpose(A);
    var TT := Transpose(T);
    assert |TT| == |A|;
    forall r | 0 <= r < |A| ensures TT[r] == A[r] {
      assert |TT[r]| == |A[r]|;
    }
  }

  /** Subtracting B undoes adding B. */
  lemma SubUndoesAdd(A: Matrix, B: Matrix)
    requires SameShape(A, B)
    ensures Sub(Add(A, B), B) == A
  {
    var S := Add(A, B);
    var D := Sub(S, B);
    forall i | 0 <= i < |A| ensures D[i] == A[i] {
      forall j | 0 <= j < |A[i]| ensures D[i][j] == A[i][j] {
        assert S[i][j] == A[i][j] + B[i][j];
      }
    }
  }

  /** The identity's row i picks out row i. */
  lemma {:induction false} DotIdentity(I: Matrix, A: Matrix, i: nat, j: nat, k: nat)
    requires |A| > 0 && I == Identity(|A|, 1.0) && Conformable(I, A) && i < |A| && j < |A[0]| && k <= |A|
    ensures Dot(I, A, i, j, k) == if i < k then A[i][j] else 0.0
  {
    if k > 0 {
      DotIdentity(I, A, i, j, k - 1);
    }
  }

  /** The identity is a left unit of the product. */
  lemma IdentityLeftUnit(A: Matrix)
    requires |A| > 0 && IsMatrix(A, |A|, |A[0]|)
    ensures Conformable(Identity(|A|, 1.0), A)
    ensures Product(Identity(|A|, 1.0), A) == A
  {
    var I := Identity(|A|, 1.0);
    var C := Product(I, A);
    forall i | 0 <= i < |A| ensures C[i] == A[i] {
      forall j | 0 <= j < |A[0]| ensures C[i][j] == A[i][j] {
        DotIdentity(I, A, i, j, |A|);
      }
    }
  }

  /** Away from the singular threshold, Inv2x2 is a two-sided inverse; at the threshold it
      is 1e12 times the identity. */
  lemma Inv2x2Inverts(M: Matrix)
    requires IsMatrix(M, 2, 2)
    ensures Abs(Det2(M)) >= SingularDet ==>
              Product(Inv2x2(M), M) == Identity(2, 1.0) && Product(M, Inv2x2(M)) == Identity(2, 1.0)
    ensures Abs(Det2(M)) < SingularDet ==> Inv2x2(M) == Identity(2, SingularInverseScale)
  {
    if Abs(Det2(M)) >= SingularDet {
      Inv2x2Sided(M);
    } else {
      EqualEntries(Inv2x2(M), Identity(2, SingularInverseScale), 2, 2);
    }
  }

  lemma Inv2x2Sided(M: Matrix)
    requires IsMatrix(M, 2, 2) && Abs(Det2(M)) >= SingularDet
    ensures Product(Inv2x2(M), M) == Identity(2, 1.0) && Product(M, Inv2x2(M)) == Identity(2, 1.0)
  {
    Inv2x2Left(M);
    Inv2x2Right(M);
  }

  lemma Inv2x2Left(M: Matrix)
    requires IsMatrix(M, 2, 2) && Abs(Det2(M)) >= SingularDet
    ensures Product(Inv2x2(M), M) == Identity(2, 1.0)
  {
    var N := Inv2x2(M);
    var a, b, c, d := M[0][0], M[0][1], M[1][0], M[1][1];
    var det := Det2(M);
    assert N[0][0] == d / det && N[0][1] == -b / det && N[1][0] == -c / det && N[1][1] == a / det;
    LeftInverseEntries(a, b, c, d, det);
    var L := Product(N, M);
    Product2x2(N, M);
    assert L[0][0] == 1.0 && L[0][1] == 0.0 && L[1][0] == 0.0 && L[1][1] == 1.0;
    EqualEntries(L, Identity(2, 1.0), 2, 2);
  }

  lemma Inv2x2Right(M: Matrix)
    requires IsMatrix(M, 2, 2) && Abs(Det2(M)) >= SingularDet
    ensures Product(M, Inv2x2(M)) == Identity(2, 1.0)
  {
    var N := Inv2x2(M);
    var a, b, c, d := M[0][0], M[0][1], M[1][0], M[1][1];
    var det := Det2(M);
    assert N[0][0] == d / det && N[0][1] == -b / det && N[1][0] == -c / det && N[1][1] == a / det;
    RightInverseEntries(a, b, c, d, det);
    var R := Product(M, N);
    Product2x2(M, N);
    assert R[0][0] == 1.0 && R[0][1] == 0.0 && R[1][0] == 0.0 && R[1][1] == 1.0;
    EqualEntries(R, Identity(2, 1.0), 2, 2);
  }

  /** Matrices of one shape with the same entries are equal. */
  lemma EqualEntries(A: Matrix, B: Matrix, m: nat, n: nat)
    requires IsMatrix(A, m, n) && IsMatrix(B, m, n)
    requires forall i, j :: 0 <= i < m && 0 <= j < n ==> A[i][j] == B[i][j]
    ensures A == B
  {
    forall i | 0 <= i < m ensures A[i] == B[i] {
    }
  }

  /** An entry of a 2-by-2 product written out. */
  lemma Product2x2(A: Matrix, B: Matrix)
    requires IsMatrix(A, 2, 2) && IsMatrix(B, 2, 2)
    ensures Conformable(A, B)
    ensures forall i, j :: 0 <= i < 2 && 0 <= j < 2 ==> Product(A, B)[i][j] == A[i][0] * B[0][j] + A[i][1] * B[1][j]
  {
    forall i, j | 0 <= i < 2 && 0 <= j < 2 ensures Product(A, B)[i][j] == A[i][0] * B[0][j] + A[i][1] * B[1][j] {
      assert Dot(A, B, i, j, 1) == A[i][0] * B[0][j];
    }
  }

  lemma LeftInverseEntries(a: real, b: real, c: real, d: real, det: real)
    requires det == a * d - b * c && Abs(det) >= SingularDet
    ensures (d / det) * a + (-b / det) * c == 1.0
    ensures (d / det) * b + (-b / det) * d == 0.0
    ensures (-c / det) * a + (a / det) * c == 0.0
    ensures (-c / det) * b + (a / det) * d == 1.0
  {
  }

  lemma RightInverseEntries(a: real, b: real, c: real, d: real, det: real)
    requires det == a * d - b * c && Abs(det) >= SingularDet
    ensures a * (d / det) + b * (-c / det) == 1.0
    ensures a * (-b / det) + b * (a / det) == 0.0
    ensures c * (d / det) + d * (-c / det) == 0.0
    ensures c * (-b / det) + d * (a / det) == 1.0
  {
  }
}
