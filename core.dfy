/**
 * The numeric helpers of the `core` crate: 4x4 matrices with their named
 * constants, the exact identity test, the matrix product, the fixed-length
 * conversions, the comma-separated number reader and the conversion of a
 * matrix into the serialisable `Transform` record.
 *
 * Matrix entries are `real` where the crate has `f32`; rounding is not
 * modelled.
 */
module Core {
  import opened Wrappers
  import opened Strings

  const EMPTY_STR: string := ""

  predicate IsMatrix4(m: seq<seq<real>>) {
    |m| == 4 && forall r :: 0 <= r < 4 ==> |m[r]| == 4
  }

  /** A `[[f32; 4]; 4]`, row-major: `m[r][c]` is row `r`, column `c`. */
  type Matrix4 = m: seq<seq<real>> | IsMatrix4(m)
    witness [[0.0, 0.0, 0.0, 0.0], [0.0, 0.0, 0.0, 0.0], [0.0, 0.0, 0.0, 0.0], [0.0, 0.0, 0.0, 0.0]]

  const ZERO: Matrix4 :=
    [[0.0, 0.0, 0.0, 0.0], [0.0, 0.0, 0.0, 0.0], [0.0, 0.0, 0.0, 0.0], [0.0, 0.0, 0.0, 0.0]]

  const IDENTITY: Matrix4 :=
    [[1.0, 0.0, 0.0, 0.0], [0.0, 1.0, 0.0, 0.0], [0.0, 0.0, 1.0, 0.0], [0.0, 0.0, 0.0, 1.0]]

  datatype Vector4f = Vector4f(x: real, y: real, z: real, w: real)

  /** The serialised form of a matrix: one record per row. */
  datatype Transform = Transform(r0: Vector4f, r1: Vector4f, r2: Vector4f, r3: Vector4f)

  /**
   * What the crate's helpers can fail with. A token that is not a number is
   * an `Err` the caller propagates; a vector of the wrong length makes
   * `to_arr_3` and `to_arr_9` panic.
   */
  datatype Error = FloatFormat(token: string) | LengthMismatch(expected: nat, actual: nat) {
    predicate IsPanic() {
      LengthMismatch?
    }
  }

  /** Two matrices are equal when all their entries are. */
  lemma MatrixExt(a: Matrix4, b: Matrix4)
    requires forall r, c :: 0 <= r < 4 && 0 <= c < 4 ==> a[r][c] == b[r][c]
    ensures a == b
  {
    assert forall r :: 0 <= r < 4 ==> a[r] == b[r];
  }

  // ---------------------------------------------------------------------
  // is_4x4_identity

  /** Exact comparison with `IDENTITY`: no tolerance. */
  function Is4x4Identity(m: Matrix4): (b: bool)
    ensures b <==> forall r, c :: 0 <= r < 4 && 0 <= c < 4 ==> m[r][c] == (if r == c then 1.0 else 0.0)
  {
    if m == IDENTITY then true
    else
      assert exists r, c :: 0 <= r < 4 && 0 <= c < 4 && m[r][c] != IDENTITY[r][c] by {
        if forall r, c :: 0 <= r < 4 && 0 <= c < 4 ==> m[r][c] == IDENTITY[r][c] {
          MatrixExt(m, IDENTITY);
        }
      }
      false
  }

  /** The two cases the crate's tests pin down. */
  lemma IdentityTestCases()
    ensures !Is4x4Identity(ZERO)
    ensures Is4x4Identity(IDENTITY)
  {
    assert ZERO[0][0] != 1.0;
  }

  // ---------------------------------------------------------------------
  // multiply_4x4

  /** `xs[r][0] * ys[0][c] + ... + xs[r][k-1] * ys[k-1][c]`, summed left to right from zero. */
  function Dot(xs: Matrix4, ys: Matrix4, r: nat, c: nat, k: nat): real
    requires r < 4 && c < 4 && k <= 4
  {
    if k == 0 then 0.0 else Dot(xs, ys, r, c, k - 1) + xs[r][k - 1] * ys[k - 1][c]
  }

  /** The matrix product, entry by entry. */
  function Product(xs: Matrix4, ys: Matrix4): Matrix4 {
    seq(4, r requires 0 <= r < 4 => seq(4, c requires 0 <= c < 4 => Dot(xs, ys, r, c, 4)))
  }

  /** Entry `(r, c)` of the product is the sum over `i < 4` of `xs[r][i] * ys[i][c]`. */
  lemma ProductEntry(xs: Matrix4, ys: Matrix4, r: nat, c: nat)
    requires r < 4 && c < 4
    ensures Product(xs, ys)[r][c]
         == xs[r][0] * ys[0][c] + xs[r][1] * ys[1][c] + xs[r][2] * ys[2][c] + xs[r][3] * ys[3][c]
  {
    assert Product(xs, ys)[r][c] == Dot(xs, ys, r, c, 4);
    assert Dot(xs, ys, r, c, 1) == xs[r][0] * ys[0][c];
    assert Dot(xs, ys, r, c, 2) == Dot(xs, ys, r, c, 1) + xs[r][1] * ys[1][c];
    assert Dot(xs, ys, r, c, 3) == Dot(xs, ys, r, c, 2) + xs[r][2] * ys[2][c];
  }

  /**
   * The triple loop of the crate: `result` starts as `ZERO` and entry
   * `(r, c)` accumulates `xs[r][i] * ys[i][c]` for `i` from 0 to 3.
   */
  method Multiply4x4(xs: Matrix4, ys: Matrix4) returns (result: Matrix4)
    ensures result == Product(xs, ys)
  {
    var acc: seq<seq<real>> := ZERO;
    for r := 0 to 4
      invariant IsMatrix4(acc)
      invariant forall r', c' :: 0 <= r' < r && 0 <= c' < 4 ==> acc[r'][c'] == Dot(xs, ys, r', c', 4)
      invariant forall r', c' :: r <= r' < 4 && 0 <= c' < 4 ==> acc[r'][c'] == 0.0
    {
      for c := 0 to 4
        invariant IsMatrix4(acc)
        invariant forall r', c' :: 0 <= r' < r && 0 <= c' < 4 ==> acc[r'][c'] == Dot(xs, ys, r', c', 4)
        invariant forall c' :: 0 <= c' < c ==> acc[r][c'] == Dot(xs, ys, r, c', 4)
        invariant forall c' :: c <= c' < 4 ==> acc[r][c'] == 0.0
        invariant forall r', c' :: r < r' < 4 && 0 <= c' < 4 ==> acc[r'][c'] == 0.0
      {
        ghost var before := acc;
        for i := 0 to 4
          invariant IsMatrix4(acc)
          invariant acc[r][c] == Dot(xs, ys, r, c, i)
          invariant forall r', c' :: 0 <= r' < 4 && 0 <= c' < 4 && (r' != r || c' != c) ==> acc[r'][c'] == before[r'][c']
        {
          acc := acc[r := acc[r][c := acc[r][c] + xs[r][i] * ys[i][c]]];
        }
      }
    }
    result := acc;
    MatrixExt(result, Product(xs, ys));
  }

  /** Multiplying by `IDENTITY` on the left leaves a matrix unchanged. */
  lemma ProductIdentityLeft(a: Matrix4)
    ensures Product(IDENTITY, a) == a
  {
    forall r, c | 0 <= r < 4 && 0 <= c < 4
      ensures Product(IDENTITY, a)[r][c] == a[r][c]
    {
      ProductEntry(IDENTITY, a, r, c);
      assert r == 0 || r == 1 || r == 2 || r == 3;
    }
    MatrixExt(Product(IDENTITY, a), a);
  }

  /** Multiplying by `IDENTITY` on the right leaves a matrix unchanged. */
  lemma ProductIdentityRight(a: Matrix4)
    ensures Product(a, IDENTITY) == a
  {
    forall r, c | 0 <= r < 4 && 0 <= c < 4
      ensures Product(a, IDENTITY)[r][c] == a[r][c]
    {
      ProductEntry(a, IDENTITY, r, c);
      assert c == 0 || c == 1 || c == 2 || c == 3;
    }
    MatrixExt(Product(a, IDENTITY), a);
  }

  /** `ZERO` absorbs on either side. */
  lemma ProductZero(a: Matrix4)
    ensures Product(ZERO, a) == ZERO
    ensures Product(a, ZERO) == ZERO
  {
    forall r, c | 0 <= r < 4 && 0 <= c < 4
      ensures Product(ZERO, a)[r][c] == 0.0 && Product(a, ZERO)[r][c] == 0.0
    {
      ProductEntry(ZERO, a, r, c);
      ProductEntry(a, ZERO, r, c);
      assert r == 0 || r == 1 || r == 2 || r == 3;
      assert c == 0 || c == 1 || c == 2 || c == 3;
    }
    MatrixExt(Product(ZERO, a), ZERO);
    MatrixExt(Product(a, ZERO), ZERO);
  }

  /** The crate's three multiplication tests. */
  lemma MultiplyTestCases()
    ensures Product(ZERO, ZERO) == ZERO
    ensures Product(IDENTITY, IDENTITY) == IDENTITY
    ensures Product([[2.0, 1.0, 0.0, 0.0], [0.0, 3.0, 0.0, 0.0], [0.0, 1.0, 1.0, 0.0], [0.0, 0.0, 0.0, 1.0]],
                    [[1.0, 0.0, 0.0, 0.0], [0.0, 2.0, 0.0, 0.0], [0.0, 7.0, 4.0, 0.0], [0.0, 0.0, 0.0, 5.0]])
         == [[2.0, 2.0, 0.0, 0.0], [0.0, 6.0, 0.0, 0.0], [0.0, 9.0, 4.0, 0.0], [0.0, 0.0, 0.0, 5.0]]
  {
    ProductZero(ZERO);
    ProductIdentityLeft(IDENTITY);
    var a: Matrix4 := [[2.0, 1.0, 0.0, 0.0], [0.0, 3.0, 0.0, 0.0], [0.0, 1.0, 1.0, 0.0], [0.0, 0.0, 0.0, 1.0]];
    var b: Matrix4 := [[1.0, 0.0, 0.0, 0.0], [0.0, 2.0, 0.0, 0.0], [0.0, 7.0, 4.0, 0.0], [0.0, 0.0, 0.0, 5.0]];
    var p: Matrix4 := [[2.0, 2.0, 0.0, 0.0], [0.0, 6.0, 0.0, 0.0], [0.0, 9.0, 4.0, 0.0], [0.0, 0.0, 0.0, 5.0]];
    forall r, c | 0 <= r < 4 && 0 <= c < 4
      ensures Product(a, b)[r][c] == p[r][c]
    {
      ProductEntry(a, b, r, c);
      assert r == 0 || r == 1 || r == 2 || r == 3;
      assert c == 0 || c == 1 || c == 2 || c == 3;
    }
    MatrixExt(Product(a, b), p);
  }

  /** A matrix whose bottom row is `[0, 0, 0, 1]`: a homogeneous affine map. */
  predicate IsAffine(m: Matrix4) {
    m[3] == [0.0, 0.0, 0.0, 1.0]
  }

  /** The product of two affine matrices is affine. */
  lemma ProductAffine(a: Matrix4, b: Matrix4)
    requires IsAffine(a) && IsAffine(b)
    ensures IsAffine(Product(a, b))
  {
    forall c | 0 <= c < 4
      ensures Product(a, b)[3][c] == b[3][c]
    {
      ProductEntry(a, b, 3, c);
    }
  }

  // ---------------------------------------------------------------------
  // to_arr_3, to_arr_9

  /** `Vec<T>` into `[T; 3]`: succeeds, keeping the elements in order, only on length 3. */
  function ToArr3<T>(v: seq<T>): (r: Result<seq<T>, Error>)
    ensures r.Success? <==> |v| == 3
    ensures r.Success? ==> r.value == v
    ensures r.Failure? ==> r.error == LengthMismatch(3, |v|) && r.error.IsPanic()
  {
    if |v| == 3 then Success(v) else Failure(LengthMismatch(3, |v|))
  }

  /** `Vec<T>` into `[T; 9]`: succeeds, keeping the elements in order, only on length 9. */
  function ToArr9<T>(v: seq<T>): (r: Result<seq<T>, Error>)
    ensures r.Success? <==> |v| == 9
    ensures r.Success? ==> r.value == v
    ensures r.Failure? ==> r.error == LengthMismatch(9, |v|) && r.error.IsPanic()
  {
    if |v| == 9 then Success(v) else Failure(LengthMismatch(9, |v|))
  }

  // ---------------------------------------------------------------------
  // to_float_arr

  /**
   * Reads each token with `parse` (Rust's `f32` parser, a parameter here),
   * stopping at the first token that is not a number.
   */
  function ParseTokens(tokens: seq<string>, parse: string -> Option<real>): (r: Result<seq<real>, Error>)
    ensures r.Success? <==> forall k :: 0 <= k < |tokens| ==> parse(tokens[k]).Some?
    ensures r.Success? ==> |r.value| == |tokens|
    ensures r.Success? ==> forall k :: 0 <= k < |tokens| ==> r.value[k] == parse(tokens[k]).value
    ensures r.Failure? ==>
      exists k :: 0 <= k < |tokens| && parse(tokens[k]).None? && r.error == FloatFormat(tokens[k])
               && forall j :: 0 <= j < k ==> parse(tokens[j]).Some?
  {
    if tokens == [] then Success([])
    else match parse(tokens[0])
      case None => Failure(FloatFormat(tokens[0]))
      case Some(f) =>
        match ParseTokens(tokens[1..], parse)
        case Failure(e) => Failure(e)
        case Success(fs) => Success([f] + fs)
  }

  /** What `to_float_arr(a)` returns: the numbers between the commas of `a`. */
  function FloatArr(a: string, parse: string -> Option<real>): Result<seq<real>, Error> {
    ParseTokens(Split(a, ','), parse)
  }

  /** On success there is one number per comma-separated token: the comma count plus one. */
  lemma FloatArrLength(a: string, parse: string -> Option<real>)
    requires FloatArr(a, parse).Success?
    ensures |FloatArr(a, parse).value| == Occurrences(a, ',') + 1
  {
    SplitLength(a, ',');
  }

  /** The loop of `to_float_arr`: push each parsed token, return early on the first failure. */
  method ToFloatArr(a: string, parse: string -> Option<real>) returns (r: Result<seq<real>, Error>)
    ensures r == FloatArr(a, parse)
  {
    var parts := Split(a, ',');
    var fs: seq<real> := [];
    for k := 0 to |parts|
      invariant |fs| == k
      invariant forall j :: 0 <= j < k ==> parse(parts[j]).Some? && fs[j] == parse(parts[j]).value
    {
      var f := parse(parts[k]);
      if f.None? {
        return Failure(FloatFormat(parts[k]));
      }
      fs := fs + [f.value];
    }
    r := Success(fs);
    assert r.value == FloatArr(a, parse).value;
  }

  // ---------------------------------------------------------------------
  // to_transform

  function RowVector(row: seq<real>): Vector4f
    requires |row| == 4
  {
    Vector4f(row[0], row[1], row[2], row[3])
  }

  function VectorRow(v: Vector4f): seq<real> {
    [v.x, v.y, v.z, v.w]
  }

  /** The matrix a `Transform` record stands for. */
  function TransformMatrix(t: Transform): Matrix4 {
    [VectorRow(t.r0), VectorRow(t.r1), VectorRow(t.r2), VectorRow(t.r3)]
  }

  /** Row `k` of the matrix becomes `r_k`, its columns `x, y, z, w`; nothing is lost. */
  function ToTransform(m: Matrix4): (t: Transform)
    ensures TransformMatrix(t) == m
  {
    assert forall k :: 0 <= k < 4 ==> VectorRow(RowVector(m[k])) == m[k];
    Transform(RowVector(m[0]), RowVector(m[1]), RowVector(m[2]), RowVector(m[3]))
  }

  /** Every record is the conversion of exactly one matrix. */
  lemma ToTransformOfMatrix(t: Transform)
    ensures ToTransform(TransformMatrix(t)) == t
  {
  }

  /** The record of an affine matrix has `r3 = (0, 0, 0, 1)`. */
  lemma AffineTransformRecord(m: Matrix4)
    requires IsAffine(m)
    ensures ToTransform(m).r3 == Vector4f(0.0, 0.0, 0.0, 1.0)
  {
  }
}
