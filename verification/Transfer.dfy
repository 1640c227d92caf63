// Turning one model's keys and values into another's: rotary embedding in and out of content space, and
// per-layer affine maps over flattened heads.
module Transfer {
  import opened Wrappers
  import opened Reference
  import opened Softmax
  import opened Portable

  // ---------- rotary embedding ----------

  // The rotary tables at one position.
  datatype Rope = Rope(cos: Vec, sin: Vec)

  // (-x2, x1) of the two halves.
  function RotateHalf(x: Vec): (r: Vec)
    ensures |r| == |x|
  {
    var h := |x| / 2;
    seq(|x|, i requires 0 <= i < |x| => if i < |x| - h then -At(x, i + h) else x[i - h])
  }

  function ApplyRope(x: Vec, rope: Rope): (y: Vec)
    ensures |y| == |x|
  {
    seq(|x|, i requires 0 <= i < |x| => x[i] * At(rope.cos, i) + RotateHalf(x)[i] * At(rope.sin, i))
  }

  // The same rotation with the sine negated.
  function StripRope(x: Vec, rope: Rope): (y: Vec)
    ensures |y| == |x|
  {
    seq(|x|, i requires 0 <= i < |x| => x[i] * At(rope.cos, i) - RotateHalf(x)[i] * At(rope.sin, i))
  }

  // Tables over an even head dimension whose second half repeats the first.
  ghost predicate Doubled(rope: Rope, dim: nat) {
    && dim % 2 == 0
    && forall i :: 0 <= i < dim / 2 ==>
      At(rope.cos, i + dim / 2) == At(rope.cos, i) && At(rope.sin, i + dim / 2) == At(rope.sin, i)
  }

  function Norm(rope: Rope, i: nat): real {
    At(rope.cos, i) * At(rope.cos, i) + At(rope.sin, i) * At(rope.sin, i)
  }

  ghost predicate Orthogonal(rope: Rope, dim: nat) {
    forall i :: 0 <= i < dim ==> Norm(rope, i) == 1.0
  }

  // Stripping an applied rotation scales each component by the squared norm of its table entry.
  lemma StripOfApply(x: Vec, rope: Rope, i: nat)
    requires Doubled(rope, |x|) && i < |x|
    ensures StripRope(ApplyRope(x, rope), rope)[i] == Norm(rope, i) * x[i]
    ensures ApplyRope(StripRope(x, rope), rope)[i] == Norm(rope, i) * x[i]
  {
    hide Turn, ApplyRope, StripRope;
    var h := |x| / 2;
    var j := if i < h then i + h else i - h;
    SamePair(rope, |x|, i, j);
    var y, z := ApplyRope(x, rope), StripRope(x, rope);
    RopeAt(x, rope, i, j);
    RopeAt(x, rope, j, i);
    RopeAt(y, rope, i, j);
    RopeAt(z, rope, i, j);
    TurnBack(x[i], Partner(x, i, j), x[j], Partner(x, j, i), At(rope.cos, i), At(rope.sin, i), i < j);
  }

  // Components i and i + dim / 2 are turned as a pair: applying and stripping turn it by opposite angles.
  lemma RotatedPair(x: Vec, rope: Rope, i: nat)
    requires |x| % 2 == 0 && i < |x| / 2
    ensures var h := |x| / 2;
      && ApplyRope(x, rope)[i] == x[i] * At(rope.cos, i) - x[i + h] * At(rope.sin, i)
      && ApplyRope(x, rope)[i + h] == x[i + h] * At(rope.cos, i + h) + x[i] * At(rope.sin, i + h)
      && StripRope(x, rope)[i] == x[i] * At(rope.cos, i) + x[i + h] * At(rope.sin, i)
      && StripRope(x, rope)[i + h] == x[i + h] * At(rope.cos, i + h) - x[i] * At(rope.sin, i + h)
  {
    Signs(x[i + |x| / 2], At(rope.sin, i));
    Signs(x[i], At(rope.sin, i + |x| / 2));
  }

  // The other component of a rotated pair, with the sign it enters with.
  function Partner(x: Vec, i: nat, j: nat): real {
    if i < j then At(x, j) else -At(x, j)
  }

  function Turn(a: real, b: real, c: real, s: real): real {
    a * c - b * s
  }

  lemma RopeAt(x: Vec, rope: Rope, i: nat, j: nat)
    requires |x| % 2 == 0 && i < |x| && j < |x| && (j == i + |x| / 2 || i == j + |x| / 2)
    ensures ApplyRope(x, rope)[i] == Turn(x[i], Partner(x, i, j), At(rope.cos, i), At(rope.sin, i))
    ensures StripRope(x, rope)[i] == Turn(x[i], Partner(x, i, j), At(rope.cos, i), -At(rope.sin, i))
  {
    assert RotateHalf(x)[i] == -Partner(x, i, j);
    Signs(Partner(x, i, j), At(rope.sin, i));
  }

  lemma Signs(b: real, s: real)
    ensures (-b) * s == -(b * s) == b * (-s)
  {
  }

  // Turning a pair and turning it back.
  lemma TurnBack(a: real, b: real, a': real, b': real, c: real, s: real, first: bool)
    requires if first then b == a' && b' == -a else b == -a' && b' == a
    ensures var y, y' := Turn(a, b, c, s), Turn(a', b', c, s);
      Turn(y, if first then y' else -y', c, -s) == (c * c + s * s) * a
    ensures var z, z' := Turn(a, b, c, -s), Turn(a', b', c, -s);
      Turn(z, if first then z' else -z', c, s) == (c * c + s * s) * a
  {
    RotateBack(a, b, c, s);
  }

  lemma SamePair(rope: Rope, dim: nat, i: nat, j: nat)
    requires Doubled(rope, dim) && i < dim && j < dim && (j == i + dim / 2 || i == j + dim / 2)
    ensures At(rope.cos, j) == At(rope.cos, i) && At(rope.sin, j) == At(rope.sin, i)
  {
    var low := if i < j then i else j;
    assert At(rope.cos, low + dim / 2) == At(rope.cos, low);
  }

  // Rotating the pair (a, -b) by an angle and back.
  lemma RotateBack(a: real, b: real, c: real, s: real)
    ensures (a * c - b * s) * c + (b * c + a * s) * s == (c * c + s * s) * a
    ensures (a * c + b * s) * c - (b * c - a * s) * s == (c * c + s * s) * a
  {
  }

  ghost predicate StripInverts(rope: Rope, dim: nat) {
    forall x: Vec :: |x| == dim ==> StripRope(ApplyRope(x, rope), rope) == x
  }

  /** Stripping inverts applying on all keys exactly when every pair of table entries lies on the unit
      circle; then applying inverts stripping too. */
  lemma StripInvertsIff(rope: Rope, dim: nat)
    requires Doubled(rope, dim)
    ensures Orthogonal(rope, dim) <==> StripInverts(rope, dim)
    ensures Orthogonal(rope, dim) ==> forall x: Vec :: |x| == dim ==> ApplyRope(StripRope(x, rope), rope) == x
  {
    hide ApplyRope, StripRope, Norm, Doubled;
    if Orthogonal(rope, dim) {
      forall x: Vec | |x| == dim
        ensures StripRope(ApplyRope(x, rope), rope) == x && ApplyRope(StripRope(x, rope), rope) == x
      {
        ApplyStrip(x, rope);
      }
    }
    if StripInverts(rope, dim) {
      var ones: Vec := seq(dim, i => 1.0);
      assert StripRope(ApplyRope(ones, rope), rope) == ones;
      forall i | 0 <= i < dim
        ensures Norm(rope, i) == 1.0
      {
        StripOfApply(ones, rope, i);
      }
    }
  }

  lemma ApplyStrip(x: Vec, rope: Rope)
    requires Doubled(rope, |x|) && Orthogonal(rope, |x|)
    ensures StripRope(ApplyRope(x, rope), rope) == x && ApplyRope(StripRope(x, rope), rope) == x
  {
    hide ApplyRope, StripRope, Norm, Doubled;
    forall i | 0 <= i < |x|
      ensures StripRope(ApplyRope(x, rope), rope)[i] == x[i] && ApplyRope(StripRope(x, rope), rope)[i] == x[i]
    {
      StripOfApply(x, rope, i);
    }
  }

  // ---------- affine maps ----------

  type Matrix = seq<Vec>

  function Column(w: Matrix, j: nat): (c: Vec)
    ensures |c| == |w|
  {
    seq(|w|, i requires 0 <= i < |w| => At(w[i], j))
  }

  // x @ w, for a matrix with n columns.
  function VecMat(x: Vec, w: Matrix, n: nat): (y: Vec)
    ensures |y| == n
  {
    seq(n, j requires 0 <= j < n => Dot(x, Column(w, j), |x|))
  }

  function MatMul(l: Matrix, r: Matrix, n: nat): (p: Matrix)
    ensures |p| == |l|
  {
    seq(|l|, i requires 0 <= i < |l| => VecMat(l[i], r, n))
  }

  function Add(x: Vec, b: Vec): (y: Vec)
    ensures |y| == |x|
  {
    seq(|x|, i requires 0 <= i < |x| => x[i] + At(b, i))
  }

  // torch's F.linear: w has one row per output.
  function Linear(x: Vec, w: Matrix, b: Vec): (y: Vec)
    ensures |y| == |w|
  {
    seq(|w|, j requires 0 <= j < |w| => Dot(x, w[j], |x|) + At(b, j))
  }

  datatype Weight = Dense(w: Matrix) | Factors(left: Matrix, right: Matrix)

  datatype Residual = Residual(downW: Matrix, downB: Vec, upW: Matrix)

  datatype LayerMap = LayerMap(sourceLayers: seq<nat>, bias: Vec, weight: Weight, residual: Option<Residual>)

  function Activated(gelu: real -> real, x: Vec): (y: Vec) {
    seq(|x|, i requires 0 <= i < |x| => gelu(x[i]))
  }

  function ApplyMap(m: LayerMap, gelu: real -> real, x: Vec, useResidual: bool): (y: Vec)
    ensures |y| == |m.bias|
  {
    var n := |m.bias|;
    var linear :=
      match m.weight
      case Dense(w) => VecMat(x, w, n)
      case Factors(left, right) => VecMat(VecMat(x, left, |right|), right, n);
    var y := Add(linear, m.bias);
    if useResidual && m.residual.Some? then
      var r := m.residual.value;
      Add(y, Linear(Activated(gelu, Linear(x, r.downW, r.downB)), r.upW, []))
    else y
  }

  // The map with its factors multiplied out.
  function DenseOf(m: LayerMap): LayerMap {
    if m.weight.Factors? then m.(weight := Dense(MatMul(m.weight.left, m.weight.right, |m.bias|))) else m
  }

  // ---------- factored maps ----------

  lemma {:induction false} DotStep(a: Vec, b: Vec, y: Vec, c: Vec, r: nat, t: real)
    requires |a| == |b| == |y| && r <= |a| && forall k :: 0 <= k < r ==> y[k] == a[k] + t * b[k]
    ensures Dot(y, c, r) == Dot(a, c, r) + t * Dot(b, c, r)
  {
    if r > 0 {
      DotStep(a, b, y, c, r - 1, t);
      TermStep(Dot(a, c, r - 1), Dot(b, c, r - 1), a[r - 1], b[r - 1], At(c, r - 1), t);
    }
  }

  lemma TermStep(p: real, q: real, a: real, b: real, c: real, t: real)
    ensures p + t * q + (a + t * b) * c == p + a * c + t * (q + b * c)
  {
  }

  // The combination of the first n rows of l with the weights x.
  function Combined(x: Vec, l: Matrix, r: nat, n: nat): (y: Vec)
    ensures |y| == r
  {
    seq(r, k requires 0 <= k < r => Dot(x, Column(l, k), n))
  }

  // Exchanging the two sums.
  lemma {:induction false} DotOfCombined(x: Vec, l: Matrix, c: Vec, r: nat, n: nat, d: Vec)
    requires n <= |x| && n <= |l| && (forall i :: 0 <= i < n ==> |l[i]| == r)
    requires |d| == |l| && forall i :: 0 <= i < n ==> d[i] == Dot(l[i], c, r)
    ensures Dot(Combined(x, l, r, n), c, r) == Dot(x, d, n)
  {
    if n == 0 {
      DotZero(Combined(x, l, r, 0), c, r);
    } else {
      DotOfCombined(x, l, c, r, n - 1, d);
      CombinedStep(x, l, r, n);
      hide Combined;
      DotStep(Combined(x, l, r, n - 1), l[n - 1], Combined(x, l, r, n), c, r, x[n - 1]);
    }
  }

  lemma CombinedStep(x: Vec, l: Matrix, r: nat, n: nat)
    requires 0 < n <= |x| && n <= |l| && |l[n - 1]| == r
    ensures forall k :: 0 <= k < r ==> Combined(x, l, r, n)[k] == Combined(x, l, r, n - 1)[k] + x[n - 1] * l[n - 1][k]
  {
    forall k | 0 <= k < r
      ensures Combined(x, l, r, n)[k] == Combined(x, l, r, n - 1)[k] + x[n - 1] * l[n - 1][k]
    {
      assert At(Column(l, k), n - 1) == l[n - 1][k];
    }
  }

  lemma {:induction false} DotZero(y: Vec, c: Vec, r: nat)
    requires r <= |y| && forall k :: 0 <= k < r ==> y[k] == 0.0
    ensures Dot(y, c, r) == 0.0
  {
    if r > 0 {
      DotZero(y, c, r - 1);
    }
  }

  /** A map stored as low-rank factors equals the map of their product. */
  lemma FactoredIsDense(m: LayerMap, gelu: real -> real, x: Vec, useResidual: bool)
    requires m.weight.Factors? ==>
      |m.weight.left| == |x| && forall i :: 0 <= i < |x| ==> |m.weight.left[i]| == |m.weight.right|
    ensures ApplyMap(m, gelu, x, useResidual) == ApplyMap(DenseOf(m), gelu, x, useResidual)
  {
    if m.weight.Factors? {
      var left, right, n := m.weight.left, m.weight.right, |m.bias|;
      var inner := VecMat(x, left, |right|);
      assert inner == Combined(x, left, |right|, |x|);
      forall j | 0 <= j < n
        ensures VecMat(inner, right, n)[j] == VecMat(x, MatMul(left, right, n), n)[j]
      {
        DotOfCombined(x, left, Column(right, j), |right|, |x|, Column(MatMul(left, right, n), j));
      }
      assert VecMat(inner, right, n) == VecMat(x, MatMul(left, right, n), n);
    }
  }

  // ---------- the identity map ----------

  function Unit(n: nat, i: nat): (e: Vec)
    ensures |e| == n
  {
    seq(n, j => if j == i then 1.0 else 0.0)
  }

  function Identity(n: nat): (w: Matrix)
    ensures |w| == n
  {
    seq(n, i requires i >= 0 => Unit(n, i))
  }

  function IdentityMap(layer: nat, n: nat): LayerMap {
    LayerMap([layer], seq(n, i => 0.0), Dense(Identity(n)), None)
  }

  lemma {:induction false} DotUnit(x: Vec, c: Vec, j: nat, n: nat)
    requires n <= |x| && n <= |c| && forall i :: 0 <= i < n ==> c[i] == if i == j then 1.0 else 0.0
    ensures Dot(x, c, n) == if j < n then x[j] else 0.0
  {
    if n > 0 {
      DotUnit(x, c, j, n - 1);
    }
  }

  lemma IdentityApplies(layer: nat, gelu: real -> real, x: Vec, useResidual: bool)
    ensures ApplyMap(IdentityMap(layer, |x|), gelu, x, useResidual) == x
  {
    var n := |x|;
    forall j | 0 <= j < n
      ensures VecMat(x, Identity(n), n)[j] == x[j]
    {
      DotUnit(x, Column(Identity(n), j), j, n);
    }
    assert VecMat(x, Identity(n), n) == x;
  }

  // ---------- what determines a map ----------

  lemma {:induction false} DotUnitLeft(e: Vec, c: Vec, i: nat, n: nat)
    requires n <= |e| && n <= |c| && forall k :: 0 <= k < n ==> e[k] == if k == i then 1.0 else 0.0
    ensures Dot(e, c, n) == if i < n then c[i] else 0.0
  {
    if n > 0 {
      DotUnitLeft(e, c, i, n - 1);
    }
  }

  /** What a map gives nothing but zeros is its bias, and what it gives a unit vector is that row of the matrix and the
      bias. */
  lemma UnitGivesRow(m: LayerMap, gelu: real -> real, x: Vec, i: nat, j: nat)
    requires m.weight.Dense? && |x| == |m.weight.w| && j < |m.bias|
    requires forall k :: 0 <= k < |x| ==> x[k] == if k == i then 1.0 else 0.0
    ensures ApplyMap(m, gelu, x, false)[j] == (if i < |x| then At(m.weight.w[i], j) else 0.0) + m.bias[j]
  {
    DotUnitLeft(x, Column(m.weight.w, j), i, |x|);
  }

  /** Apart from the bias, a map takes sums to sums and multiples to multiples. */
  lemma MapIsAffine(m: LayerMap, gelu: real -> real, a: Vec, b: Vec, y: Vec, t: real, j: nat)
    requires m.weight.Dense? && |a| == |b| == |y| && j < |m.bias|
    requires forall k :: 0 <= k < |a| ==> y[k] == a[k] + t * b[k]
    ensures ApplyMap(m, gelu, y, false)[j] - m.bias[j]
         == (ApplyMap(m, gelu, a, false)[j] - m.bias[j]) + t * (ApplyMap(m, gelu, b, false)[j] - m.bias[j])
  {
    DotStep(a, b, y, Column(m.weight.w, j), |a|, t);
  }

  // Switched off, or absent, the residual changes nothing.
  lemma WithoutResidual(m: LayerMap, gelu: real -> real, x: Vec)
    ensures ApplyMap(m, gelu, x, false) == ApplyMap(m.(residual := None), gelu, x, true)
  {
  }

  // Otherwise it adds the up-projection of the activated down-projection.
  lemma ResidualAdds(m: LayerMap, gelu: real -> real, x: Vec, inner: Vec, j: nat)
    requires m.residual.Some? && j < |m.bias| && j < |m.residual.value.upW| && |inner| == |m.residual.value.downW|
    requires forall k :: 0 <= k < |inner| ==>
      inner[k] == gelu(Dot(x, m.residual.value.downW[k], |x|) + At(m.residual.value.downB, k))
    ensures ApplyMap(m, gelu, x, true)[j] - ApplyMap(m, gelu, x, false)[j]
         == Dot(inner, m.residual.value.upW[j], |inner|)
  {
    var r := m.residual.value;
    assert Activated(gelu, Linear(x, r.downW, r.downB)) == inner;
  }

  // ---------- flattening heads ----------

  // One token's heads as one row: head by head, dimension by dimension.
  function FlattenHeads(heads: Heads): Vec {
    if heads == [] then [] else FlattenHeads(heads[..|heads| - 1]) + heads[|heads| - 1]
  }

  // The selected layers' rows of one token, one after the other.
  function Design(rows: seq<Heads>): Vec {
    if rows == [] then [] else Design(rows[..|rows| - 1]) + FlattenHeads(rows[|rows| - 1])
  }

  // Back to heads of `dim` components each.
  function ViewHeads(x: Vec, heads: nat, dim: nat): (h: Heads)
    ensures |h| == heads
  {
    seq(heads, i requires 0 <= i < heads => seq(dim, d requires 0 <= d < dim => At(x, HeadAt(dim, i, d))))
  }

  function HeadAt(dim: nat, head: nat, d: nat): nat {
    head * dim + d
  }

  ghost predicate HeadsShaped(heads: Heads, n: nat, dim: nat) {
    |heads| == n && forall i :: 0 <= i < n ==> |heads[i]| == dim
  }

  lemma MulStep(m: nat, k: nat)
    ensures (m + 1) * k == m * k + k
    ensures 0 * k == 0
  {
  }

  lemma {:induction false} FlattenAt(heads: Heads, n: nat, dim: nat)
    requires HeadsShaped(heads, n, dim)
    ensures |FlattenHeads(heads)| == n * dim
    ensures forall i, d :: 0 <= i < n && 0 <= d < dim ==>
      HeadAt(dim, i, d) < |FlattenHeads(heads)| && FlattenHeads(heads)[HeadAt(dim, i, d)] == heads[i][d]
  {
    if n > 0 {
      FlattenAt(heads[..n - 1], n - 1, dim);
      MulStep(n - 1, dim);
      var before := FlattenHeads(heads[..n - 1]);
      forall i, d | 0 <= i < n && 0 <= d < dim
        ensures HeadAt(dim, i, d) < |FlattenHeads(heads)| && FlattenHeads(heads)[HeadAt(dim, i, d)] == heads[i][d]
      {
        if i < n - 1 {
          assert HeadAt(dim, i, d) < |before| && before[HeadAt(dim, i, d)] == heads[..n - 1][i][d];
        } else {
          assert HeadAt(dim, i, d) == |before| + d;
        }
      }
    }
  }

  /** Flattening is a bijection: viewing the flat row as heads gives the heads back. */
  lemma ViewOfFlatten(heads: Heads, n: nat, dim: nat)
    requires HeadsShaped(heads, n, dim)
    ensures ViewHeads(FlattenHeads(heads), n, dim) == heads
  {
    FlattenAt(heads, n, dim);
    forall i | 0 <= i < n
      ensures ViewHeads(FlattenHeads(heads), n, dim)[i] == heads[i]
    {
      forall d | 0 <= d < dim
        ensures At(FlattenHeads(heads), HeadAt(dim, i, d)) == heads[i][d]
      {
      }
    }
  }

  // Layer, then head, then dimension: where each component of the design row comes from.
  lemma {:induction false} DesignAt(rows: seq<Heads>, n: nat, dim: nat, l: nat, i: nat, d: nat)
    requires forall k :: 0 <= k < |rows| ==> HeadsShaped(rows[k], n, dim)
    requires l < |rows| && HeadsShaped(rows[l], n, dim) && i < n && d < dim
    ensures |Design(rows)| == |rows| * (n * dim)
    ensures l * (n * dim) + HeadAt(dim, i, d) < |Design(rows)|
    ensures Design(rows)[l * (n * dim) + HeadAt(dim, i, d)] == rows[l][i][d]
  {
    var m := |rows| - 1;
    DesignLength(rows, n, dim);
    DesignLength(rows[..m], n, dim);
    FlattenAt(rows[m], n, dim);
    MulStep(m, n * dim);
    if l < m {
      DesignAt(rows[..m], n, dim, l, i, d);
    }
  }

  lemma {:induction false} EqualParts(rows: seq<Heads>, k: nat)
    requires forall i :: 0 <= i < |rows| ==> |FlattenHeads(rows[i])| == k
    ensures |Design(rows)| == |rows| * k
  {
    hide FlattenHeads;
    if rows == [] {
      MulStep(0, k);
    } else {
      EqualParts(rows[..|rows| - 1], k);
      MulStep(|rows| - 1, k);
    }
  }

  lemma DesignLength(rows: seq<Heads>, n: nat, dim: nat)
    requires forall k :: 0 <= k < |rows| ==> HeadsShaped(rows[k], n, dim)
    ensures |Design(rows)| == |rows| * (n * dim)
  {
    forall i | 0 <= i < |rows|
      ensures |FlattenHeads(rows[i])| == n * dim
    {
      FlattenAt(rows[i], n, dim);
    }
    EqualParts(rows, n * dim);
  }
}
