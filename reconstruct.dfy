/**
 * Reconstruction of face states from one ghost-padded line of cell-centre
 * states (src/hydro/Reconstruct.cpp, tags from src/hydro/Reconstruct.h).
 *
 * Face k of a sweep lies between two cells; `ql[k]` is the state just left of
 * it and `qr[k]` the state just right of it. A sweep has n + 1 faces, where n
 * is the interior extent along the sweep direction.
 */
module Reconstruction {
  import opened Hydro

  /** Reconstruction method tags (`ReconstructType`). */
  const CONSTANT: int := 0
  const LINEAR: int := 1

  /** Sweep direction tags (`ReconstructDirection`). */
  const XDIR: int := 0
  const YDIR: int := 1

  function Abs(x: real): real { if x < 0.0 then -x else x }

  function MinReal(a: real, b: real): real { if a <= b then a else b }

  function MaxReal(a: real, b: real): real { if a <= b then b else a }

  /** The minmod slope limiter of two one-sided differences: zero or one
      of the two, and never larger in magnitude than either. */
  function Minmod(a: real, b: real): (m: real)
    ensures m == 0.0 || m == a || m == b
    ensures Abs(m) <= Abs(a) && Abs(m) <= Abs(b)
  {
    if a * b <= 0.0 then 0.0
    else if Abs(a) < Abs(b) then a else b
  }

  /** Minmod is zero when the two differences have opposite signs or one of
      them is zero; otherwise it is the difference of smaller magnitude,
      which shares the sign of both. */
  lemma MinmodSignAndMagnitude(a: real, b: real)
    ensures a * b <= 0.0 ==> Minmod(a, b) == 0.0
    ensures a * b > 0.0 ==> var r := Minmod(a, b);
      r * a > 0.0 && r * b > 0.0 && Abs(r) == MinReal(Abs(a), Abs(b))
  {
  }

  /** The limited slope of the middle cell of three consecutive values. A
      local extremum or a flat side has no slope, and the slope is never
      steeper than either side. */
  function Slope(ql: real, q: real, qr: real): (s: real)
    ensures (q - ql) * (qr - q) <= 0.0 ==> s == 0.0
    ensures Abs(s) <= Abs(q - ql) && Abs(s) <= Abs(qr - q)
  {
    Minmod(q - ql, qr - q)
  }

  /** A monotone ramp keeps its slope, a local extremum is flattened, and a
      flat stretch has no slope. */
  lemma SlopeExamples(c: real)
    ensures Slope(1.0, 2.0, 3.0) == 1.0
    ensures Slope(1.0, 3.0, 1.0) == 0.0
    ensures Slope(c, c, c) == 0.0
  {
  }

  /** The slope limited by minmod lies between zero and the difference on
      either side, so half of it never overshoots a neighbour. */
  lemma SlopeWithinDifferences(ql: real, q: real, qr: real)
    ensures var s := Slope(ql, q, qr);
            && (0.0 <= s <= q - ql || q - ql <= s <= 0.0)
            && (0.0 <= s <= qr - q || qr - q <= s <= 0.0)
  {
    var a, b := q - ql, qr - q;
    var s := Minmod(a, b);
    if a * b > 0.0 {
      if a > 0.0 {
        assert b > 0.0;
      } else {
        assert b < 0.0;
      }
    }
  }

  /** The number of faces of a sweep over n interior cells: n + 1, and none
      when that is not positive (the source's loop does not run). */
  function FaceCount(n: int): nat
  {
    if n + 1 > 0 then n + 1 else 0
  }

  /** Constant reconstruction reads q[0 .. m], with no ghost offset. */
  predicate ConstantFits(q: Line, m: nat)
  {
    m == 0 || m + 1 <= q.MinLen()
  }

  /** Linear reconstruction reads q[nghost - 2 .. nghost + m]: it needs two
      ghost cells on the low side and nghost + m + 1 entries in every buffer. */
  predicate LinearFits(q: Line, nghost: int, m: nat)
  {
    m == 0 || (2 <= nghost && nghost + m + 1 <= q.MinLen())
  }

  function ConstantLeft(q: seq<real>, m: nat): (r: seq<real>)
    requires m <= |q|
    ensures |r| == m && forall k :: 0 <= k < m ==> r[k] == q[k]
  {
    q[..m]
  }

  function ConstantRight(q: seq<real>, m: nat): (r: seq<real>)
    requires m == 0 || m + 1 <= |q|
    ensures |r| == m && forall k :: 0 <= k < m ==> r[k] == q[k + 1]
  {
    seq(m, k requires 0 <= k < m => q[k + 1])
  }

  /** Value left of a face whose right cell is c: the cell c - 1 extrapolated
      forward by half its limited slope. It lies between that cell's value
      and the midpoint of the two cells beside the face. */
  function LeftValue(q: seq<real>, c: int): (x: real)
    requires 2 <= c < |q|
    ensures Between(x, q[c - 1], (q[c - 1] + q[c]) / 2.0)
  {
    SlopeWithinDifferences(q[c - 2], q[c - 1], q[c]);
    q[c - 1] + 0.5 * Slope(q[c - 2], q[c - 1], q[c])
  }

  /** Value right of a face whose right cell is c: the cell c extrapolated
      back by half its limited slope. It lies between the midpoint of the two
      cells beside the face and cell c's value. */
  function RightValue(q: seq<real>, c: int): (x: real)
    requires 1 <= c && c + 1 < |q|
    ensures Between(x, (q[c - 1] + q[c]) / 2.0, q[c])
  {
    SlopeWithinDifferences(q[c - 1], q[c], q[c + 1]);
    q[c] - 0.5 * Slope(q[c - 1], q[c], q[c + 1])
  }

  /** Left face states of linear reconstruction; face k has right cell nghost + k. */
  function LinearLeft(q: seq<real>, nghost: int, m: nat): (r: seq<real>)
    requires m == 0 || (2 <= nghost && nghost + m + 1 <= |q|)
    ensures |r| == m
    ensures forall k :: 0 <= k < m ==> r[k] == LeftValue(q, nghost + k)
  {
    seq(m, k requires 0 <= k < m => LeftValue(q, nghost + k))
  }

  /** Right face states of linear reconstruction. */
  function LinearRight(q: seq<real>, nghost: int, m: nat): (r: seq<real>)
    requires m == 0 || (2 <= nghost && nghost + m + 1 <= |q|)
    ensures |r| == m
    ensures forall k :: 0 <= k < m ==> r[k] == RightValue(q, nghost + k)
  {
    seq(m, k requires 0 <= k < m => RightValue(q, nghost + k))
  }

  function ConstantFaces(q: Line, m: nat): (faces: (Line, Line))
    requires ConstantFits(q, m)
  {
    (Line(ConstantLeft(q.rho, m), ConstantLeft(q.u, m), ConstantLeft(q.v, m), ConstantLeft(q.en, m)),
     Line(ConstantRight(q.rho, m), ConstantRight(q.u, m), ConstantRight(q.v, m), ConstantRight(q.en, m)))
  }

  function LinearFaces(q: Line, nghost: int, m: nat): (faces: (Line, Line))
    requires LinearFits(q, nghost, m)
  {
    (Line(LinearLeft(q.rho, nghost, m), LinearLeft(q.u, nghost, m),
          LinearLeft(q.v, nghost, m), LinearLeft(q.en, nghost, m)),
     Line(LinearRight(q.rho, nghost, m), LinearRight(q.u, nghost, m),
          LinearRight(q.v, nghost, m), LinearRight(q.en, nghost, m)))
  }

  /** The left state of the face whose right cell is c, in all four buffers. */
  function LeftCell(q: Line, c: int): Cell
    requires 2 <= c < q.MinLen()
  {
    Cell(LeftValue(q.rho, c), LeftValue(q.u, c), LeftValue(q.v, c), LeftValue(q.en, c))
  }

  /** The right state of the face whose right cell is c, in all four buffers. */
  function RightCell(q: Line, c: int): Cell
    requires 1 <= c && c + 1 < q.MinLen()
  {
    Cell(RightValue(q.rho, c), RightValue(q.u, c), RightValue(q.v, c), RightValue(q.en, c))
  }

  /** Face i of linear reconstruction, cell by cell. */
  lemma LinearFacesAt(q: Line, nghost: int, m: nat, i: nat)
    requires LinearFits(q, nghost, m) && i < m
    ensures LinearFaces(q, nghost, m).0.At(i) == LeftCell(q, nghost + i)
    ensures LinearFaces(q, nghost, m).1.At(i) == RightCell(q, nghost + i)
  {
  }

  predicate Between(x: real, a: real, b: real)
  {
    MinReal(a, b) <= x <= MaxReal(a, b)
  }

  /** Linear face values create no new extrema: both states at face k lie
      between the two cell values adjacent to the face. */
  lemma LinearFacesBetween(q: seq<real>, nghost: int, m: nat, k: int)
    requires 2 <= nghost && nghost + m + 1 <= |q|
    requires 0 <= k < m
    ensures Between(LinearLeft(q, nghost, m)[k], q[nghost + k - 1], q[nghost + k])
    ensures Between(LinearRight(q, nghost, m)[k], q[nghost + k - 1], q[nghost + k])
  {
  }

  /** On a buffer holding one value everywhere, every face value of both
      methods is that value. */
  lemma UniformBufferFaces(q: seq<real>, x: real, nghost: int, m: nat)
    requires forall k :: 0 <= k < |q| ==> q[k] == x
    ensures m + 1 <= |q| ==> forall k :: 0 <= k < m ==> ConstantLeft(q, m)[k] == x && ConstantRight(q, m)[k] == x
    ensures 2 <= nghost && nghost + m + 1 <= |q| ==>
      forall k :: 0 <= k < m ==> LinearLeft(q, nghost, m)[k] == x && LinearRight(q, nghost, m)[k] == x
  {
    assert Slope(x, x, x) == 0.0;
    if 2 <= nghost && nghost + m + 1 <= |q| {
      forall c | nghost <= c < nghost + m ensures LeftValue(q, c) == x && RightValue(q, c) == x {
      }
    }
  }

  /** The reconstruction stage, configured once with the grid extents, the
      ghost depth and the method tag. */
  class Reconstructor {
    const nx: int
    const ny: int
    const nghost: int
    const rct: int

    constructor (nx: int, ny: int, nghost: int, rct: int)
      ensures this.nx == nx && this.ny == ny && this.nghost == nghost && this.rct == rct
    {
      this.nx, this.ny, this.nghost, this.rct := nx, ny, nghost, rct;
    }

    /** The faces a sweep in direction dir covers; an unknown direction covers none. */
    function Faces(dir: int): nat
    {
      if dir == XDIR then FaceCount(nx) else if dir == YDIR then FaceCount(ny) else 0
    }

    /** The number of leading entries of ql and qr that `Reconstruct` writes. */
    function Written(dir: int): nat
    {
      if rct == CONSTANT || rct == LINEAR then Faces(dir) else 0
    }

    /** The line is padded enough for the configured method. */
    predicate Fits(q: Line, dir: int)
    {
      if rct == CONSTANT then ConstantFits(q, Faces(dir))
      else if rct == LINEAR then LinearFits(q, nghost, Faces(dir))
      else true
    }

    /** The face states the configured method produces (left, right). */
    function FaceStates(q: Line, dir: int): (faces: (Line, Line))
      requires Fits(q, dir)
      ensures |faces.0.rho| == |faces.0.u| == |faces.0.v| == |faces.0.en| == Written(dir)
      ensures |faces.1.rho| == |faces.1.u| == |faces.1.v| == |faces.1.en| == Written(dir)
    {
      if rct == CONSTANT then ConstantFaces(q, Faces(dir))
      else if rct == LINEAR then LinearFaces(q, nghost, Faces(dir))
      else (EmptyLine(), EmptyLine())
    }

    /** Dispatches on the method tag; an unknown tag writes nothing. */
    method Reconstruct(q: QVec, ql: QVec, qr: QVec, dir: int)
      requires q != ql && q != qr && ql != qr
      requires Fits(q.Contents(), dir)
      requires Written(dir) <= ql.Contents().MinLen() && Written(dir) <= qr.Contents().MinLen()
      modifies ql, qr
      ensures ql.Contents() == OverlayLine(FaceStates(q.Contents(), dir).0, old(ql.Contents()))
      ensures qr.Contents() == OverlayLine(FaceStates(q.Contents(), dir).1, old(qr.Contents()))
    {
      if rct == CONSTANT {
        ReconstructConstant(q, ql, qr, dir);
      } else if rct == LINEAR {
        ReconstructLinear(q, ql, qr, dir);
      } else {
        OverlayEmpty(ql.Contents());
        OverlayEmpty(qr.Contents());
      }
    }

    /** Face k takes the cell values q[k] (left) and q[k + 1] (right),
        for k = 0 .. n, in all four buffers; nothing else is written. */
    method ReconstructConstant(q: QVec, ql: QVec, qr: QVec, dir: int)
      requires q != ql && q != qr && ql != qr
      requires ConstantFits(q.Contents(), Faces(dir))
      requires Faces(dir) <= ql.Contents().MinLen() && Faces(dir) <= qr.Contents().MinLen()
      modifies ql, qr
      ensures ql.Contents() == OverlayLine(ConstantFaces(q.Contents(), Faces(dir)).0, old(ql.Contents()))
      ensures qr.Contents() == OverlayLine(ConstantFaces(q.Contents(), Faces(dir)).1, old(qr.Contents()))
    {
      var m := Faces(dir);
      var (left, right) := ConstantFaces(q.Contents(), m);
      ghost var ql0, qr0 := ql.Contents(), qr.Contents();
      OverlayEmpty(ql0);
      OverlayEmpty(qr0);
      assert left.Prefix(0) == right.Prefix(0) == EmptyLine();
      for i := 0 to m
        invariant ql.Contents() == OverlayLine(left.Prefix(i), ql0)
        invariant qr.Contents() == OverlayLine(right.Prefix(i), qr0)
      {
        OverlayLineStep(left, ql0, i);
        OverlayLineStep(right, qr0, i);
        ql.Set(i, q.rho[i], q.u[i], q.v[i], q.en[i]);
        qr.Set(i, q.rho[i + 1], q.u[i + 1], q.v[i + 1], q.en[i + 1]);
      }
      assert left.Prefix(m) == left && right.Prefix(m) == right;
    }

    /** Face k takes q[c - 1] + slope/2 (left) and q[c] - slope/2 (right),
        with c = nghost + k and the minmod-limited slope of that cell. */
    method ReconstructLinear(q: QVec, ql: QVec, qr: QVec, dir: int)
      requires q != ql && q != qr && ql != qr
      requires LinearFits(q.Contents(), nghost, Faces(dir))
      requires Faces(dir) <= ql.Contents().MinLen() && Faces(dir) <= qr.Contents().MinLen()
      modifies ql, qr
      ensures ql.Contents() == OverlayLine(LinearFaces(q.Contents(), nghost, Faces(dir)).0, old(ql.Contents()))
      ensures qr.Contents() == OverlayLine(LinearFaces(q.Contents(), nghost, Faces(dir)).1, old(qr.Contents()))
    {
      var m := Faces(dir);
      var cells := q.Contents();
      ghost var (left, right) := LinearFaces(cells, nghost, m);
      ghost var ql0, qr0 := ql.Contents(), qr.Contents();
      OverlayEmpty(ql0);
      OverlayEmpty(qr0);
      assert left.Prefix(0) == right.Prefix(0) == EmptyLine();
      for i := 0 to m
        invariant ql.Contents() == OverlayLine(left.Prefix(i), ql0)
        invariant qr.Contents() == OverlayLine(right.Prefix(i), qr0)
      {
        OverlayLineStep(left, ql0, i);
        OverlayLineStep(right, qr0, i);
        LinearFacesAt(cells, nghost, m, i);
        var lc := LeftCell(cells, nghost + i);
        var rc := RightCell(cells, nghost + i);
        ql.Set(i, lc.rho, lc.u, lc.v, lc.en);
        qr.Set(i, rc.rho, rc.u, rc.v, rc.en);
      }
      assert left.Prefix(m) == left && right.Prefix(m) == right;
    }
  }

  /** On a line holding the same cell everywhere, both methods give that cell
      on both sides of every face they write. */
  lemma UniformLineFaces(r: Reconstructor, q: Line, x: Cell, dir: int)
    requires r.Fits(q, dir)
    requires |q.rho| == |q.u| == |q.v| == |q.en|
    requires forall k :: 0 <= k < |q.rho| ==> q.At(k) == x
    ensures forall k :: 0 <= k < r.Written(dir) ==>
      r.FaceStates(q, dir).0.At(k) == x && r.FaceStates(q, dir).1.At(k) == x
  {
    forall k | 0 <= k < |q.rho|
      ensures q.rho[k] == x.rho && q.u[k] == x.u && q.v[k] == x.v && q.en[k] == x.en
    {
      assert q.At(k) == x;
    }
    UniformBufferFaces(q.rho, x.rho, r.nghost, r.Faces(dir));
    UniformBufferFaces(q.u, x.u, r.nghost, r.Faces(dir));
    UniformBufferFaces(q.v, x.v, r.nghost, r.Faces(dir));
    UniformBufferFaces(q.en, x.en, r.nghost, r.Faces(dir));
  }

  /** An unrecognised method tag or sweep direction writes nothing. */
  lemma UnknownTagWritesNothing(r: Reconstructor, q: Line, base: Line, dir: int)
    requires (r.rct != CONSTANT && r.rct != LINEAR) || (dir != XDIR && dir != YDIR)
    ensures r.Fits(q, dir)
    ensures OverlayLine(r.FaceStates(q, dir).0, base) == base
    ensures OverlayLine(r.FaceStates(q, dir).1, base) == base
  {
    OverlayEmpty(base);
    if r.rct == CONSTANT || r.rct == LINEAR {
      assert r.Faces(dir) == 0;
      assert r.FaceStates(q, dir).0 == EmptyLine();
      assert r.FaceStates(q, dir).1 == EmptyLine();
    }
  }
}
