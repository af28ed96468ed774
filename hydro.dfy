/**
 * The line and field containers of the solver (src/hydro/Hydro.h).
 *
 * A `QVec` holds one line of cells as four parallel buffers (density, the two
 * velocity components and energy); a `QVec2` holds a 2D field the same way.
 * The buffers are `std::vector<float>` in the source; here they are `seq<real>`
 * fields that the methods reassign.
 */
module Hydro {

  function Min(a: int, b: int): int { if a < b then a else b }

  /** The four quantities stored at one index of a line. The same record is
      used for primitive states (density, normal and tangential velocity,
      pressure) and for fluxes (mass, normal and tangential momentum, energy). */
  datatype Cell = Cell(rho: real, u: real, v: real, en: real)

  /** A value snapshot of the four parallel buffers of a `QVec`. */
  datatype Line = Line(rho: seq<real>, u: seq<real>, v: seq<real>, en: seq<real>)
  {
    /** The number of indices that are valid in all four buffers. */
    function MinLen(): (n: nat)
      ensures n <= |rho| && n <= |u| && n <= |v| && n <= |en|
      ensures n == |rho| || n == |u| || n == |v| || n == |en|
    {
      Min(Min(|rho|, |u|), Min(|v|, |en|))
    }

    function At(i: nat): Cell
      requires i < MinLen()
    {
      Cell(rho[i], u[i], v[i], en[i])
    }

    function SetAt(i: nat, c: Cell): Line
      requires i < MinLen()
    {
      Line(rho[i := c.rho], u[i := c.u], v[i := c.v], en[i := c.en])
    }

    function Prefix(n: nat): Line
      requires n <= MinLen()
    {
      Line(rho[..n], u[..n], v[..n], en[..n])
    }

    /** True when every buffer holds at most as many entries as `base`'s. */
    predicate FitsIn(base: Line)
    {
      |rho| <= |base.rho| && |u| <= |base.u| && |v| <= |base.v| && |en| <= |base.en|
    }
  }

  /** The line whose four buffers hold the fields of `cells`, in order. */
  function FromCells(cells: seq<Cell>): (l: Line)
    ensures |l.rho| == |l.u| == |l.v| == |l.en| == |cells| == l.MinLen()
    ensures forall k :: 0 <= k < |cells| ==> l.At(k) == cells[k]
  {
    Line(seq(|cells|, k requires 0 <= k < |cells| => cells[k].rho),
         seq(|cells|, k requires 0 <= k < |cells| => cells[k].u),
         seq(|cells|, k requires 0 <= k < |cells| => cells[k].v),
         seq(|cells|, k requires 0 <= k < |cells| => cells[k].en))
  }

  /** `base` with its first |front| entries replaced by `front`: the effect of
      a loop that writes indices 0 .. |front|-1 of a buffer and nothing else. */
  function Overlay(front: seq<real>, base: seq<real>): (r: seq<real>)
    requires |front| <= |base|
    ensures |r| == |base|
    ensures forall k :: 0 <= k < |front| ==> r[k] == front[k]
    ensures forall k :: |front| <= k < |base| ==> r[k] == base[k]
  {
    front + base[|front|..]
  }

  function OverlayLine(front: Line, base: Line): Line
    requires front.FitsIn(base)
  {
    Line(Overlay(front.rho, base.rho), Overlay(front.u, base.u),
         Overlay(front.v, base.v), Overlay(front.en, base.en))
  }

  /** Writing entry i of `front` extends the overlaid prefix by one. */
  lemma OverlayStep(front: seq<real>, base: seq<real>, i: nat)
    requires i < |front| <= |base|
    ensures Overlay(front[..i], base)[i := front[i]] == Overlay(front[..i + 1], base)
  {
    var a := Overlay(front[..i], base)[i := front[i]];
    var b := Overlay(front[..i + 1], base);
    assert |a| == |b|;
    forall k | 0 <= k < |a| ensures a[k] == b[k] {
      if k < i {
        assert a[k] == front[..i][k];
      }
    }
  }

  /** `OverlayStep` for the four buffers of a line at once. */
  lemma OverlayLineStep(front: Line, base: Line, i: nat)
    requires front.FitsIn(base)
    requires i < front.MinLen()
    requires |front.rho| == |front.u| == |front.v| == |front.en|
    ensures front.Prefix(i).FitsIn(base) && front.Prefix(i + 1).FitsIn(base)
    ensures OverlayLine(front.Prefix(i), base).SetAt(i, front.At(i))
         == OverlayLine(front.Prefix(i + 1), base)
  {
    OverlayStep(front.rho, base.rho, i);
    OverlayStep(front.u, base.u, i);
    OverlayStep(front.v, base.v, i);
    OverlayStep(front.en, base.en, i);
  }

  /** The line with four empty buffers. */
  function EmptyLine(): Line { Line([], [], [], []) }

  /** Overlaying nothing leaves the line as it was. */
  lemma OverlayEmpty(base: Line)
    ensures EmptyLine().FitsIn(base)
    ensures OverlayLine(EmptyLine(), base) == base
  {
    assert Overlay([], base.rho) == base.rho;
    assert Overlay([], base.u) == base.u;
    assert Overlay([], base.v) == base.v;
    assert Overlay([], base.en) == base.en;
  }

  /** Past the overlaid prefix the base shows through. */
  lemma OverlayLineBeyond(front: Line, base: Line, i: nat)
    requires front.FitsIn(base)
    requires |front.rho| <= i && |front.u| <= i && |front.v| <= i && |front.en| <= i
    requires i < base.MinLen()
    ensures i < OverlayLine(front, base).MinLen()
    ensures OverlayLine(front, base).At(i) == base.At(i)
  {
  }

  /** Overlaying a whole line replaces it. */
  lemma OverlayAll(front: Line, base: Line)
    requires front.FitsIn(base) && base.FitsIn(front)
    ensures OverlayLine(front, base) == front
  {
    assert Overlay(front.rho, base.rho) == front.rho;
    assert Overlay(front.u, base.u) == front.u;
    assert Overlay(front.v, base.v) == front.v;
    assert Overlay(front.en, base.en) == front.en;
  }

  function Zeros(n: nat): (r: seq<real>)
    ensures |r| == n && forall k :: 0 <= k < n ==> r[k] == 0.0
  {
    seq(n, _ => 0.0)
  }

  /** `std::vector<float>::resize(n)`: keeps the first n entries, and pads
      with zeros when the buffer was shorter. */
  function Resized(s: seq<real>, n: nat): (r: seq<real>)
    ensures |r| == n
    ensures forall k :: 0 <= k < n && k < |s| ==> r[k] == s[k]
    ensures forall k :: |s| <= k < n ==> r[k] == 0.0
  {
    if n <= |s| then s[..n] else s + Zeros(n - |s|)
  }

  /** `resize(n)` on the outer vector of a 2D field: keeps the first n rows,
      and appends empty rows when there were fewer. */
  function ResizedRows(m: seq<seq<real>>, n: nat): (r: seq<seq<real>>)
    ensures |r| == n
    ensures forall k :: 0 <= k < n && k < |m| ==> r[k] == m[k]
    ensures forall k :: |m| <= k < n ==> r[k] == []
  {
    if n <= |m| then m[..n] else m + seq(n - |m|, _ => [])
  }

  /** A 2D field after `resize(rows)` and `resize(cols)` on every row: the
      requested shape, the old entries inside it kept, every new entry zero. */
  function Resized2(m: seq<seq<real>>, rows: nat, cols: nat): (r: seq<seq<real>>)
    ensures Shaped(r, rows, cols)
    ensures forall i, j :: 0 <= i < rows && i < |m| && 0 <= j < cols && j < |m[i]| ==> r[i][j] == m[i][j]
    ensures forall i, j :: 0 <= i < rows && 0 <= j < cols && (i >= |m| || j >= |m[i]|) ==> r[i][j] == 0.0
  {
    seq(rows, i requires 0 <= i < rows => Resized(ResizedRows(m, rows)[i], cols))
  }

  /** Exactly `rows` rows, each of exactly `cols` entries. */
  ghost predicate Shaped(m: seq<seq<real>>, rows: int, cols: int)
  {
    |m| == rows && forall i :: 0 <= i < |m| ==> |m[i]| == cols
  }

  /** Loop invariant of a row-resizing loop: rows below i are resized, the rest as `start`. */
  ghost predicate RowsResizedTo(cur: seq<seq<real>>, start: seq<seq<real>>, i: int, cols: nat)
  {
    && |cur| == |start|
    && 0 <= i <= |start|
    && (forall k :: 0 <= k < i ==> cur[k] == Resized(start[k], cols))
    && (forall k :: i <= k < |start| ==> cur[k] == start[k])
  }

  lemma RowsResizedStep(cur: seq<seq<real>>, start: seq<seq<real>>, i: int, cols: nat)
    requires RowsResizedTo(cur, start, i, cols) && i < |start|
    ensures RowsResizedTo(cur[i := Resized(cur[i], cols)], start, i + 1, cols)
  {
  }

  lemma RowsResizedDone(cur: seq<seq<real>>, m: seq<seq<real>>, rows: nat, cols: nat)
    requires RowsResizedTo(cur, ResizedRows(m, rows), rows, cols)
    ensures cur == Resized2(m, rows, cols)
  {
  }

  /** The velocity rotation applied by `FlipVelocities`: for every index of u,
      u takes v's value and v takes minus u's; v's entries past |u| stay. */
  function QuarterTurn(u: seq<real>, v: seq<real>): (r: (seq<real>, seq<real>))
    requires |u| <= |v|
    ensures |r.0| == |u| && |r.1| == |v|
    ensures forall k :: 0 <= k < |u| ==> r.0[k] == v[k] && r.1[k] == -u[k]
    ensures forall k :: |u| <= k < |v| ==> r.1[k] == v[k]
  {
    (v[..|u|], seq(|v|, k requires 0 <= k < |v| => if k < |u| then -u[k] else v[k]))
  }

  /** Two quarter turns negate both components (on the indices of u). */
  lemma QuarterTurnTwice(u: seq<real>, v: seq<real>)
    requires |u| <= |v|
    ensures var (u1, v1) := QuarterTurn(u, v);
            var (u2, v2) := QuarterTurn(u1, v1);
            && |u2| == |u| && |v2| == |v|
            && (forall k :: 0 <= k < |u| ==> u2[k] == -u[k] && v2[k] == -v[k])
            && (forall k :: |u| <= k < |v| ==> v2[k] == v[k])
  {
  }

  /** Four quarter turns restore the original velocities: the rotation is
      not a swap (a swap would already be undone after two). */
  lemma QuarterTurnFour(u: seq<real>, v: seq<real>)
    requires |u| <= |v|
    ensures var (u1, v1) := QuarterTurn(u, v);
            var (u2, v2) := QuarterTurn(u1, v1);
            var (u3, v3) := QuarterTurn(u2, v2);
            QuarterTurn(u3, v3) == (u, v)
  {
    var (u1, v1) := QuarterTurn(u, v);
    var (u2, v2) := QuarterTurn(u1, v1);
    var (u3, v3) := QuarterTurn(u2, v2);
    var (u4, v4) := QuarterTurn(u3, v3);
    QuarterTurnTwice(u, v);
    QuarterTurnTwice(u2, v2);
    assert u4 == u;
    assert v4 == v;
  }

  /** A quarter turn keeps the speed u^2 + v^2 at every index of u. */
  lemma QuarterTurnKeepsSpeed(u: seq<real>, v: seq<real>, k: int)
    requires |u| <= |v| && 0 <= k < |u|
    ensures var (u1, v1) := QuarterTurn(u, v);
            u1[k] * u1[k] + v1[k] * v1[k] == u[k] * u[k] + v[k] * v[k]
  {
  }

  /** A 2D field of four quantities (`QVec2` in the source). */
  class QVec2 {
    var rho: seq<seq<real>>
    var u: seq<seq<real>>
    var v: seq<seq<real>>
    var en: seq<seq<real>>

    /** The defaulted constructor: four empty fields. */
    constructor Empty()
      ensures rho == [] && u == [] && v == [] && en == []
    {
      rho, u, v, en := [], [], [], [];
    }

    /** The sized constructor: default construction followed by `Resize`. */
    constructor (nx: int, ny: int)
      requires 0 <= nx && 0 <= ny
      ensures rho == Resized2([], nx, ny) && u == Resized2([], nx, ny)
      ensures v == Resized2([], nx, ny) && en == Resized2([], nx, ny)
    {
      rho, u, v, en := [], [], [], [];
      new;
      Resize(nx, ny);
    }

    /** Leaves each field with exactly nx rows of ny entries; entries that
        were already there keep their values, new ones are zero. */
    method Resize(nx: int, ny: int)
      requires 0 <= nx && 0 <= ny
      modifies this
      ensures rho == Resized2(old(rho), nx, ny) && u == Resized2(old(u), nx, ny)
      ensures v == Resized2(old(v), nx, ny) && en == Resized2(old(en), nx, ny)
    {
      rho := ResizedRows(rho, nx);
      u := ResizedRows(u, nx);
      v := ResizedRows(v, nx);
      en := ResizedRows(en, nx);
      ghost var rho0, u0, v0, en0 := rho, u, v, en;
      for i := 0 to nx
        invariant RowsResizedTo(rho, rho0, i, ny) && RowsResizedTo(u, u0, i, ny)
        invariant RowsResizedTo(v, v0, i, ny) && RowsResizedTo(en, en0, i, ny)
      {
        RowsResizedStep(rho, rho0, i, ny);
        RowsResizedStep(u, u0, i, ny);
        RowsResizedStep(v, v0, i, ny);
        RowsResizedStep(en, en0, i, ny);
        rho := rho[i := Resized(rho[i], ny)];
        u := u[i := Resized(u[i], ny)];
        v := v[i := Resized(v[i], ny)];
        en := en[i := Resized(en[i], ny)];
      }
      RowsResizedDone(rho, old(rho), nx, ny);
      RowsResizedDone(u, old(u), nx, ny);
      RowsResizedDone(v, old(v), nx, ny);
      RowsResizedDone(en, old(en), nx, ny);
    }
  }

  /** One line of cells as four parallel buffers (`QVec` in the source). */
  class QVec {
    var rho: seq<real>
    var u: seq<real>
    var v: seq<real>
    var en: seq<real>

    /** The buffers as a value. */
    function Contents(): Line
      reads this
    {
      Line(rho, u, v, en)
    }

    /** Four zero-filled buffers of length n. */
    constructor (n: nat)
      ensures rho == Zeros(n) && u == Zeros(n) && v == Zeros(n) && en == Zeros(n)
    {
      rho, u, v, en := Zeros(n), Zeros(n), Zeros(n), Zeros(n);
    }

    /** Writes index i of all four buffers; nothing else changes. */
    method Set(i: int, rho: real, u: real, v: real, en: real)
      requires 0 <= i < |this.rho| && i < |this.u| && i < |this.v| && i < |this.en|
      modifies this
      ensures this.rho == old(this.rho)[i := rho] && this.u == old(this.u)[i := u]
      ensures this.v == old(this.v)[i := v] && this.en == old(this.en)[i := en]
      ensures Contents() == old(Contents()).SetAt(i, Cell(rho, u, v, en))
    {
      this.rho := this.rho[i := rho];
      this.u := this.u[i := u];
      this.v := this.v[i := v];
      this.en := this.en[i := en];
    }

    /** The whole-buffer overload of `Set`: each buffer becomes a copy of its
        argument, length included. */
    method SetAll(rho: seq<real>, u: seq<real>, v: seq<real>, en: seq<real>)
      modifies this
      ensures this.rho == rho && this.u == u && this.v == v && this.en == en
    {
      this.rho := rho;
      this.u := u;
      this.v := v;
      this.en := en;
    }

    /** Rotates the velocity by a quarter turn in place: u[i] := v[i] and
        v[i] := -u[i] for every index of u. Density and energy are untouched. */
    method FlipVelocities()
      requires |u| <= |v|
      modifies this
      ensures (u, v) == QuarterTurn(old(u), old(v))
      ensures rho == old(rho) && en == old(en)
    {
      var i := 0;
      while i < |u|
        invariant 0 <= i <= |u| == |old(u)| && |v| == |old(v)|
        invariant rho == old(rho) && en == old(en)
        invariant forall k :: 0 <= k < i ==> u[k] == old(v)[k] && v[k] == -old(u)[k]
        invariant forall k :: i <= k < |u| ==> u[k] == old(u)[k]
        invariant forall k :: i <= k < |v| ==> v[k] == old(v)[k]
      {
        var uTmp := u[i];
        var vTmp := v[i];
        u := u[i := vTmp];
        v := v[i := -uTmp];
        i := i + 1;
      }
      assert u == QuarterTurn(old(u), old(v)).0;
      assert v == QuarterTurn(old(u), old(v)).1;
    }
  }
}
