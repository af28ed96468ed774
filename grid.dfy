/**
 * The simulation grid (`Grid` in src/hydro/Grid.h and src/hydro/Grid.cpp):
 * six ghost-padded primitive fields, the sizes and spacings derived from an
 * `RTSettings` record, and the Rayleigh-Taylor initial condition written
 * cell by cell: a heavy layer above a light one, gravity pointing down, an
 * energy that carries the weight of the column, and a small vertical
 * velocity perturbation.
 *
 * The cosine of the source's math library is a function-typed parameter;
 * the facts proved about the perturbation assume only `CosLike`.
 */
module Grids {
  import opened Hydro
  import opened Settings
  import opened Heatmap

  /** pi as the source spells `M_PI`. */
  const PI: real := 3.14159265358979323846

  /** What the perturbation needs of the cosine it is given. */
  ghost predicate CosLike(cos: real -> real)
  {
    forall x :: -1.0 <= cos(x) <= 1.0
  }

  /** The coordinate of the centre of cell i along one axis whose first
      interior cell starts at `lo`; the ghost cell 0 is centred half a cell
      below `lo`. With positive cell size the centre lies strictly inside the
      span [lo + (i - 1) * dl, lo + i * dl] of cell i. */
  function CellCentre(lo: real, dl: real, i: int): (c: real)
    ensures 0.0 < dl ==> lo + ((i - 1) as real) * dl < c < lo + (i as real) * dl
  {
    lo + dl * (i as real - 0.5)
  }

  /** The scalar attributes of the grid that `AttrsFromSettings` sets: the
      interior and ghost-padded extents, the initial-condition parameters,
      the domain bounds, the cell sizes and the clock. */
  datatype Attrs = Attrs(
    nx: int, ny: int, nghost: int,
    nxg: int, nyg: int,
    nxmg: int, nymg: int,
    rhoIniLower: real, rhoIniUpper: real,
    enIni: real,
    gravXIni: real, gravYIni: real,
    perturbStrength: real,
    x1: real, x2: real, y1: real, y2: real, dlx: real, dly: real,
    time: real)

  /** The width of one of n equal cells spanning [lo, hi]. */
  function CellSize(lo: real, hi: real, n: int): real
    requires n != 0
  {
    (hi - lo) / (n as real)
  }

  /** The attributes `AttrsFromSettings` derives from the settings. The
      padded extents leave `nghost` ghost cells on each side of the interior:
      cells nghost .. nxmg - 1 are the nx interior cells and nxmg .. nxg - 1
      the upper ghost layer, and likewise along y. nx cells of width dlx tile
      [x1, x2] exactly, ny cells of width dly tile [y1, y2], and the clock
      starts at zero. */
  function AttrsOf(s: RTSettings): (a: Attrs)
    requires s.nx != 0 && s.ny != 0
    ensures a.nx == s.nx && a.ny == s.ny && a.nghost == s.nghost
    ensures a.nxmg - a.nghost == a.nx && a.nxg - a.nxmg == a.nghost
    ensures a.nymg - a.nghost == a.ny && a.nyg - a.nymg == a.nghost
    ensures a.dlx * (s.nx as real) == s.x2 - s.x1 && a.dly * (s.ny as real) == s.y2 - s.y1
    ensures a.time == 0.0
  {
    var nxg := s.nx + 2 * s.nghost;
    var nyg := s.ny + 2 * s.nghost;
    Attrs(s.nx, s.ny, s.nghost, nxg, nyg, nxg - s.nghost, nyg - s.nghost,
          s.rhoIniLower, s.rhoIniUpper, s.enIni, s.gravXIni, s.gravYIni, s.perturbStrength,
          s.x1, s.x2, s.y1, s.y2, CellSize(s.x1, s.x2, s.nx), CellSize(s.y1, s.y2, s.ny),
          0.0)
  }

  /** The primitive state the initial condition gives one cell. */
  datatype Initial = Initial(rho: real, en: real, u: real, v: real, gx: real, gy: real)

  /** The six fields of the grid. */
  datatype Field = Rho | En | U | V | Gx | Gy

  function Pick(c: Initial, f: Field): real
  {
    match f
    case Rho => c.rho
    case En => c.en
    case U => c.u
    case V => c.v
    case Gx => c.gx
    case Gy => c.gy
  }

  /** The initial state of cell (i, j): the light density below y = 0 and
      the heavy one from y = 0 up, an energy shifted by the gravitational
      term g_y * y * rho, no horizontal velocity, and a vertical velocity
      shaped by two cosines. */
  function InitialCell(a: Attrs, cos: real -> real, i: int, j: int): (c: Initial)
    ensures c.u == 0.0 && c.gx == a.gravXIni && c.gy == a.gravYIni
    ensures c.rho == a.rhoIniLower || c.rho == a.rhoIniUpper
    ensures CellCentre(a.y1, a.dly, j) < 0.0 ==> c.rho == a.rhoIniLower
    ensures 0.0 <= CellCentre(a.y1, a.dly, j) ==> c.rho == a.rhoIniUpper
    ensures c.en - a.enIni == c.gy * CellCentre(a.y1, a.dly, j) * c.rho
  {
    var xi := CellCentre(a.x1, a.dlx, i);
    var yj := CellCentre(a.y1, a.dly, j);
    var rho := if yj < 0.0 then a.rhoIniLower else a.rhoIniUpper;
    Initial(rho, Energy(a.enIni, a.gravYIni, yj, rho), 0.0, Perturbation(a.perturbStrength, cos, xi, yj), a.gravXIni, a.gravYIni)
  }

  /** The energy of a cell at height yj: the initial energy plus the
      gravitational term g_y * y * rho. */
  function Energy(enIni: real, gy: real, yj: real, rho: real): real
  {
    enIni + gy * yj * rho
  }

  /** The vertical velocity seed at (xi, yj). */
  function Perturbation(strength: real, cos: real -> real, xi: real, yj: real): real
  {
    strength * (1.0 + cos(4.0 * PI * xi)) * (1.0 + cos(3.0 * PI * yj)) / 4.0
  }

  /** One field of the initial condition over `rows` x `cols` cells. */
  function InitialField(a: Attrs, cos: real -> real, f: Field, rows: nat, cols: nat): (m: seq<seq<real>>)
    ensures Shaped(m, rows, cols)
  {
    seq(rows, i requires 0 <= i < rows => seq(cols, j requires 0 <= j < cols => Pick(InitialCell(a, cos, i, j), f)))
  }

  /** Loop invariant of a cell-by-cell fill in row-major order: `cur` has
      the shape of `target`, and the rows before i and the first j entries
      of row i already hold the target's values. */
  ghost predicate FilledTo(cur: seq<seq<real>>, target: seq<seq<real>>, i: int, j: int)
  {
    && |cur| == |target|
    && (forall a :: 0 <= a < |cur| ==> |cur[a]| == |target[a]|)
    && 0 <= i <= |cur|
    && (forall a :: 0 <= a < i ==> cur[a] == target[a])
    && (i < |cur| ==> 0 <= j <= |cur[i]| && cur[i][..j] == target[i][..j])
  }

  lemma FilledStart(m: seq<seq<real>>, target: seq<seq<real>>, rows: nat, cols: nat)
    requires Shaped(m, rows, cols) && Shaped(target, rows, cols)
    ensures FilledTo(m, target, 0, 0)
  {
  }

  /** Writing the target entry (i, j) moves the fill one cell on. */
  lemma FilledStep(cur: seq<seq<real>>, target: seq<seq<real>>, i: int, j: int, x: real)
    requires FilledTo(cur, target, i, j) && i < |cur| && j < |cur[i]|
    requires x == target[i][j]
    ensures FilledTo(cur[i := cur[i][j := x]], target, i, j + 1)
  {
    var row := cur[i][j := x];
    assert row[..j + 1] == cur[i][..j] + [x];
    assert target[i][..j + 1] == target[i][..j] + [x];
  }

  /** A full row moves the fill to the next one. */
  lemma FilledRow(cur: seq<seq<real>>, target: seq<seq<real>>, i: int)
    requires 0 <= i < |cur| && FilledTo(cur, target, i, |cur[i]|)
    ensures FilledTo(cur, target, i + 1, 0)
  {
    assert cur[i] == cur[i][..|cur[i]|];
    assert target[i] == target[i][..|cur[i]|];
  }

  /** A fill past the last row has written the whole target. */
  lemma FilledDone(cur: seq<seq<real>>, target: seq<seq<real>>)
    requires FilledTo(cur, target, |cur|, 0)
    ensures cur == target
  {
  }

  /** The Rayleigh-Taylor grid. The scalar attributes are held together in
      `attrs`; the CFL number, the adiabatic index, the time step and the
      method tags are fields of their own that no modelled operation sets. */
  class Grid {
    var rho: seq<seq<real>>
    var en: seq<seq<real>>
    var u: seq<seq<real>>
    var v: seq<seq<real>>
    var gx: seq<seq<real>>
    var gy: seq<seq<real>>
    var attrs: Attrs
    var dt: real
    var cfl: real
    var gammaAd: real
    var reconstructType: int
    var riemannSolverType: int

    /** Builds a grid from the settings by `Reset`; the time step, the CFL
        number, the adiabatic index and the method tags stay unset. */
    constructor (s: RTSettings, cos: real -> real)
      requires s.nx != 0 && s.ny != 0
      requires 0 <= s.nx + 2 * s.nghost && 0 <= s.ny + 2 * s.nghost
      ensures attrs == AttrsOf(s)
      ensures rho == InitialField(attrs, cos, Rho, attrs.nxg, attrs.nyg)
      ensures en == InitialField(attrs, cos, En, attrs.nxg, attrs.nyg)
      ensures u == InitialField(attrs, cos, U, attrs.nxg, attrs.nyg)
      ensures v == InitialField(attrs, cos, V, attrs.nxg, attrs.nyg)
      ensures gx == InitialField(attrs, cos, Gx, attrs.nxg, attrs.nyg)
      ensures gy == InitialField(attrs, cos, Gy, attrs.nxg, attrs.nyg)
    {
      new;
      Reset(s, cos);
    }

    /** Copies the settings, sizes the fields and writes the initial
        condition; the other fields keep their values. */
    method Reset(s: RTSettings, cos: real -> real)
      requires s.nx != 0 && s.ny != 0
      requires 0 <= s.nx + 2 * s.nghost && 0 <= s.ny + 2 * s.nghost
      modifies this`attrs, this`rho, this`en, this`u, this`v, this`gx, this`gy
      ensures attrs == AttrsOf(s)
      ensures rho == InitialField(attrs, cos, Rho, attrs.nxg, attrs.nyg)
      ensures en == InitialField(attrs, cos, En, attrs.nxg, attrs.nyg)
      ensures u == InitialField(attrs, cos, U, attrs.nxg, attrs.nyg)
      ensures v == InitialField(attrs, cos, V, attrs.nxg, attrs.nyg)
      ensures gx == InitialField(attrs, cos, Gx, attrs.nxg, attrs.nyg)
      ensures gy == InitialField(attrs, cos, Gy, attrs.nxg, attrs.nyg)
    {
      AttrsFromSettings(s);
      Resize();
      RTInstability(cos);
    }

    /** Takes the sizes, the initial-condition parameters and the domain
        from the settings, derives the padded extents and the cell sizes,
        and sets the clock to zero. */
    method AttrsFromSettings(s: RTSettings)
      requires s.nx != 0 && s.ny != 0
      modifies this`attrs
      ensures attrs == AttrsOf(s)
    {
      var nxg := s.nx + 2 * s.nghost;
      var nyg := s.ny + 2 * s.nghost;
      attrs := Attrs(
        s.nx, s.ny, s.nghost,
        nxg, nyg,
        nxg - s.nghost, nyg - s.nghost,
        s.rhoIniLower, s.rhoIniUpper,
        s.enIni,
        s.gravXIni, s.gravYIni,
        s.perturbStrength,
        s.x1, s.x2, s.y1, s.y2,
        (s.x2 - s.x1) / (s.nx as real), (s.y2 - s.y1) / (s.ny as real),
        0.0);
    }

    /** Gives each of the six fields exactly nxg rows of nyg entries;
        entries that were there keep their values, new ones are zero. The
        source resizes the six fields row by row in one loop; each field is
        resized here by its own pass, with the same result. */
    method Resize()
      requires 0 <= attrs.nxg && 0 <= attrs.nyg
      modifies this`rho, this`en, this`u, this`v, this`gx, this`gy
      ensures rho == Resized2(old(rho), attrs.nxg, attrs.nyg) && en == Resized2(old(en), attrs.nxg, attrs.nyg)
      ensures u == Resized2(old(u), attrs.nxg, attrs.nyg) && v == Resized2(old(v), attrs.nxg, attrs.nyg)
      ensures gx == Resized2(old(gx), attrs.nxg, attrs.nyg) && gy == Resized2(old(gy), attrs.nxg, attrs.nyg)
    {
      var rows, cols := attrs.nxg, attrs.nyg;
      rho := ResizeField(rho, rows, cols);
      en := ResizeField(en, rows, cols);
      u := ResizeField(u, rows, cols);
      v := ResizeField(v, rows, cols);
      gx := ResizeField(gx, rows, cols);
      gy := ResizeField(gy, rows, cols);
    }

    /** Writes the Rayleigh-Taylor initial condition into every cell, ghost
        cells included. */
    method RTInstability(cos: real -> real)
      requires 0 <= attrs.nxg && 0 <= attrs.nyg
      requires Shaped(rho, attrs.nxg, attrs.nyg) && Shaped(en, attrs.nxg, attrs.nyg)
      requires Shaped(u, attrs.nxg, attrs.nyg) && Shaped(v, attrs.nxg, attrs.nyg)
      requires Shaped(gx, attrs.nxg, attrs.nyg) && Shaped(gy, attrs.nxg, attrs.nyg)
      modifies this`rho, this`en, this`u, this`v, this`gx, this`gy
      ensures rho == InitialField(attrs, cos, Rho, attrs.nxg, attrs.nyg)
      ensures en == InitialField(attrs, cos, En, attrs.nxg, attrs.nyg)
      ensures u == InitialField(attrs, cos, U, attrs.nxg, attrs.nyg)
      ensures v == InitialField(attrs, cos, V, attrs.nxg, attrs.nyg)
      ensures gx == InitialField(attrs, cos, Gx, attrs.nxg, attrs.nyg)
      ensures gy == InitialField(attrs, cos, Gy, attrs.nxg, attrs.nyg)
    {
      rho, en, u, v, gx, gy := FillInitial(attrs, cos, rho, en, u, v, gx, gy);
    }
  }

  /** The loops of `Grid::RTInstability`, over the six fields it writes:
      every cell (i, j), ghost cells included, gets its initial state, in
      row-major order; the energy is computed from the gravity and density
      just written to the same cell. */
  method FillInitial(a: Attrs, cos: real -> real,
                     rho: seq<seq<real>>, en: seq<seq<real>>, u: seq<seq<real>>,
                     v: seq<seq<real>>, gx: seq<seq<real>>, gy: seq<seq<real>>)
    returns (rhoF: seq<seq<real>>, enF: seq<seq<real>>, uF: seq<seq<real>>,
             vF: seq<seq<real>>, gxF: seq<seq<real>>, gyF: seq<seq<real>>)
    requires 0 <= a.nxg && 0 <= a.nyg
    requires Shaped(rho, a.nxg, a.nyg) && Shaped(en, a.nxg, a.nyg)
    requires Shaped(u, a.nxg, a.nyg) && Shaped(v, a.nxg, a.nyg)
    requires Shaped(gx, a.nxg, a.nyg) && Shaped(gy, a.nxg, a.nyg)
    ensures rhoF == InitialField(a, cos, Rho, a.nxg, a.nyg)
    ensures enF == InitialField(a, cos, En, a.nxg, a.nyg)
    ensures uF == InitialField(a, cos, U, a.nxg, a.nyg)
    ensures vF == InitialField(a, cos, V, a.nxg, a.nyg)
    ensures gxF == InitialField(a, cos, Gx, a.nxg, a.nyg)
    ensures gyF == InitialField(a, cos, Gy, a.nxg, a.nyg)
  {
    var nxg, nyg := a.nxg, a.nyg;
    ghost var tRho, tEn, tU := InitialField(a, cos, Rho, nxg, nyg), InitialField(a, cos, En, nxg, nyg), InitialField(a, cos, U, nxg, nyg);
    ghost var tV, tGx, tGy := InitialField(a, cos, V, nxg, nyg), InitialField(a, cos, Gx, nxg, nyg), InitialField(a, cos, Gy, nxg, nyg);
    rhoF, enF, uF, vF, gxF, gyF := rho, en, u, v, gx, gy;
    FilledStart(rhoF, tRho, nxg, nyg);
    FilledStart(enF, tEn, nxg, nyg);
    FilledStart(uF, tU, nxg, nyg);
    FilledStart(vF, tV, nxg, nyg);
    FilledStart(gxF, tGx, nxg, nyg);
    FilledStart(gyF, tGy, nxg, nyg);
    for i := 0 to nxg
      invariant FilledTo(rhoF, tRho, i, 0) && FilledTo(enF, tEn, i, 0)
      invariant FilledTo(uF, tU, i, 0) && FilledTo(vF, tV, i, 0)
      invariant FilledTo(gxF, tGx, i, 0) && FilledTo(gyF, tGy, i, 0)
    {
      for j := 0 to nyg
        invariant FilledTo(rhoF, tRho, i, j) && FilledTo(enF, tEn, i, j)
        invariant FilledTo(uF, tU, i, j) && FilledTo(vF, tV, i, j)
        invariant FilledTo(gxF, tGx, i, j) && FilledTo(gyF, tGy, i, j)
      {
        var xi := CellCentre(a.x1, a.dlx, i);
        var yj := CellCentre(a.y1, a.dly, j);
        FilledStep(gxF, tGx, i, j, a.gravXIni);
        gxF := gxF[i := gxF[i][j := a.gravXIni]];
        FilledStep(gyF, tGy, i, j, a.gravYIni);
        gyF := gyF[i := gyF[i][j := a.gravYIni]];
        if yj < 0.0 {
          FilledStep(rhoF, tRho, i, j, a.rhoIniLower);
          rhoF := rhoF[i := rhoF[i][j := a.rhoIniLower]];
        } else {
          FilledStep(rhoF, tRho, i, j, a.rhoIniUpper);
          rhoF := rhoF[i := rhoF[i][j := a.rhoIniUpper]];
        }
        FilledStep(enF, tEn, i, j, Energy(a.enIni, gyF[i][j], yj, rhoF[i][j]));
        enF := enF[i := enF[i][j := Energy(a.enIni, gyF[i][j], yj, rhoF[i][j])]];
        FilledStep(uF, tU, i, j, 0.0);
        uF := uF[i := uF[i][j := 0.0]];
        FilledStep(vF, tV, i, j, Perturbation(a.perturbStrength, cos, xi, yj));
        vF := vF[i := vF[i][j := Perturbation(a.perturbStrength, cos, xi, yj)]];
      }
      FilledRow(rhoF, tRho, i);
      FilledRow(enF, tEn, i);
      FilledRow(uF, tU, i);
      FilledRow(vF, tV, i);
      FilledRow(gxF, tGx, i);
      FilledRow(gyF, tGy, i);
    }
    FilledDone(rhoF, tRho);
    FilledDone(enF, tEn);
    FilledDone(uF, tU);
    FilledDone(vF, tV);
    FilledDone(gxF, tGx);
    FilledDone(gyF, tGy);
  }

  /** One field's share of `Grid::Resize`: `resize(rows)` on the field, then
      `resize(cols)` on every row. */
  method ResizeField(m: seq<seq<real>>, rows: int, cols: int) returns (r: seq<seq<real>>)
    requires 0 <= rows && 0 <= cols
    ensures r == Resized2(m, rows, cols)
  {
    r := ResizedRows(m, rows);
    ghost var start := r;
    for i := 0 to rows
      invariant RowsResizedTo(r, start, i, cols)
    {
      RowsResizedStep(r, start, i, cols);
      r := r[i := Resized(r[i], cols)];
    }
    RowsResizedDone(r, m, rows, cols);
  }

  /** Cell centres move up with the cell index when cells have positive
      size. */
  lemma CentreMonotone(lo: real, dl: real, i: int, i2: int)
    requires 0.0 < dl && i < i2
    ensures CellCentre(lo, dl, i) < CellCentre(lo, dl, i2)
  {
    assert CellCentre(lo, dl, i2) - CellCentre(lo, dl, i) == dl * ((i2 - i) as real);
  }

  /** With one ghost cell, the centres of the interior cells 1 .. n lie
      strictly inside [lo, lo + n * dl]: cell i spans
      [lo + (i - 1) * dl, lo + i * dl]. */
  lemma InteriorCentresInside(lo: real, dl: real, n: int, i: int)
    requires 0.0 < dl && 1 <= i <= n
    ensures lo + ((i - 1) as real) * dl < CellCentre(lo, dl, i) < lo + (i as real) * dl
    ensures lo < CellCentre(lo, dl, i) < lo + (n as real) * dl
  {
    assert CellCentre(lo, dl, i) == lo + (i as real) * dl - 0.5 * dl;
    assert (i as real) * dl <= (n as real) * dl by {
      assert (n as real) * dl - (i as real) * dl == ((n - i) as real) * dl;
    }
  }

  /** The initial density and energy do not depend on the column. */
  lemma ColumnIndependent(a: Attrs, cos: real -> real, i: int, i2: int, j: int)
    ensures InitialCell(a, cos, i, j).rho == InitialCell(a, cos, i2, j).rho
    ensures InitialCell(a, cos, i, j).en == InitialCell(a, cos, i2, j).en
  {
  }

  /** The initial density is stratified: with positive cell height and a
      lower density no larger than the upper one it never decreases going
      up. */
  lemma Stratified(a: Attrs, cos: real -> real, i: int, i2: int, j: int, j2: int)
    requires 0.0 < a.dly && a.rhoIniLower <= a.rhoIniUpper && j <= j2
    ensures InitialCell(a, cos, i, j).rho <= InitialCell(a, cos, i2, j2).rho
  {
    if j < j2 {
      CentreMonotone(a.y1, a.dly, j, j2);
    }
  }

  /** The light fluid fills exactly the cells whose centre lies below
      y = 0, the heavy one the rest. */
  lemma Interface(a: Attrs, cos: real -> real, i: int, j: int)
    requires a.rhoIniLower != a.rhoIniUpper
    ensures InitialCell(a, cos, i, j).rho == a.rhoIniLower <==> CellCentre(a.y1, a.dly, j) < 0.0
    ensures InitialCell(a, cos, i, j).rho == a.rhoIniUpper <==> 0.0 <= CellCentre(a.y1, a.dly, j)
  {
  }

  /** The layering is a single step, whatever the order of the two
      densities: once a row holds the upper density, every row above it does
      too, in every column. */
  lemma SingleInterface(a: Attrs, cos: real -> real, i: int, i2: int, j: int, j2: int)
    requires 0.0 < a.dly && j <= j2
    requires InitialCell(a, cos, i, j).rho == a.rhoIniUpper
    ensures InitialCell(a, cos, i2, j2).rho == a.rhoIniUpper
  {
    if j < j2 {
      CentreMonotone(a.y1, a.dly, j, j2);
    }
  }

  /** Under downward gravity with positive densities and cell height, the
      initial energy strictly falls going up a column, across the
      interface too: below it g_y * y * rho is positive, from it up it is
      not. */
  lemma EnergyFallsWithHeight(a: Attrs, cos: real -> real, i: int, j: int, j2: int)
    requires a.gravYIni < 0.0 && 0.0 < a.dly && 0.0 < a.rhoIniLower && 0.0 < a.rhoIniUpper
    requires j < j2
    ensures InitialCell(a, cos, i, j2).en < InitialCell(a, cos, i, j).en
  {
    var y, y2 := CellCentre(a.y1, a.dly, j), CellCentre(a.y1, a.dly, j2);
    CentreMonotone(a.y1, a.dly, j, j2);
    var r, r2 := InitialCell(a, cos, i, j).rho, InitialCell(a, cos, i, j2).rho;
    var g := a.gravYIni;
    if r == r2 {
      assert g * r < 0.0;
      assert g * y2 * r - g * y * r == (g * r) * (y2 - y);
      assert (g * r) * (y2 - y) < 0.0;
    } else {
      assert y < 0.0 <= y2;
      assert g * y * r > 0.0 by {
        assert g * y > 0.0;
      }
      assert g * y2 * r2 <= 0.0 by {
        assert g * r2 < 0.0;
        assert g * y2 * r2 == (g * r2) * y2;
      }
    }
  }

  /** The vertical velocity seed has the sign of the perturbation strength
      and at most its magnitude, for any cosine with values in [-1, 1]. */
  lemma PerturbationBounded(strength: real, cos: real -> real, xi: real, yj: real)
    requires CosLike(cos)
    ensures 0.0 <= strength ==> 0.0 <= Perturbation(strength, cos, xi, yj) <= strength
    ensures strength <= 0.0 ==> strength <= Perturbation(strength, cos, xi, yj) <= 0.0
  {
    var c1, c2 := 1.0 + cos(4.0 * PI * xi), 1.0 + cos(3.0 * PI * yj);
    assert 0.0 <= c1 <= 2.0 && 0.0 <= c2 <= 2.0;
    var w := c1 * c2 / 4.0;
    assert 0.0 <= c1 * c2 <= 4.0 by {
      assert c1 * c2 <= 2.0 * c2 by {
        assert 2.0 * c2 - c1 * c2 == (2.0 - c1) * c2;
      }
    }
    assert 0.0 <= w <= 1.0;
    assert Perturbation(strength, cos, xi, yj) == strength * w;
    if 0.0 <= strength {
      assert strength * w <= strength * 1.0 by {
        assert strength - strength * w == strength * (1.0 - w);
      }
    } else {
      assert strength * 1.0 <= strength * w by {
        assert strength * w - strength == (-strength) * (w - 1.0) * -1.0;
      }
    }
  }

  /** The initial flow has no horizontal velocity and, without a
      perturbation, no vertical one either; gravity is uniform. */
  lemma AtRestUnlessPerturbed(a: Attrs, cos: real -> real, i: int, j: int, i2: int, j2: int)
    ensures InitialCell(a, cos, i, j).u == 0.0
    ensures a.perturbStrength == 0.0 ==> InitialCell(a, cos, i, j).v == 0.0
    ensures InitialCell(a, cos, i, j).gx == InitialCell(a, cos, i2, j2).gx == a.gravXIni
    ensures InitialCell(a, cos, i, j).gy == InitialCell(a, cos, i2, j2).gy == a.gravYIni
  {
  }

  /** With the default settings the grid is 7 x 17 cells with ghosts, and
      the light fluid fills rows 0 .. 7, the heavy one rows 8 .. 16. */
  lemma DefaultInterfaceRow(cos: real -> real, i: int, j: int)
    ensures AttrsOf(Defaults()).nxg == 7 && AttrsOf(Defaults()).nyg == 17
    ensures InitialCell(AttrsOf(Defaults()), cos, i, j).rho == Defaults().rhoIniLower <==> j < 8
  {
    var a := AttrsOf(Defaults());
    assert a.dly == 0.1;
    assert CellCentre(a.y1, a.dly, j) == -0.75 + 0.1 * (j as real - 0.5);
  }

  /** The density field a reset leaves is large enough for the heatmap
      `Grid::Update` builds from it: every interior cell the image reads
      exists. */
  lemma ResetFeedsImage(s: RTSettings, cos: real -> real)
    requires s.nx != 0 && s.ny != 0 && 0 <= s.nghost
    requires 0 <= s.nx + 2 * s.nghost && 0 <= s.ny + 2 * s.nghost
    ensures var a := AttrsOf(s);
            Readable(s.nghost, s.nx, s.ny, InitialField(a, cos, Rho, a.nxg, a.nyg))
  {
  }
}
