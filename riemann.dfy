/**
 * The approximate Riemann solver (src/hydro/RiemannSolver.cpp, tags from
 * src/hydro/RiemannSolver.h).
 *
 * Each face's HLLC flux is a straight-line function of the left and right face
 * states and the adiabatic index; `RiemannSolver.SolveHLLC` loops it over the
 * faces of a sweep. The states are primitive: `rho` density, `u` velocity
 * normal to the face, `v` tangential velocity and `en` pressure. The flux uses
 * the same four slots for mass, normal momentum, tangential momentum and
 * energy. `std::sqrt` is a parameter of the model, constrained only by
 * `SqrtLike`.
 */
module Riemann {
  import opened Hydro
  import opened Reconstruction

  /** Solver tags (`RiemannSolverType`). */
  const HLLE: int := 0
  const HLLC: int := 1

  /** The sign of val as -1 or 1, never 0. */
  function Sign(val: real): (s: int)
    ensures s == 1 || s == -1
    ensures s == -1 <==> val < 0.0
  {
    if val < 0.0 then -1 else 1
  }

  /** What the model assumes of the square root it is given. */
  ghost predicate SqrtLike(sqrt: real -> real)
  {
    && (forall x :: 0.0 <= x ==> 0.0 <= sqrt(x))
    && (forall x :: 0.0 < x ==> 0.0 < sqrt(x))
  }

  /** The square of the sound speed, gamma * p / rho. */
  function SoundSq(s: Cell, gamma: real): real
    requires s.rho != 0.0
  {
    gamma * s.en / s.rho
  }

  /** Total energy density p / (gamma - 1) + rho |velocity|^2 / 2. */
  function TotalEnergy(s: Cell, gamma: real): real
    requires gamma != 1.0
  {
    s.en / (gamma - 1.0) + 0.5 * s.rho * (s.u * s.u + s.v * s.v)
  }

  /** The signal speed cmax and the two wave-speed bounds sl, sr. */
  datatype Waves = Waves(cmax: real, sl: real, sr: real)

  function WaveSpeeds(l: Cell, r: Cell, gamma: real, sqrt: real -> real): Waves
    requires l.rho != 0.0 && r.rho != 0.0
  {
    var cmax := sqrt(MaxReal(SoundSq(l, gamma), SoundSq(r, gamma)));
    Waves(cmax, MinReal(l.u, r.u) - cmax, MaxReal(l.u, r.u) + cmax)
  }

  /** The contact speed u* of the two-wave approximation. */
  function ContactSpeed(l: Cell, r: Cell, gamma: real, sqrt: real -> real): real
    requires l.rho != 0.0 && r.rho != 0.0
    requires var w := WaveSpeeds(l, r, gamma, sqrt);
             l.rho * (w.sl - l.u) - r.rho * (w.sr - r.u) != 0.0
  {
    var w := WaveSpeeds(l, r, gamma, sqrt);
    var dsul := w.sl - l.u;
    var dsur := w.sr - r.u;
    (r.en - l.en + l.rho * l.u * dsul - r.rho * r.u * dsur) / (l.rho * dsul - r.rho * dsur)
  }

  /** The star-region pressure p*. */
  function StarPressure(l: Cell, r: Cell, gamma: real, sqrt: real -> real): real
    requires l.rho != 0.0 && r.rho != 0.0
  {
    var rhobar := 0.5 * (l.rho + r.rho);
    var cbar := sqrt(0.5 * (SoundSq(l, gamma) + SoundSq(r, gamma)));
    0.5 * (l.en + r.en) - 0.5 * rhobar * cbar * (r.u - l.u)
  }

  /** The star-region density on the side of state s, whose outer wave moves at `speed`. */
  function StarDensity(s: Cell, speed: real, ustar: real): real
    requires speed - ustar != 0.0
  {
    s.rho * ((speed - s.u) / (speed - ustar))
  }

  /** The star-region energy on the side of state s, whose total energy is e. */
  function StarEnergy(s: Cell, e: real, speed: real, ustar: real): real
    requires s.rho != 0.0 && speed - s.u != 0.0 && speed - ustar != 0.0
  {
    StarDensity(s, speed, ustar) * (e / s.rho + (ustar - s.u) * (ustar + s.en / s.rho / (speed - s.u)))
  }

  /** The upwind weights (1 + sign)/2 and (1 - sign)/2 of the contact speed:
      exactly one is 1 and the other 0, the left one when u* >= 0. */
  function Weights(ustar: real): (w: (real, real))
    ensures (w.0 == 1.0 && w.1 == 0.0) || (w.0 == 0.0 && w.1 == 1.0)
    ensures w.0 == 1.0 <==> 0.0 <= ustar
  {
    var sgn := Sign(ustar) as real;
    (0.5 * (1.0 + sgn), 0.5 * (1.0 - sgn))
  }

  /** The weighted blend of a left and a right quantity by the upwind
      weights of u*, as the solver forms the star density, the tangential
      velocity and the star energy. */
  function Blend(ustar: real, left: real, right: real): real
  {
    var (onepsignh, onemsignh) := Weights(ustar);
    onepsignh * left + onemsignh * right
  }

  /** The upwind side's quantity: the left one when u* >= 0, else the right one. */
  function Upwind(ustar: real, left: real, right: real): real
  {
    if 0.0 <= ustar then left else right
  }

  /** The blend never mixes: it is exactly the upwind side's quantity. */
  lemma BlendIsUpwind(ustar: real, left: real, right: real)
    ensures Blend(ustar, left, right) == Upwind(ustar, left, right)
    ensures Blend(ustar, left, right) == left <==> (0.0 <= ustar || left == right)
  {
    var (a, b) := Weights(ustar);
    if 0.0 <= ustar {
      assert a == 1.0 && b == 0.0;
    } else {
      assert a == 0.0 && b == 1.0;
    }
  }

  /** The divisions of one face are all by non-zero values and the square
      roots are of non-negative values. Elsewhere the source's float
      arithmetic yields an infinity or NaN, which the model does not represent. */
  predicate FaceDefined(l: Cell, r: Cell, gamma: real, sqrt: real -> real)
  {
    && gamma != 1.0 && l.rho != 0.0 && r.rho != 0.0
    && 0.0 <= MaxReal(SoundSq(l, gamma), SoundSq(r, gamma))
    && 0.0 <= SoundSq(l, gamma) + SoundSq(r, gamma)
    && var w := WaveSpeeds(l, r, gamma, sqrt);
       && w.sl - l.u != 0.0 && w.sr - r.u != 0.0
       && l.rho * (w.sl - l.u) - r.rho * (w.sr - r.u) != 0.0
       && var ustar := ContactSpeed(l, r, gamma, sqrt);
          w.sl - ustar != 0.0 && w.sr - ustar != 0.0
  }

  /** The HLLC flux through one face. The tangential momentum flux is the
      mass flux times the upwind side's tangential velocity, and a contact at
      rest passes no mass, no tangential momentum and no energy, only the star
      pressure. */
  function Hllc(l: Cell, r: Cell, gamma: real, sqrt: real -> real): (f: Cell)
    requires FaceDefined(l, r, gamma, sqrt)
    ensures var ustar := ContactSpeed(l, r, gamma, sqrt);
            f.v == f.rho * (if 0.0 <= ustar then l.v else r.v)
    ensures ContactSpeed(l, r, gamma, sqrt) == 0.0 ==>
              f.rho == 0.0 && f.v == 0.0 && f.en == 0.0 && f.u == StarPressure(l, r, gamma, sqrt)
  {
    var w := WaveSpeeds(l, r, gamma, sqrt);
    var ustar := ContactSpeed(l, r, gamma, sqrt);
    var estarl := StarEnergy(l, TotalEnergy(l, gamma), w.sl, ustar);
    var estarr := StarEnergy(r, TotalEnergy(r, gamma), w.sr, ustar);
    var rhostar := Upwind(ustar, StarDensity(l, w.sl, ustar), StarDensity(r, w.sr, ustar));
    StarFlux(ustar, StarPressure(l, r, gamma, sqrt), rhostar, Upwind(ustar, l.v, r.v),
             Upwind(ustar, estarl, estarr))
  }

  /** The flux assembled from the contact speed, the star pressure and the
      upwind star density, tangential velocity and star energy. */
  function StarFlux(ustar: real, pstar: real, rhostar: real, vstar: real, estar: real): Cell
  {
    var rhoustar := rhostar * ustar;
    Cell(rhoustar, rhoustar * ustar + pstar, rhoustar * vstar, (estar + pstar) * ustar)
  }

  /** The exact flux of the 1D Euler equations for one primitive state. */
  function EulerFlux(s: Cell, gamma: real): Cell
    requires gamma != 1.0
  {
    Cell(s.rho * s.u,
         s.rho * s.u * s.u + s.en,
         s.rho * s.u * s.v,
         (TotalEnergy(s, gamma) + s.en) * s.u)
  }

  /** The wave-speed bounds enclose both face velocities, because cmax >= 0. */
  lemma WaveBounds(l: Cell, r: Cell, gamma: real, sqrt: real -> real)
    requires SqrtLike(sqrt)
    requires l.rho != 0.0 && r.rho != 0.0
    requires 0.0 <= MaxReal(SoundSq(l, gamma), SoundSq(r, gamma))
    ensures var w := WaveSpeeds(l, r, gamma, sqrt);
            && 0.0 <= w.cmax
            && w.sl <= MinReal(l.u, r.u) && MaxReal(l.u, r.u) <= w.sr
            && w.sl <= l.u <= w.sr && w.sl <= r.u <= w.sr
  {
  }

  /** The flux of one face as the solver's loop body writes it: the two
      upwind weights blend both sides' star density, tangential velocity and
      star energy, and the four fluxes are assembled from the blends. */
  function WeightedFlux(l: Cell, r: Cell, gamma: real, sqrt: real -> real): Cell
    requires FaceDefined(l, r, gamma, sqrt)
  {
    var w := WaveSpeeds(l, r, gamma, sqrt);
    var ustar := ContactSpeed(l, r, gamma, sqrt);
    Assembled(Weights(ustar), ustar, StarPressure(l, r, gamma, sqrt),
              StarDensity(l, w.sl, ustar), StarDensity(r, w.sr, ustar), l.v, r.v,
              StarEnergy(l, TotalEnergy(l, gamma), w.sl, ustar),
              StarEnergy(r, TotalEnergy(r, gamma), w.sr, ustar))
  }

  /** The four fluxes from the weights (onepsignh, onemsignh), the contact
      speed, the star pressure and both sides' star density, tangential
      velocity and star energy. */
  function Assembled(wts: (real, real), ustar: real, pstar: real,
                     rhol: real, rhor: real, vl: real, vr: real, el: real, er: real): Cell
  {
    var rhostar := wts.0 * rhol + wts.1 * rhor;
    var rhoustar := rhostar * ustar;
    Cell(rhoustar, rhoustar * ustar + pstar, rhoustar * (wts.0 * vl + wts.1 * vr),
         (wts.0 * el + wts.1 * er + pstar) * ustar)
  }

  /** With the upwind weights of u*, the assembled flux is the star flux of
      the upwind side's quantities. */
  lemma AssembledIsUpwind(ustar: real, pstar: real, rhol: real, rhor: real,
                          vl: real, vr: real, el: real, er: real)
    ensures Assembled(Weights(ustar), ustar, pstar, rhol, rhor, vl, vr, el, er)
         == StarFlux(ustar, pstar, Upwind(ustar, rhol, rhor), Upwind(ustar, vl, vr), Upwind(ustar, el, er))
  {
    var wts := Weights(ustar);
    var (rhostar, vstar, estar) := if 0.0 <= ustar then (rhol, vl, el) else (rhor, vr, er);
    assert wts.0 * rhol + wts.1 * rhor == rhostar;
    assert wts.0 * vl + wts.1 * vr == vstar;
    assert wts.0 * el + wts.1 * er == estar;
  }

  /** The weighted flux the solver writes is the upwind flux `Hllc`: the
      blends never mix the two sides. */
  lemma FluxShape(l: Cell, r: Cell, gamma: real, sqrt: real -> real)
    requires FaceDefined(l, r, gamma, sqrt)
    ensures Hllc(l, r, gamma, sqrt) == WeightedFlux(l, r, gamma, sqrt)
  {
    var w := WaveSpeeds(l, r, gamma, sqrt);
    var ustar := ContactSpeed(l, r, gamma, sqrt);
    AssembledIsUpwind(ustar, StarPressure(l, r, gamma, sqrt),
                      StarDensity(l, w.sl, ustar), StarDensity(r, w.sr, ustar), l.v, r.v,
                      StarEnergy(l, TotalEnergy(l, gamma), w.sl, ustar),
                      StarEnergy(r, TotalEnergy(r, gamma), w.sr, ustar));
  }

  lemma PositiveProduct(a: real, b: real)
    requires 0.0 < a && 0.0 < b
    ensures 0.0 < a * b
  {
  }

  /** For equal states the wave fan is symmetric about u, with cmax > 0. */
  lemma EqualStateWaves(s: Cell, gamma: real, sqrt: real -> real)
    requires SqrtLike(sqrt)
    requires 0.0 < s.rho && 0.0 < s.en && 1.0 < gamma
    ensures 0.0 < SoundSq(s, gamma)
    ensures var w := WaveSpeeds(s, s, gamma, sqrt);
            0.0 < w.cmax && w.sl == s.u - w.cmax && w.sr == s.u + w.cmax
  {
    PositiveProduct(gamma, s.en);
    assert 0.0 < gamma * s.en / s.rho;
  }

  /** The contact-speed formula returns u when both sides carry the same
      density, velocity and pressure and the two wave offsets differ. */
  lemma EqualStateContact(rho: real, u: real, p: real, dl: real, dr: real)
    requires rho != 0.0 && dl != dr
    ensures rho * dl - rho * dr != 0.0
    ensures (p - p + rho * u * dl - rho * u * dr) / (rho * dl - rho * dr) == u
  {
    var den := rho * dl - rho * dr;
    assert den == rho * (dl - dr);
    assert rho * u * dl - rho * u * dr == u * den;
  }

  /** The star density and star energy of a side equal its own density and
      total energy when the contact moves with the side's velocity. */
  lemma EqualStateStar(s: Cell, e: real, speed: real)
    requires s.rho != 0.0 && speed - s.u != 0.0
    ensures StarDensity(s, speed, s.u) == s.rho
    ensures StarEnergy(s, e, speed, s.u) == e
  {
    assert (speed - s.u) / (speed - s.u) == 1.0;
    assert s.rho * (e / s.rho) == e;
  }

  /** With the contact moving at the common velocity, both sides' star
      density and star energy are the state's own, so the upwind choice is too. */
  lemma EqualStateUpwind(s: Cell, e: real, w: Waves, ustar: real)
    requires s.rho != 0.0 && ustar == s.u
    requires w.sl - s.u != 0.0 && w.sr - s.u != 0.0
    ensures Upwind(ustar, StarDensity(s, w.sl, ustar), StarDensity(s, w.sr, ustar)) == s.rho
    ensures Upwind(ustar, StarEnergy(s, e, w.sl, ustar), StarEnergy(s, e, w.sr, ustar)) == e
  {
    EqualStateStar(s, e, w.sl);
    EqualStateStar(s, e, w.sr);
  }

  /** Equal states with positive density and pressure, and gamma > 1,
      define every quantity of the face; the contact moves with the common
      velocity and the star pressure is the common pressure. */
  lemma EqualStateDefined(s: Cell, gamma: real, sqrt: real -> real)
    requires SqrtLike(sqrt)
    requires 0.0 < s.rho && 0.0 < s.en && 1.0 < gamma
    ensures FaceDefined(s, s, gamma, sqrt)
    ensures ContactSpeed(s, s, gamma, sqrt) == s.u
    ensures StarPressure(s, s, gamma, sqrt) == s.en
  {
    EqualStateWaves(s, gamma, sqrt);
    var w := WaveSpeeds(s, s, gamma, sqrt);
    EqualStateContact(s.rho, s.u, s.en, w.sl - s.u, w.sr - s.u);
    assert 0.0 <= MaxReal(SoundSq(s, gamma), SoundSq(s, gamma));
    var cbar := sqrt(0.5 * (SoundSq(s, gamma) + SoundSq(s, gamma)));
    assert 0.5 * (0.5 * (s.rho + s.rho)) * cbar * (s.u - s.u) == 0.0;
    assert ContactSpeed(s, s, gamma, sqrt) == s.u;
    assert w.sl - s.u != 0.0 && w.sr - s.u != 0.0;
  }

  /** The star flux filled with one state's own velocity, pressure, density,
      tangential velocity and total energy is the exact Euler flux of that state. */
  lemma StarFluxOfState(s: Cell, gamma: real)
    requires gamma != 1.0
    ensures StarFlux(s.u, s.en, s.rho, s.v, TotalEnergy(s, gamma)) == EulerFlux(s, gamma)
  {
    var e := TotalEnergy(s, gamma);
    assert StarFlux(s.u, s.en, s.rho, s.v, e)
        == Cell(s.rho * s.u, s.rho * s.u * s.u + s.en, s.rho * s.u * s.v, (e + s.en) * s.u);
  }

  /** When the contact of an equal-state face moves with the state's
      velocity and the star pressure is its pressure, the HLLC flux is the
      exact Euler flux. */
  lemma EqualStateFlux(s: Cell, gamma: real, sqrt: real -> real)
    requires FaceDefined(s, s, gamma, sqrt)
    requires ContactSpeed(s, s, gamma, sqrt) == s.u && StarPressure(s, s, gamma, sqrt) == s.en
    ensures Hllc(s, s, gamma, sqrt) == EulerFlux(s, gamma)
  {
    var w := WaveSpeeds(s, s, gamma, sqrt);
    var ustar := ContactSpeed(s, s, gamma, sqrt);
    var e := TotalEnergy(s, gamma);
    EqualStateUpwind(s, e, w, ustar);
    StarFluxOfState(s, gamma);
  }

  /** Consistency: equal left and right states with positive density and
      pressure, and gamma > 1, give the exact Euler flux of that state. */
  lemma Consistency(s: Cell, gamma: real, sqrt: real -> real)
    requires SqrtLike(sqrt)
    requires 0.0 < s.rho && 0.0 < s.en && 1.0 < gamma
    ensures FaceDefined(s, s, gamma, sqrt)
    ensures Hllc(s, s, gamma, sqrt) == EulerFlux(s, gamma)
  {
    EqualStateDefined(s, gamma, sqrt);
    EqualStateFlux(s, gamma, sqrt);
  }

  /** The flux stage, configured once with the grid extents, the ghost depth
      and the solver tag. */
  class RiemannSolver {
    const nx: int
    const ny: int
    const nghost: int
    const rs: int

    constructor (nx: int, ny: int, nghost: int, rs: int)
      ensures this.nx == nx && this.ny == ny && this.nghost == nghost && this.rs == rs
    {
      this.nx, this.ny, this.nghost, this.rs := nx, ny, nghost, rs;
    }

    /** The faces a sweep covers: nx + 1 for XDIR and ny + 1 for any other direction. */
    function Faces(dir: int): nat
    {
      if dir == XDIR then FaceCount(nx) else FaceCount(ny)
    }

    /** Every one of the first m faces is defined, and both lines are long enough. */
    predicate FacesDefined(ql: Line, qr: Line, m: nat, gamma: real, sqrt: real -> real)
    {
      && m <= ql.MinLen() && m <= qr.MinLen()
      && forall i :: 0 <= i < m ==> FaceDefined(ql.At(i), qr.At(i), gamma, sqrt)
    }

    /** The HLLC fluxes of the first m faces, each from that face's two states only. */
    function HllcFluxes(ql: Line, qr: Line, m: nat, gamma: real, sqrt: real -> real): (f: Line)
      requires FacesDefined(ql, qr, m, gamma, sqrt)
      ensures |f.rho| == |f.u| == |f.v| == |f.en| == m == f.MinLen()
      ensures forall i :: 0 <= i < m ==> f.At(i) == Hllc(ql.At(i), qr.At(i), gamma, sqrt)
    {
      FromCells(seq(m, i requires 0 <= i < m => Hllc(ql.At(i), qr.At(i), gamma, sqrt)))
    }

    /** Dispatches on the solver tag: HLLC writes the fluxes of the sweep's
        faces; HLLE and unknown tags leave the flux buffers as they were. */
    method Solve(ql: QVec, qr: QVec, flux: QVec, gammaAd: real, dir: int, sqrt: real -> real)
      requires rs == HLLC ==> FacesDefined(ql.Contents(), qr.Contents(), Faces(dir), gammaAd, sqrt)
      requires rs == HLLC ==> Faces(dir) <= flux.Contents().MinLen()
      modifies flux
      ensures rs == HLLC ==> flux.Contents() == OverlayLine(
        HllcFluxes(old(ql.Contents()), old(qr.Contents()), Faces(dir), gammaAd, sqrt), old(flux.Contents()))
      ensures rs != HLLC ==> flux.Contents() == old(flux.Contents())
    {
      if rs == HLLE {
        SolveHLLE(ql, qr, flux, gammaAd, dir);
      } else if rs == HLLC {
        SolveHLLC(ql, qr, flux, gammaAd, dir, sqrt);
      }
    }

    /** Writes flux[i] = Hllc(ql[i], qr[i]) for every face i of the sweep, and
        nothing else. Face i's states are read before its flux is written and
        no later face reads index i, so `flux` may be the same buffer as `ql`
        or `qr`: the fluxes are those of the states on entry. */
    method SolveHLLC(ql: QVec, qr: QVec, flux: QVec, gammaAd: real, dir: int, sqrt: real -> real)
      requires FacesDefined(ql.Contents(), qr.Contents(), Faces(dir), gammaAd, sqrt)
      requires Faces(dir) <= flux.Contents().MinLen()
      modifies flux
      ensures flux.Contents() == OverlayLine(
        HllcFluxes(old(ql.Contents()), old(qr.Contents()), Faces(dir), gammaAd, sqrt), old(flux.Contents()))
    {
      var idxMax := Faces(dir);
      ghost var ql0, qr0 := ql.Contents(), qr.Contents();
      ghost var fluxes := HllcFluxes(ql0, qr0, idxMax, gammaAd, sqrt);
      ghost var flux0 := flux.Contents();
      OverlayEmpty(flux0);
      assert fluxes.Prefix(0) == EmptyLine();
      for i := 0 to idxMax
        invariant flux.Contents() == OverlayLine(fluxes.Prefix(i), flux0)
        invariant ql == flux || ql.Contents() == ql0
        invariant qr == flux || qr.Contents() == qr0
      {
        OverlayLineStep(fluxes, flux0, i);
        if ql == flux {
          OverlayLineBeyond(fluxes.Prefix(i), flux0, i);
        }
        if qr == flux {
          OverlayLineBeyond(fluxes.Prefix(i), flux0, i);
        }
        var left := ql.Contents().At(i);
        var right := qr.Contents().At(i);
        assert left == ql0.At(i) && right == qr0.At(i);
        var f := Hllc(left, right, gammaAd, sqrt);
        flux.Set(i, f.rho, f.u, f.v, f.en);
      }
      assert fluxes.Prefix(idxMax) == fluxes;
    }

    /** The HLLE solver has an empty body: the flux buffers keep their values. */
    method SolveHLLE(ql: QVec, qr: QVec, flux: QVec, gammaAd: real, dir: int)
      ensures flux.Contents() == old(flux.Contents())
    {
    }
  }
}
