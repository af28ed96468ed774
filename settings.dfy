/**
 * The run configuration of the Rayleigh-Taylor demo (`RTSettings` in
 * src/utils/Settings.h): the record `Grid.Reset` consumes, its defaults, and
 * the list-box choices that set the method tags and the Runge-Kutta stage
 * count.
 */
module Settings {
  import opened Hydro
  import opened Reconstruction
  import opened Riemann

  datatype RTSettings = RTSettings(
    nx: int, ny: int, nghost: int,
    rhoIniUpper: real, rhoIniLower: real,
    enIni: real,
    gravXIni: real, gravYIni: real,
    x1: real, x2: real, y1: real, y2: real,
    perturbStrength: real,
    tmax: real,
    cfl: real,
    gammaAd: real,
    resetting: int, playing: int, advance: int, cyclesPerFrame: int,
    reconstructType: int,
    riemannSolverType: int,
    rkStages: int)

  /** The default configuration. The gravity component -0.0 of the source is
      0.0 here: a real has no signed zero. */
  function Defaults(): (s: RTSettings)
    ensures s.nx == 5 && s.ny == 15 && s.nghost == 1
    ensures s.x1 < s.x2 && s.y1 < s.y2 && s.x1 == -s.x2 && s.y1 == -s.y2
    ensures 0.0 < s.rhoIniLower < s.rhoIniUpper
    ensures s.gravXIni == 0.0 && s.gravYIni < 0.0
    ensures s.reconstructType == LINEAR && s.riemannSolverType == HLLC && s.rkStages == 2
    ensures s.resetting == 0 && s.playing == 0 && s.advance == 0 && s.cyclesPerFrame == 1
  {
    RTSettings(
      5, 15, 1,
      2.0, 1.0,
      2.5,
      0.0, -0.1,
      -0.25, 0.25, -0.75, 0.75,
      0.01,
      10.0,
      0.8,
      1.4,
      0, 0, 0, 1,
      1,
      1,
      2)
  }

  /** The number of entries of each of the three list boxes. */
  const ListLength: int := 2

  /** Choosing entry n of the reconstruction list sets the reconstruction tag
      to n and nothing else. */
  function SelectReconstruction(s: RTSettings, n: int): (r: RTSettings)
    requires 0 <= n < ListLength
    ensures r.reconstructType == CONSTANT || r.reconstructType == LINEAR
    ensures r.reconstructType == n && r.(reconstructType := s.reconstructType) == s
  {
    s.(reconstructType := n)
  }

  /** Choosing entry n of the Riemann solver list sets the solver tag to n
      and nothing else. */
  function SelectRiemannSolver(s: RTSettings, n: int): (r: RTSettings)
    requires 0 <= n < ListLength
    ensures r.riemannSolverType == HLLE || r.riemannSolverType == HLLC
    ensures r.riemannSolverType == n && r.(riemannSolverType := s.riemannSolverType) == s
  {
    s.(riemannSolverType := n)
  }

  /** Choosing entry n of the integrator list (Euler, RK2) sets the stage
      count to n + 1 and nothing else, so it is always 1 or 2. */
  function SelectIntegrator(s: RTSettings, n: int): (r: RTSettings)
    requires 0 <= n < ListLength
    ensures r.rkStages == 1 || r.rkStages == 2
    ensures r.rkStages - 1 == n && r.(rkStages := s.rkStages) == s
  {
    s.(rkStages := n + 1)
  }

  /** The Reset button bumps the reset counter by one and nothing else. */
  function PressReset(s: RTSettings): (r: RTSettings)
    ensures r.resetting > s.resetting && r.resetting - s.resetting == 1
    ensures r.(resetting := s.resetting) == s
  {
    s.(resetting := s.resetting + 1)
  }

  /** The Play/Pause button negates the playing flag as a C truth value:
      zero becomes one, anything else zero; nothing else changes. */
  function TogglePlaying(s: RTSettings): (r: RTSettings)
    ensures r.playing == 0 || r.playing == 1
    ensures r.playing != 0 <==> s.playing == 0
    ensures r.(playing := s.playing) == s
  {
    s.(playing := if s.playing == 0 then 1 else 0)
  }

  /** Pressing Play/Pause twice restores a flag that was 0 or 1. */
  lemma ToggleTwice(s: RTSettings)
    ensures TogglePlaying(TogglePlaying(s)).playing == (if s.playing == 0 then 0 else 1)
    ensures s.playing == 0 || s.playing == 1 ==> TogglePlaying(TogglePlaying(s)) == s
  {
  }

  /** The Advance button bumps the single-step counter by one and nothing
      else. */
  function PressAdvance(s: RTSettings): (r: RTSettings)
    ensures r.advance > s.advance && r.advance - s.advance == 1
    ensures r.(advance := s.advance) == s
  {
    s.(advance := s.advance + 1)
  }

  /** The faces of an x sweep over a grid configured by s read a line of
      s.nx + 2 * s.nghost cells: the first face of a linear sweep reads index
      s.nghost - 2. With the defaults that index is -1, and no line, however
      long, fits the linear stencil. */
  lemma DefaultsBreakLinearStencil(q: Line)
    ensures Defaults().reconstructType == LINEAR
    ensures Defaults().nghost + 0 - 2 == -1
    ensures !LinearFits(q, Defaults().nghost, FaceCount(Defaults().nx))
  {
  }

  /** The fewest ghost cells the configured reconstruction needs on each
      side: two for the linear stencil, one for the constant one. */
  function MinGhost(reconstructType: int): (g: int)
    ensures 1 <= g <= 2
    ensures g == 2 <==> reconstructType == LINEAR
  {
    if reconstructType == LINEAR then 2 else 1
  }

  /** The settings with the ghost depth raised to what the configured
      reconstruction needs; nothing else changes. */
  function ClampGhost(s: RTSettings): (r: RTSettings)
    ensures r.nghost >= s.nghost && r.nghost >= MinGhost(s.reconstructType)
    ensures r.nghost == s.nghost || r.nghost == MinGhost(s.reconstructType)
    ensures r.(nghost := s.nghost) == s
  {
    if s.nghost < MinGhost(s.reconstructType) then s.(nghost := MinGhost(s.reconstructType)) else s
  }

  /** The defaults as evidently intended: two ghost cells for the default
      linear reconstruction. */
  function CorrectedDefaults(): (s: RTSettings)
    ensures s == Defaults().(nghost := 2)
  {
    ClampGhost(Defaults())
  }

  /** Under settings whose ghost depth has been clamped, a sweep along x over
      the ghost-inclusive extent nx + 2 * nghost stays inside the line, for
      both reconstruction methods. */
  lemma ClampedSweepFits(s: RTSettings, q: Line)
    requires 0 <= s.nx
    requires ClampGhost(s).nx + 2 * ClampGhost(s).nghost <= q.MinLen()
    ensures var r := ClampGhost(s);
            && ConstantFits(q, FaceCount(r.nx))
            && (r.reconstructType == LINEAR ==> LinearFits(q, r.nghost, FaceCount(r.nx)))
  {
    var r := ClampGhost(s);
    assert FaceCount(r.nx) == r.nx + 1;
    assert 1 <= r.nghost;
    if r.reconstructType == LINEAR {
      assert 2 <= r.nghost;
    }
  }

  /** The corrected defaults fit the linear stencil of their own sweeps. */
  lemma CorrectedDefaultsFit(q: Line)
    requires CorrectedDefaults().nx + 2 * CorrectedDefaults().nghost <= q.MinLen()
    ensures CorrectedDefaults().reconstructType == LINEAR
    ensures LinearFits(q, CorrectedDefaults().nghost, FaceCount(CorrectedDefaults().nx))
  {
    ClampedSweepFits(Defaults(), q);
  }
}
