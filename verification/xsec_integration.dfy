/** What the two dark-matter cross-section integrators share: their numerical
    integrator settings, the phase-space facts they query, and the request
    they hand to the one-dimensional integrator. The integrator itself and the
    differential cross-section it integrates are outside the model: a caller
    supplies the integral as a function of the request. */
module XSecIntegration {
  import opened Interactions
  import Registry

  /** Integrator settings read from the configuration. */
  datatype GslConfig = GslConfig(integrationType: string, relTolerance: real, maxEval: Registry.uint32)

  const DefaultIntegrationType: string := "adaptive"
  const DefaultRelTolerance: real := 0.01
  const DefaultMaxEval: Registry.int32 := 100000

  /** The absolute tolerance both integrators hard-code. */
  const AbsTolerance: real := 1.0

  /** The factor applied to the integral: 1E-38 times the unit `cm2`, whose
      value in natural units is supplied by the caller. */
  function XSecScale(cm2: real): real {
    cm2 / 100000000000000000000000000000000000000.0
  }

  /** `LoadConfig` of either integrator: type, relative tolerance and maximum
      number of evaluations, each with its default; the evaluation count is
      converted to unsigned as the source's cast does. */
  function LoadGslConfig(reg: Registry.Registry): (c: GslConfig)
    ensures "gsl-integration-type" !in reg.strings ==> c.integrationType == "adaptive"
    ensures "gsl-integration-type" in reg.strings ==> c.integrationType == reg.strings["gsl-integration-type"]
    ensures "gsl-relative-tolerance" !in reg.reals ==> c.relTolerance == 0.01
    ensures "gsl-relative-tolerance" in reg.reals ==> c.relTolerance == reg.reals["gsl-relative-tolerance"]
    ensures "gsl-max-eval" !in reg.ints ==> c.maxEval as int == 100000
    ensures "gsl-max-eval" in reg.ints && reg.ints["gsl-max-eval"] >= 0 ==>
      c.maxEval as int == reg.ints["gsl-max-eval"] as int
    ensures "gsl-max-eval" in reg.ints && reg.ints["gsl-max-eval"] < 0 ==>
      c.maxEval as int == reg.ints["gsl-max-eval"] as int + Registry.TwoTo32
  {
    var intgType := Registry.StringDef(reg, "gsl-integration-type", DefaultIntegrationType);
    var relTol := Registry.RealDef(reg, "gsl-relative-tolerance", DefaultRelTolerance);
    var max := Registry.IntDef(reg, "gsl-max-eval", DefaultMaxEval);
    GslConfig(intgType, relTol, Registry.ToUnsigned(max))
  }

  datatype Range = Range(min: real, max: real)

  /** The kinematic phase-space facts an integrator queries for its
      interaction: whether the probe energy is above threshold, and the Q²
      and y limits. */
  datatype PhaseSpace = PhaseSpace(aboveThreshold: bool, q2Limits: Range, yLimits: Range)

  /** Which differential cross-section is integrated. */
  datatype Integrand = DXSecDQ2 | DXSecDy

  /** One call of the numerical integrator: integrand (bound to an interaction
      copy), integrator settings, and the integration bounds. */
  datatype IntegrationRequest = IntegrationRequest(
    integrand: Integrand,
    interaction: Interaction,
    integrationType: string,
    absTolerance: real,
    relTolerance: real,
    maxEval: Registry.uint32,
    lower: real,
    upper: real)
}
