/** The dark-matter--nucleon elastic cross-section integrator: its guard
    clauses, the Q² bounds it integrates over, and the interaction copy it
    binds the integrand to. */
module DNuELXSec {
  import opened Wrappers
  import opened Interactions
  import opened XSecIntegration

  /** The integration `Integrate` performs, or `None` when it returns 0
      without integrating: the model rejects the process, the energy is below
      threshold, or either Q² limit is negative. */
  function Plan(validProcess: Interaction -> bool, kps: PhaseSpace, cfg: GslConfig, input: Interaction)
    : (r: Option<IntegrationRequest>)
    ensures r.None? <==> !validProcess(input) || !kps.aboveThreshold
                         || kps.q2Limits.min < 0.0 || kps.q2Limits.max < 0.0
    ensures r.Some? ==> 0.0 <= r.value.lower && 0.0 <= r.value.upper
    ensures r.Some? ==> r.value.lower == kps.q2Limits.min && r.value.upper == kps.q2Limits.max
    ensures r.Some? ==> r.value.integrand == DXSecDQ2
    ensures r.Some? ==> r.value.interaction.skipProcessChk && r.value.interaction.skipKinematicChk
    ensures r.Some? ==> r.value.interaction.initState == input.initState
                        && r.value.interaction.process == input.process
    ensures r.Some? ==> r.value.absTolerance == 1.0 && r.value.relTolerance == cfg.relTolerance
                        && r.value.maxEval == cfg.maxEval && r.value.integrationType == cfg.integrationType
  {
    if !validProcess(input) then None
    else if !kps.aboveThreshold then None
    else
      var rQ2 := kps.q2Limits;
      if rQ2.min < 0.0 || rQ2.max < 0.0 then None
      else
        var copy := input.(skipProcessChk := true, skipKinematicChk := true);
        Some(IntegrationRequest(DXSecDQ2, copy, cfg.integrationType, AbsTolerance,
                                cfg.relTolerance, cfg.maxEval, rQ2.min, rQ2.max))
  }

  /** `Integrate`: 0 on every guard, otherwise the integral over the Q²
      limits in units of 1E-38 cm². */
  function Integrate(validProcess: Interaction -> bool, kps: PhaseSpace, cfg: GslConfig,
                     integral: IntegrationRequest -> real, cm2: real, input: Interaction): (xsec: real)
    ensures !validProcess(input) ==> xsec == 0.0
    ensures !kps.aboveThreshold ==> xsec == 0.0
    ensures kps.q2Limits.min < 0.0 || kps.q2Limits.max < 0.0 ==> xsec == 0.0
    ensures validProcess(input) && kps.aboveThreshold && kps.q2Limits.min >= 0.0 && kps.q2Limits.max >= 0.0
            ==> xsec == integral(Plan(validProcess, kps, cfg, input).value) * XSecScale(cm2)
  {
    match Plan(validProcess, kps, cfg, input)
    case None => 0.0
    case Some(req) => integral(req) * XSecScale(cm2)
  }

  /** Apart from the process test, integrating never consults the input's
      own skip bits: when `validProcess` answers alike for an input with its
      skip bits set and for the same input with them cleared, the two are
      integrated identically, since the integrand's copy overrides both bits. */
  lemma SkipBitsOfInputIrrelevant(validProcess: Interaction -> bool, kps: PhaseSpace, cfg: GslConfig,
                                  integral: IntegrationRequest -> real, cm2: real, input: Interaction)
    requires validProcess(input) == validProcess(input.(skipProcessChk := false, skipKinematicChk := false))
    ensures Integrate(validProcess, kps, cfg, integral, cm2, input)
         == Integrate(validProcess, kps, cfg, integral, cm2,
                      input.(skipProcessChk := false, skipKinematicChk := false))
  {
    var plain := input.(skipProcessChk := false, skipKinematicChk := false);
    if Plan(validProcess, kps, cfg, input).Some? {
      assert Plan(validProcess, kps, cfg, input) == Plan(validProcess, kps, cfg, plain);
    }
  }
}
