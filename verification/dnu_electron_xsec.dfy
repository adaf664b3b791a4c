/** The dark-matter--electron cross-section integrator: its guard clauses,
    the y bounds it integrates over, and the interaction copy it binds the
    integrand to. */
module DNuElectronXSec {
  import opened Wrappers
  import opened Interactions
  import opened XSecIntegration
  import DNuELXSec

  /** The integration `Integrate` performs, or `None` when it returns 0
      without integrating: the model rejects the process or the energy is
      below threshold. The y limits are used as they come, with no sign test. */
  function Plan(validProcess: Interaction -> bool, kps: PhaseSpace, cfg: GslConfig, input: Interaction)
    : (r: Option<IntegrationRequest>)
    ensures r.None? <==> !validProcess(input) || !kps.aboveThreshold
    ensures r.Some? ==> r.value.lower == kps.yLimits.min && r.value.upper == kps.yLimits.max
    ensures r.Some? ==> r.value.integrand == DXSecDy
    ensures r.Some? ==> r.value.interaction.skipProcessChk
    ensures r.Some? ==> r.value.interaction.skipKinematicChk == input.skipKinematicChk
    ensures r.Some? ==> r.value.interaction.initState == input.initState
                        && r.value.interaction.process == input.process
    ensures r.Some? ==> r.value.absTolerance == 1.0 && r.value.relTolerance == cfg.relTolerance
                        && r.value.maxEval == cfg.maxEval && r.value.integrationType == cfg.integrationType
  {
    if !validProcess(input) then None
    else if !kps.aboveThreshold then None
    else
      var yl := kps.yLimits;
      var copy := input.(skipProcessChk := true);
      Some(IntegrationRequest(DXSecDy, copy, cfg.integrationType, 1.0,
                              cfg.relTolerance, cfg.maxEval, yl.min, yl.max))
  }

  /** `Integrate`: 0 on every guard, otherwise the integral over the y limits
      in units of 1E-38 cm². */
  function Integrate(validProcess: Interaction -> bool, kps: PhaseSpace, cfg: GslConfig,
                     integral: IntegrationRequest -> real, cm2: real, input: Interaction): (xsec: real)
    ensures !validProcess(input) ==> xsec == 0.0
    ensures !kps.aboveThreshold ==> xsec == 0.0
    ensures validProcess(input) && kps.aboveThreshold
            ==> xsec == integral(Plan(validProcess, kps, cfg, input).value) * XSecScale(cm2)
  {
    match Plan(validProcess, kps, cfg, input)
    case None => 0.0
    case Some(req) => integral(req) * XSecScale(cm2)
  }

  /** The two integrators differ on negative limits: where the elastic one
      returns 0 for a negative lower Q² limit, the electron one still
      integrates over a negative lower y limit. */
  lemma NegativeLimitsTreatedDifferently(validProcess: Interaction -> bool, kps: PhaseSpace,
                                         cfg: GslConfig, input: Interaction)
    requires validProcess(input) && kps.aboveThreshold
    requires kps.q2Limits.min < 0.0 && kps.yLimits.min < 0.0
    ensures DNuELXSec.Plan(validProcess, kps, cfg, input).None?
    ensures Plan(validProcess, kps, cfg, input).Some?
    ensures Plan(validProcess, kps, cfg, input).value.lower < 0.0
  {
  }

  /** An input whose kinematic check is active keeps it active in the
      integrand's copy here, while the elastic integrator switches it off. */
  lemma KinematicCheckKept(validProcess: Interaction -> bool, kps: PhaseSpace,
                           cfg: GslConfig, input: Interaction)
    requires validProcess(input) && kps.aboveThreshold
    requires kps.q2Limits.min >= 0.0 && kps.q2Limits.max >= 0.0
    requires !input.skipKinematicChk
    ensures !Plan(validProcess, kps, cfg, input).value.interaction.skipKinematicChk
    ensures DNuELXSec.Plan(validProcess, kps, cfg, input).value.interaction.skipKinematicChk
  {
  }
}
