/** The interaction summary the generators and integrators pass around:
    initial state (probe and target), process, and the two "skip check" bits
    an integrator sets on its private copy. */
module Interactions {

  /** A nuclear target: its proton count Z, neutron count N, and the PDG code
      of the struck nucleon (0 when none is set). */
  datatype Target = Target(z: nat, n: nat, hitNucPdg: int)

  datatype InitialState = InitialState(probePdg: int, target: Target)

  datatype ScatteringType = ScDarkMatterElastic | ScDarkMatterElectron

  datatype InteractionType = IntDarkMatter

  datatype ProcessInfo = ProcessInfo(scattering: ScatteringType, interactionType: InteractionType)

  datatype Interaction = Interaction(
    initState: InitialState,
    process: ProcessInfo,
    skipProcessChk: bool,
    skipKinematicChk: bool)

  const ElasticProcess: ProcessInfo := ProcessInfo(ScDarkMatterElastic, IntDarkMatter)
  const ElectronProcess: ProcessInfo := ProcessInfo(ScDarkMatterElectron, IntDarkMatter)

  /** `new Interaction(init, proc)`: a fresh interaction has no skip bit set. */
  function NewInteraction(init: InitialState, process: ProcessInfo): Interaction {
    Interaction(init, process, false, false)
  }

  /** `Target::SetHitNucPdg` applied to the target of an initial state. */
  function WithHitNucleon(init: InitialState, nucleon: int): InitialState {
    init.(target := init.target.(hitNucPdg := nucleon))
  }
}
