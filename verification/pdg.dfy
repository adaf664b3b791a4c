/** Particle Data Group codes used by the modelled code, with the values of
    GENIE's particle-code table. */
module Pdg {
  const Proton: int := 2212
  const Neutron: int := 2112
  const NuMu: int := 14
  const AntiNuMu: int := -14
  const Pi0: int := 111
  const PiPlus: int := 211
  const PiMinus: int := -211
  const DarkMatter: int := 2000010000
  const AntiDarkMatter: int := -2000010000

  /** Ion codes 10LZZZAAAI of the targets named in the comparison table. */
  const TgtFreeP: int := 1000010010
  const TgtFreeN: int := 1000000010
  const TgtC12: int := 1000060120
  const TgtNe20: int := 1000100200
  const TgtAl27: int := 1000130270
  const TgtSi30: int := 1000140300
}
