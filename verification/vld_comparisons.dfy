/** The fixed table of data/MC comparisons the cross-section validation
    program knows: for each, an identifier, a plot label, the data-set keys to
    retrieve, the cross-section functor the prediction comes from, the energy
    range, and the axis options. */
module NuXSecComparisons {
  import opened Wrappers
  import Pdg

  /** The prediction functor of a comparison with its constructor arguments.
      `CCQEXSec`'s optional last argument is a per-nucleon scale factor; `None`
      stands for the constructor's default. */
  datatype XSecFunc =
    | CCIsoInclXSec(probe: int)
    | CCQEXSec(probe: int, target: int, hitNucleon: int, scale: Option<real>)
    | CCPionXSec(probe: int, target: int, hitNucleon: int,
                 npip: nat, npi0: nat, npim: nat, nproton: nat, nneutron: nat)
    | CohPionXSec(probe: int, target: int, pion: int)

  datatype Comparison = Comparison(
    id: string,
    plotLabel: string,
    dataSetKeys: string,
    xsecFunc: XSecFunc,
    emin: real,
    emax: real,
    scaleWithE: bool,
    inLogX: bool,
    inLogY: bool)

  const NumOfComparisons: nat := 32

  /** The table as written. The sixth entry (index 5), labelled as the
      medium/high-energy anti-muon-neutrino comparison over 10-120 GeV, carries
      the identifier of the fourth. */
  const AsWritten: seq<Comparison> := [
    Comparison(
      "numuCC_all",
      "#nu_{#mu} CC inclusive",
      "ANL_12FT,2;ANL_12FT,4;BEBC,0;BEBC,2;BEBC,5;BEBC,8;BNL_7FT,0;BNL_7FT,4;CCFR,2;CCFRR,0;CHARM,0;CHARM,4;FNAL_15FT,1;FNAL_15FT,2;Gargamelle,0;Gargamelle,10;Gargamelle,12;IHEP_ITEP,0;IHEP_ITEP,2;IHEP_JINR,0;SKAT,0;MINOS,0;SciBooNE,0",
      CCIsoInclXSec(Pdg.NuMu),
      0.1, 120.0, true, false, true),
    Comparison(
      "numubarCC_all",
      "#bar{#nu_{#mu}} CC inclusive",
      "BEBC,1;BEBC,3;BEBC,6;BEBC,7;BNL_7FT,1;CCFR,3;CHARM,1;CHARM,5;FNAL_15FT,4;FNAL_15FT,5;Gargamelle,1;Gargamelle,11;Gargamelle,13;IHEP_ITEP,1;IHEP_ITEP,3;IHEP_JINR,1;MINOS,1",
      CCIsoInclXSec(Pdg.AntiNuMu),
      0.1, 120.0, true, false, true),
    Comparison(
      "numuCC_lowE",
      "#nu_{#mu} CC inclusive, low-energy data only",
      "ANL_12FT,2;ANL_12FT,4;BEBC,0;BEBC,2;BEBC,5;BEBC,8;BNL_7FT,0;BNL_7FT,4;CCFR,2;CCFRR,0;CHARM,0;CHARM,4;FNAL_15FT,1;FNAL_15FT,2;Gargamelle,0;Gargamelle,10;Gargamelle,12;IHEP_ITEP,0;IHEP_ITEP,2;IHEP_JINR,0;SKAT,0;MINOS,0;SciBooNE,0",
      CCIsoInclXSec(Pdg.NuMu),
      0.1, 10.0, false, false, true),
    Comparison(
      "numubarCC_lowE",
      "#bar{#nu_{#mu}} CC inclusive, low-energy data only",
      "BEBC,1;BEBC,3;BEBC,6;BEBC,7;BNL_7FT,1;CCFR,3;CHARM,1;CHARM,5;FNAL_15FT,4;FNAL_15FT,5;Gargamelle,1;Gargamelle,11;Gargamelle,13;IHEP_ITEP,1;IHEP_ITEP,3;IHEP_JINR,1;MINOS,1",
      CCIsoInclXSec(Pdg.AntiNuMu),
      0.1, 10.0, false, false, true),
    Comparison(
      "numuCC_highE",
      "#nu_{#mu} CC inclusive, medium/high-energy data only",
      "ANL_12FT,2;ANL_12FT,4;BEBC,0;BEBC,2;BEBC,5;BEBC,8;BNL_7FT,0;BNL_7FT,4;CCFR,2;CCFRR,0;CHARM,0;CHARM,4;FNAL_15FT,1;FNAL_15FT,2;Gargamelle,0;Gargamelle,10;Gargamelle,12;IHEP_ITEP,0;IHEP_ITEP,2;IHEP_JINR,0;SKAT,0;MINOS,0",
      CCIsoInclXSec(Pdg.NuMu),
      10.0, 120.0, false, false, true),
    Comparison(
      "numubarCC_lowE",
      "#bar{#nu_{#mu}} CC inclusive, medium/high-energy data only",
      "BEBC,1;BEBC,3;BEBC,6;BEBC,7;BNL_7FT,1;CCFR,3;CHARM,1;CHARM,5;FNAL_15FT,4;FNAL_15FT,5;Gargamelle,1;Gargamelle,11;Gargamelle,13;IHEP_ITEP,1;IHEP_ITEP,3;IHEP_JINR,1;MINOS,1",
      CCIsoInclXSec(Pdg.AntiNuMu),
      10.0, 120.0, false, false, true),
    Comparison(
      "numuCC_minos",
      "#nu_{#mu} CC inclusive, MINOS data only",
      "MINOS,0",
      CCIsoInclXSec(Pdg.NuMu),
      1.0, 60.0, false, false, true),
    Comparison(
      "numubarCC_minos",
      "#bar{#nu_{#mu}} CC inclusive, MINOS data only",
      "MINOS,1",
      CCIsoInclXSec(Pdg.AntiNuMu),
      1.0, 60.0, false, false, true),
    Comparison(
      "numuCC_sciboone",
      "#nu_{#mu} CC inclusive, SciBooNE data only",
      "SciBooNE,0",
      CCIsoInclXSec(Pdg.NuMu),
      0.1, 6.0, false, false, false),
    Comparison(
      "numuCCQE_all",
      "#nu_{#mu} CCQE, all data",
      "ANL_12FT,1;ANL_12FT,3;BEBC,12;BNL_7FT,3;FNAL_15FT,3;Gargamelle,2;SERP_A1,0;SERP_A1,1;SKAT,8;NOMAD,2",
      CCQEXSec(Pdg.NuMu, Pdg.TgtFreeN, Pdg.Neutron, None),
      0.1, 30.0, true, false, false),
    Comparison(
      "numuCCQE_deuterium",
      "#nu_{#mu} CCQE, deuterium data",
      "ANL_12FT,1;ANL_12FT,3;BEBC,12;BNL_7FT,3;FNAL_15FT,3",
      CCQEXSec(Pdg.NuMu, Pdg.TgtFreeN, Pdg.Neutron, None),
      0.1, 30.0, true, false, false),
    Comparison(
      "numuCCQE_heavy_target",
      "#nu_{#mu} CCQE, heavy target data",
      "Gargamelle,2;SERP_A1,0;SERP_A1,1;SKAT,8;NOMAD,2",
      CCQEXSec(Pdg.NuMu, Pdg.TgtFreeN, Pdg.Neutron, None),
      0.1, 30.0, true, false, false),
    Comparison(
      "numuCCQE_nomad_nuclear",
      "#nu_{#mu} CCQE, NOMAD, ^{12}C cross-section per neutron (no nuclear correction)",
      "NOMAD,0",
      CCQEXSec(Pdg.NuMu, Pdg.TgtC12, Pdg.Neutron, Some(1.0 / 6.0)),
      2.0, 100.0, true, false, false),
    Comparison(
      "numuCCQE_nomad_nucleon",
      "#nu_{#mu} CCQE, NOMAD, free-nucleon cross-section (incl. Smith-Moniz correction)",
      "NOMAD,2",
      CCQEXSec(Pdg.NuMu, Pdg.TgtFreeN, Pdg.Neutron, None),
      2.0, 100.0, true, false, false),
    Comparison(
      "numubarCCQE_all",
      "#bar{#nu_{#mu}} CCQE, all data",
      "BNL_7FT,2;Gargamelle,3;Gargamelle,5;SERP_A1,2;SKAT,9;NOMAD,3",
      CCQEXSec(Pdg.AntiNuMu, Pdg.TgtFreeP, Pdg.Proton, None),
      0.1, 30.0, true, false, false),
    Comparison(
      "numubarCCQE_deuterium",
      "#bar{#nu_{#mu}} CCQE, deuterium data",
      "BNL_7FT,2",
      CCQEXSec(Pdg.AntiNuMu, Pdg.TgtFreeP, Pdg.Proton, None),
      0.1, 30.0, true, false, false),
    Comparison(
      "numubarCCQE_heavy_target",
      "#bar{#nu_{#mu}} CCQE, heavy target data",
      "Gargamelle,3;Gargamelle,5;SERP_A1,2;SKAT,9;NOMAD,3",
      CCQEXSec(Pdg.AntiNuMu, Pdg.TgtFreeP, Pdg.Proton, None),
      0.1, 30.0, true, false, false),
    Comparison(
      "numubarCCQE_nomad_nuclear",
      "#bar{#nu_{#mu}} CCQE, NOMAD, ^{12}C cross-section per proton (no nuclear correction)",
      "NOMAD,1",
      CCQEXSec(Pdg.AntiNuMu, Pdg.TgtC12, Pdg.Proton, Some(1.0 / 6.0)),
      2.0, 100.0, true, false, false),
    Comparison(
      "numubarCCQE_nomad_nucleon",
      "#bar{#nu_{#mu}} CCQE, NOMAD, free-nucleon cross-section (incl. Smith-Moniz correction)",
      "NOMAD,3",
      CCQEXSec(Pdg.AntiNuMu, Pdg.TgtFreeP, Pdg.Proton, None),
      2.0, 100.0, true, false, false),
    Comparison(
      "numuCCppip",
      "#nu_{#mu} CC1#pi^{+} (#nu_{#mu} p #rightarrow #mu^{-} p #pi^{+})",
      "ANL_12FT,0;ANL_12FT,5;ANL_12FT,8;BEBC,4;BEBC,9;BEBC,13;BNL_7FT,5;FNAL_15FT,0;Gargamelle,4;SKAT,4;SKAT,5",
      CCPionXSec(Pdg.NuMu, Pdg.TgtFreeP, Pdg.Proton, 1, 0, 0, 1, 0),
      0.1, 30.0, true, false, false),
    Comparison(
      "numuCCnpip",
      "#nu_{#mu} CC1#pi^{+} (#nu_{#mu} n #rightarrow #mu^{-} n #pi^{+})",
      "ANL_12FT,7;ANL_12FT,10;BNL_7FT,7;SKAT,7",
      CCPionXSec(Pdg.NuMu, Pdg.TgtFreeN, Pdg.Neutron, 1, 0, 0, 0, 1),
      0.1, 30.0, true, false, false),
    Comparison(
      "numuCCppi0",
      "#nu_{#mu} CC1#pi^{0} (#nu_{#mu} n #rightarrow #mu^{-} p #pi^{0})",
      "ANL_12FT,6;ANL_12FT,9;BNL_7FT,6;SKAT,6",
      CCPionXSec(Pdg.NuMu, Pdg.TgtFreeN, Pdg.Neutron, 0, 1, 0, 1, 0),
      0.1, 30.0, true, false, false),
    Comparison(
      "numuCCn2pip",
      "#nu_{#mu} CC#pi^{+}#pi^{+} (#nu_{#mu} p #rightarrow #mu^{-} n #pi^{+} #pi^{+})",
      "ANL_12FT,13",
      CCPionXSec(Pdg.NuMu, Pdg.TgtFreeP, Pdg.Proton, 2, 0, 0, 0, 1),
      1.0, 120.0, true, false, false),
    Comparison(
      "numuCCppippi0",
      "#nu_{#mu} CC#pi^{+}#pi^{0} (#nu_{#mu} p #rightarrow #mu^{-} p #pi^{+} #pi^{0})",
      "ANL_12FT,12",
      CCPionXSec(Pdg.NuMu, Pdg.TgtFreeP, Pdg.Proton, 1, 1, 0, 1, 0),
      1.0, 120.0, true, false, false),
    Comparison(
      "numuCCppippim",
      "#nu_{#mu} CC#pi^{+}#pi^{-} (#nu_{#mu} n #rightarrow #mu^{-} p #pi^{+} #pi^{-})",
      "ANL_12FT,11;BNL_7FT,8",
      CCPionXSec(Pdg.NuMu, Pdg.TgtFreeN, Pdg.Neutron, 1, 0, 1, 1, 0),
      1.0, 120.0, true, false, false),
    Comparison(
      "numuNCcohpi0_Ne20",
      "#nu_{#mu} NC coherent #pi^{0} (^{20}Ne)",
      "CHARM,2",
      CohPionXSec(Pdg.NuMu, Pdg.TgtNe20, Pdg.Pi0),
      1.0, 150.0, false, false, false),
    Comparison(
      "numuCCcohpip_Ne20",
      "#nu_{#mu} CC coherent #pi^{+} (^{20}Ne)",
      "BEBC,11;CHARM,6;FNAL_15FT,8",
      CohPionXSec(Pdg.NuMu, Pdg.TgtNe20, Pdg.PiPlus),
      1.0, 150.0, false, false, false),
    Comparison(
      "numubarCCcohpim_Ne20",
      "#bar{#nu_{#mu}} CC coherent #pi^{-} (^{20}Ne)",
      "BEBC,10;CHARM,7;FNAL_15FT,7",
      CohPionXSec(Pdg.AntiNuMu, Pdg.TgtNe20, Pdg.PiMinus),
      1.0, 150.0, false, false, false),
    Comparison(
      "numuNCcohpi0_Al27",
      "#nu_{#mu} NC coherent #pi^{0} (^{27}Al)",
      "AachenPadova,0",
      CohPionXSec(Pdg.NuMu, Pdg.TgtAl27, Pdg.Pi0),
      1.0, 150.0, false, false, false),
    Comparison(
      "numuNCcohpi0_Si30",
      "#nu_{#mu} NC coherent #pi^{0} (^{30}Si)",
      "Gargamelle,14;SKAT,3",
      CohPionXSec(Pdg.NuMu, Pdg.TgtSi30, Pdg.Pi0),
      1.0, 150.0, false, false, false),
    Comparison(
      "numuCCcohpip_Si30",
      "#nu_{#mu} CC coherent #pi^{+} (^{30}Si)",
      "SKAT,1",
      CohPionXSec(Pdg.NuMu, Pdg.TgtSi30, Pdg.PiPlus),
      1.0, 150.0, false, false, false),
    Comparison(
      "numubarCCcohpim_Si30",
      "#bar{#nu_{#mu}} CC coherent #pi^{-} (^{30}Si)",
      "SKAT,2",
      CohPionXSec(Pdg.AntiNuMu, Pdg.TgtSi30, Pdg.PiMinus),
      1.0, 150.0, false, false, false)
  ]

  /** The table with the sixth entry carrying the identifier its label and
      energy range call for. */
  const Intended: seq<Comparison> := AsWritten[5 := AsWritten[5].(id := "numubarCC_highE")]

  /** The identifiers of the intended table, in table order. */
  const IntendedIds: seq<string> := [
    "numuCC_all",
    "numubarCC_all",
    "numuCC_lowE",
    "numubarCC_lowE",
    "numuCC_highE",
    "numubarCC_highE",
    "numuCC_minos",
    "numubarCC_minos",
    "numuCC_sciboone",
    "numuCCQE_all",
    "numuCCQE_deuterium",
    "numuCCQE_heavy_target",
    "numuCCQE_nomad_nuclear",
    "numuCCQE_nomad_nucleon",
    "numubarCCQE_all",
    "numubarCCQE_deuterium",
    "numubarCCQE_heavy_target",
    "numubarCCQE_nomad_nuclear",
    "numubarCCQE_nomad_nucleon",
    "numuCCppip",
    "numuCCnpip",
    "numuCCppi0",
    "numuCCn2pip",
    "numuCCppippi0",
    "numuCCppippim",
    "numuNCcohpi0_Ne20",
    "numuCCcohpip_Ne20",
    "numubarCCcohpim_Ne20",
    "numuNCcohpi0_Al27",
    "numuNCcohpi0_Si30",
    "numuCCcohpip_Si30",
    "numubarCCcohpim_Si30"
  ]

  /** `IntendedIds` lists the identifiers of `Intended`, first half. */
  lemma IntendedIdsOfFirstHalf()
    ensures |Intended| == |IntendedIds| == NumOfComparisons
    ensures forall i :: 0 <= i < 16 ==> Intended[i].id == IntendedIds[i]
  {
  }

  /** `IntendedIds` lists the identifiers of `Intended`, second half. */
  lemma IntendedIdsOfSecondHalf()
    ensures |Intended| == |IntendedIds| == NumOfComparisons
    ensures forall i :: 16 <= i < NumOfComparisons ==> Intended[i].id == IntendedIds[i]
  {
  }

  /** No identifier at rows 0..3 recurs further down. */
  lemma IdsDistinctFrom0()
    ensures forall i, j :: 0 <= i < 4 && i < j < |IntendedIds| ==> IntendedIds[i] != IntendedIds[j]
  {
  }

  /** No identifier at rows 4..5 recurs further down. */
  lemma IdsDistinctFrom4()
    ensures forall i, j :: 4 <= i < 6 && i < j < |IntendedIds| ==> IntendedIds[i] != IntendedIds[j]
  {
  }

  /** No identifier at rows 6..7 recurs further down. */
  lemma IdsDistinctFrom6()
    ensures forall i, j :: 6 <= i < 8 && i < j < |IntendedIds| ==> IntendedIds[i] != IntendedIds[j]
  {
  }

  /** No identifier at rows 8..9 recurs further down. */
  lemma IdsDistinctFrom8()
    ensures forall i, j :: 8 <= i < 10 && i < j < |IntendedIds| ==> IntendedIds[i] != IntendedIds[j]
  {
  }

  /** No identifier at rows 10..11 recurs further down. */
  lemma IdsDistinctFrom10()
    ensures forall i, j :: 10 <= i < 12 && i < j < |IntendedIds| ==> IntendedIds[i] != IntendedIds[j]
  {
  }

  /** No identifier at rows 12..15 recurs further down. */
  lemma IdsDistinctFrom12()
    ensures forall i, j :: 12 <= i < 16 && i < j < |IntendedIds| ==> IntendedIds[i] != IntendedIds[j]
  {
  }

  /** No identifier at rows 16..19 recurs further down. */
  lemma IdsDistinctFrom16()
    ensures forall i, j :: 16 <= i < 20 && i < j < |IntendedIds| ==> IntendedIds[i] != IntendedIds[j]
  {
  }

  /** No identifier at rows 20..23 recurs further down. */
  lemma IdsDistinctFrom20()
    ensures forall i, j :: 20 <= i < 24 && i < j < |IntendedIds| ==> IntendedIds[i] != IntendedIds[j]
  {
  }

  /** No identifier at rows 24..27 recurs further down. */
  lemma IdsDistinctFrom24()
    ensures forall i, j :: 24 <= i < 28 && i < j < |IntendedIds| ==> IntendedIds[i] != IntendedIds[j]
  {
  }

  /** No identifier at rows 28..31 recurs further down. */
  lemma IdsDistinctFrom28()
    ensures forall i, j :: 28 <= i < 32 && i < j < |IntendedIds| ==> IntendedIds[i] != IntendedIds[j]
  {
  }

  /** In the intended table no two rows share an identifier. */
  lemma IntendedIdsDistinct()
    ensures |Intended| == NumOfComparisons
    ensures forall i, j :: 0 <= i < j < |Intended| ==> Intended[i].id != Intended[j].id
  {
    IntendedIdsOfFirstHalf();
    IntendedIdsOfSecondHalf();
    IdsDistinctFrom0();
    IdsDistinctFrom4();
    IdsDistinctFrom6();
    IdsDistinctFrom8();
    IdsDistinctFrom10();
    IdsDistinctFrom12();
    IdsDistinctFrom16();
    IdsDistinctFrom20();
    IdsDistinctFrom24();
    IdsDistinctFrom28();
  }
}
