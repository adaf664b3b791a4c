# GENIE dark-matter generators, particle decayer and cross-section validation: decision logic

This project models, in Dafny, the decision and selection rules of several
pieces of the GENIE neutrino event generator. It does not model the physics
behind them.

- **Elastic interaction lists.** `DNuELInteractionListGenerator` builds the
  list of dark-matter–nucleon elastic interactions for an initial state. The
  list has one entry per kind of nucleon the target holds, protons first. An
  empty list is returned as null (`None`).
- **Electron interaction lists.** `DNuEInteractionListGenerator` builds the
  zero-or-one-entry list of dark-matter–electron interactions. It also clears
  the struck nucleon of the caller's initial state.
- **Particle decayer.** The `Decayer` has a two-mode selection predicate,
  `ToBeDecayed` and `IsUnstable`, over a particle's PDG code and status. Its
  `LoadConfig` turns `DecayParticleWithCode=<pdg>` and
  `InhibitDecay/Particle=<pdg>,Channel=<n>` keys into two sorted code lists
  and a list of inhibited channels. `Configure` then locks reconfiguration.
- **Integrator guard clauses.** `DNuELXSec::Integrate` and
  `DNuElectronXSec::Integrate` return 0 in some cases. The model states when,
  which bounds are integrated over, which skip bits the integrand's copy
  carries, and the configuration defaults. The integral itself is a
  parameter.
- **Validation program.** The control logic of `gvld_nu_xsec` covers:
  - turning the command line into settings;
  - the 32-entry comparison table and the selection loop over it;
  - the per-model error band and line style;
  - the plot frame computed from the data and model points;
  - the two-graph `DrawFrame` helper.

Helpers whose bodies are elsewhere in GENIE or ROOT become function-typed
parameters:
- `pdg::IsDarkMatter` / `IsAntiDarkMatter`;
- `utils::res::IsBaryonResonance`;
- `PDGLibrary::Find` (as "known particle");
- `utils::str::Split` / `FilterString`;
- `XSecAlgorithmI::ValidProcess`;
- the numerical integral.

The phase-space facts are an input record. `atoi` is modelled concretely, as
section 7.22.1.2 of ISO/IEC 9899 (C11) defines it. The `(unsigned int)` cast
of the `gsl-max-eval` parameter is modelled as reduction modulo 2^32.

Files:
- `wrappers.dfy`: `Option`/`Result`.
- `registry.dfy`: configuration registry, 32-bit integers.
- `cstdlib.dfy`: `atoi`.
- `pdg.dfy`: PDG codes.
- `interaction.dfy`: initial state, process, interaction.
- `dnu_el_interaction_list.dfy`, `dnu_e_interaction_list.dfy`: the two
  list generators.
- `sorting.dfy`: `std::sort`.
- `decayer.dfy`: the decayer.
- `xsec_integration.dfy`: the shared integrator configuration.
- `dnu_el_xsec.dfy`, `dnu_electron_xsec.dfy`: the two integrators.
- `vld_comparisons.dfy`: the comparison table.
- `vld_nu_xsec.dfy`: options, selection and model styles.
- `vld_frame.dfy`: plot frames.

## Model

| member | source | states |
|---|---|---|
| DNuELInteractionListGenerator.LoadConfigData | src/Physics/DarkNeutrino/EventGen/DNuELInteractionListGenerator.cxx:120-123 | `is-DNu` is on exactly when the configuration sets it to true; absent, it is off |
| DNuELInteractionListGenerator.CollectHits | src/Physics/DarkNeutrino/EventGen/DNuELInteractionListGenerator.cxx:77-96 | the slot loop appends exactly one entry per slot that passes the Z>0 / N>0 test, in slot order: the list is as long as the admitted slots, and its k-th entry is the elastic interaction on the initial state whose struck nucleon is the k-th admitted slot |
| DNuELInteractionListGenerator.CreateInteractionListDNu | src/Physics/DarkNeutrino/EventGen/DNuELInteractionListGenerator.cxx:59-106 | null exactly when the probe is neither dark matter nor anti-dark matter, or the target has Z=0 and N=0. The proton entry is present iff the probe qualifies and Z>0; the neutron entry iff it qualifies and N>0. A returned list has 1 or 2 entries, each a dark-matter elastic process on a proton or neutron. With two entries, the proton one comes first |
| DNuELInteractionListGenerator.CreateInteractionList | src/Physics/DarkNeutrino/EventGen/DNuELInteractionListGenerator.cxx:42-57 | null whenever `is-DNu` is off; otherwise the result of `CreateInteractionListDNu` |
| DNuELInteractionListGenerator.DefaultConfigCreatesNoList | src/Physics/DarkNeutrino/EventGen/DNuELInteractionListGenerator.cxx:48-55 | with no `is-DNu` key configured, no initial state gets a list |
| DNuEInteractionListGenerator.DNuEELInteractionList | src/Physics/DarkNeutrino/EventGen/DNuEInteractionListGenerator.cxx:56-77 | a list (never null) with at most one entry. It has one entry iff the probe is `kPdgDarkMatter` or `kPdgAntiDarkMatter`. That entry is a dark-matter–electron process built from the state as it was before the reset, with no skip bit set. The caller's state comes back with struck nucleon 0 and the same probe, Z and N |
| DNuEInteractionListGenerator.CreateInteractionList | src/Physics/DarkNeutrino/EventGen/DNuEInteractionListGenerator.cxx:48-54 | the same outcome as `DNuEELInteractionList` for every initial state |
| DNuEInteractionListGenerator.OnlyProbeDecides | src/Physics/DarkNeutrino/EventGen/DNuEInteractionListGenerator.cxx:63-76 | two initial states with the same probe get lists of the same length, whatever their targets |
| DNuEInteractionListGenerator.EntryKeepsOriginalHitNucleon | src/Physics/DarkNeutrino/EventGen/DNuEInteractionListGenerator.cxx:67-72 | for a dark-matter or anti-dark-matter probe there is exactly one entry. It keeps the struck nucleon the caller passed in, while the caller's state has it reset to 0: the reset acts on the caller's state, not on the copy |
| Decayer.IsUnstable | src/Physics/Decay/Decayer.cxx:73-105 | before hadron transport: true iff the code is a baryon resonance. After it: true iff the code is in the configured decay list |
| Decayer.ToBeDecayed | src/Physics/Decay/Decayer.cxx:56-71 | code 0 is never decayed. Before transport the admissible statuses are hadron-in-the-nucleus and stable-final-state; after it, only stable-final-state. For an admissible status and a non-zero code the result equals `IsUnstable`; otherwise it is false. Both modes are stated as iff's |
| Decayer.ClassifyCodeKeys | src/Physics/Decay/Decayer.cxx:148-181 | succeeds iff every key splits on "=" into two parts; a failure names an offending key. On success each key's `atoi` code is in the decay list when its value is true and in the not-to-decay list when false. Every listed code comes from such a key with that value, and the two lists together hold as many codes as there are keys |
| Decayer.InhibitChannels | src/Physics/Decay/Decayer.cxx:183-205 | only keys with value true must have the two-part shape, so false keys are skipped unexamined. Every true key of a known particle contributes its (particle, channel). Every recorded channel is of a known particle and comes from a true well-formed key |
| Decayer.LoadConfig | src/Physics/Decay/Decayer.cxx:123-218 | a missing `RunBeforeHadronTransport` is modelled as a failure (see "## Left out"). On success the mode is the configured one. Both code lists are sorted ascending and are permutations of the classified lists. The channels are those of the inhibit loop. It succeeds exactly when the parameter exists and both loops succeed |
| Decayer.Configure | src/Physics/Decay/Decayer.cxx:107-113 | it succeeds exactly when `LoadConfig` does. On success the stored settings are `LoadConfig`'s result, so both lists are sorted, and reconfiguration is forbidden |
| Decayer.ConfiguredDecayAfterTransport | src/Physics/Decay/Decayer.cxx:56-181 | after transport, a stable final-state particle is decayed iff its code is non-zero and some well-formed key with value true names it |
| Sorting.Sort | src/Physics/Decay/Decayer.cxx:208-209 | the result is sorted ascending, with the same codes and the same multiplicities |
| Sorting.SortIgnoresOrder | src/Physics/Decay/Decayer.cxx:208-209 | inputs that are permutations of each other sort to the same list |
| Sorting.SortedUnique | src/Physics/Decay/Decayer.cxx:208-209 | two sorted lists with the same multiset of codes are equal |
| CStdlib.Atoi | src/Physics/Decay/Decayer.cxx:155 | C's `atoi` as used on the key parts at lines 155 and 191-192. Text that, after white space, starts neither with a digit nor with a sign and a digit reads as 0. A leading minus gives a result of at most 0, and anything else one of at least 0. `AtoiFormatInt` and `AtoiOfDigits` show that it reads back every decimal integer and the base-10 value of a digit string |
| CStdlib.AtoiFormatInt | src/Physics/Decay/Decayer.cxx:155 | `atoi` reads back every integer written in decimal, whatever non-digit text follows it |
| CStdlib.AtoiOfDigits | src/Physics/Decay/Decayer.cxx:155 | a plain digit string is read as its base-10 value |
| Registry.ToUnsigned | src/Physics/DarkNeutrino/XSection/DNuELXSec.cxx:116-118 | the unsigned conversion keeps non-negative values and adds 2^32 to negative ones, which land exactly in the upper half of the range |
| XSecIntegration.LoadGslConfig | src/Physics/DarkNeutrino/XSection/DNuELXSec.cxx:111-119 | integration type, relative tolerance and maximum evaluations are the configured values or the defaults "adaptive", 0.01 and 100000; the maximum goes through the unsigned conversion. `DNuElectronXSec::LoadConfig` (DNuElectronXSec.cxx:97-105) is identical |
| DNuELXSec.Plan | src/Physics/DarkNeutrino/XSection/DNuELXSec.cxx:61-89 | no integration iff the model rejects the process, the energy is below threshold, or either Q² limit is negative. Otherwise it integrates dσ/dQ² over exactly [Q²min, Q²max], both non-negative. The integrand's copy has both skip bits set and the input's initial state and process. The absolute tolerance is 1 and the rest are the configured settings |
| DNuELXSec.Integrate | src/Physics/DarkNeutrino/XSection/DNuELXSec.cxx:61-97 | 0 for a rejected process, below threshold, or a negative Q² limit; otherwise the integral of that request times 1E-38 cm² |
| DNuELXSec.SkipBitsOfInputIrrelevant | src/Physics/DarkNeutrino/XSection/DNuELXSec.cxx:65-80 | provided `ValidProcess` answers alike for the input with its skip bits set and with them cleared, those bits do not change the result, since the integrand's copy overrides both. Line 65 passes the input, bits included, to `ValidProcess`, whose body is not part of this model |
| DNuElectronXSec.Plan | src/Physics/DarkNeutrino/XSection/DNuElectronXSec.cxx:53-76 | no integration iff the model rejects the process or the energy is below threshold. Otherwise it integrates dσ/dy over exactly the y limits, with no sign test. Only the skip-process bit is set; the kinematic bit is the input's, on the assumption recorded under "## Left out". The absolute tolerance is 1 and the rest are the configured settings |
| DNuElectronXSec.Integrate | src/Physics/DarkNeutrino/XSection/DNuElectronXSec.cxx:53-83 | 0 for a rejected process or below threshold; otherwise the integral of that request times 1E-38 cm² |
| DNuElectronXSec.NegativeLimitsTreatedDifferently | src/Physics/DarkNeutrino/XSection/DNuElectronXSec.cxx:63-76 | with negative lower limits the elastic integrator returns 0, while the electron integrator still integrates from the negative y limit |
| DNuElectronXSec.KinematicCheckKept | src/Physics/DarkNeutrino/XSection/DNuElectronXSec.cxx:67-69 | an active kinematic check stays active in the electron integrand's copy but is switched off in the elastic one's |
| VldNuXSec.GetCommandLineArgs | src/validation/NuXSec/gVldNuXSec.cxx:695-734 | `-d` wins. Otherwise the data file is `$GENIE + "/" + kDefDataFile`. With neither, exit status 1. The model is shown iff `-g` is given, with its argument as file list. Error bands are on iff `-e` is given. The comparison is `-c`'s argument or empty |
| VldNuXSec.OnlyFourOptionsRead | src/validation/NuXSec/gVldNuXSec.cxx:695-734 | adding or removing any option other than d, g, e and c leaves the settings unchanged, and with `-d` given the `$GENIE` value does not matter |
| VldNuXSec.ComparisonsToDraw | src/validation/NuXSec/gVldNuXSec.cxx:398-409 | indices are strictly increasing (table order, each once) and in range. An index is drawn iff no comparison was asked for or its ID equals the option. With no option the result is every index in order |
| VldNuXSec.DrawnMatchesWanted | src/validation/NuXSec/gVldNuXSec.cxx:398-409 | the drawn indices are exactly the entries the option selects, and their count is that set's size |
| VldNuXSec.AsWrittenDuplicateId | src/validation/NuXSec/gVldNuXSec.cxx:120-143 | the table as written has 32 entries, and entries 3 and 5 are both "numubarCC_lowE". Selecting that ID draws both, and "numubarCC_highE" selects nothing |
| VldNuXSec.IntendedIdsUnique | src/validation/NuXSec/gVldNuXSec.cxx:94-352 | in the corrected table the IDs are pairwise distinct, "numubarCC_highE" selects entry 5 alone, and "numubarCC_lowE" selects entry 3 alone |
| VldNuXSec.SelectsOnlyItsRow | src/validation/NuXSec/gVldNuXSec.cxx:401-405 | in a table without repeated IDs, a row's ID selects that row and no other |
| VldNuXSec.RenamedRowDuplicates | src/validation/NuXSec/gVldNuXSec.cxx:401-405 | giving a later row of such a table the ID of an earlier one makes that ID select both rows, and the later row's old ID selects nothing |
| VldNuXSec.SelectionDrawsAtMostOne | src/validation/NuXSec/gVldNuXSec.cxx:401-405 | in a table without repeated IDs, any non-empty `-c` option selects at most one comparison |
| VldNuXSec.IntendedSelectionDrawsAtMostOne | src/validation/NuXSec/gVldNuXSec.cxx:401-405 | with the corrected table, any non-empty `-c` option selects at most one comparison |
| NuXSecComparisons.IntendedIdsDistinct | src/validation/NuXSec/gVldNuXSec.cxx:94-352 | the corrected table has 32 entries with pairwise distinct IDs |
| VldNuXSec.ModelPlotStyle | src/validation/NuXSec/gVldNuXSec.cxx:530-545 | for model index ≥ 3 the unguarded line-style read is out of bounds (`None`). Otherwise the error band is on iff the index is 0 and `-e` was given, and the line style is the index's entry of {solid, dashed, dotted}. With a band the draw option is "c4" and the legend option "LF"; without one they are "c" and "L" (lines 616-623) |
| VldNuXSec.AtMostOneErrorBand | src/validation/NuXSec/gVldNuXSec.cxx:534 | two distinct model indices never both carry an error band |
| VldFrame.Least | src/validation/NuXSec/gVldNuXSec.cxx:575-577 | the value at `TMath::LocMin` is below or equal to every coordinate of the graph and is one of them |
| VldFrame.Greatest | src/validation/NuXSec/gVldNuXSec.cxx:576-578 | the value at `TMath::LocMax` is above or equal to every coordinate of the graph and is one of them |
| VldFrame.DataBounds | src/validation/NuXSec/gVldNuXSec.cxx:569-579 | undefined (`None`) iff some non-null data graph has no points. Otherwise the extremes span the start values and every data point, and each extreme is a start value or a coordinate of some data point |
| VldFrame.AddModelPoints | src/validation/NuXSec/gVldNuXSec.cxx:580-589 | the x extremes are unchanged and the y extremes only widen. Every model point whose x lies in [xmin, xmax] is inside the y extremes, and each y extreme is its start value or the y of such a point |
| VldFrame.OutOfRangeModelPointIgnored | src/validation/NuXSec/gVldNuXSec.cxx:585 | a model point outside the data's x range does not change the result |
| VldFrame.PageFrame | src/validation/NuXSec/gVldNuXSec.cxx:568-591 | undefined iff a data graph is empty. Otherwise the frame is (0.5·xmin, 0.4·ymin, 1.2·xmax, s·ymax) of the data-then-model extremes, with s = 2 on a log y axis and 1.4 otherwise |
| VldFrame.PageFrameEnclosesPoints | src/validation/NuXSec/gVldNuXSec.cxx:568-591 | with at least one data point and positive values, every data point is strictly inside the frame, and so is every model point in the data's x range |
| VldFrame.NoDataInvertsFrame | src/validation/NuXSec/gVldNuXSec.cxx:569-591 | when every data graph is null the extremes are exactly the start values, and the frame's lower x border lies above its upper one |
| VldFrame.GraphsFrame | src/validation/NuXSec/gVldNuXSec.cxx:651-681 | the source ranges are the first graph's (or the defaults when it is null) and the second graph's when given. The frame is exactly (max(0.1, 0.5·xmin), 0.5·ymin, 1.5·xmax, 1.5·ymax), where each extreme is the smallest or largest over the source ranges: it bounds every source and is attained by one. The lower x border is at least 0.1. Every given graph with non-negative ranges and lower x ≥ 0.1 lies inside the frame. With no graph the frame is (0.1, 5E-6, 1.5, 1.5) |
| VldFrame.GraphsFrameSymmetric | src/validation/NuXSec/gVldNuXSec.cxx:666-673 | with both graphs given, swapping them gives the same frame |
| VldFrame.FrameOfMerged | src/validation/NuXSec/gVldNuXSec.cxx:658-680 | the frame depends on the two graphs only through their merged ranges: it equals the frame of those ranges passed alone as the first graph |
| VldFrame.LoneFirstGraph | src/validation/NuXSec/gVldNuXSec.cxx:658-665 | for every graph, passed alone as the first graph it is framed from its own ranges only, exactly as if it were given twice |
| VldFrame.LoneSecondGraph | src/validation/NuXSec/gVldNuXSec.cxx:653-673 | for every graph, passed alone as the second graph it is merged with the defaults, exactly as if the defaults had been passed first |
| VldFrame.LoneGraphEnclosingDefaults | src/validation/NuXSec/gVldNuXSec.cxx:653-673 | a lone graph whose ranges enclose the defaults gives the same frame in either position |
| VldFrame.GraphsFrameOneGraphAsymmetric | src/validation/NuXSec/gVldNuXSec.cxx:658-673 | an example where position matters: for the ranges 2..3 on both axes the lone graph gives (1, 1, 4.5, 4.5) in first position and (0.1, 5E-6, 4.5, 4.5) in second. |

## Left out

- Numerical integration. `ROOT::Math::Integrator`, `dXSec_dQ2_E`, `dXSec_dy_E` and every cross-section value are left out: they are foreign calls and floating-point numerics. The integral is an uninterpreted parameter of the integration request, and the value of `units::cm2` is a parameter.
- Phase-space queries. `KPhaseSpace::IsAboveThreshold` and `Limits` are an input record, since their bodies are not part of this model. The same goes for `XSecAlgorithmI::ValidProcess`, `pdg::IsDarkMatter`/`IsAntiDarkMatter`, `utils::res::IsBaryonResonance`, `PDGLibrary::Find`, `utils::str::Split` and `utils::str::FilterString`: each is a function parameter.
- Registry key search. `Registry::FindKeys` is an input list of (key, value) entries, since its body is not part of this model. Its order is whatever the caller passes.
- Decayer.ClassifyCodeKeys: appends every code, as a plain `push_back` on a vector does. `PDGCodeList::push_back` may reject unknown or repeated codes, and its body is not part of this model.
- Decayer.LoadConfig: the failure on a missing `RunBeforeHadronTransport` is an assumption. Line 144 discards `GetParam`'s return value, and what a missing key does is decided inside `Algorithm::GetParam`, which is not part of this model.
- Decayer.ClassifyCodeKeys: the contract fixes the total number of listed codes, not how often each code appears. With two keys naming the same code in different spellings ("211" and "0211"), a list that repeats some other key's code instead would also meet it.
- Decayer.ClassifyCodeKeys: the debug message dereferences the `PDGLibrary::Find` result, which is null for an unknown code. This possible null dereference is not modelled.
- Decayer.InhibitChannels: `InhibitDecay`, `UnInhibitDecay` and the effect on ROOT's `TDecayChannel` tables are not modelled. A channel switched off is recorded as a (particle, channel) pair.
- `LoadConfig`'s maximum-lifetime parameter and the framework's `Algorithm::Configure` are left out. The decisions never read them.
- CStdlib.Atoi: integers are unbounded. Out-of-range input, whose behaviour is undefined in C, is not modelled.
- Particle statuses. The status list of `GHepStatus_t` is restated, since its declaring header is not part of this model.
- NuXSecComparisons.AsWritten: the comparison records and functor classes have no source here. The constructor arguments are read as ID, label, data-set keys, functor, energy range, scale-with-energy, log-x and log-y, as in the table's layout. `CCQEXSec`'s optional last argument is `None` when omitted.
- Program output. The validation program's `Init`, `End`, cover page, canvas, legend, PostScript and ROOT-file output, `Retrieve` of data sets and `ExtractFromEventSample` of model predictions are I/O and are left out. Data and model graphs are inputs.
- VldFrame.GraphsFrame: takes each graph's axis ranges as input. ROOT computes them from the points, and that code is not part of this model.
- VldFrame.PageFrame: the frame is returned as numbers. The `DrawFrame(double,...)` call and axis titles are drawing.
- Empty configuration. `DNuEInteractionListGenerator::LoadConfig` has an empty body, so nothing is modelled for it.
- Other files. The outgoing-dark generators and the header-only declarations (`QPMDNuDISPXSec.h`, `DNuDISXSec.h`, `DNuELUtils.h`, `LinkDef.h` and the generator headers) are not part of this model. The first delegate to code not part of this model; the second carry no bodies.
- Floating point. C++ `double` is modelled as Dafny's exact `real`, with no NaN, no infinities and no rounding. So a NaN Q² limit, which passes the `rQ2.min<0 || rQ2.max<0` test at DNuELXSec.cxx:74 and gets integrated, cannot arise in `DNuELXSec.Plan`. NaN propagation through `TMath::Min`/`Max` (gVldNuXSec.cxx:575-587, 669-672) is not expressed by `DataBounds`, `PageFrame` and `GraphsFrame`. The `1E-38 * units::cm2` scaling is exact.
- DNuELXSec.SkipBitsOfInputIrrelevant: holds only when `ValidProcess` answers alike with and without the input's skip bits. `ValidProcess` receives the input with its own bits (line 65), and its body, which may honour a set skip-process bit, is not part of this model.
- DNuElectronXSec.Plan: the copy `new Interaction(*in)` at line 67 is modelled as carrying the input's status bits, so an input that already skips the kinematic check yields a copy that skips it too. Whether the copy inherits them depends on the copy constructors of `Interaction` and `TObject`, which are not part of this model. `KinematicCheckKept` holds either way, and `DNuELXSec.Plan` sets both bits, so it does not depend on this.
- Memory management is left out: `new`/`delete` is not modelled, and null results are `None`.

## Findings

| source | as written | input that shows it | evidently intended | confidence | as-written member | corrected member |
|---|---|---|---|---|---|---|
| src/validation/NuXSec/gVldNuXSec.cxx:138 | the sixth comparison, the medium/high-energy anti-muon-neutrino one over 10-120 GeV, has ID "numubarCC_lowE", the ID of the fourth | `-c numubarCC_lowE` draws two comparisons; `-c numubarCC_highE` draws none | ID "numubarCC_highE", matching its label and energy range and the "numuCC_highE" entry before it | not executed | VldNuXSec.AsWrittenDuplicateId | VldNuXSec.IntendedIdsUnique |
