/** The list of dark-matter elastic interactions for an initial state: one
    entry per kind of nucleon the target holds, protons before neutrons, or
    no list at all. */
module DNuELInteractionListGenerator {
  import opened Wrappers
  import opened Interactions
  import Pdg
  import Registry

  datatype Config = Config(isDNu: bool)

  /** `LoadConfigData`: the `is-DNu` flag, false unless configured. */
  function LoadConfigData(reg: Registry.Registry): (c: Config)
    ensures c.isDNu <==> "is-DNu" in reg.bools && reg.bools["is-DNu"]
  {
    Config(Registry.BoolDef(reg, "is-DNu", false))
  }

  /** The nucleon slots the generator visits, in order. */
  const NucleonSlots: seq<int> := [Pdg.Proton, Pdg.Neutron]

  /** The skip tests of the slot loop: a proton slot needs Z > 0 and a neutron
      slot needs N > 0; any other code would be kept. */
  predicate Admits(t: Target, nucleon: int) {
    !(nucleon == Pdg.Proton && !(t.z > 0)) && !(nucleon == Pdg.Neutron && !(t.n > 0))
  }

  /** The elastic interaction whose struck nucleon is `nucleon`. */
  function ElasticHit(init: InitialState, nucleon: int): Interaction {
    NewInteraction(WithHitNucleon(init, nucleon), ElasticProcess)
  }

  function HitNucleon(i: Interaction): int {
    i.initState.target.hitNucPdg
  }

  /** The slots the skip tests let through, in slot order. */
  function Admitted(t: Target, slots: seq<int>): (a: seq<int>)
    ensures |a| <= |slots|
    ensures forall p :: p in a <==> p in slots && Admits(t, p)
  {
    if slots == [] then []
    else (if Admits(t, slots[0]) then [slots[0]] else []) + Admitted(t, slots[1..])
  }

  /** The slot loop: one elastic interaction per admitted slot, in slot order:
      the k-th entry's struck nucleon is the k-th admitted slot. */
  function CollectHits(init: InitialState, slots: seq<int>): (r: seq<Interaction>)
    ensures |r| == |Admitted(init.target, slots)| <= |slots|
    ensures forall k :: 0 <= k < |r| ==> r[k] == ElasticHit(init, Admitted(init.target, slots)[k])
    ensures forall k :: 0 <= k < |r| ==>
      HitNucleon(r[k]) in slots && Admits(init.target, HitNucleon(r[k]))
      && r[k] == ElasticHit(init, HitNucleon(r[k]))
    ensures forall p :: p in slots && Admits(init.target, p) ==> ElasticHit(init, p) in r
  {
    if slots == [] then []
    else
      var rest := CollectHits(init, slots[1..]);
      if Admits(init.target, slots[0]) then [ElasticHit(init, slots[0])] + rest else rest
  }

  predicate IsDarkMatterProbe(isDarkMatter: int -> bool, isAntiDarkMatter: int -> bool, init: InitialState) {
    isDarkMatter(init.probePdg) || isAntiDarkMatter(init.probePdg)
  }

  /** Whether a returned list holds the interaction on the given nucleon. */
  predicate HasHitOn(r: Option<seq<Interaction>>, init: InitialState, nucleon: int) {
    r.Some? && ElasticHit(init, nucleon) in r.value
  }

  /** `CreateInteractionListDNu`. The dark-matter tests are the particle
      library's and are passed in. */
  function CreateInteractionListDNu(isDarkMatter: int -> bool, isAntiDarkMatter: int -> bool,
                                    init: InitialState): (r: Option<seq<Interaction>>)
    ensures !IsDarkMatterProbe(isDarkMatter, isAntiDarkMatter, init) ==> r.None?
    ensures r.None? <==> !IsDarkMatterProbe(isDarkMatter, isAntiDarkMatter, init)
                         || (init.target.z == 0 && init.target.n == 0)
    ensures r.Some? ==> 1 <= |r.value| <= 2
    ensures HasHitOn(r, init, Pdg.Proton)
            <==> IsDarkMatterProbe(isDarkMatter, isAntiDarkMatter, init) && init.target.z > 0
    ensures HasHitOn(r, init, Pdg.Neutron)
            <==> IsDarkMatterProbe(isDarkMatter, isAntiDarkMatter, init) && init.target.n > 0
    ensures r.Some? ==> forall k :: 0 <= k < |r.value| ==>
      r.value[k].process == ElasticProcess
      && (HitNucleon(r.value[k]) == Pdg.Proton || HitNucleon(r.value[k]) == Pdg.Neutron)
      && r.value[k] == ElasticHit(init, HitNucleon(r.value[k]))
    ensures r.Some? && |r.value| == 2 ==>
      HitNucleon(r.value[0]) == Pdg.Proton && HitNucleon(r.value[1]) == Pdg.Neutron
  {
    if !IsDarkMatterProbe(isDarkMatter, isAntiDarkMatter, init) then None
    else
      var hits := CollectHits(init, NucleonSlots);
      assert hits == CollectHits(init, [Pdg.Proton, Pdg.Neutron]);
      assert CollectHits(init, [Pdg.Proton, Pdg.Neutron][1..]) == CollectHits(init, [Pdg.Neutron]);
      if hits == [] then None else Some(hits)
  }

  /** `CreateInteractionList`: dispatches on the `is-DNu` flag. */
  function CreateInteractionList(cfg: Config, isDarkMatter: int -> bool, isAntiDarkMatter: int -> bool,
                                 init: InitialState): (r: Option<seq<Interaction>>)
    ensures !cfg.isDNu ==> r.None?
    ensures cfg.isDNu ==> r == CreateInteractionListDNu(isDarkMatter, isAntiDarkMatter, init)
  {
    if cfg.isDNu then CreateInteractionListDNu(isDarkMatter, isAntiDarkMatter, init) else None
  }

  /** With the default configuration (no `is-DNu` key, as in the empty
      registry) no initial state gets a list. */
  lemma DefaultConfigCreatesNoList(reg: Registry.Registry, isDarkMatter: int -> bool,
                                   isAntiDarkMatter: int -> bool, init: InitialState)
    requires "is-DNu" !in reg.bools
    ensures CreateInteractionList(LoadConfigData(reg), isDarkMatter, isAntiDarkMatter, init).None?
    ensures CreateInteractionList(LoadConfigData(Registry.Empty), isDarkMatter, isAntiDarkMatter, init).None?
  {
  }
}
