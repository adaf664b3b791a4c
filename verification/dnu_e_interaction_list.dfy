/** The list of dark-matter--electron interactions for an initial state: one
    entry for a dark-matter or anti-dark-matter probe, none otherwise. */
module DNuEInteractionListGenerator {
  import opened Interactions
  import Pdg

  /** What a call leaves behind: the list it returns (always allocated, never
      null) and the caller's initial state, whose target the call modifies
      through the pointer behind the const reference. */
  datatype Outcome = Outcome(list: seq<Interaction>, callerState: InitialState)

  /** `DNuEELInteractionList`. The interaction is built from the copy taken
      before the struck nucleon is reset, so it keeps the caller's original
      struck nucleon; the reset lands on the caller's state. */
  function DNuEELInteractionList(init: InitialState): (r: Outcome)
    ensures |r.list| <= 1
    ensures |r.list| == 1 <==> init.probePdg == Pdg.DarkMatter || init.probePdg == Pdg.AntiDarkMatter
    ensures forall k :: 0 <= k < |r.list| ==>
      r.list[k].process == ElectronProcess && r.list[k].initState == init
      && !r.list[k].skipProcessChk && !r.list[k].skipKinematicChk
    ensures r.callerState.target.hitNucPdg == 0
    ensures r.callerState.probePdg == init.probePdg
    ensures r.callerState.target.z == init.target.z && r.callerState.target.n == init.target.n
  {
    var copy := init;
    var caller := WithHitNucleon(init, 0);
    var list := if init.probePdg == Pdg.DarkMatter || init.probePdg == Pdg.AntiDarkMatter
                then [NewInteraction(copy, ElectronProcess)] else [];
    Outcome(list, caller)
  }

  /** `CreateInteractionList` forwards to `DNuEELInteractionList`. */
  function CreateInteractionList(init: InitialState): (r: Outcome)
    ensures r == DNuEELInteractionList(init)
  {
    DNuEELInteractionList(init)
  }

  /** Only the probe decides whether there is an entry: the target's proton
      and neutron counts, and its struck nucleon, play no part. */
  lemma OnlyProbeDecides(a: InitialState, b: InitialState)
    requires a.probePdg == b.probePdg
    ensures |CreateInteractionList(a).list| == |CreateInteractionList(b).list|
  {
  }

  /** For a dark-matter or anti-dark-matter probe the one entry keeps the
      struck nucleon the caller passed in, while the caller's state has it
      reset: the reset does not reach the copy the entry was built from. */
  lemma EntryKeepsOriginalHitNucleon(init: InitialState)
    requires init.probePdg == Pdg.DarkMatter || init.probePdg == Pdg.AntiDarkMatter
    ensures var r := CreateInteractionList(init);
            |r.list| == 1
            && r.list[0].initState.target.hitNucPdg == init.target.hitNucPdg
            && r.callerState.target.hitNucPdg == 0
    ensures init.target.hitNucPdg != 0 ==>
            var r := CreateInteractionList(init);
            r.list[0].initState.target.hitNucPdg != r.callerState.target.hitNucPdg
  {
  }
}
