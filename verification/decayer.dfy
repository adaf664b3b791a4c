/** The particle decayer's decision rules: which event-record particles it
    decays, and how its configuration keys become the sorted lists of codes to
    decay and not to decay. Decay tables and the decays themselves are not
    part of this module. */
module Decayer {
  import opened Wrappers
  import Registry
  import CStdlib
  import Sorting

  /** The status codes an event-record particle can carry. */
  datatype Status =
    | Undefined
    | InitialState
    | StableFinalState
    | IntermediateState
    | DecayedState
    | CorrelatedNucleon
    | NucleonTarget
    | DISPreFragmHadronicState
    | PreDecayResonantState
    | HadronInTheNucleus
    | FinalStateNuclearRemnant
    | NucleonClusterTarget

  datatype Particle = Particle(pdg: int, status: Status)

  /** A decay channel the configuration switches off. */
  datatype DecayChannel = DecayChannel(pdg: int, channel: int)

  /** What `LoadConfig` leaves in the decayer. */
  datatype Settings = Settings(
    runBeforeHadronTransport: bool,
    particlesToDecay: seq<int>,
    particlesNotToDecay: seq<int>,
    inhibitedChannels: seq<DecayChannel>)

  /** A configured decayer; `allowReconfig` is the framework's reconfiguration
      flag, which `Configure` clears. */
  datatype Decayer = Decayer(settings: Settings, allowReconfig: bool)

  /** A configuration error, modelled as fatal: a required parameter is
      missing (an assumption about the framework's parameter lookup), or a
      key fails the `assert` on its shape. */
  datatype ConfigError = MissingParameter(name: string) | MalformedKey(key: string)

  /** One key returned by the registry's key search, with its boolean value. */
  datatype RgEntry = RgEntry(key: string, value: bool)

  /** The string utilities the configuration code calls, passed in:
      `split(input, delimiter)` and `filter(filt, input)`. */
  datatype StringUtils = StringUtils(
    split: (string, string) -> seq<string>,
    filter: (string, string) -> string)

  // ---------------------------------------------------------------------
  // Selection

  /** The statuses a particle may have to be considered at all: before the
      hadron transport, hadrons in the nucleus and stable final-state
      particles; after it, stable final-state particles only. */
  function AdmissibleStatuses(runBeforeHadronTransport: bool): set<Status> {
    if runBeforeHadronTransport then {HadronInTheNucleus, StableFinalState} else {StableFinalState}
  }

  /** `IsUnstable`: before the hadron transport, baryon resonances; after it,
      the codes configured for decay. `isBaryonResonance` is the resonance
      utilities' test, passed in. */
  function IsUnstable(s: Settings, isBaryonResonance: int -> bool, p: Particle): (r: bool)
    ensures s.runBeforeHadronTransport ==> (r <==> isBaryonResonance(p.pdg))
    ensures !s.runBeforeHadronTransport ==> (r <==> p.pdg in s.particlesToDecay)
  {
    if s.runBeforeHadronTransport then isBaryonResonance(p.pdg)
    else p.pdg in s.particlesToDecay
  }

  /** `ToBeDecayed`: a particle with a non-zero code and an admissible status
      that `IsUnstable` accepts. */
  function ToBeDecayed(s: Settings, isBaryonResonance: int -> bool, p: Particle): (r: bool)
    ensures p.pdg == 0 ==> !r
    ensures p.status !in AdmissibleStatuses(s.runBeforeHadronTransport) ==> !r
    ensures p.pdg != 0 && p.status in AdmissibleStatuses(s.runBeforeHadronTransport)
            ==> r == IsUnstable(s, isBaryonResonance, p)
    ensures s.runBeforeHadronTransport ==>
      (r <==> p.pdg != 0 && (p.status == HadronInTheNucleus || p.status == StableFinalState)
              && isBaryonResonance(p.pdg))
    ensures !s.runBeforeHadronTransport ==>
      (r <==> p.pdg != 0 && p.status == StableFinalState && p.pdg in s.particlesToDecay)
  {
    if p.pdg != 0 then
      var check := if s.runBeforeHadronTransport
                   then p.status == HadronInTheNucleus || p.status == StableFinalState
                   else p.status == StableFinalState;
      if check then IsUnstable(s, isBaryonResonance, p) else false
    else false
  }

  // ---------------------------------------------------------------------
  // `DecayParticleWithCode=<pdg>` keys

  /** The shape the `assert` demands: the key splits on "=" into two parts. */
  predicate WellFormedCodeKey(su: StringUtils, key: string) {
    |su.split(key, "=")| == 2
  }

  /** The code a well-formed key names: `atoi` of its second part. */
  function CodeOfKey(su: StringUtils, key: string): int
    requires WellFormedCodeKey(su, key)
  {
    CStdlib.Atoi(su.split(key, "=")[1])
  }

  datatype CodeLists = CodeLists(toDecay: seq<int>, notToDecay: seq<int>)

  predicate AllWellFormed(su: StringUtils, entries: seq<RgEntry>) {
    forall i :: 0 <= i < |entries| ==> WellFormedCodeKey(su, entries[i].key)
  }

  /** The key's code is in the list its value selects. */
  predicate Placed(su: StringUtils, e: RgEntry, lists: CodeLists)
    requires WellFormedCodeKey(su, e.key)
  {
    (e.value ==> CodeOfKey(su, e.key) in lists.toDecay)
    && (!e.value ==> CodeOfKey(su, e.key) in lists.notToDecay)
  }

  /** Each key's code is in the list its value selects. */
  predicate KeysPlaced(su: StringUtils, entries: seq<RgEntry>, lists: CodeLists)
    requires AllWellFormed(su, entries)
  {
    forall i :: 0 <= i < |entries| ==> Placed(su, entries[i], lists)
  }

  /** Every code of `codes` comes from a key whose value is `value`. */
  predicate FromKeysWithValue(su: StringUtils, entries: seq<RgEntry>, codes: seq<int>, value: bool)
    requires AllWellFormed(su, entries)
  {
    forall c :: c in codes ==>
      exists i :: 0 <= i < |entries| && entries[i].value == value && CodeOfKey(su, entries[i].key) == c
  }

  /** Every key's code lands in the list its value selects, every listed code
      comes from a key with that value, and the two lists together hold as
      many codes as there are keys. */
  predicate SplitByValue(su: StringUtils, entries: seq<RgEntry>, lists: CodeLists)
    requires AllWellFormed(su, entries)
  {
    && |lists.toDecay| + |lists.notToDecay| == |entries|
    && KeysPlaced(su, entries, lists)
    && FromKeysWithValue(su, entries, lists.toDecay, true)
    && FromKeysWithValue(su, entries, lists.notToDecay, false)
  }

  /** The first loop of `LoadConfig`: each key's code is appended to the decay
      list when its value is true and to the not-to-decay list when false; the
      first key of the wrong shape aborts. */
  function ClassifyCodeKeys(su: StringUtils, entries: seq<RgEntry>): (r: Result<CodeLists, ConfigError>)
    ensures r.Success? <==> AllWellFormed(su, entries)
    ensures r.Failure? ==> exists i :: 0 <= i < |entries| && !WellFormedCodeKey(su, entries[i].key)
                                       && r.error == MalformedKey(entries[i].key)
    ensures r.Success? ==> SplitByValue(su, entries, r.value)
  {
    if entries == [] then Success(CodeLists([], []))
    else
      var e := entries[0];
      AllWellFormedCons(su, entries);
      if !WellFormedCodeKey(su, e.key) then Failure(MalformedKey(e.key))
      else
        var rest := ClassifyCodeKeys(su, entries[1..]);
        if rest.Failure? then
          MalformedInTail(su, entries, rest.error);
          Failure(rest.error)
        else
          var code := CodeOfKey(su, e.key);
          var lists := if e.value then rest.value.(toDecay := [code] + rest.value.toDecay)
                       else rest.value.(notToDecay := [code] + rest.value.notToDecay);
          SplitByValueCons(su, entries, rest.value, lists);
          Success(lists)
  }

  /** A list of keys is well formed iff its first key and its tail are. */
  lemma AllWellFormedCons(su: StringUtils, entries: seq<RgEntry>)
    requires entries != []
    ensures AllWellFormed(su, entries)
            <==> WellFormedCodeKey(su, entries[0].key) && AllWellFormed(su, entries[1..])
  {
    if WellFormedCodeKey(su, entries[0].key) && AllWellFormed(su, entries[1..]) {
      forall i | 1 <= i < |entries|
        ensures WellFormedCodeKey(su, entries[i].key)
      {
        assert entries[i] == entries[1..][i - 1];
      }
    }
  }

  /** A malformed key of the tail is a malformed key of the whole list. */
  lemma MalformedInTail(su: StringUtils, entries: seq<RgEntry>, err: ConfigError)
    requires entries != []
    requires exists i :: 0 <= i < |entries[1..]| && !WellFormedCodeKey(su, entries[1..][i].key)
                         && err == MalformedKey(entries[1..][i].key)
    ensures exists i :: 0 <= i < |entries| && !WellFormedCodeKey(su, entries[i].key)
                        && err == MalformedKey(entries[i].key)
  {
    var i :| 0 <= i < |entries[1..]| && !WellFormedCodeKey(su, entries[1..][i].key)
             && err == MalformedKey(entries[1..][i].key);
    assert entries[i + 1] == entries[1..][i];
  }

  lemma SplitByValueCons(su: StringUtils, entries: seq<RgEntry>, rest: CodeLists, lists: CodeLists)
    requires entries != []
    requires AllWellFormed(su, entries)
    requires SplitByValue(su, entries[1..], rest)
    requires entries[0].value ==>
      lists == rest.(toDecay := [CodeOfKey(su, entries[0].key)] + rest.toDecay)
    requires !entries[0].value ==>
      lists == rest.(notToDecay := [CodeOfKey(su, entries[0].key)] + rest.notToDecay)
    ensures SplitByValue(su, entries, lists)
  {
    var code := CodeOfKey(su, entries[0].key);
    var v := entries[0].value;
    KeysPlacedCons(su, entries, rest, lists);
    if v {
      FromKeysCons(su, entries, rest.toDecay, true);
      FromKeysTail(su, entries, rest.notToDecay, false);
    } else {
      FromKeysTail(su, entries, rest.toDecay, true);
      FromKeysCons(su, entries, rest.notToDecay, false);
    }
  }

  lemma KeysPlacedCons(su: StringUtils, entries: seq<RgEntry>, rest: CodeLists, lists: CodeLists)
    requires entries != []
    requires AllWellFormed(su, entries)
    requires KeysPlaced(su, entries[1..], rest)
    requires entries[0].value ==>
      lists == rest.(toDecay := [CodeOfKey(su, entries[0].key)] + rest.toDecay)
    requires !entries[0].value ==>
      lists == rest.(notToDecay := [CodeOfKey(su, entries[0].key)] + rest.notToDecay)
    ensures KeysPlaced(su, entries, lists)
  {
    assert Placed(su, entries[0], lists);
    assert forall c :: c in rest.toDecay ==> c in lists.toDecay;
    assert forall c :: c in rest.notToDecay ==> c in lists.notToDecay;
    forall i | 1 <= i < |entries|
      ensures Placed(su, entries[i], lists)
    {
      assert entries[i] == entries[1..][i - 1];
      assert Placed(su, entries[1..][i - 1], rest);
    }
  }

  /** The code of the first key, put before codes from later keys with the
      same value, keeps every code traced to a key. */
  lemma FromKeysCons(su: StringUtils, entries: seq<RgEntry>, codes: seq<int>, value: bool)
    requires entries != []
    requires AllWellFormed(su, entries)
    requires FromKeysWithValue(su, entries[1..], codes, value)
    requires entries[0].value == value
    ensures FromKeysWithValue(su, entries, [CodeOfKey(su, entries[0].key)] + codes, value)
  {
    FromKeysTail(su, entries, codes, value);
  }

  /** Codes traced to later keys are traced to keys of the whole list. */
  lemma FromKeysTail(su: StringUtils, entries: seq<RgEntry>, codes: seq<int>, value: bool)
    requires entries != []
    requires AllWellFormed(su, entries)
    requires FromKeysWithValue(su, entries[1..], codes, value)
    ensures FromKeysWithValue(su, entries, codes, value)
  {
    var tail := entries[1..];
    forall c | c in codes
      ensures exists i :: 0 <= i < |entries| && entries[i].value == value && CodeOfKey(su, entries[i].key) == c
    {
      var j :| 0 <= j < |tail| && tail[j].value == value && CodeOfKey(su, tail[j].key) == c;
      assert entries[j + 1] == tail[j];
    }
  }

  // ---------------------------------------------------------------------
  // `InhibitDecay/Particle=<pdg>,Channel=<n>` keys

  /** The shape the second `assert` demands: after removing the prefix the key
      splits on "," into two parts. */
  predicate WellFormedInhibitKey(su: StringUtils, key: string) {
    |su.split(su.filter("InhibitDecay/", key), ",")| == 2
  }

  /** The particle and channel a well-formed inhibit key names. */
  function ChannelOfKey(su: StringUtils, key: string): DecayChannel
    requires WellFormedInhibitKey(su, key)
  {
    var kv := su.split(su.filter("InhibitDecay/", key), ",");
    DecayChannel(CStdlib.Atoi(su.filter("Particle=", kv[0])), CStdlib.Atoi(su.filter("Channel=", kv[1])))
  }

  /** Every key whose value is true has the inhibit shape. */
  predicate TrueKeysWellFormed(su: StringUtils, entries: seq<RgEntry>) {
    forall i :: 0 <= i < |entries| && entries[i].value ==> WellFormedInhibitKey(su, entries[i].key)
  }

  /** Every true key naming a known particle has its channel in `channels`. */
  predicate ChannelsRecorded(su: StringUtils, known: int -> bool, entries: seq<RgEntry>,
                             channels: seq<DecayChannel>)
    requires TrueKeysWellFormed(su, entries)
  {
    forall i :: 0 <= i < |entries| && entries[i].value && known(ChannelOfKey(su, entries[i].key).pdg) ==>
      ChannelOfKey(su, entries[i].key) in channels
  }

  /** Every channel of `channels` is that of a true, well-formed key naming a
      known particle. */
  predicate ChannelsFromKeys(su: StringUtils, known: int -> bool, entries: seq<RgEntry>,
                             channels: seq<DecayChannel>)
  {
    forall c :: c in channels ==>
      (known(c.pdg)
       && exists i :: 0 <= i < |entries| && entries[i].value && WellFormedInhibitKey(su, entries[i].key)
                      && ChannelOfKey(su, entries[i].key) == c)
  }

  /** The second loop of `LoadConfig`: keys whose value is false are skipped
      before their shape is looked at; a true key of the wrong shape aborts; a
      particle the particle library does not know (`known`) is skipped. */
  function InhibitChannels(su: StringUtils, known: int -> bool, entries: seq<RgEntry>)
    : (r: Result<seq<DecayChannel>, ConfigError>)
    ensures r.Success? <==> TrueKeysWellFormed(su, entries)
    ensures r.Success? ==> |r.value| <= |entries|
    ensures r.Success? ==> ChannelsRecorded(su, known, entries, r.value)
    ensures r.Success? ==> ChannelsFromKeys(su, known, entries, r.value)
  {
    if entries == [] then Success([])
    else
      var e := entries[0];
      TrueKeysWellFormedCons(su, entries);
      if !e.value then
        var rest := InhibitChannels(su, known, entries[1..]);
        if rest.Failure? then rest
        else
          ChannelsStep(su, known, entries, rest.value, rest.value);
          rest
      else if !WellFormedInhibitKey(su, e.key) then
        Failure(MalformedKey(e.key))
      else
        var rest := InhibitChannels(su, known, entries[1..]);
        if rest.Failure? then Failure(rest.error)
        else
          var c := ChannelOfKey(su, e.key);
          var channels := if !known(c.pdg) then rest.value else [c] + rest.value;
          ChannelsStep(su, known, entries, rest.value, channels);
          Success(channels)
  }

  /** The keys satisfy the shape test iff the first does (when true) and the
      tail's do. */
  lemma TrueKeysWellFormedCons(su: StringUtils, entries: seq<RgEntry>)
    requires entries != []
    ensures TrueKeysWellFormed(su, entries)
            <==> (entries[0].value ==> WellFormedInhibitKey(su, entries[0].key))
                 && TrueKeysWellFormed(su, entries[1..])
  {
    if (entries[0].value ==> WellFormedInhibitKey(su, entries[0].key)) && TrueKeysWellFormed(su, entries[1..]) {
      forall i | 1 <= i < |entries| && entries[i].value
        ensures WellFormedInhibitKey(su, entries[i].key)
      {
        assert entries[i] == entries[1..][i - 1];
      }
    }
  }

  /** One step of the inhibit loop: the first key's channel, when it is true
      and names a known particle, goes in front of the tail's channels. */
  lemma ChannelsStep(su: StringUtils, known: int -> bool, entries: seq<RgEntry>,
                     rest: seq<DecayChannel>, channels: seq<DecayChannel>)
    requires entries != []
    requires TrueKeysWellFormed(su, entries) && TrueKeysWellFormed(su, entries[1..])
    requires ChannelsRecorded(su, known, entries[1..], rest)
    requires ChannelsFromKeys(su, known, entries[1..], rest)
    requires channels == if entries[0].value && known(ChannelOfKey(su, entries[0].key).pdg)
                         then [ChannelOfKey(su, entries[0].key)] + rest else rest
    ensures ChannelsRecorded(su, known, entries, channels)
    ensures ChannelsFromKeys(su, known, entries, channels)
  {
    RecordedStep(su, known, entries, rest, channels);
    FromKeysStep(su, known, entries, rest, channels);
  }

  lemma RecordedStep(su: StringUtils, known: int -> bool, entries: seq<RgEntry>,
                     rest: seq<DecayChannel>, channels: seq<DecayChannel>)
    requires entries != []
    requires TrueKeysWellFormed(su, entries) && TrueKeysWellFormed(su, entries[1..])
    requires ChannelsRecorded(su, known, entries[1..], rest)
    requires forall c :: c in rest ==> c in channels
    requires entries[0].value && known(ChannelOfKey(su, entries[0].key).pdg)
             ==> ChannelOfKey(su, entries[0].key) in channels
    ensures ChannelsRecorded(su, known, entries, channels)
  {
    forall i | 1 <= i < |entries| && entries[i].value && known(ChannelOfKey(su, entries[i].key).pdg)
      ensures ChannelOfKey(su, entries[i].key) in channels
    {
      var tail := entries[1..];
      assert entries[i] == tail[i - 1];
      assert ChannelOfKey(su, tail[i - 1].key) in rest;
    }
  }

  lemma FromKeysStep(su: StringUtils, known: int -> bool, entries: seq<RgEntry>,
                     rest: seq<DecayChannel>, channels: seq<DecayChannel>)
    requires entries != []
    requires TrueKeysWellFormed(su, entries)
    requires ChannelsFromKeys(su, known, entries[1..], rest)
    requires channels == if entries[0].value && known(ChannelOfKey(su, entries[0].key).pdg)
                         then [ChannelOfKey(su, entries[0].key)] + rest else rest
    ensures ChannelsFromKeys(su, known, entries, channels)
  {
    forall c | c in channels
      ensures known(c.pdg)
              && exists i :: 0 <= i < |entries| && entries[i].value && WellFormedInhibitKey(su, entries[i].key)
                             && ChannelOfKey(su, entries[i].key) == c
    {
      if c in rest {
        var j :| 0 <= j < |entries[1..]| && entries[1..][j].value && WellFormedInhibitKey(su, entries[1..][j].key)
                 && ChannelOfKey(su, entries[1..][j].key) == c;
        assert entries[j + 1] == entries[1..][j];
      } else {
        assert c == ChannelOfKey(su, entries[0].key);
      }
    }
  }

  // ---------------------------------------------------------------------
  // Configuration

  /** `LoadConfig`: reads the run mode (a required parameter), classifies the
      code keys, collects the inhibited channels, then sorts both code lists.
      `codeKeys` and `inhibitKeys` are what the registry's key search returns
      for "DecayParticleWithCode=" and "InhibitDecay/". */
  function LoadConfig(reg: Registry.Registry, codeKeys: seq<RgEntry>, inhibitKeys: seq<RgEntry>,
                      su: StringUtils, known: int -> bool): (r: Result<Settings, ConfigError>)
    ensures "RunBeforeHadronTransport" !in reg.bools ==>
      r == Failure(MissingParameter("RunBeforeHadronTransport"))
    ensures r.Success? ==>
      ("RunBeforeHadronTransport" in reg.bools
       && r.value.runBeforeHadronTransport == reg.bools["RunBeforeHadronTransport"])
    ensures r.Success? ==>
      (ClassifyCodeKeys(su, codeKeys).Success? && InhibitChannels(su, known, inhibitKeys).Success?)
    ensures r.Success? ==> Sorting.Sorted(r.value.particlesToDecay)
                           && Sorting.Sorted(r.value.particlesNotToDecay)
    ensures r.Success? ==>
      multiset(r.value.particlesToDecay) == multiset(ClassifyCodeKeys(su, codeKeys).value.toDecay)
      && multiset(r.value.particlesNotToDecay) == multiset(ClassifyCodeKeys(su, codeKeys).value.notToDecay)
    ensures r.Success? ==> r.value.inhibitedChannels == InhibitChannels(su, known, inhibitKeys).value
    ensures ("RunBeforeHadronTransport" in reg.bools && ClassifyCodeKeys(su, codeKeys).Success?
             && InhibitChannels(su, known, inhibitKeys).Success?) ==> r.Success?
  {
    var before :- Registry.GetBool(reg, "RunBeforeHadronTransport")
                    .ToResult(MissingParameter("RunBeforeHadronTransport"));
    var lists :- ClassifyCodeKeys(su, codeKeys);
    var channels :- InhibitChannels(su, known, inhibitKeys);
    Success(Settings(before, Sorting.Sort(lists.toDecay), Sorting.Sort(lists.notToDecay), channels))
  }

  /** `Configure`: loads the configuration and then forbids reconfiguration. */
  function Configure(reg: Registry.Registry, codeKeys: seq<RgEntry>, inhibitKeys: seq<RgEntry>,
                     su: StringUtils, known: int -> bool): (r: Result<Decayer, ConfigError>)
    ensures r.Success? ==> !r.value.allowReconfig
    ensures r.Success? ==> Sorting.Sorted(r.value.settings.particlesToDecay)
                           && Sorting.Sorted(r.value.settings.particlesNotToDecay)
    ensures r.Success? <==> LoadConfig(reg, codeKeys, inhibitKeys, su, known).Success?
    ensures r.Success? ==> r.value.settings == LoadConfig(reg, codeKeys, inhibitKeys, su, known).value
  {
    var settings :- LoadConfig(reg, codeKeys, inhibitKeys, su, known);
    Success(Decayer(settings, false))
  }

  /** End to end, after the hadron transport: a stable final-state particle is
      decayed exactly when its code is non-zero and some code key configured
      with value true names it. */
  lemma ConfiguredDecayAfterTransport(reg: Registry.Registry, codeKeys: seq<RgEntry>,
                                      inhibitKeys: seq<RgEntry>, su: StringUtils,
                                      known: int -> bool, isBaryonResonance: int -> bool, pdg: int)
    requires Configure(reg, codeKeys, inhibitKeys, su, known).Success?
    requires reg.bools["RunBeforeHadronTransport"] == false
    ensures var d := Configure(reg, codeKeys, inhibitKeys, su, known).value;
      ToBeDecayed(d.settings, isBaryonResonance, Particle(pdg, StableFinalState))
      <==> pdg != 0 && exists i :: 0 <= i < |codeKeys| && codeKeys[i].value
                                   && WellFormedCodeKey(su, codeKeys[i].key)
                                   && CodeOfKey(su, codeKeys[i].key) == pdg
  {
    var d := Configure(reg, codeKeys, inhibitKeys, su, known).value;
    var lists := ClassifyCodeKeys(su, codeKeys).value;
    assert pdg in d.settings.particlesToDecay <==> pdg in lists.toDecay by {
      assert pdg in d.settings.particlesToDecay <==> pdg in multiset(d.settings.particlesToDecay);
      assert pdg in lists.toDecay <==> pdg in multiset(lists.toDecay);
    }
  }
}
