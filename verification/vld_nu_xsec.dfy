/** The control logic of the cross-section validation program: turning the
    command line into settings, choosing which comparisons of the table to
    draw, and the per-model drawing choices. Opening the data archive,
    reading the model inputs and all drawing and file output are not part of
    this module. */
module VldNuXSec {
  import opened Wrappers
  import opened NuXSecComparisons

  /** The data archive path relative to `$GENIE`. */
  const DefDataFile: string := "data/validation/vA/xsec/integrated/nuXSec.root"

  /** The settings the command line resolves to. */
  datatype Settings = Settings(
    dataFile: string,
    genieFileList: string,
    showModel: bool,
    showErrBands: bool,
    comparison: string)

  /** The exit status of the one fatal case. */
  const ExitNoDataFile: int := 1

  /** `GetCommandLineArgs`. `options` maps each option letter given on the
      command line to its argument; `genieEnv` is the `$GENIE` environment
      variable, `None` when unset. Without `-d` and without `$GENIE` the
      program exits with status 1. */
  function GetCommandLineArgs(options: map<char, string>, genieEnv: Option<string>)
    : (r: Result<Settings, int>)
    ensures r.Failure? <==> 'd' !in options && genieEnv.None?
    ensures r.Failure? ==> r.error == 1
    ensures r.Success? && 'd' in options ==> r.value.dataFile == options['d']
    ensures r.Success? && 'd' !in options ==> r.value.dataFile == genieEnv.value + "/" + DefDataFile
    ensures r.Success? ==> (r.value.showModel <==> 'g' in options)
    ensures r.Success? ==> r.value.genieFileList == (if 'g' in options then options['g'] else "")
    ensures r.Success? ==> (r.value.showErrBands <==> 'e' in options)
    ensures r.Success? ==> r.value.comparison == (if 'c' in options then options['c'] else "")
  {
    var dataFile :-
      if 'd' in options then Success(options['d'])
      else if genieEnv.Some? then Success(genieEnv.value + "/" + DefDataFile)
      else Failure(ExitNoDataFile);
    var showModel := 'g' in options;
    var genieFileList := if showModel then options['g'] else "";
    var comparison := if 'c' in options then options['c'] else "";
    Success(Settings(dataFile, genieFileList, showModel, 'e' in options, comparison))
  }

  /** Only the letters d, g, e and c are read: any other option leaves the
      settings as they were, and with `-d` given `$GENIE` is never consulted. */
  lemma OnlyFourOptionsRead(options: map<char, string>, genieEnv: Option<string>, genieEnv': Option<string>,
                            other: char, arg: string)
    requires other !in "dgec"
    ensures GetCommandLineArgs(options[other := arg], genieEnv) == GetCommandLineArgs(options - {other}, genieEnv)
    ensures 'd' in options ==> GetCommandLineArgs(options, genieEnv) == GetCommandLineArgs(options, genieEnv')
  {
  }

  // ---------------------------------------------------------------------
  // Which comparisons are drawn

  /** The indices a selection should draw: all of them when no comparison was
      asked for, otherwise those whose identifier matches. */
  function Wanted(table: seq<Comparison>, option: string): set<nat> {
    set i: nat | i < |table| && (option == [] || table[i].id == option)
  }

  predicate StrictlyIncreasing(s: seq<nat>) {
    forall a, b :: 0 <= a < b < |s| ==> s[a] < s[b]
  }

  /** The loop of the program's entry point: visits the table in order and
      draws each comparison that the `-c` option (empty when absent) selects. */
  method ComparisonsToDraw(table: seq<Comparison>, option: string) returns (drawn: seq<nat>)
    ensures StrictlyIncreasing(drawn)
    ensures forall a :: 0 <= a < |drawn| ==> drawn[a] < |table|
    ensures forall i :: 0 <= i < |table| ==> (i in drawn <==> option == [] || table[i].id == option)
    ensures option == [] ==> drawn == seq(|table|, i => i)
  {
    var showAll := |option| == 0;
    drawn := [];
    var i := 0;
    while i < |table|
      invariant 0 <= i <= |table|
      invariant StrictlyIncreasing(drawn)
      invariant forall a :: 0 <= a < |drawn| ==> drawn[a] < i
      invariant forall j :: 0 <= j < i ==> (j in drawn <==> showAll || table[j].id == option)
      invariant showAll ==> drawn == seq(i, j => j)
    {
      if showAll || table[i].id == option {
        drawn := drawn + [i];
      }
      i := i + 1;
    }
  }

  /** The drawn indices are exactly the wanted set, each once. */
  lemma DrawnMatchesWanted(table: seq<Comparison>, option: string, drawn: seq<nat>)
    requires StrictlyIncreasing(drawn)
    requires forall a :: 0 <= a < |drawn| ==> drawn[a] < |table|
    requires forall i :: 0 <= i < |table| ==> (i in drawn <==> option == [] || table[i].id == option)
    ensures (set a | 0 <= a < |drawn| :: drawn[a]) == Wanted(table, option)
    ensures |drawn| == |Wanted(table, option)|
  {
    var s := set a | 0 <= a < |drawn| :: drawn[a];
    assert s == Wanted(table, option);
    DistinctCard(drawn);
  }

  lemma {:induction false} DistinctCard(drawn: seq<nat>)
    requires StrictlyIncreasing(drawn)
    ensures |set a | 0 <= a < |drawn| :: drawn[a]| == |drawn|
    decreases |drawn|
  {
    if drawn != [] {
      var init := drawn[..|drawn| - 1];
      var last := drawn[|drawn| - 1];
      DistinctCard(init);
      var s := set a | 0 <= a < |drawn| :: drawn[a];
      var t := set a | 0 <= a < |init| :: init[a];
      assert s == t + {last};
      assert last !in t;
    }
  }

  predicate IdsDistinct(table: seq<Comparison>) {
    forall i, j :: 0 <= i < j < |table| ==> table[i].id != table[j].id
  }

  /** In a table without repeated identifiers, a row's identifier selects
      that row alone. */
  lemma SelectsOnlyItsRow(table: seq<Comparison>, k: nat)
    requires IdsDistinct(table)
    requires k < |table| && table[k].id != []
    ensures Wanted(table, table[k].id) == {k}
  {
  }

  /** Giving row `k` of a table without repeated identifiers the identifier
      of row `j` makes that identifier select both rows, and leaves row `k`'s
      old identifier selecting nothing. */
  lemma RenamedRowDuplicates(table: seq<Comparison>, j: nat, k: nat)
    requires IdsDistinct(table)
    requires j < k < |table| && table[j].id != [] && table[k].id != []
    ensures Wanted(table[k := table[k].(id := table[j].id)], table[j].id) == {j, k}
    ensures Wanted(table[k := table[k].(id := table[j].id)], table[k].id) == {}
  {
  }

  /** The table as written has 32 entries and two share an identifier: the
      fourth and the sixth are both "numubarCC_lowE", so asking for that
      comparison draws two plots, and no entry answers to "numubarCC_highE". */
  lemma AsWrittenDuplicateId()
    ensures |AsWritten| == NumOfComparisons
    ensures AsWritten[3].id == AsWritten[5].id == "numubarCC_lowE"
    ensures Wanted(AsWritten, "numubarCC_lowE") == {3, 5}
    ensures Wanted(AsWritten, "numubarCC_highE") == {}
  {
    IntendedIdsDistinct();
    IntendedIdsOfFirstHalf();
    assert Intended[3].id == IntendedIds[3] == "numubarCC_lowE";
    assert Intended[5].id == IntendedIds[5] == "numubarCC_highE";
    assert AsWritten == Intended[5 := Intended[5].(id := Intended[3].id)];
    RenamedRowDuplicates(Intended, 3, 5);
  }

  /** In the intended table every identifier names one comparison; in
      particular "numubarCC_highE" selects the sixth entry alone and
      "numubarCC_lowE" the fourth alone. */
  lemma IntendedIdsUnique()
    ensures |Intended| == NumOfComparisons
    ensures IdsDistinct(Intended)
    ensures Wanted(Intended, "numubarCC_highE") == {5}
    ensures Wanted(Intended, "numubarCC_lowE") == {3}
  {
    IntendedIdsDistinct();
    IntendedIdsOfFirstHalf();
    assert Intended[3].id == IntendedIds[3] == "numubarCC_lowE";
    assert Intended[5].id == IntendedIds[5] == "numubarCC_highE";
    SelectsOnlyItsRow(Intended, 3);
    SelectsOnlyItsRow(Intended, 5);
  }

  /** In a table without repeated identifiers a selection by identifier
      draws at most one comparison. */
  lemma SelectionDrawsAtMostOne(table: seq<Comparison>, option: string)
    requires IdsDistinct(table)
    requires option != []
    ensures |Wanted(table, option)| <= 1
  {
    var w := Wanted(table, option);
    if w != {} {
      var i :| i in w;
      SelectsOnlyItsRow(table, i);
    }
  }

  /** With the intended table a selection by identifier draws at most one
      comparison. */
  lemma IntendedSelectionDrawsAtMostOne(option: string)
    requires option != []
    ensures |Wanted(Intended, option)| <= 1
  {
    IntendedIdsUnique();
    SelectionDrawsAtMostOne(Intended, option);
  }

  // ---------------------------------------------------------------------
  // Per-model drawing choices

  /** The model line styles, one per model slot. */
  datatype LineStyle = Solid | Dashed | Dotted

  const NMaxModels: nat := 3
  const ModelLineStyles: seq<LineStyle> := [Solid, Dashed, Dotted]

  /** How one model prediction is drawn: with or without an error band, its
      line style, the graph draw option and the legend option. */
  datatype ModelStyle = ModelStyle(errorBand: bool, lineStyle: LineStyle, drawOption: string, legendOption: string)

  /** The choices for model `imodel`. Only the first model may carry an error
      band. The line-style table has three entries and is indexed without a
      guard: for a fourth model the read is out of bounds, shown as `None`. */
  function ModelPlotStyle(imodel: nat, showErrBands: bool): (r: Option<ModelStyle>)
    ensures r.None? <==> imodel >= NMaxModels
    ensures r.Some? ==> (r.value.errorBand <==> imodel == 0 && showErrBands)
    ensures r.Some? ==> r.value.lineStyle == ModelLineStyles[imodel]
    ensures r.Some? && r.value.errorBand ==> r.value.drawOption == "c4" && r.value.legendOption == "LF"
    ensures r.Some? && !r.value.errorBand ==> r.value.drawOption == "c" && r.value.legendOption == "L"
  {
    var showErrBand := if imodel == 0 then showErrBands else false;
    if imodel >= |ModelLineStyles| then None
    else if showErrBand then Some(ModelStyle(true, ModelLineStyles[imodel], "c4", "LF"))
    else Some(ModelStyle(false, ModelLineStyles[imodel], "c", "L"))
  }

  /** At most one model is drawn with an error band, whatever the options. */
  lemma AtMostOneErrorBand(i: nat, j: nat, showErrBands: bool)
    requires i != j
    requires ModelPlotStyle(i, showErrBands).Some? && ModelPlotStyle(j, showErrBands).Some?
    ensures !(ModelPlotStyle(i, showErrBands).value.errorBand && ModelPlotStyle(j, showErrBands).value.errorBand)
  {
  }
}
