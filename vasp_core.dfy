/** The VASP core recipes: the static and relaxation default flags, the
    merge of the user keyword arguments over them *without* `None` removal,
    the keyword call that builds the `Vasp` calculator, and the double
    relaxation that chains two relaxations. */
module VaspCore {
  import opened Dicts
  import opened Jobs

  const StaticKeys: seq<string> := ["ismear", "laechg", "lcharg", "lreal", "lwave", "nedos", "nsw"]

  const RelaxKeys: seq<string> := ["ediffg", "isif", "ibrion", "isym", "lcharg", "lwave", "nsw", "symprec"]

  /** The defaults of `static_job`. */
  function StaticDefaults(): (r: Table)
    ensures WellFormed(r) && "preset" !in Keys(r)
    ensures forall i :: 0 <= i < |r| ==> r[i].1 != Null
    ensures Get(r, "ismear") == Some(Int(-5)) && Get(r, "nedos") == Some(Int(5001)) && Get(r, "nsw") == Some(Int(0))
    ensures Get(r, "laechg") == Some(Bool(true)) && Get(r, "lcharg") == Some(Bool(true)) && Get(r, "lwave") == Some(Bool(true))
    ensures Get(r, "lreal") == Some(Bool(false))
  {
    StaticDefaultsFacts();
    StaticDefaultsLookup1();
    StaticDefaultsLookup2();
    Zip(StaticKeys, StaticValues())
  }

  /** The values of the `static_job` defaults, in the order of `StaticKeys`. */
  function StaticValues(): seq<Value> {
    [Int(-5), Bool(true), Bool(true), Bool(false), Bool(true), Int(5001), Int(0)]
  }

  /** The keys of the `static_job` defaults are distinct, do not name "preset", and no value is `None`. */
  lemma StaticDefaultsFacts()
    ensures Distinct(StaticKeys) && |StaticKeys| == |StaticValues()| == 7 && "preset" !in StaticKeys
    ensures forall i :: 0 <= i < |StaticValues()| ==> StaticValues()[i] != Null
  {
  }

  lemma StaticDefaultsLookup1()
    ensures var r := Zip(StaticKeys, StaticValues());
            Get(r, "ismear") == Some(Int(-5))
            && Get(r, "laechg") == Some(Bool(true))
            && Get(r, "lcharg") == Some(Bool(true))
            && Get(r, "lreal") == Some(Bool(false))
  {
    StaticDefaultsFacts();
    ZipGet(StaticKeys, StaticValues(), 0);
    ZipGet(StaticKeys, StaticValues(), 1);
    ZipGet(StaticKeys, StaticValues(), 2);
    ZipGet(StaticKeys, StaticValues(), 3);
  }

  lemma StaticDefaultsLookup2()
    ensures var r := Zip(StaticKeys, StaticValues());
            Get(r, "lwave") == Some(Bool(true))
            && Get(r, "nedos") == Some(Int(5001))
            && Get(r, "nsw") == Some(Int(0))
  {
    StaticDefaultsFacts();
    ZipGet(StaticKeys, StaticValues(), 4);
    ZipGet(StaticKeys, StaticValues(), 5);
    ZipGet(StaticKeys, StaticValues(), 6);
  }


  /** The defaults of `relax_job`: a volume relaxation (ISIF 3) when
      `relaxCell` holds, positions only (ISIF 2) otherwise; "ediffg" is
      -0.02 and "symprec" 1e-8. */
  function RelaxDefaults(relaxCell: bool): (r: Table)
    ensures WellFormed(r) && "preset" !in Keys(r)
    ensures forall i :: 0 <= i < |r| ==> r[i].1 != Null
    ensures Get(r, "isif") == Some(Int(if relaxCell then 3 else 2))
    ensures Get(r, "ediffg") == Some(Decimal(-2, -2)) && Get(r, "symprec") == Some(Decimal(1, -8))
    ensures Get(r, "ibrion") == Some(Int(2)) && Get(r, "isym") == Some(Int(0)) && Get(r, "nsw") == Some(Int(200))
    ensures Get(r, "lcharg") == Some(Bool(false)) && Get(r, "lwave") == Some(Bool(false))
  {
    RelaxDefaultsFacts(relaxCell);
    RelaxDefaultsLookup1(relaxCell);
    RelaxDefaultsLookup2(relaxCell);
    Zip(RelaxKeys, RelaxValues(relaxCell))
  }

  /** The values of the `relax_job` defaults, in the order of `RelaxKeys`. */
  function RelaxValues(relaxCell: bool): seq<Value> {
    [Decimal(-2, -2), Int(if relaxCell then 3 else 2), Int(2), Int(0), Bool(false), Bool(false), Int(200), Decimal(1, -8)]
  }

  /** The keys of the `relax_job` defaults are distinct, do not name "preset", and no value is `None`. */
  lemma RelaxDefaultsFacts(relaxCell: bool)
    ensures Distinct(RelaxKeys) && |RelaxKeys| == |RelaxValues(relaxCell)| == 8 && "preset" !in RelaxKeys
    ensures forall i :: 0 <= i < |RelaxValues(relaxCell)| ==> RelaxValues(relaxCell)[i] != Null
  {
  }

  lemma RelaxDefaultsLookup1(relaxCell: bool)
    ensures var r := Zip(RelaxKeys, RelaxValues(relaxCell));
            Get(r, "ediffg") == Some(Decimal(-2, -2))
            && Get(r, "isif") == Some(Int(if relaxCell then 3 else 2))
            && Get(r, "ibrion") == Some(Int(2))
            && Get(r, "isym") == Some(Int(0))
  {
    RelaxDefaultsFacts(relaxCell);
    ZipGet(RelaxKeys, RelaxValues(relaxCell), 0);
    ZipGet(RelaxKeys, RelaxValues(relaxCell), 1);
    ZipGet(RelaxKeys, RelaxValues(relaxCell), 2);
    ZipGet(RelaxKeys, RelaxValues(relaxCell), 3);
  }

  lemma RelaxDefaultsLookup2(relaxCell: bool)
    ensures var r := Zip(RelaxKeys, RelaxValues(relaxCell));
            Get(r, "lcharg") == Some(Bool(false))
            && Get(r, "lwave") == Some(Bool(false))
            && Get(r, "nsw") == Some(Int(200))
            && Get(r, "symprec") == Some(Decimal(1, -8))
  {
    RelaxDefaultsFacts(relaxCell);
    ZipGet(RelaxKeys, RelaxValues(relaxCell), 4);
    ZipGet(RelaxKeys, RelaxValues(relaxCell), 5);
    ZipGet(RelaxKeys, RelaxValues(relaxCell), 6);
    ZipGet(RelaxKeys, RelaxValues(relaxCell), 7);
  }


  /** The `Vasp` calculator as built, with the runner's inputs: `preset` is
      `str | None` and `copyFiles` is `list[str] | None`, both as values. */
  datatype VaspRun = VaspRun(atoms: Atoms, preset: Value, flags: Table, copyFiles: Value, additionalFields: Option<Table>)

  /** `_base_job`: `flags = merge_dicts(defaults, calc_swaps,
      remove_nones=False)`, then `Vasp(atoms, preset=preset, **flags)`,
      which raises when the flags repeat "preset". */
  function BaseJob(atoms: Atoms, preset: Value, defaults: Option<Table>, calcSwaps: Option<Table>,
                   additionalFields: Option<Table>, copyFiles: Value): (r: Result<VaspRun>)
    ensures var flags := MergeDicts(defaults, calcSwaps, false);
            r.Ok? <==> "preset" !in Keys(flags)
    ensures r.Ok? ==> r.value.atoms == atoms && r.value.preset == preset && r.value.copyFiles == copyFiles &&
                      r.value.additionalFields == additionalFields
    ensures r.Err? ==> r.error == MultipleValues("preset")
  {
    var flags := MergeDicts(defaults, calcSwaps, false);
    var _ :- NotGiven(flags, {"preset"});
    Ok(VaspRun(atoms, preset, flags, copyFiles, additionalFields))
  }

  /** `static_job`. `kwargs` is the table that `**kwargs` collects, so it
      never names "atoms", "preset" or "copy_files"; it becomes the
      calculator swaps. `CallRelaxJob` models that binding for `relax_job`. */
  function StaticJob(atoms: Atoms, preset: Value, copyFiles: Value, kwargs: Table): (r: Result<VaspRun>)
    ensures r.Ok? ==> r.value.additionalFields == Some([("name", Str("VASP Static"))])
  {
    BaseJob(atoms, preset, Some(StaticDefaults()), Some(kwargs), Some([("name", Str("VASP Static"))]), copyFiles)
  }

  /** `relax_job`; `kwargs` as in `StaticJob`, less "relax_cell" as well. */
  function RelaxJob(atoms: Atoms, preset: Value, relaxCell: bool, copyFiles: Value, kwargs: Table): (r: Result<VaspRun>)
    ensures r.Ok? ==> r.value.additionalFields == Some([("name", Str("VASP Relax"))])
  {
    BaseJob(atoms, preset, Some(RelaxDefaults(relaxCell)), Some(kwargs), Some([("name", Str("VASP Relax"))]), copyFiles)
  }

  /** The job built by `relax_job(atoms, k=v, ..., **spread)`: the
      keywords bind "preset" (default "BulkSet"), "relax_cell" (default
      true, read by truthiness) and "copy_files" (default `None`); the rest
      are the calculator swaps. Repeating a keyword, or naming "atoms",
      raises. */
  function CallRelaxJob(atoms: Atoms, explicit: Table, spread: Table): (r: Result<VaspRun>)
    requires WellFormed(explicit) && WellFormed(spread)
    ensures r.Ok? ==> r.value.atoms == atoms && r.value.additionalFields == Some([("name", Str("VASP Relax"))])
  {
    var args :- KeywordArgs(explicit, spread);
    var _ :- NotGiven(args, {"atoms"});
    RelaxJob(atoms, GetOr(args, "preset", Str("BulkSet")), Truthy(GetOr(args, "relax_cell", Bool(true))),
             GetOr(args, "copy_files", Null), Without(args, {"preset", "relax_cell", "copy_files"}))
  }

  /** The keywords the first call of `double_relax_job` writes out. */
  function FirstKeywords(preset: Value, relaxCell: bool): Table {
    [("preset", preset), ("relax_cell", Bool(relaxCell))]
  }

  /** The keywords the second call writes out. */
  function SecondKeywords(preset: Value, relaxCell: bool): Table {
    [("preset", preset), ("relax_cell", Bool(relaxCell)), ("copy_files", StrList(["WAVECAR"]))]
  }

  lemma FirstKeywordsFacts(preset: Value, relaxCell: bool)
    ensures var e := FirstKeywords(preset, relaxCell);
            && WellFormed(e) && Keys(e) == ["preset", "relax_cell"]
            && Get(e, "preset") == Some(preset) && Get(e, "relax_cell") == Some(Bool(relaxCell))
            && Get(e, "copy_files") == None
  {
    var e := FirstKeywords(preset, relaxCell);
    assert Keys(e) == ["preset", "relax_cell"];
    assert e[1..] == [("relax_cell", Bool(relaxCell))] && e[1..][1..] == [];
    assert Get(e[1..], "relax_cell") == Some(Bool(relaxCell));
    assert Get(e[1..], "copy_files") == None;
  }

  lemma SecondKeywordsFacts(preset: Value, relaxCell: bool)
    ensures var e := SecondKeywords(preset, relaxCell);
            && WellFormed(e) && Keys(e) == ["preset", "relax_cell", "copy_files"]
            && Get(e, "preset") == Some(preset) && Get(e, "relax_cell") == Some(Bool(relaxCell))
            && Get(e, "copy_files") == Some(StrList(["WAVECAR"]))
  {
    var e := SecondKeywords(preset, relaxCell);
    var copied: Table := [("copy_files", StrList(["WAVECAR"]))];
    assert Keys(e) == ["preset", "relax_cell", "copy_files"];
    assert e[1..] == [("relax_cell", Bool(relaxCell))] + copied && e[1..][1..] == copied;
    assert Get(copied, "copy_files") == Some(StrList(["WAVECAR"]));
    assert Get(e[1..], "relax_cell") == Some(Bool(relaxCell));
    assert Get(e[1..], "copy_files") == Some(StrList(["WAVECAR"]));
  }

  /** The first call of `double_relax_job`. */
  function FirstRelax(atoms: Atoms, preset: Value, relaxCell: bool, kwargs: Table): (r: Result<VaspRun>)
    requires WellFormed(kwargs)
    ensures r.Ok? ==> r.value.atoms == atoms
  {
    FirstKeywordsFacts(preset, relaxCell);
    CallRelaxJob(atoms, FirstKeywords(preset, relaxCell), kwargs)
  }

  /** The second call of `double_relax_job`, which also copies the
      wavefunction of the first. */
  function SecondRelax(atoms: Atoms, preset: Value, relaxCell: bool, kwargs: Table): (r: Result<VaspRun>)
    requires WellFormed(kwargs)
    ensures r.Ok? ==> r.value.atoms == atoms
  {
    SecondKeywordsFacts(preset, relaxCell);
    CallRelaxJob(atoms, SecondKeywords(preset, relaxCell), kwargs)
  }

  /** `double_relax_job`: `engine` runs the calculation and summarizes it
      (`run_calc` then `vasp_summarize_run`). The second relaxation starts
      from the output structure of the first, and its summary gets the
      first summary under "relax1", replacing any "relax1" key the engine
      wrote. */
  function DoubleRelaxJob(engine: VaspRun -> Summary, atoms: Atoms, preset: Value, relaxCell: bool,
                          relax1Kwargs: Option<Table>, relax2Kwargs: Option<Table>): (r: Result<Summary>)
    requires WellFormed(OrEmpty(relax1Kwargs)) && WellFormed(OrEmpty(relax2Kwargs))
    ensures r.Ok? ==> r.value.relax1.Some?
  {
    var run1 :- FirstRelax(atoms, preset, relaxCell, OrEmpty(relax1Kwargs));
    var summary1 := engine(run1);
    var run2 :- SecondRelax(summary1.atoms, preset, relaxCell, OrEmpty(relax2Kwargs));
    var summary2 := engine(run2);
    Ok(summary2.(fields := Without(summary2.fields, {"relax1"}), relax1 := Some(summary1)))
  }

  // ---------------------------------------------------------------------
  // Properties of the flags

  /** `_base_job` raises exactly when a layer names "preset"; otherwise a
      swapped key takes its swap value, even `None`, which stays in the
      flags, and every other key keeps its default. */
  lemma BaseJobFlags(atoms: Atoms, preset: Value, defaults: Option<Table>, calcSwaps: Option<Table>,
                     additionalFields: Option<Table>, copyFiles: Value, k: string)
    requires WellFormed(OrEmpty(defaults)) && WellFormed(OrEmpty(calcSwaps))
    ensures BaseJob(atoms, preset, defaults, calcSwaps, additionalFields, copyFiles).Ok? <==>
            "preset" !in Keys(OrEmpty(defaults)) && "preset" !in Keys(OrEmpty(calcSwaps))
    ensures var r := BaseJob(atoms, preset, defaults, calcSwaps, additionalFields, copyFiles);
            r.Ok? ==>
              && Get(r.value.flags, k) == (if k in Keys(OrEmpty(calcSwaps)) then Get(OrEmpty(calcSwaps), k) else Get(OrEmpty(defaults), k))
              && (k in Keys(r.value.flags) <==> k in Keys(OrEmpty(calcSwaps)) || k in Keys(OrEmpty(defaults)))
  {
    MergeDictsKeys(defaults, calcSwaps, false, "preset");
    GetSomeIffKey(OrEmpty(calcSwaps), "preset");
    GetSomeIffKey(OrEmpty(defaults), "preset");
    MergeDictsGet(defaults, calcSwaps, false, k);
    MergeDictsKeys(defaults, calcSwaps, false, k);
    GetSomeIffKey(OrEmpty(calcSwaps), k);
    GetSomeIffKey(OrEmpty(defaults), k);
  }

  /** `_base_job` succeeds when neither table names "preset". */
  lemma BaseJobOk(atoms: Atoms, preset: Value, defaults: Table, calcSwaps: Table,
                  additionalFields: Option<Table>, copyFiles: Value)
    requires WellFormed(defaults) && WellFormed(calcSwaps)
    requires "preset" !in Keys(defaults) && "preset" !in Keys(calcSwaps)
    ensures BaseJob(atoms, preset, Some(defaults), Some(calcSwaps), additionalFields, copyFiles).Ok?
  {
    MergeDictsKeys(Some(defaults), Some(calcSwaps), false, "preset");
  }

  /** A `None` swap is kept as a literal `None` flag rather than deleting
      the key, unlike the ORCA and Gaussian recipes. */
  lemma NoneSwapStays(atoms: Atoms, preset: Value, relaxCell: bool, copyFiles: Value, kwargs: Table, k: string)
    requires WellFormed(kwargs) && "preset" !in Keys(kwargs)
    requires Get(kwargs, k) == Some(Null)
    ensures RelaxJob(atoms, preset, relaxCell, copyFiles, kwargs).Ok?
    ensures k in Keys(RelaxJob(atoms, preset, relaxCell, copyFiles, kwargs).value.flags)
    ensures Get(RelaxJob(atoms, preset, relaxCell, copyFiles, kwargs).value.flags, k) == Some(Null)
  {
    BaseJobFlags(atoms, preset, Some(RelaxDefaults(relaxCell)), Some(kwargs), Some([("name", Str("VASP Relax"))]), copyFiles, k);
    GetSomeIffKey(kwargs, k);
  }

  /** Unless "isif" is swapped, the relaxation flags have ISIF 3 for a
      cell relaxation and 2 otherwise. */
  lemma RelaxIsif(atoms: Atoms, preset: Value, relaxCell: bool, copyFiles: Value, kwargs: Table)
    requires WellFormed(kwargs) && "preset" !in Keys(kwargs) && "isif" !in Keys(kwargs)
    ensures RelaxJob(atoms, preset, relaxCell, copyFiles, kwargs).Ok?
    ensures Get(RelaxJob(atoms, preset, relaxCell, copyFiles, kwargs).value.flags, "isif") == Some(Int(if relaxCell then 3 else 2))
  {
    BaseJobFlags(atoms, preset, Some(RelaxDefaults(relaxCell)), Some(kwargs), Some([("name", Str("VASP Relax"))]), copyFiles, "isif");
  }

  /** With no swaps (and no "preset" in them, which Python's binding of
      `**kwargs` guarantees) the static job always builds, and its flags
      are the static defaults. */
  lemma StaticWithoutSwaps(atoms: Atoms, preset: Value, copyFiles: Value)
    ensures StaticJob(atoms, preset, copyFiles, []).Ok?
    ensures StaticJob(atoms, preset, copyFiles, []).value.flags == StaticDefaults()
  {
    MergeWithoutSwaps(Some(StaticDefaults()), Some([]), false);
  }

  // ---------------------------------------------------------------------
  // The keyword call and the double relaxation

  /** Calling `relax_job` raises exactly when the spread keywords repeat an
      explicit one or either names "atoms"; the calculator itself never
      raises, because "preset" is bound by the call and so never reaches
      the flags. */
  lemma CallRelaxJobOk(atoms: Atoms, explicit: Table, spread: Table)
    requires WellFormed(explicit) && WellFormed(spread)
    ensures CallRelaxJob(atoms, explicit, spread).Ok? <==>
            (forall k :: k in Keys(spread) ==> k !in Keys(explicit)) &&
            "atoms" !in Keys(explicit) && "atoms" !in Keys(spread)
  {
    var a := KeywordArgs(explicit, spread);
    if a.Ok? {
      var args := a.value;
      GetSomeIffKey(args, "atoms");
      GetSomeIffKey(explicit, "atoms");
      GetSomeIffKey(spread, "atoms");
      NotGivenOne(args, "atoms");
      var relaxCell := Truthy(GetOr(args, "relax_cell", Bool(true)));
      BaseJobOk(atoms, GetOr(args, "preset", Str("BulkSet")), RelaxDefaults(relaxCell),
                Without(args, {"preset", "relax_cell", "copy_files"}),
                Some([("name", Str("VASP Relax"))]), GetOr(args, "copy_files", Null));
    }
  }

  /** What a successful call of `relax_job` builds: the given structure,
      and the bound "preset" and "copy_files". */
  lemma CallRelaxJobFields(atoms: Atoms, explicit: Table, spread: Table)
    requires WellFormed(explicit) && WellFormed(spread)
    requires CallRelaxJob(atoms, explicit, spread).Ok?
    ensures var run := CallRelaxJob(atoms, explicit, spread).value;
            var args := explicit + spread;
            && run.atoms == atoms
            && run.preset == GetOr(args, "preset", Str("BulkSet"))
            && run.copyFiles == GetOr(args, "copy_files", Null)
            && run.additionalFields == Some([("name", Str("VASP Relax"))])
  {
    var args := KeywordArgs(explicit, spread).value;
    assert args == explicit + spread;
  }

  /** The flags of a successful call of `relax_job`: the ISIF rule for the
      bound "relax_cell", and the remaining keywords as swaps over the
      defaults. */
  lemma CallRelaxJobRun(atoms: Atoms, explicit: Table, spread: Table, k: string)
    requires WellFormed(explicit) && WellFormed(spread)
    requires CallRelaxJob(atoms, explicit, spread).Ok?
    ensures var run := CallRelaxJob(atoms, explicit, spread).value;
            var args := explicit + spread;
            var relaxCell := Truthy(GetOr(args, "relax_cell", Bool(true)));
            Get(run.flags, k) == (if k in {"preset", "relax_cell", "copy_files"} || k !in Keys(args)
                                  then Get(RelaxDefaults(relaxCell), k) else Get(args, k))
  {
    var args := KeywordArgs(explicit, spread).value;
    assert args == explicit + spread;
    var swaps := Without(args, {"preset", "relax_cell", "copy_files"});
    var relaxCell := Truthy(GetOr(args, "relax_cell", Bool(true)));
    BaseJobFlags(atoms, GetOr(args, "preset", Str("BulkSet")), Some(RelaxDefaults(relaxCell)), Some(swaps),
                 Some([("name", Str("VASP Relax"))]), GetOr(args, "copy_files", Null), k);
    GetSomeIffKey(swaps, k);
    GetSomeIffKey(args, k);
  }

  /** A call of `relax_job` whose keywords give "relax_cell" and do not
      swap "isif" builds ISIF 3 or 2 as that value says. */
  lemma CallRelaxJobIsif(atoms: Atoms, explicit: Table, spread: Table, relaxCell: bool)
    requires WellFormed(explicit) && WellFormed(spread)
    requires CallRelaxJob(atoms, explicit, spread).Ok?
    requires Get(explicit, "relax_cell") == Some(Bool(relaxCell))
    requires "isif" !in Keys(explicit) && "isif" !in Keys(spread)
    ensures Get(CallRelaxJob(atoms, explicit, spread).value.flags, "isif") == Some(Int(if relaxCell then 3 else 2))
  {
    CallRelaxJobRun(atoms, explicit, spread, "isif");
    GetConcat(explicit, spread, "relax_cell");
    KeysConcat(explicit, spread);
  }

  /** The double relaxation raises exactly when a keyword table repeats a
      keyword its call already gives: "atoms", "preset" or "relax_cell",
      and for the second also "copy_files". */
  lemma DoubleRelaxOk(engine: VaspRun -> Summary, atoms: Atoms, preset: Value, relaxCell: bool,
                      relax1Kwargs: Option<Table>, relax2Kwargs: Option<Table>)
    requires WellFormed(OrEmpty(relax1Kwargs)) && WellFormed(OrEmpty(relax2Kwargs))
    ensures DoubleRelaxJob(engine, atoms, preset, relaxCell, relax1Kwargs, relax2Kwargs).Ok? <==>
            (forall k :: k in Keys(OrEmpty(relax1Kwargs)) ==> k !in {"atoms", "preset", "relax_cell"}) &&
            (forall k :: k in Keys(OrEmpty(relax2Kwargs)) ==> k !in {"atoms", "preset", "relax_cell", "copy_files"})
  {
    FirstRelaxOk(atoms, preset, relaxCell, OrEmpty(relax1Kwargs));
    var first := FirstRelax(atoms, preset, relaxCell, OrEmpty(relax1Kwargs));
    if first.Ok? {
      SecondRelaxOk(engine(first.value).atoms, preset, relaxCell, OrEmpty(relax2Kwargs));
    }
  }

  /** The first relaxation raises exactly when its keywords name "atoms",
      "preset" or "relax_cell". */
  lemma FirstRelaxOk(atoms: Atoms, preset: Value, relaxCell: bool, kwargs: Table)
    requires WellFormed(kwargs)
    ensures FirstRelax(atoms, preset, relaxCell, kwargs).Ok? <==>
            forall k :: k in Keys(kwargs) ==> k !in {"atoms", "preset", "relax_cell"}
  {
    FirstKeywordsFacts(preset, relaxCell);
    CallRelaxJobOk(atoms, FirstKeywords(preset, relaxCell), kwargs);
  }

  /** The second relaxation raises exactly when its keywords name "atoms",
      "preset", "relax_cell" or "copy_files". */
  lemma SecondRelaxOk(atoms: Atoms, preset: Value, relaxCell: bool, kwargs: Table)
    requires WellFormed(kwargs)
    ensures SecondRelax(atoms, preset, relaxCell, kwargs).Ok? <==>
            forall k :: k in Keys(kwargs) ==> k !in {"atoms", "preset", "relax_cell", "copy_files"}
  {
    SecondKeywordsFacts(preset, relaxCell);
    CallRelaxJobOk(atoms, SecondKeywords(preset, relaxCell), kwargs);
  }

  /** A successful first relaxation runs on the given structure with the
      given preset and the caller's "copy_files", if any. */
  lemma FirstRelaxRun(atoms: Atoms, preset: Value, relaxCell: bool, kwargs: Table)
    requires WellFormed(kwargs) && FirstRelax(atoms, preset, relaxCell, kwargs).Ok?
    ensures var run := FirstRelax(atoms, preset, relaxCell, kwargs).value;
            run.atoms == atoms && run.preset == preset && run.copyFiles == GetOr(kwargs, "copy_files", Null)
  {
    var e := FirstKeywords(preset, relaxCell);
    FirstKeywordsFacts(preset, relaxCell);
    CallRelaxJobFields(atoms, e, kwargs);
    GetConcat(e, kwargs, "preset");
    GetConcat(e, kwargs, "copy_files");
  }

  /** Unless swapped, ISIF in the first relaxation follows `relaxCell`. */
  lemma FirstRelaxIsif(atoms: Atoms, preset: Value, relaxCell: bool, kwargs: Table)
    requires WellFormed(kwargs) && FirstRelax(atoms, preset, relaxCell, kwargs).Ok? && "isif" !in Keys(kwargs)
    ensures Get(FirstRelax(atoms, preset, relaxCell, kwargs).value.flags, "isif") == Some(Int(if relaxCell then 3 else 2))
  {
    FirstKeywordsFacts(preset, relaxCell);
    CallRelaxJobIsif(atoms, FirstKeywords(preset, relaxCell), kwargs, relaxCell);
  }

  /** A successful second relaxation runs on the given structure with the
      given preset and copies "WAVECAR". */
  lemma SecondRelaxRun(atoms: Atoms, preset: Value, relaxCell: bool, kwargs: Table)
    requires WellFormed(kwargs) && SecondRelax(atoms, preset, relaxCell, kwargs).Ok?
    ensures var run := SecondRelax(atoms, preset, relaxCell, kwargs).value;
            run.atoms == atoms && run.preset == preset && run.copyFiles == StrList(["WAVECAR"])
  {
    var e := SecondKeywords(preset, relaxCell);
    SecondKeywordsFacts(preset, relaxCell);
    CallRelaxJobFields(atoms, e, kwargs);
    GetConcat(e, kwargs, "preset");
    GetConcat(e, kwargs, "copy_files");
  }

  /** Unless swapped, ISIF in the second relaxation follows `relaxCell`. */
  lemma SecondRelaxIsif(atoms: Atoms, preset: Value, relaxCell: bool, kwargs: Table)
    requires WellFormed(kwargs) && SecondRelax(atoms, preset, relaxCell, kwargs).Ok? && "isif" !in Keys(kwargs)
    ensures Get(SecondRelax(atoms, preset, relaxCell, kwargs).value.flags, "isif") == Some(Int(if relaxCell then 3 else 2))
  {
    SecondKeywordsFacts(preset, relaxCell);
    CallRelaxJobIsif(atoms, SecondKeywords(preset, relaxCell), kwargs, relaxCell);
  }

  /** A successful double relaxation: the first run relaxes the given
      structure, the second starts from the first's output structure, both
      use the same preset and ISIF rule, only the second copies "WAVECAR",
      and the result is the second summary with the first under "relax1". */
  lemma DoubleRelaxChain(engine: VaspRun -> Summary, atoms: Atoms, preset: Value, relaxCell: bool,
                         relax1Kwargs: Option<Table>, relax2Kwargs: Option<Table>)
    requires WellFormed(OrEmpty(relax1Kwargs)) && WellFormed(OrEmpty(relax2Kwargs))
    requires DoubleRelaxJob(engine, atoms, preset, relaxCell, relax1Kwargs, relax2Kwargs).Ok?
    ensures var kw1, kw2 := OrEmpty(relax1Kwargs), OrEmpty(relax2Kwargs);
            var run1 := FirstRelax(atoms, preset, relaxCell, kw1).value;
            var run2 := SecondRelax(engine(run1).atoms, preset, relaxCell, kw2).value;
            var r := DoubleRelaxJob(engine, atoms, preset, relaxCell, relax1Kwargs, relax2Kwargs).value;
            && run1.atoms == atoms && run2.atoms == engine(run1).atoms
            && run1.preset == preset && run2.preset == preset
            && run1.copyFiles == GetOr(kw1, "copy_files", Null) && run2.copyFiles == StrList(["WAVECAR"])
            && ("isif" !in Keys(kw1) ==> Get(run1.flags, "isif") == Some(Int(if relaxCell then 3 else 2)))
            && ("isif" !in Keys(kw2) ==> Get(run2.flags, "isif") == Some(Int(if relaxCell then 3 else 2)))
            && r.atoms == engine(run2).atoms
            && (forall k :: Get(r.fields, k) == if k == "relax1" then None else Get(engine(run2).fields, k))
            && r.relax1 == Some(engine(run1))
  {
    var kw1, kw2 := OrEmpty(relax1Kwargs), OrEmpty(relax2Kwargs);
    FirstRelaxRun(atoms, preset, relaxCell, kw1);
    if "isif" !in Keys(kw1) {
      FirstRelaxIsif(atoms, preset, relaxCell, kw1);
    }
    var run1 := FirstRelax(atoms, preset, relaxCell, kw1).value;
    SecondRelaxRun(engine(run1).atoms, preset, relaxCell, kw2);
    if "isif" !in Keys(kw2) {
      SecondRelaxIsif(engine(run1).atoms, preset, relaxCell, kw2);
    }
  }

  /** The preset of `static_job`, `relax_job` and `double_relax_job` when
      none is given. */
  const DefaultPreset: Value := Str("BulkSet")

  /** `double_relax_job(atoms)` with every default: both relaxations run,
      with preset "BulkSet" and ISIF 3 (a cell relaxation); only the
      second copies "WAVECAR". */
  lemma DoubleRelaxDefaultCall(engine: VaspRun -> Summary, atoms: Atoms)
    ensures DoubleRelaxJob(engine, atoms, DefaultPreset, true, None, None).Ok?
    ensures FirstRelax(atoms, DefaultPreset, true, []).Ok?
    ensures var run1 := FirstRelax(atoms, DefaultPreset, true, []).value;
            SecondRelax(engine(run1).atoms, DefaultPreset, true, []).Ok?
    ensures var run1 := FirstRelax(atoms, DefaultPreset, true, []).value;
            var run2 := SecondRelax(engine(run1).atoms, DefaultPreset, true, []).value;
            && run1.preset == Str("BulkSet") && run2.preset == Str("BulkSet")
            && Get(run1.flags, "isif") == Some(Int(3)) && Get(run2.flags, "isif") == Some(Int(3))
            && run1.copyFiles == Null && run2.copyFiles == StrList(["WAVECAR"])
  {
    DoubleRelaxOk(engine, atoms, DefaultPreset, true, None, None);
    DoubleRelaxChain(engine, atoms, DefaultPreset, true, None, None);
  }
}
