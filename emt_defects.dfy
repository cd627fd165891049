/** The EMT defects flow: the keyword tables are normalised (the relaxation
    table gets "relax_cell" False when the caller did not set it, written
    into the caller's own dict when that dict is non-empty), the defect
    generator is called once, and every generated defect is relaxed and,
    optionally, recomputed statically from its relaxed structure. */
module EmtDefects {
  import opened Dicts
  import opened Jobs

  /** A Python dict object the flow may change in place. */
  class KwargsDict {
    var entries: Table

    constructor (entries: Table)
      ensures this.entries == entries
    {
      this.entries := entries;
    }
  }

  /** The relaxation keywords after `if "relax_cell" not in d:
      d["relax_cell"] = False`. */
  function WithRelaxCellDefault(t: Table): (r: Table)
    ensures WellFormed(t) ==> WellFormed(r)
    ensures "relax_cell" in Keys(r)
    ensures Get(r, "relax_cell") == if "relax_cell" in Keys(t) then Get(t, "relax_cell") else Some(Bool(false))
    ensures forall k :: k != "relax_cell" ==> Get(r, k) == Get(t, k)
    ensures forall k :: k in Keys(r) <==> k in Keys(t) || k == "relax_cell"
  {
    if "relax_cell" in Keys(t) then
      GetSomeIffKey(t, "relax_cell");
      t
    else
      PutRelaxCellFacts(t);
      Put(t, "relax_cell", Bool(false))
  }

  lemma PutRelaxCellFacts(t: Table)
    ensures var r := Put(t, "relax_cell", Bool(false));
            && (WellFormed(t) ==> WellFormed(r))
            && "relax_cell" in Keys(r) && Get(r, "relax_cell") == Some(Bool(false))
            && (forall k :: k != "relax_cell" ==> Get(r, k) == Get(t, k))
            && (forall k :: k in Keys(r) <==> k in Keys(t) || k == "relax_cell")
  {
    var r := Put(t, "relax_cell", Bool(false));
    if WellFormed(t) {
      PutWellFormed(t, "relax_cell", Bool(false));
    }
    PutKeys(t, "relax_cell", Bool(false), "relax_cell");
    PutGet(t, "relax_cell", Bool(false), "relax_cell");
    forall k ensures k != "relax_cell" ==> Get(r, k) == Get(t, k) {
      PutGet(t, "relax_cell", Bool(false), k);
    }
    forall k ensures k in Keys(r) <==> k in Keys(t) || k == "relax_cell" {
      PutKeys(t, "relax_cell", Bool(false), k);
    }
  }

  /** Lines 77 and 81-82 for the relaxation keywords: `d = d or {}` keeps
      the caller's dict when it is non-empty and makes a fresh one
      otherwise, and the "relax_cell" default is then written into
      whichever dict that is. */
  method NormalizeRelaxKwargs(kwargs: KwargsDict?) returns (d: KwargsDict)
    modifies kwargs
    ensures kwargs != null && old(kwargs.entries) != [] ==> d == kwargs
    ensures kwargs == null || old(kwargs.entries) == [] ==> fresh(d)
    ensures kwargs != null && old(kwargs.entries) == [] ==> kwargs.entries == []
    ensures d.entries == WithRelaxCellDefault(if kwargs == null then [] else old(kwargs.entries))
  {
    if kwargs != null && kwargs.entries != [] {
      d := kwargs;
    } else {
      d := new KwargsDict([]);
    }
    if "relax_cell" !in Keys(d.entries) {
      d.entries := Put(d.entries, "relax_cell", Bool(false));
    }
  }

  /** The keywords of `make_defects_from_bulk(atoms, defect_gen=...,
      defect_charge=..., **make_defects_kwargs)`; repeating either raises. */
  function DefectArgs(defectGen: Value, defectCharge: int, makeDefectsKwargs: Table): (r: Result<Table>)
    requires WellFormed(makeDefectsKwargs)
    ensures r.Ok? <==> "defect_gen" !in Keys(makeDefectsKwargs) && "defect_charge" !in Keys(makeDefectsKwargs)
    ensures r.Err? ==> r.error.name in {"defect_gen", "defect_charge"}
    ensures r.Ok? ==> && WellFormed(r.value)
                      && Get(r.value, "defect_gen") == Some(defectGen)
                      && Get(r.value, "defect_charge") == Some(Int(defectCharge))
                      && forall k :: k != "defect_gen" && k != "defect_charge" ==> Get(r.value, k) == Get(makeDefectsKwargs, k)
  {
    var explicit: Table := [("defect_gen", defectGen), ("defect_charge", Int(defectCharge))];
    assert Keys(explicit) == ["defect_gen", "defect_charge"];
    assert Get(explicit, "defect_charge") == Some(Int(defectCharge));
    KeywordArgs(explicit, makeDefectsKwargs)
  }

  /** Lines 84-114 once the keyword tables are normalised: the defects are
      generated once, and each is relaxed by `relaxJob` and, with
      `runStatic`, passed on to `staticJob` as its relaxed structure. */
  function DefectRuns(relaxJob: (Atoms, Table) -> Summary, staticJob: (Atoms, Table) -> Summary,
                      makeDefects: (Atoms, Table) -> seq<Atoms>, atoms: Atoms, defectGen: Value, defectCharge: int,
                      makeDefectsKwargs: Table, runStatic: bool, relaxKwargs: Table, staticKwargs: Table): (r: Result<seq<Summary>>)
    requires WellFormed(makeDefectsKwargs)
    ensures r.Ok? <==> DefectArgs(defectGen, defectCharge, makeDefectsKwargs).Ok?
    ensures r.Ok? ==> |r.value| == |makeDefects(atoms, DefectArgs(defectGen, defectCharge, makeDefectsKwargs).value)|
  {
    var args :- DefectArgs(defectGen, defectCharge, makeDefectsKwargs);
    var defects := makeDefects(atoms, args);
    if runStatic then
      Ok(seq(|defects|, i requires 0 <= i < |defects| => staticJob(relaxJob(defects[i], relaxKwargs).atoms, staticKwargs)))
    else
      Ok(seq(|defects|, i requires 0 <= i < |defects| => relaxJob(defects[i], relaxKwargs)))
  }

  /** `bulk_to_defects_flow`. The jobs of `quacc.recipes.emt.core` and the
      defect generator are parameters; the relaxation keywords are a dict
      the caller may see changed. */
  method BulkToDefectsFlow(relaxJob: (Atoms, Table) -> Summary, staticJob: (Atoms, Table) -> Summary,
                           makeDefects: (Atoms, Table) -> seq<Atoms>, atoms: Atoms, defectGen: Value,
                           defectCharge: int, makeDefectsKwargs: Option<Table>, runStatic: bool,
                           defectRelaxKwargs: KwargsDict?, defectStaticKwargs: Option<Table>)
    returns (r: Result<seq<Summary>>)
    requires WellFormed(OrEmpty(makeDefectsKwargs))
    modifies defectRelaxKwargs
    ensures var relaxKwargs := WithRelaxCellDefault(if defectRelaxKwargs == null then [] else old(defectRelaxKwargs.entries));
            r == DefectRuns(relaxJob, staticJob, makeDefects, atoms, defectGen, defectCharge, OrEmpty(makeDefectsKwargs),
                            runStatic, relaxKwargs, OrEmpty(defectStaticKwargs))
    ensures defectRelaxKwargs != null ==>
              defectRelaxKwargs.entries == if old(defectRelaxKwargs.entries) == [] then []
                                           else WithRelaxCellDefault(old(defectRelaxKwargs.entries))
  {
    var staticKwargs := OrEmpty(defectStaticKwargs);
    var makeKwargs := OrEmpty(makeDefectsKwargs);
    var relaxKwargs := NormalizeRelaxKwargs(defectRelaxKwargs);
    r := DefectRuns(relaxJob, staticJob, makeDefects, atoms, defectGen, defectCharge, makeKwargs,
                    runStatic, relaxKwargs.entries, staticKwargs);
  }

  // ---------------------------------------------------------------------
  // Properties

  /** Setting the "relax_cell" default twice is setting it once. */
  lemma WithRelaxCellDefaultIdempotent(t: Table)
    ensures WithRelaxCellDefault(WithRelaxCellDefault(t)) == WithRelaxCellDefault(t)
  {
  }

  /** The flow raises exactly when the generator keywords repeat
      "defect_gen" or "defect_charge". */
  lemma DefectRunsOk(relaxJob: (Atoms, Table) -> Summary, staticJob: (Atoms, Table) -> Summary,
                     makeDefects: (Atoms, Table) -> seq<Atoms>, atoms: Atoms, defectGen: Value, defectCharge: int,
                     makeDefectsKwargs: Table, runStatic: bool, relaxKwargs: Table, staticKwargs: Table)
    requires WellFormed(makeDefectsKwargs)
    ensures DefectRuns(relaxJob, staticJob, makeDefects, atoms, defectGen, defectCharge, makeDefectsKwargs,
                       runStatic, relaxKwargs, staticKwargs).Ok? <==>
            "defect_gen" !in Keys(makeDefectsKwargs) && "defect_charge" !in Keys(makeDefectsKwargs)
  {
  }

  /** A successful flow: one result per generated defect, in order; with
      `runStatic` the static job of defect i runs on the structure that
      defect i's relaxation produced, otherwise the results are the
      relaxations themselves. Every relaxation gets the same keywords. */
  lemma DefectRunsShape(relaxJob: (Atoms, Table) -> Summary, staticJob: (Atoms, Table) -> Summary,
                        makeDefects: (Atoms, Table) -> seq<Atoms>, atoms: Atoms, defectGen: Value, defectCharge: int,
                        makeDefectsKwargs: Table, runStatic: bool, relaxKwargs: Table, staticKwargs: Table)
    requires WellFormed(makeDefectsKwargs)
    requires DefectRuns(relaxJob, staticJob, makeDefects, atoms, defectGen, defectCharge, makeDefectsKwargs,
                        runStatic, relaxKwargs, staticKwargs).Ok?
    ensures var defects := makeDefects(atoms, DefectArgs(defectGen, defectCharge, makeDefectsKwargs).value);
            var r := DefectRuns(relaxJob, staticJob, makeDefects, atoms, defectGen, defectCharge, makeDefectsKwargs,
                                runStatic, relaxKwargs, staticKwargs).value;
            && |r| == |defects|
            && forall i :: 0 <= i < |defects| ==>
                 r[i] == if runStatic then staticJob(relaxJob(defects[i], relaxKwargs).atoms, staticKwargs)
                         else relaxJob(defects[i], relaxKwargs)
  {
  }
}
