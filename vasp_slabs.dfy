/** The VASP slab recipes: slab static and relaxation jobs over the shared
    `_base_job`, and the two flows that relax (and optionally recompute
    statically) every slab generated from a bulk structure or every
    adsorbate structure generated on a slab. */
module VaspSlabs {
  import opened Dicts
  import opened Jobs
  import VaspCore

  const StaticKeys: seq<string> := ["auto_dipole", "ismear", "laechg", "lcharg", "lreal", "lvhar", "lwave", "nedos", "nsw"]

  const RelaxKeys: seq<string> := ["auto_dipole", "ediffg", "isif", "ibrion", "isym", "lcharg", "lwave", "nsw", "symprec"]

  /** The defaults of `slab_static_job`. */
  function SlabStaticDefaults(): (r: Table)
    ensures WellFormed(r) && "preset" !in Keys(r)
    ensures forall i :: 0 <= i < |r| ==> r[i].1 != Null
    ensures Get(r, "auto_dipole") == Some(Bool(true)) && Get(r, "lvhar") == Some(Bool(true))
    ensures Get(r, "ismear") == Some(Int(-5)) && Get(r, "nedos") == Some(Int(5001)) && Get(r, "nsw") == Some(Int(0))
    ensures Get(r, "laechg") == Some(Bool(true)) && Get(r, "lcharg") == Some(Bool(true)) && Get(r, "lwave") == Some(Bool(true))
    ensures Get(r, "lreal") == Some(Bool(false))
  {
    SlabStaticDefaultsFacts();
    SlabStaticDefaultsLookup1();
    SlabStaticDefaultsLookup2();
    Zip(StaticKeys, SlabStaticValues())
  }

  /** The values of the `slab_static_job` defaults, in the order of `StaticKeys`. */
  function SlabStaticValues(): seq<Value> {
    [Bool(true), Int(-5), Bool(true), Bool(true), Bool(false), Bool(true), Bool(true), Int(5001), Int(0)]
  }

  /** The keys of the `slab_static_job` defaults are distinct, do not name "preset", and no value is `None`. */
  lemma SlabStaticDefaultsFacts()
    ensures Distinct(StaticKeys) && |StaticKeys| == |SlabStaticValues()| == 9 && "preset" !in StaticKeys
    ensures forall i :: 0 <= i < |SlabStaticValues()| ==> SlabStaticValues()[i] != Null
  {
  }

  lemma SlabStaticDefaultsLookup1()
    ensures var r := Zip(StaticKeys, SlabStaticValues());
            Get(r, "auto_dipole") == Some(Bool(true))
            && Get(r, "ismear") == Some(Int(-5))
            && Get(r, "laechg") == Some(Bool(true))
            && Get(r, "lcharg") == Some(Bool(true))
            && Get(r, "lreal") == Some(Bool(false))
  {
    SlabStaticDefaultsFacts();
    ZipGet(StaticKeys, SlabStaticValues(), 0);
    ZipGet(StaticKeys, SlabStaticValues(), 1);
    ZipGet(StaticKeys, SlabStaticValues(), 2);
    ZipGet(StaticKeys, SlabStaticValues(), 3);
    ZipGet(StaticKeys, SlabStaticValues(), 4);
  }

  lemma SlabStaticDefaultsLookup2()
    ensures var r := Zip(StaticKeys, SlabStaticValues());
            Get(r, "lvhar") == Some(Bool(true))
            && Get(r, "lwave") == Some(Bool(true))
            && Get(r, "nedos") == Some(Int(5001))
            && Get(r, "nsw") == Some(Int(0))
  {
    SlabStaticDefaultsFacts();
    ZipGet(StaticKeys, SlabStaticValues(), 5);
    ZipGet(StaticKeys, SlabStaticValues(), 6);
    ZipGet(StaticKeys, SlabStaticValues(), 7);
    ZipGet(StaticKeys, SlabStaticValues(), 8);
  }


  /** The defaults of `slab_relax_job`: positions only (ISIF 2). */
  function SlabRelaxDefaults(): (r: Table)
    ensures WellFormed(r) && "preset" !in Keys(r)
    ensures forall i :: 0 <= i < |r| ==> r[i].1 != Null
    ensures Get(r, "auto_dipole") == Some(Bool(true)) && Get(r, "isif") == Some(Int(2))
    ensures Get(r, "ediffg") == Some(Decimal(-2, -2)) && Get(r, "symprec") == Some(Decimal(1, -8))
    ensures Get(r, "ibrion") == Some(Int(2)) && Get(r, "isym") == Some(Int(0)) && Get(r, "nsw") == Some(Int(200))
    ensures Get(r, "lcharg") == Some(Bool(false)) && Get(r, "lwave") == Some(Bool(false))
  {
    SlabRelaxDefaultsFacts();
    SlabRelaxDefaultsLookup1();
    SlabRelaxDefaultsLookup2();
    Zip(RelaxKeys, SlabRelaxValues())
  }

  /** The values of the `slab_relax_job` defaults, in the order of `RelaxKeys`. */
  function SlabRelaxValues(): seq<Value> {
    [Bool(true), Decimal(-2, -2), Int(2), Int(2), Int(0), Bool(false), Bool(false), Int(200), Decimal(1, -8)]
  }

  /** The keys of the `slab_relax_job` defaults are distinct, do not name "preset", and no value is `None`. */
  lemma SlabRelaxDefaultsFacts()
    ensures Distinct(RelaxKeys) && |RelaxKeys| == |SlabRelaxValues()| == 9 && "preset" !in RelaxKeys
    ensures forall i :: 0 <= i < |SlabRelaxValues()| ==> SlabRelaxValues()[i] != Null
  {
  }

  lemma SlabRelaxDefaultsLookup1()
    ensures var r := Zip(RelaxKeys, SlabRelaxValues());
            Get(r, "auto_dipole") == Some(Bool(true))
            && Get(r, "ediffg") == Some(Decimal(-2, -2))
            && Get(r, "isif") == Some(Int(2))
            && Get(r, "ibrion") == Some(Int(2))
            && Get(r, "isym") == Some(Int(0))
  {
    SlabRelaxDefaultsFacts();
    ZipGet(RelaxKeys, SlabRelaxValues(), 0);
    ZipGet(RelaxKeys, SlabRelaxValues(), 1);
    ZipGet(RelaxKeys, SlabRelaxValues(), 2);
    ZipGet(RelaxKeys, SlabRelaxValues(), 3);
    ZipGet(RelaxKeys, SlabRelaxValues(), 4);
  }

  lemma SlabRelaxDefaultsLookup2()
    ensures var r := Zip(RelaxKeys, SlabRelaxValues());
            Get(r, "lcharg") == Some(Bool(false))
            && Get(r, "lwave") == Some(Bool(false))
            && Get(r, "nsw") == Some(Int(200))
            && Get(r, "symprec") == Some(Decimal(1, -8))
  {
    SlabRelaxDefaultsFacts();
    ZipGet(RelaxKeys, SlabRelaxValues(), 5);
    ZipGet(RelaxKeys, SlabRelaxValues(), 6);
    ZipGet(RelaxKeys, SlabRelaxValues(), 7);
    ZipGet(RelaxKeys, SlabRelaxValues(), 8);
  }


  /** `slab_static_job`. `kwargs` is the table that `**kwargs` collects,
      so it never names "atoms", "preset" or "copy_files"; it becomes the
      calculator swaps. `CallSlabStatic` models that binding. */
  function SlabStaticJob(atoms: Atoms, preset: Value, copyFiles: Value, kwargs: Table): (r: Result<VaspCore.VaspRun>)
    ensures r.Ok? ==> r.value.additionalFields == Some([("name", Str("VASP Slab Static"))])
  {
    VaspCore.BaseJob(atoms, preset, Some(SlabStaticDefaults()), Some(kwargs),
                     Some([("name", Str("VASP Slab Static"))]), copyFiles)
  }

  /** `slab_relax_job`; `kwargs` as in `SlabStaticJob`. */
  function SlabRelaxJob(atoms: Atoms, preset: Value, copyFiles: Value, kwargs: Table): (r: Result<VaspCore.VaspRun>)
    ensures r.Ok? ==> r.value.additionalFields == Some([("name", Str("VASP Slab Relax"))])
  {
    VaspCore.BaseJob(atoms, preset, Some(SlabRelaxDefaults()), Some(kwargs),
                     Some([("name", Str("VASP Slab Relax"))]), copyFiles)
  }

  /** `slab_static_job(atoms, **kwargs)`: the keywords bind "preset"
      (default "SlabSet") and "copy_files" (default `None`); the rest are
      the calculator swaps; naming "atoms" raises. */
  function CallSlabStatic(atoms: Atoms, kwargs: Table): (r: Result<VaspCore.VaspRun>)
    requires WellFormed(kwargs)
    ensures r.Ok? ==> && r.value.atoms == atoms
                      && r.value.preset == GetOr(kwargs, "preset", Str("SlabSet"))
                      && r.value.copyFiles == GetOr(kwargs, "copy_files", Null)
  {
    var _ :- NotGiven(kwargs, {"atoms"});
    SlabStaticJob(atoms, GetOr(kwargs, "preset", Str("SlabSet")), GetOr(kwargs, "copy_files", Null),
                  Without(kwargs, {"preset", "copy_files"}))
  }

  /** `slab_relax_job(atoms, **kwargs)`, bound as `CallSlabStatic`. */
  function CallSlabRelax(atoms: Atoms, kwargs: Table): (r: Result<VaspCore.VaspRun>)
    requires WellFormed(kwargs)
    ensures r.Ok? ==> && r.value.atoms == atoms
                      && r.value.preset == GetOr(kwargs, "preset", Str("SlabSet"))
                      && r.value.copyFiles == GetOr(kwargs, "copy_files", Null)
  {
    var _ :- NotGiven(kwargs, {"atoms"});
    SlabRelaxJob(atoms, GetOr(kwargs, "preset", Str("SlabSet")), GetOr(kwargs, "copy_files", Null),
                 Without(kwargs, {"preset", "copy_files"}))
  }

  /** One structure of `_relax_and_static_job_distributed`: relax it, then
      run the static job on the relaxed structure. */
  function RelaxThenStatic(engine: VaspCore.VaspRun -> Summary, relaxKwargs: Table, staticKwargs: Table,
                           structure: Atoms): Result<Summary>
    requires WellFormed(relaxKwargs) && WellFormed(staticKwargs)
  {
    var relaxRun :- CallSlabRelax(structure, relaxKwargs);
    var staticRun :- CallSlabStatic(engine(relaxRun).atoms, staticKwargs);
    Ok(engine(staticRun))
  }

  /** One structure of `_relax_job_distributed`. */
  function RelaxOnly(engine: VaspCore.VaspRun -> Summary, relaxKwargs: Table, structure: Atoms): Result<Summary>
    requires WellFormed(relaxKwargs)
  {
    var relaxRun :- CallSlabRelax(structure, relaxKwargs);
    Ok(engine(relaxRun))
  }

  /** The two subflows over the generated structures, chosen by
      `runStatic`. */
  function Distributed(engine: VaspCore.VaspRun -> Summary, runStatic: bool, relaxKwargs: Table, staticKwargs: Table,
                       structures: seq<Atoms>): (r: Result<seq<Summary>>)
    requires WellFormed(relaxKwargs) && WellFormed(staticKwargs)
    ensures r.Ok? ==> |r.value| == |structures|
  {
    if runStatic then MapAll((s: Atoms) => RelaxThenStatic(engine, relaxKwargs, staticKwargs, s), structures)
    else MapAll((s: Atoms) => RelaxOnly(engine, relaxKwargs, s), structures)
  }

  /** `bulk_to_slabs_flow`; `makeSlabs` stands for
      `make_slabs_from_bulk(atoms, **make_slabs_kwargs)`. An absent keyword
      table is an empty one. */
  function BulkToSlabsFlow(engine: VaspCore.VaspRun -> Summary, makeSlabs: (Atoms, Table) -> seq<Atoms>,
                           atoms: Atoms, makeSlabsKwargs: Option<Table>, runStatic: bool,
                           slabRelaxKwargs: Option<Table>, slabStaticKwargs: Option<Table>): (r: Result<seq<Summary>>)
    requires WellFormed(OrEmpty(slabRelaxKwargs)) && WellFormed(OrEmpty(slabStaticKwargs))
    ensures r.Ok? ==> |r.value| == |makeSlabs(atoms, OrEmpty(makeSlabsKwargs))|
  {
    var slabs := makeSlabs(atoms, OrEmpty(makeSlabsKwargs));
    Distributed(engine, runStatic, OrEmpty(slabRelaxKwargs), OrEmpty(slabStaticKwargs), slabs)
  }

  /** `slab_to_ads_flow`; `makeAds` stands for
      `make_adsorbate_structures(slab, adsorbate, **make_ads_kwargs)`. */
  function SlabToAdsFlow(engine: VaspCore.VaspRun -> Summary, makeAds: (Atoms, Atoms, Table) -> seq<Atoms>,
                         slab: Atoms, adsorbate: Atoms, makeAdsKwargs: Option<Table>, runStatic: bool,
                         slabRelaxKwargs: Option<Table>, slabStaticKwargs: Option<Table>): (r: Result<seq<Summary>>)
    requires WellFormed(OrEmpty(slabRelaxKwargs)) && WellFormed(OrEmpty(slabStaticKwargs))
    ensures r.Ok? ==> |r.value| == |makeAds(slab, adsorbate, OrEmpty(makeAdsKwargs))|
  {
    var structures := makeAds(slab, adsorbate, OrEmpty(makeAdsKwargs));
    Distributed(engine, runStatic, OrEmpty(slabRelaxKwargs), OrEmpty(slabStaticKwargs), structures)
  }

  // ---------------------------------------------------------------------
  // The slab jobs

  /** Calling `slab_relax_job` raises exactly when the keywords name
      "atoms"; "preset" is bound by the call, so the calculator never
      raises. */
  lemma CallSlabRelaxOk(atoms: Atoms, kwargs: Table)
    requires WellFormed(kwargs)
    ensures CallSlabRelax(atoms, kwargs).Ok? <==> "atoms" !in Keys(kwargs)
  {
    var swaps := Without(kwargs, {"preset", "copy_files"});
    VaspCore.BaseJobOk(atoms, GetOr(kwargs, "preset", Str("SlabSet")), SlabRelaxDefaults(), swaps,
                       Some([("name", Str("VASP Slab Relax"))]), GetOr(kwargs, "copy_files", Null));
    NotGivenOne(kwargs, "atoms");
  }

  /** Calling `slab_static_job` raises exactly when the keywords name
      "atoms". */
  lemma CallSlabStaticOk(atoms: Atoms, kwargs: Table)
    requires WellFormed(kwargs)
    ensures CallSlabStatic(atoms, kwargs).Ok? <==> "atoms" !in Keys(kwargs)
  {
    var swaps := Without(kwargs, {"preset", "copy_files"});
    VaspCore.BaseJobOk(atoms, GetOr(kwargs, "preset", Str("SlabSet")), SlabStaticDefaults(), swaps,
                       Some([("name", Str("VASP Slab Static"))]), GetOr(kwargs, "copy_files", Null));
    NotGivenOne(kwargs, "atoms");
  }

  /** A successful slab relaxation: the given structure, preset "SlabSet"
      unless the keywords give one, their "copy_files" if any, and the other
      keywords swapped over the slab relaxation defaults, `None` included. */
  lemma CallSlabRelaxRun(atoms: Atoms, kwargs: Table, k: string)
    requires WellFormed(kwargs) && CallSlabRelax(atoms, kwargs).Ok?
    ensures var run := CallSlabRelax(atoms, kwargs).value;
            && run.atoms == atoms
            && run.preset == GetOr(kwargs, "preset", Str("SlabSet"))
            && run.copyFiles == GetOr(kwargs, "copy_files", Null)
            && Get(run.flags, k) == (if k in {"preset", "copy_files"} || k !in Keys(kwargs)
                                     then Get(SlabRelaxDefaults(), k) else Get(kwargs, k))
  {
    var swaps := Without(kwargs, {"preset", "copy_files"});
    VaspCore.BaseJobFlags(atoms, GetOr(kwargs, "preset", Str("SlabSet")), Some(SlabRelaxDefaults()), Some(swaps),
                          Some([("name", Str("VASP Slab Relax"))]), GetOr(kwargs, "copy_files", Null), k);
    GetSomeIffKey(swaps, k);
    GetSomeIffKey(kwargs, k);
  }

  /** A successful slab static job, as `CallSlabRelaxRun` over the slab
      static defaults. */
  lemma CallSlabStaticRun(atoms: Atoms, kwargs: Table, k: string)
    requires WellFormed(kwargs) && CallSlabStatic(atoms, kwargs).Ok?
    ensures var run := CallSlabStatic(atoms, kwargs).value;
            && run.atoms == atoms
            && run.preset == GetOr(kwargs, "preset", Str("SlabSet"))
            && run.copyFiles == GetOr(kwargs, "copy_files", Null)
            && Get(run.flags, k) == (if k in {"preset", "copy_files"} || k !in Keys(kwargs)
                                     then Get(SlabStaticDefaults(), k) else Get(kwargs, k))
  {
    var swaps := Without(kwargs, {"preset", "copy_files"});
    VaspCore.BaseJobFlags(atoms, GetOr(kwargs, "preset", Str("SlabSet")), Some(SlabStaticDefaults()), Some(swaps),
                          Some([("name", Str("VASP Slab Static"))]), GetOr(kwargs, "copy_files", Null), k);
    GetSomeIffKey(swaps, k);
    GetSomeIffKey(kwargs, k);
  }

  /** Unless swapped, a slab relaxation takes up to 200 ionic steps and a
      slab static none, and both correct the dipole. */
  lemma SlabStepCounts(atoms: Atoms, kwargs: Table)
    requires WellFormed(kwargs) && "atoms" !in Keys(kwargs) && "nsw" !in Keys(kwargs) && "auto_dipole" !in Keys(kwargs)
    ensures CallSlabRelax(atoms, kwargs).Ok? && CallSlabStatic(atoms, kwargs).Ok?
    ensures Get(CallSlabRelax(atoms, kwargs).value.flags, "nsw") == Some(Int(200))
    ensures Get(CallSlabStatic(atoms, kwargs).value.flags, "nsw") == Some(Int(0))
    ensures Get(CallSlabRelax(atoms, kwargs).value.flags, "auto_dipole") == Some(Bool(true))
    ensures Get(CallSlabStatic(atoms, kwargs).value.flags, "auto_dipole") == Some(Bool(true))
  {
    CallSlabRelaxOk(atoms, kwargs);
    CallSlabStaticOk(atoms, kwargs);
    CallSlabRelaxRun(atoms, kwargs, "nsw");
    CallSlabStaticRun(atoms, kwargs, "nsw");
    CallSlabRelaxRun(atoms, kwargs, "auto_dipole");
    CallSlabStaticRun(atoms, kwargs, "auto_dipole");
  }

  // ---------------------------------------------------------------------
  // The distributed subflows

  /** One structure's relaxation and static job raise exactly when either
      keyword table names "atoms". */
  lemma RelaxThenStaticOk(engine: VaspCore.VaspRun -> Summary, relaxKwargs: Table, staticKwargs: Table, structure: Atoms)
    requires WellFormed(relaxKwargs) && WellFormed(staticKwargs)
    ensures RelaxThenStatic(engine, relaxKwargs, staticKwargs, structure).Ok? <==>
            "atoms" !in Keys(relaxKwargs) && "atoms" !in Keys(staticKwargs)
  {
    CallSlabRelaxOk(structure, relaxKwargs);
    if CallSlabRelax(structure, relaxKwargs).Ok? {
      CallSlabStaticOk(engine(CallSlabRelax(structure, relaxKwargs).value).atoms, staticKwargs);
    }
  }

  /** The subflows raise exactly when there is a structure and a keyword
      table they spread names "atoms". */
  lemma DistributedOk(engine: VaspCore.VaspRun -> Summary, runStatic: bool, relaxKwargs: Table, staticKwargs: Table,
                      structures: seq<Atoms>)
    requires WellFormed(relaxKwargs) && WellFormed(staticKwargs)
    ensures Distributed(engine, runStatic, relaxKwargs, staticKwargs, structures).Ok? <==>
            structures == [] || ("atoms" !in Keys(relaxKwargs) && (runStatic ==> "atoms" !in Keys(staticKwargs)))
  {
    if runStatic {
      forall i | 0 <= i < |structures|
        ensures RelaxThenStatic(engine, relaxKwargs, staticKwargs, structures[i]).Ok? <==>
                "atoms" !in Keys(relaxKwargs) && "atoms" !in Keys(staticKwargs)
      {
        RelaxThenStaticOk(engine, relaxKwargs, staticKwargs, structures[i]);
      }
    } else {
      forall i | 0 <= i < |structures|
        ensures RelaxOnly(engine, relaxKwargs, structures[i]).Ok? <==> "atoms" !in Keys(relaxKwargs)
      {
        CallSlabRelaxOk(structures[i], relaxKwargs);
      }
    }
  }

  /** A successful subflow gives one summary per structure, in order: the
      relaxation's summary, or with `runStatic` the summary of a static job
      on that same structure's relaxed output. */
  lemma DistributedShape(engine: VaspCore.VaspRun -> Summary, runStatic: bool, relaxKwargs: Table, staticKwargs: Table,
                         structures: seq<Atoms>)
    requires WellFormed(relaxKwargs) && WellFormed(staticKwargs)
    requires Distributed(engine, runStatic, relaxKwargs, staticKwargs, structures).Ok?
    ensures var r := Distributed(engine, runStatic, relaxKwargs, staticKwargs, structures).value;
            && |r| == |structures|
            && forall i :: 0 <= i < |structures| ==>
                 CallSlabRelax(structures[i], relaxKwargs).Ok? &&
                 var relaxed := engine(CallSlabRelax(structures[i], relaxKwargs).value);
                 if runStatic then
                   CallSlabStatic(relaxed.atoms, staticKwargs).Ok? &&
                   r[i] == engine(CallSlabStatic(relaxed.atoms, staticKwargs).value)
                 else r[i] == relaxed
  {
  }

  // ---------------------------------------------------------------------
  // The flows

  /** `bulk_to_slabs_flow` raises exactly when a slab is generated and a
      job keyword table names "atoms"; an absent table acts as an empty one. */
  lemma BulkToSlabsOk(engine: VaspCore.VaspRun -> Summary, makeSlabs: (Atoms, Table) -> seq<Atoms>,
                      atoms: Atoms, makeSlabsKwargs: Option<Table>, runStatic: bool,
                      slabRelaxKwargs: Option<Table>, slabStaticKwargs: Option<Table>)
    requires WellFormed(OrEmpty(slabRelaxKwargs)) && WellFormed(OrEmpty(slabStaticKwargs))
    ensures BulkToSlabsFlow(engine, makeSlabs, atoms, makeSlabsKwargs, runStatic, slabRelaxKwargs, slabStaticKwargs).Ok? <==>
            makeSlabs(atoms, OrEmpty(makeSlabsKwargs)) == [] ||
            ("atoms" !in Keys(OrEmpty(slabRelaxKwargs)) && (runStatic ==> "atoms" !in Keys(OrEmpty(slabStaticKwargs))))
  {
    DistributedOk(engine, runStatic, OrEmpty(slabRelaxKwargs), OrEmpty(slabStaticKwargs),
                  makeSlabs(atoms, OrEmpty(makeSlabsKwargs)));
  }

  /** A successful `bulk_to_slabs_flow`: one result per generated slab, in
      order; with `runStatic`, the static job of slab i runs on the output
      structure of slab i's relaxation, otherwise the results are the
      relaxations'. */
  lemma BulkToSlabsShape(engine: VaspCore.VaspRun -> Summary, makeSlabs: (Atoms, Table) -> seq<Atoms>,
                         atoms: Atoms, makeSlabsKwargs: Option<Table>, runStatic: bool,
                         slabRelaxKwargs: Option<Table>, slabStaticKwargs: Option<Table>)
    requires WellFormed(OrEmpty(slabRelaxKwargs)) && WellFormed(OrEmpty(slabStaticKwargs))
    requires BulkToSlabsFlow(engine, makeSlabs, atoms, makeSlabsKwargs, runStatic, slabRelaxKwargs, slabStaticKwargs).Ok?
    ensures var slabs := makeSlabs(atoms, OrEmpty(makeSlabsKwargs));
            var kwR, kwS := OrEmpty(slabRelaxKwargs), OrEmpty(slabStaticKwargs);
            var r := BulkToSlabsFlow(engine, makeSlabs, atoms, makeSlabsKwargs, runStatic, slabRelaxKwargs, slabStaticKwargs).value;
            && |r| == |slabs|
            && forall i :: 0 <= i < |slabs| ==>
                 CallSlabRelax(slabs[i], kwR).Ok? &&
                 var relaxed := engine(CallSlabRelax(slabs[i], kwR).value);
                 if runStatic then
                   CallSlabStatic(relaxed.atoms, kwS).Ok? && r[i] == engine(CallSlabStatic(relaxed.atoms, kwS).value)
                 else r[i] == relaxed
  {
    DistributedShape(engine, runStatic, OrEmpty(slabRelaxKwargs), OrEmpty(slabStaticKwargs),
                     makeSlabs(atoms, OrEmpty(makeSlabsKwargs)));
  }

  /** `slab_to_ads_flow` raises exactly when an adsorbate structure is
      generated and a job keyword table names "atoms". */
  lemma SlabToAdsOk(engine: VaspCore.VaspRun -> Summary, makeAds: (Atoms, Atoms, Table) -> seq<Atoms>,
                    slab: Atoms, adsorbate: Atoms, makeAdsKwargs: Option<Table>, runStatic: bool,
                    slabRelaxKwargs: Option<Table>, slabStaticKwargs: Option<Table>)
    requires WellFormed(OrEmpty(slabRelaxKwargs)) && WellFormed(OrEmpty(slabStaticKwargs))
    ensures SlabToAdsFlow(engine, makeAds, slab, adsorbate, makeAdsKwargs, runStatic, slabRelaxKwargs, slabStaticKwargs).Ok? <==>
            makeAds(slab, adsorbate, OrEmpty(makeAdsKwargs)) == [] ||
            ("atoms" !in Keys(OrEmpty(slabRelaxKwargs)) && (runStatic ==> "atoms" !in Keys(OrEmpty(slabStaticKwargs))))
  {
    DistributedOk(engine, runStatic, OrEmpty(slabRelaxKwargs), OrEmpty(slabStaticKwargs),
                  makeAds(slab, adsorbate, OrEmpty(makeAdsKwargs)));
  }

  /** A successful `slab_to_ads_flow`: one result per adsorbate structure,
      in order, with each static job on that structure's relaxed output. */
  lemma SlabToAdsShape(engine: VaspCore.VaspRun -> Summary, makeAds: (Atoms, Atoms, Table) -> seq<Atoms>,
                       slab: Atoms, adsorbate: Atoms, makeAdsKwargs: Option<Table>, runStatic: bool,
                       slabRelaxKwargs: Option<Table>, slabStaticKwargs: Option<Table>)
    requires WellFormed(OrEmpty(slabRelaxKwargs)) && WellFormed(OrEmpty(slabStaticKwargs))
    requires SlabToAdsFlow(engine, makeAds, slab, adsorbate, makeAdsKwargs, runStatic, slabRelaxKwargs, slabStaticKwargs).Ok?
    ensures var structures := makeAds(slab, adsorbate, OrEmpty(makeAdsKwargs));
            var kwR, kwS := OrEmpty(slabRelaxKwargs), OrEmpty(slabStaticKwargs);
            var r := SlabToAdsFlow(engine, makeAds, slab, adsorbate, makeAdsKwargs, runStatic, slabRelaxKwargs, slabStaticKwargs).value;
            && |r| == |structures|
            && forall i :: 0 <= i < |structures| ==>
                 CallSlabRelax(structures[i], kwR).Ok? &&
                 var relaxed := engine(CallSlabRelax(structures[i], kwR).value);
                 if runStatic then
                   CallSlabStatic(relaxed.atoms, kwS).Ok? && r[i] == engine(CallSlabStatic(relaxed.atoms, kwS).value)
                 else r[i] == relaxed
  {
    DistributedShape(engine, runStatic, OrEmpty(slabRelaxKwargs), OrEmpty(slabStaticKwargs),
                     makeAds(slab, adsorbate, OrEmpty(makeAdsKwargs)));
  }
}
