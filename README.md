# quacc recipe parameter assembly, in Dafny

This project models how the quacc recipes for ORCA, Gaussian and VASP, and
the EMT defect flow, put together the options they pass to an external
engine. It proves properties of that model.

Each recipe builds a table of default calculator options from its
arguments. It then merges the user's swaps over them with `merge_dicts`:
a later value wins key by key, and a `None` value removes the key unless
removal is turned off. The merged table is handed to the engine.

- ORCA turns the merged keys into a space-separated keyword line.
- Gaussian and VASP spread the merged table as keyword arguments into the calculator.
- The VASP double relaxation chains two relaxations.
- The slab and defect flows run a relaxation, and optionally a static job
  on its output structure, for every structure a generator produces.

Modules:

- `Dicts` (`dicts.dfy`): Python dicts as ordered association lists
  (`Table`, with `WellFormed` meaning unique keys). It covers lookup,
  assignment (`Put`), dict displays (`DictLiteral`), the merge
  (`MergeDicts`) and its key-wise reference `Resolved`.
- `Jobs` (`jobs.dfy`): what a Python call does with keyword arguments.
  - `KeywordArgs` is `f(k1=v1, **spread)`.
  - `NotGiven` covers a name already bound positionally.
  - `GetOr` and `Without` give the bound parameters and what `**kwargs` receives.
  - `MapAll` is a list comprehension whose calls can raise.
  - Also here: the opaque `Atoms`, the engine result `Summary`, and `Result`.
- `Orca`, `Gaussian`, `VaspCore`, `VaspSlabs` and `EmtDefects`: one module
  per recipe file.

The external pieces are parameters of the model, not code in it:

- each engine (the calculator, `run_calc` and the summarizer together) is a function `VaspRun -> Summary`, or `(Atoms, Table) -> Summary` for the EMT jobs;
- the structure generators are functions returning a sequence of structures;
- `which("mpirun")` and `multiprocessing.cpu_count()` are plain arguments.

The ORCA and Gaussian jobs return the calculator they build (`OrcaRun`,
`GaussianRun`) instead of a summary, because nothing after the
calculator is modelled for them.

How the model departs from the docstrings:

- **VASP `None` swaps.** The docstrings of the VASP recipes say a `None` swap removes a key. The code merges with `remove_nones=False` (`src/quacc/recipes/vasp/core.py:248`), so a `None` swap stays as a literal `None` flag. The model follows the code (`VaspCore.NoneSwapStays`).
- **Keyword clashes raise.** A keyword table that repeats a parameter the call already gives raises Python's `TypeError`, and the model returns `Err(MultipleValues(name))` in that case. Examples are "atoms", or "preset" in the VASP relaxations. The flow lemmas state exactly when this happens.

## Model

| member | source | states |
|---|---|---|
| Dicts.DictLiteral | src/quacc/recipes/orca/core.py:95-102 | a dict display has unique keys, exactly the keys it lists |
| Dicts.DictLiteralGet | src/quacc/recipes/orca/core.py:194-202 | in a dict display whose keys repeat (xc equal to "opt", say), a key holds the last value written for it |
| Dicts.DictLiteralLookup | src/quacc/recipes/orca/core.py:194-202 | a key has a value in a dict display iff it is listed, and that value is one of the listed items |
| Dicts.MergeDicts | src/quacc/recipes/gaussian/core.py:230 | the merged table keeps unique keys, holds no `None` when removal is on, and has only keys from the two layers |
| Dicts.MergeDictsGet | src/quacc/recipes/vasp/core.py:248 | for every key, the merged value is `Resolved`: the swap's value if swapped, else the default, and absent when that value is `None` and removal is on; an absent layer counts as empty |
| Dicts.MergeDictsKeys | src/quacc/recipes/orca/core.py:266 | a key is in the merged table iff its resolved value exists |
| Dicts.MergeKeepsUnswapped | src/quacc/recipes/gaussian/core.py:230 | a key the swaps do not name keeps its default, except that a `None` default is dropped when removal is on |
| Dicts.MergeTakesSwap | src/quacc/recipes/gaussian/core.py:230 | a swapped key takes the swap's value; a `None` swap deletes the key iff removal is on |
| Dicts.MergeDictsIdempotent | src/quacc/recipes/orca/core.py:266 | merging an already merged table alone changes nothing |
| Dicts.MergeWithoutSwaps | src/quacc/recipes/orca/core.py:266-267 | with no swaps the merge is the defaults, less their `None` items when removal is on |
| Dicts.DropNullsGet | src/quacc/recipes/gaussian/core.py:230 | removal drops exactly the keys whose value is `None` and keeps every other value |
| Dicts.PutGet | src/quacc/recipes/emt/defects.py:82 | `d[k] = v` sets `k` to `v` and leaves every other key's value alone |
| Dicts.PutKeys | src/quacc/recipes/emt/defects.py:82 | `d[k] = v` adds exactly the key `k` |
| Dicts.PutWellFormed | src/quacc/recipes/emt/defects.py:82 | assignment keeps the keys unique |
| Jobs.NotGiven | src/quacc/recipes/vasp/slabs.py:193 | `f(x, **args)` binds iff `args` names no parameter already given, returns `args` unchanged then, and otherwise fails naming a clashing key |
| Jobs.KeywordArgs | src/quacc/recipes/vasp/core.py:195-200 | `f(k=v, ..., **spread)` binds iff `spread` repeats no explicit keyword, and then every key is looked up in the explicit keywords first, else in `spread`; on failure the error names a key in both |
| Jobs.Without | src/quacc/recipes/vasp/slabs.py:84-88 | what `**kwargs` receives is the table less the named parameters: same values for the other keys, no value for the named ones |
| Jobs.MapAll | src/quacc/recipes/vasp/slabs.py:193 | a list comprehension succeeds iff every call does, then gives one result per input in order; otherwise it fails with the first failing call's error |
| Orca.StaticDefaultInputs | src/quacc/recipes/orca/core.py:95-102 | the static keywords are exactly xc, basis, sp, slowconv, normalprint and xyzfile, all `True` |
| Orca.RelaxDefaultInputs | src/quacc/recipes/orca/core.py:194-202 | the relaxation keywords are xc, basis, opt, slowconv, normalprint, freq and xyzfile; freq is `True` or `None` by `run_freq`, the others `True` |
| Orca.WordsOfJoin | src/quacc/recipes/orca/core.py:268 | splitting a space-joined line of keywords gives the keywords back |
| Orca.KeywordLine | src/quacc/recipes/orca/core.py:266-268 | the keyword line lists each merged key once, and a key is listed iff the merge keeps it |
| Orca.BaseJob | src/quacc/recipes/orca/core.py:266-277 | charge and multiplicity reach the calculator unchanged; the `orcasimpleinput` line lists each kept key once and only those; the `orcablocks` line is the kept block entries joined by spaces |
| Orca.SwapControlsBlock | src/quacc/recipes/orca/core.py:267-269 | the block line joins the kept entries, each once: a `None` block swap drops its entry, a `True` one adds it, and an entry no swap names is kept iff its default is not `None` |
| Orca.DefaultBlocks | src/quacc/recipes/orca/core.py:103-107 | the default blocks hold exactly the `%pal` entry, set to `True`, when `mpirun` is found, and nothing otherwise |
| Orca.StaticDefaultCall | src/quacc/recipes/orca/core.py:28-33 | `static_job(atoms)` has charge 0 and multiplicity 1, and its line is exactly wb97x-d3bj, def2-tzvp, sp, slowconv, normalprint and xyzfile, each once |
| Orca.RelaxDefaultFreq | src/quacc/recipes/orca/core.py:127-129 | a relaxation with the default `run_freq` has no "freq" keyword unless a swap adds it |
| Orca.StaticJob | src/quacc/recipes/orca/core.py:109-119 | charge and multiplicity reach the calculator; the extra summary field is `name: "ORCA Static"` |
| Orca.RelaxJob | src/quacc/recipes/orca/core.py:209-219 | charge and multiplicity reach the calculator; the extra summary field is `name: "ORCA Relax"` |
| Orca.SwapControlsKeyword | src/quacc/recipes/orca/core.py:266-268 | a `None` swap takes its keyword out of the line; a `True` swap puts it in, even when the defaults lack it |
| Orca.StaticKeywordsWithoutSwaps | src/quacc/recipes/orca/core.py:95-102 | with no swaps the static line has exactly the six default keywords, each once |
| Orca.RelaxFreqKeyword | src/quacc/recipes/orca/core.py:200 | unless swapped, "freq" is in the relaxation line iff `run_freq` |
| Orca.DefaultBlocksLine | src/quacc/recipes/orca/core.py:103-107 | with no block swaps the block line is the `%pal` entry when `mpirun` is found, else empty |
| Gaussian.StaticDefaultCall | src/quacc/recipes/gaussian/core.py:27-32 | `static_job(atoms)` builds, with charge 0, mult 1, xc "wb97x-d" and basis "def2-tzvp" |
| Gaussian.RelaxDefaultFreq | src/quacc/recipes/gaussian/core.py:116-118 | a relaxation with the default `freq` and no swaps builds and has no "freq" flag |
| Gaussian.StaticDefaults | src/quacc/recipes/gaussian/core.py:86-101 | the static defaults have unique keys and no `None`; charge, mult, xc and basis are the arguments; "sp" is there and "opt" is not |
| Gaussian.RelaxDefaults | src/quacc/recipes/gaussian/core.py:174-189 | the relaxation defaults have charge, mult, xc and basis from the arguments, "opt" and not "sp", and "freq" set to "" or `None` by `freq`, the only possible `None` |
| Gaussian.BaseJob | src/quacc/recipes/gaussian/core.py:230-232 | the calculator builds iff the merged flags name neither "command" nor "label"; its flags are the merge with `None` removal |
| Gaussian.StaticJob | src/quacc/recipes/gaussian/core.py:102-108 | a built calculator run carries the extra summary field `name: "Gaussian Static"` |
| Gaussian.RelaxJob | src/quacc/recipes/gaussian/core.py:190-196 | a built calculator run carries the extra summary field `name: "Gaussian Relax"` |
| Gaussian.StaticFlags | src/quacc/recipes/gaussian/core.py:230 | a `None` swap deletes its key, any other swap sets it, and an unswapped key keeps its default |
| Gaussian.RelaxFlags | src/quacc/recipes/gaussian/core.py:187 | unless swapped, "freq" is present (mapped to "") iff `freq`; "opt" is present and "sp" absent |
| Gaussian.BaseJobWithoutSwaps | src/quacc/recipes/gaussian/core.py:230-232 | with no swaps the calculator builds and its flags are the defaults less their `None` items |
| Gaussian.StaticFlagsWithoutSwaps | src/quacc/recipes/gaussian/core.py:86-108 | with no swaps the static flags are the static defaults exactly |
| Gaussian.RelaxFlagsWithoutSwaps | src/quacc/recipes/gaussian/core.py:174-196 | with no swaps the relaxation flags are its defaults less a `None` "freq" |
| VaspCore.StaticDefaults | src/quacc/recipes/vasp/core.py:66-74 | the static defaults: ismear -5, laechg, lcharg and lwave true, lreal false, nedos 5001, nsw 0 |
| VaspCore.RelaxDefaults | src/quacc/recipes/vasp/core.py:133-142 | the relaxation defaults: isif 3 if `relax_cell` else 2, ediffg -0.02, ibrion 2, isym 0, nsw 200, symprec 1e-8, lcharg and lwave false |
| VaspCore.BaseJob | src/quacc/recipes/vasp/core.py:248-250 | the calculator builds iff the merged flags do not name "preset" (else the error names "preset"), and it carries the structure, preset, files and extra fields given |
| VaspCore.StaticJob | src/quacc/recipes/vasp/core.py:75-82 | a built run carries the extra summary field `name: "VASP Static"` |
| VaspCore.RelaxJob | src/quacc/recipes/vasp/core.py:143-150 | a built run carries the extra summary field `name: "VASP Relax"` |
| VaspCore.DoubleRelaxJob | src/quacc/recipes/vasp/core.py:210-212 | a successful double relaxation carries a "relax1" summary |
| VaspCore.BaseJobFlags | src/quacc/recipes/vasp/core.py:248 | succeeds iff neither layer names "preset"; a swapped key takes the swap's value, `None` included; any other key keeps its default; the keys are the union |
| VaspCore.BaseJobOk | src/quacc/recipes/vasp/core.py:248-250 | the calculator builds when neither layer names "preset" |
| VaspCore.NoneSwapStays | src/quacc/recipes/vasp/core.py:248 | a `None` swap stays as a literal `None` flag |
| VaspCore.RelaxIsif | src/quacc/recipes/vasp/core.py:135 | unless swapped, ISIF is 3 for a cell relaxation and 2 otherwise |
| VaspCore.StaticWithoutSwaps | src/quacc/recipes/vasp/core.py:66-82 | with no swaps the static job builds and its flags are the static defaults |
| VaspCore.CallRelaxJob | src/quacc/recipes/vasp/core.py:85-91 | a built `relax_job` call keeps the structure and is named "VASP Relax"; when it raises and how its keywords bind are in `CallRelaxJobOk`, `CallRelaxJobFields` and `CallRelaxJobRun` |
| VaspCore.FirstRelax | src/quacc/recipes/vasp/core.py:195-200 | the first relaxation runs on the given structure; the rest is in `FirstRelaxOk`, `FirstRelaxRun` and `FirstRelaxIsif` |
| VaspCore.SecondRelax | src/quacc/recipes/vasp/core.py:203-209 | the second relaxation runs on the structure it is given; the rest is in `SecondRelaxOk`, `SecondRelaxRun` and `SecondRelaxIsif` |
| VaspCore.DoubleRelaxDefaultCall | src/quacc/recipes/vasp/core.py:154-157 | `double_relax_job(atoms)` runs both relaxations with preset "BulkSet" and ISIF 3; only the second copies "WAVECAR" |
| VaspCore.CallRelaxJobOk | src/quacc/recipes/vasp/core.py:86-91 | calling `relax_job` raises iff the spread keywords repeat an explicit one or either names "atoms" |
| VaspCore.CallRelaxJobFields | src/quacc/recipes/vasp/core.py:86-91 | a call of `relax_job` keeps the structure and binds "preset" (default "BulkSet") and "copy_files" (default `None`) from its keywords |
| VaspCore.CallRelaxJobRun | src/quacc/recipes/vasp/core.py:133-150 | each flag of a `relax_job` call is the keyword's value unless the key is "preset", "relax_cell" or "copy_files" or is not given; otherwise it is the default for the bound "relax_cell" |
| VaspCore.CallRelaxJobIsif | src/quacc/recipes/vasp/core.py:135 | a call whose explicit "relax_cell" is b and which swaps no "isif" gets ISIF 3 or 2 by b |
| VaspCore.FirstRelaxOk | src/quacc/recipes/vasp/core.py:195-200 | the first relaxation raises iff its keywords name "atoms", "preset" or "relax_cell" |
| VaspCore.SecondRelaxOk | src/quacc/recipes/vasp/core.py:203-209 | the second relaxation raises iff its keywords name "atoms", "preset", "relax_cell" or "copy_files" |
| VaspCore.DoubleRelaxOk | src/quacc/recipes/vasp/core.py:191-209 | the double relaxation raises exactly as its two calls do; an absent keyword table counts as empty |
| VaspCore.FirstRelaxRun | src/quacc/recipes/vasp/core.py:195-200 | the first relaxation runs on the given structure with the given preset and the caller's "copy_files" |
| VaspCore.FirstRelaxIsif | src/quacc/recipes/vasp/core.py:195-200 | unless swapped, the first relaxation's ISIF follows `relax_cell` |
| VaspCore.SecondRelaxRun | src/quacc/recipes/vasp/core.py:203-209 | the second relaxation runs on the structure it is given, with the given preset, and copies "WAVECAR" |
| VaspCore.SecondRelaxIsif | src/quacc/recipes/vasp/core.py:203-209 | unless swapped, the second relaxation's ISIF follows `relax_cell` |
| VaspCore.DoubleRelaxChain | src/quacc/recipes/vasp/core.py:191-212 | the first run relaxes the given structure and the second starts from the first's output; both share preset and ISIF rule; only the second copies "WAVECAR"; the result is the second summary with "relax1" the first, replacing any "relax1" key of the second and keeping its other fields |
| VaspSlabs.SlabStaticDefaults | src/quacc/recipes/vasp/slabs.py:62-72 | the slab static defaults: auto_dipole and lvhar true, ismear -5, nedos 5001, nsw 0, laechg, lcharg and lwave true, lreal false |
| VaspSlabs.SlabRelaxDefaults | src/quacc/recipes/vasp/slabs.py:127-137 | the slab relaxation defaults: auto_dipole true, isif 2, ibrion 2, isym 0, nsw 200, ediffg -0.02, symprec 1e-8, lcharg and lwave false |
| VaspSlabs.SlabStaticJob | src/quacc/recipes/vasp/slabs.py:73-80 | a built run carries the extra summary field `name: "VASP Slab Static"` |
| VaspSlabs.SlabRelaxJob | src/quacc/recipes/vasp/slabs.py:138-145 | a built run carries the extra summary field `name: "VASP Slab Relax"` |
| VaspSlabs.CallSlabStatic | src/quacc/recipes/vasp/slabs.py:18-24 | a built `slab_static_job(atoms, **kwargs)` call keeps the structure, with preset "SlabSet" unless given and "copy_files" as given; when it raises and its flags are in `CallSlabStaticOk` and `CallSlabStaticRun` |
| VaspSlabs.CallSlabRelax | src/quacc/recipes/vasp/slabs.py:83-89 | the same for `slab_relax_job`; the rest is in `CallSlabRelaxOk` and `CallSlabRelaxRun` |
| VaspSlabs.Distributed | src/quacc/recipes/vasp/slabs.py:190-210 | the chosen subflow gives one result per structure; when it raises and what each result is are in `DistributedOk` and `DistributedShape` |
| VaspSlabs.BulkToSlabsFlow | src/quacc/recipes/vasp/slabs.py:148-210 | `bulk_to_slabs_flow` gives one result per generated slab; the rest is in `BulkToSlabsOk` and `BulkToSlabsShape` |
| VaspSlabs.SlabToAdsFlow | src/quacc/recipes/vasp/slabs.py:213-279 | `slab_to_ads_flow` gives one result per adsorbate structure; the rest is in `SlabToAdsOk` and `SlabToAdsShape` |
| VaspSlabs.CallSlabRelaxOk | src/quacc/recipes/vasp/slabs.py:193 | `slab_relax_job(slab, **kwargs)` raises iff the keywords name "atoms" |
| VaspSlabs.CallSlabStaticOk | src/quacc/recipes/vasp/slabs.py:199-202 | `slab_static_job(atoms, **kwargs)` raises iff the keywords name "atoms" |
| VaspSlabs.CallSlabRelaxRun | src/quacc/recipes/vasp/slabs.py:84-145 | a slab relaxation keeps the structure; preset is "SlabSet" unless given; "copy_files" as given; each other keyword is swapped over the defaults |
| VaspSlabs.CallSlabStaticRun | src/quacc/recipes/vasp/slabs.py:19-80 | the same for the slab static job over its defaults |
| VaspSlabs.SlabStepCounts | src/quacc/recipes/vasp/slabs.py:62-137 | unless swapped, the slab relaxation has nsw 200, the slab static nsw 0, and both auto_dipole true |
| VaspSlabs.RelaxThenStaticOk | src/quacc/recipes/vasp/slabs.py:199-202 | one structure's relaxation and static raise iff either keyword table names "atoms" |
| VaspSlabs.DistributedOk | src/quacc/recipes/vasp/slabs.py:190-204 | mapping the jobs over the structures raises iff there is a structure and the relaxation keywords name "atoms", or `run_static` is set and the static keywords do |
| VaspSlabs.DistributedShape | src/quacc/recipes/vasp/slabs.py:190-210 | one summary per structure, in order: the relaxation's, or with `run_static` the static job's on that structure's relaxed output |
| VaspSlabs.BulkToSlabsOk | src/quacc/recipes/vasp/slabs.py:183-210 | `bulk_to_slabs_flow` raises iff a slab is generated and a job keyword table names "atoms"; an absent table counts as empty |
| VaspSlabs.BulkToSlabsShape | src/quacc/recipes/vasp/slabs.py:183-210 | one result per generated slab, in order; with `run_static` the static job of slab i runs on slab i's relaxed structure |
| VaspSlabs.SlabToAdsOk | src/quacc/recipes/vasp/slabs.py:252-279 | `slab_to_ads_flow` raises iff an adsorbate structure is generated and a job keyword table names "atoms" |
| VaspSlabs.SlabToAdsShape | src/quacc/recipes/vasp/slabs.py:252-279 | one result per adsorbate structure, in order, each static job on that structure's relaxed output |
| EmtDefects.WithRelaxCellDefault | src/quacc/recipes/emt/defects.py:81-82 | "relax_cell" is present afterwards, its value kept if given, else `False`; every other key keeps its value and no other key is added |
| EmtDefects.WithRelaxCellDefaultIdempotent | src/quacc/recipes/emt/defects.py:81-82 | inserting the default twice is inserting it once |
| EmtDefects.NormalizeRelaxKwargs | src/quacc/recipes/emt/defects.py:77-82 | a non-empty caller dict is updated in place and used; an absent or empty one is replaced by a fresh dict, so the caller's empty dict stays empty; the result holds the "relax_cell" default |
| EmtDefects.DefectArgs | src/quacc/recipes/emt/defects.py:86-91 | the generator call binds iff its keywords name neither "defect_gen" nor "defect_charge"; then both are forwarded unchanged and every other keyword as given |
| EmtDefects.DefectRuns | src/quacc/recipes/emt/defects.py:84-114 | the subflows succeed iff the generator call binds, and then give one result per defect; what each result is, is in `DefectRunsShape` |
| EmtDefects.DefectRunsOk | src/quacc/recipes/emt/defects.py:86-91 | the flow raises iff the generator keywords repeat "defect_gen" or "defect_charge" |
| EmtDefects.DefectRunsShape | src/quacc/recipes/emt/defects.py:92-114 | one result per generated defect, in order; with `run_static` the static job of defect i runs on defect i's relaxed structure, else the results are the relaxations; all relaxations get the same keywords |
| EmtDefects.BulkToDefectsFlow | src/quacc/recipes/emt/defects.py:28-114 | the flow's result is `DefectRuns` over the normalised tables, with the "relax_cell" default applied; the caller's relaxation dict afterwards holds the default if it was non-empty, and stays unchanged if empty |

## Left out

- The calculators `ORCA`, `Gaussian` and `Vasp`, `run_calc`, and the summarizers `cclib_summarize_run` and `vasp_summarize_run` are external programs and parsers. They are a function parameter (`engine`) or are left out; the calculator a job builds is returned as a value.
- The assignment `atoms.calc = ...` is modelled as the returned run description, not as a change to a shared `Atoms` object.
- The workflow decorators `@job`, `@flow` and `@subflow`, and `__wrapped__` belong to the workflow engine; the decorated functions are plain functions here.
- `SETTINGS`, the command strings (`GAUSSIAN_CMD`, `OrcaProfile(SETTINGS.ORCA_CMD)`) and the file names `LOG_FILE` and `GEOM_FILE` are global configuration.
- `which("mpirun")` and `multiprocessing.cpu_count()` are environment queries; they are the parameters `mpirunFound` and `cpuCount`.
- `make_slabs_from_bulk`, `make_adsorbate_structures`, `make_defects_from_bulk` and the EMT `relax_job` and `static_job` are function parameters. Their own parameter names are not part of this model, so a keyword table that repeats one of their parameters is not detected. (The clash with "atoms" of the VASP jobs, which are modelled, is detected by `VaspCore.CallRelaxJob`, `VaspSlabs.CallSlabStatic` and `VaspSlabs.CallSlabRelax`.)
- The `Vasp` calculator's first positional parameter is not part of this model, so only a clash with "preset" is detected in `VaspCore.BaseJob`.
- The body of `merge_dicts` is not part of this model. It is specified two-layer, the only form the recipes call. Nested values are values like any other; no deep merge is claimed.
- Key order: the merge overwrites an existing key in place and appends a new one. That order is an assumption, and nothing but "each key once" and the key-wise lookups is proved about it.
- Python dicts have unique keys by construction. Here that is the `WellFormed` precondition on keyword tables passed in from outside.
- Floating-point defaults (ediffg -0.02, symprec 1e-8) are exact decimal tokens `Decimal(mantissa, exponent)`; no floating-point arithmetic is modelled.
- `summary2["relax1"] = summary1` updates a summary that no one else holds, so it is modelled as a value update on the returned summary. The entry replaces any "relax1" key the summarizer wrote; `VaspCore.DoubleRelaxChain` states this.
- `VaspCore.DoubleRelaxJob`: its own contract states only that "relax1" is set; the full chain is `VaspCore.DoubleRelaxChain`.
- `Orca.StaticJob`, `Orca.RelaxJob`, `Gaussian.StaticJob`, `Gaussian.RelaxJob`, `VaspCore.StaticJob`, `VaspCore.RelaxJob`, `VaspSlabs.SlabStaticJob`, `VaspSlabs.SlabRelaxJob`: their own contracts state only the summary name and the pass-through fields; their flags are stated by the lemmas about them. Their `kwargs` is the table `**kwargs` collects, which Python never fills with the job's own parameter names ("charge", "spin_multiplicity", "xc", "basis", "freq", "preset", "relax_cell", "copy_files"). These functions do not require that, so a table naming one of them corresponds to no call. The binding itself is modelled for `relax_job` and the slab jobs.
- `VaspCore.CallRelaxJob`, `VaspCore.FirstRelax`, `VaspCore.SecondRelax`, `VaspSlabs.CallSlabStatic`, `VaspSlabs.CallSlabRelax`, `VaspSlabs.Distributed`, `VaspSlabs.BulkToSlabsFlow`, `VaspSlabs.SlabToAdsFlow`, `EmtDefects.DefectRuns`: their own contracts state only the structure, the bound preset or the number of results. When they raise and what they build are stated by the lemmas named in their rows.
- Python default argument values: each is a required parameter of the modelling function, so a call that omits one is that function applied to the default. The defaults that decide a calculator input have named constants (`Orca.DefaultXc`, `Orca.DefaultBasis`, `Gaussian.DefaultXc`, `Gaussian.DefaultBasis`, `VaspCore.DefaultPreset`) and lemmas for the call with defaults. The others are not named:
  - charge 0 and multiplicity 1 of the ORCA `_base_job` (`src/quacc/recipes/orca/core.py:224-225`), which both jobs always pass;
  - preset "BulkSet" of the VASP `static_job` (`src/quacc/recipes/vasp/core.py:26`);
  - `run_static` True of the slab and defect flows (`src/quacc/recipes/vasp/slabs.py:152`, `:218`, `src/quacc/recipes/emt/defects.py:40`);
  - `defect_gen` `VacancyGenerator` and `defect_charge` 0 (`src/quacc/recipes/emt/defects.py:37-38`), which are passed through unchanged.
- The test files that come with these recipes concern other recipes (GULP, NewtonNet, Q-Chem), the redun syntax and the settings loader; they are not part of this model.
