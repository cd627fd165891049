/** The Gaussian recipes: default calculator flags, the merge of the user
    keyword arguments over them with `None` removal, and the keyword call
    that builds the `Gaussian` calculator. */
module Gaussian {
  import opened Dicts
  import opened Jobs

  /** The calculator label, `_LABEL`. */
  const Label: string := "Gaussian"

  const StaticKeys: seq<string> := ["mem", "chk", "nprocshared", "xc", "basis", "charge", "mult",
                                    "sp", "scf", "integral", "nosymmetry", "pop", "gfinput", "ioplist"]

  const RelaxKeys: seq<string> := ["mem", "chk", "nprocshared", "xc", "basis", "charge", "mult",
                                   "opt", "pop", "scf", "integral", "nosymmetry", "freq", "ioplist"]

  /** The default functional and basis set of both jobs. */
  const DefaultXc: string := "wb97x-d"
  const DefaultBasis: string := "def2-tzvp"

  /** The keys of the static defaults are distinct and do not collide with
      the calculator's own keywords. */
  lemma StaticKeysFacts()
    ensures Distinct(StaticKeys) && |StaticKeys| == 14
    ensures "command" !in StaticKeys && "label" !in StaticKeys && "opt" !in StaticKeys
  {
  }

  /** The keys of the relaxation defaults, as `StaticKeysFacts`. */
  lemma RelaxKeysFacts()
    ensures Distinct(RelaxKeys) && |RelaxKeys| == 14
    ensures "command" !in RelaxKeys && "label" !in RelaxKeys && "sp" !in RelaxKeys
  {
  }

  /** The defaults of `static_job`; `cpuCount` stands for
      `multiprocessing.cpu_count()`. */
  function StaticDefaults(cpuCount: nat, xc: string, basis: string, charge: int, spinMultiplicity: int): (r: Table)
    ensures WellFormed(r)
    ensures forall i :: 0 <= i < |r| ==> r[i].1 != Null
    ensures Get(r, "charge") == Some(Int(charge)) && Get(r, "mult") == Some(Int(spinMultiplicity))
    ensures Get(r, "xc") == Some(Str(xc)) && Get(r, "basis") == Some(Str(basis))
    ensures "command" !in Keys(r) && "label" !in Keys(r)
    ensures "sp" in Keys(r) && "opt" !in Keys(r)
  {
    StaticKeysFacts();
    var vs := [Str("16GB"), Str("Gaussian.chk"), Int(cpuCount), Str(xc), Str(basis), Int(charge), Int(spinMultiplicity),
               Str(""), StrList(["maxcycle=250", "xqc"]), Str("ultrafine"), Str(""), Str("CM5"), Str(""),
               StrList(["6/7=3", "2/9=2000"])];
    ZipGet(StaticKeys, vs, 3);
    ZipGet(StaticKeys, vs, 4);
    ZipGet(StaticKeys, vs, 5);
    ZipGet(StaticKeys, vs, 6);
    assert StaticKeys[7] in StaticKeys;
    Zip(StaticKeys, vs)
  }

  /** The defaults of `relax_job`: "opt" instead of "sp", and "freq" set
      to "" or to `None` by the `freq` argument. */
  function RelaxDefaults(cpuCount: nat, xc: string, basis: string, charge: int, spinMultiplicity: int, freq: bool): (r: Table)
    ensures WellFormed(r)
    ensures forall i :: 0 <= i < |r| && r[i].0 != "freq" ==> r[i].1 != Null
    ensures Get(r, "charge") == Some(Int(charge)) && Get(r, "mult") == Some(Int(spinMultiplicity))
    ensures Get(r, "xc") == Some(Str(xc)) && Get(r, "basis") == Some(Str(basis))
    ensures "command" !in Keys(r) && "label" !in Keys(r)
    ensures "opt" in Keys(r) && "sp" !in Keys(r)
    ensures Get(r, "freq") == Some(if freq then Str("") else Null)
  {
    RelaxKeysFacts();
    RelaxDefaultsLookup(cpuCount, xc, basis, charge, spinMultiplicity, freq);
    RelaxValuesFacts(cpuCount, xc, basis, charge, spinMultiplicity, freq);
    ZipNullOnlyAt(RelaxKeys, RelaxValues(cpuCount, xc, basis, charge, spinMultiplicity, freq), 12);
    Zip(RelaxKeys, RelaxValues(cpuCount, xc, basis, charge, spinMultiplicity, freq))
  }

  /** Only the "freq" value of the relaxation defaults can be `None`. */
  lemma RelaxValuesFacts(cpuCount: nat, xc: string, basis: string, charge: int, spinMultiplicity: int, freq: bool)
    ensures |RelaxValues(cpuCount, xc, basis, charge, spinMultiplicity, freq)| == |RelaxKeys| && RelaxKeys[12] == "freq"
    ensures forall i :: 0 <= i < |RelaxKeys| && i != 12 ==> RelaxValues(cpuCount, xc, basis, charge, spinMultiplicity, freq)[i] != Null
  {
  }

  /** The values of the relaxation defaults, in the order of `RelaxKeys`. */
  function RelaxValues(cpuCount: nat, xc: string, basis: string, charge: int, spinMultiplicity: int, freq: bool): seq<Value> {
    [Str("16GB"), Str("Gaussian.chk"), Int(cpuCount), Str(xc), Str(basis), Int(charge), Int(spinMultiplicity),
     Str(""), Str("CM5"), StrList(["maxcycle=250", "xqc"]), Str("ultrafine"), Str(""),
     if freq then Str("") else Null, StrList(["2/9=2000"])]
  }

  lemma RelaxDefaultsLookup(cpuCount: nat, xc: string, basis: string, charge: int, spinMultiplicity: int, freq: bool)
    ensures var r := Zip(RelaxKeys, RelaxValues(cpuCount, xc, basis, charge, spinMultiplicity, freq));
            && Get(r, "charge") == Some(Int(charge)) && Get(r, "mult") == Some(Int(spinMultiplicity))
            && Get(r, "xc") == Some(Str(xc)) && Get(r, "basis") == Some(Str(basis))
            && Get(r, "freq") == Some(if freq then Str("") else Null)
  {
    RelaxKeysFacts();
    var vs := RelaxValues(cpuCount, xc, basis, charge, spinMultiplicity, freq);
    ZipGet(RelaxKeys, vs, 3);
    ZipGet(RelaxKeys, vs, 4);
    ZipGet(RelaxKeys, vs, 5);
    ZipGet(RelaxKeys, vs, 6);
    ZipGet(RelaxKeys, vs, 12);
  }

  /** The `Gaussian` calculator as built, with the runner's inputs. */
  datatype GaussianRun = GaussianRun(atoms: Atoms, calcLabel: string, flags: Table,
                                     copyFiles: Option<seq<string>>, additionalFields: Option<Table>)

  /** `_base_job`: `flags = merge_dicts(defaults, calc_swaps)`, then
      `Gaussian(command=..., label=..., **flags)`, which raises when the
      flags repeat either keyword. */
  function BaseJob(atoms: Atoms, defaults: Option<Table>, calcSwaps: Option<Table>,
                   additionalFields: Option<Table>, copyFiles: Option<seq<string>>): (r: Result<GaussianRun>)
    ensures var flags := MergeDicts(defaults, calcSwaps, true);
            r.Ok? <==> "command" !in Keys(flags) && "label" !in Keys(flags)
    ensures r.Ok? ==> r.value.atoms == atoms && r.value.calcLabel == Label && r.value.flags == MergeDicts(defaults, calcSwaps, true)
    ensures r.Err? ==> r.error.name in {"command", "label"}
  {
    var flags := MergeDicts(defaults, calcSwaps, true);
    var bound := NotGiven(flags, {"command", "label"});
    NotGivenTwo(flags, "command", "label");
    if bound.Err? then Err(bound.error) else Ok(GaussianRun(atoms, Label, flags, copyFiles, additionalFields))
  }

  /** `static_job`. `kwargs` is the table that `**kwargs` collects, so it
      never names one of the job's own parameters ("charge",
      "spin_multiplicity", "xc", "basis", "copy_files"); Python binds those
      instead. The table becomes the calculator swaps. */
  function StaticJob(atoms: Atoms, charge: int, spinMultiplicity: int, xc: string, basis: string,
                     copyFiles: Option<seq<string>>, cpuCount: nat, kwargs: Table): (r: Result<GaussianRun>)
    ensures r.Ok? ==> r.value.additionalFields == Some([("name", Str("Gaussian Static"))])
  {
    BaseJob(atoms, Some(StaticDefaults(cpuCount, xc, basis, charge, spinMultiplicity)), Some(kwargs),
            Some([("name", Str("Gaussian Static"))]), copyFiles)
  }

  /** `relax_job`; `kwargs` as in `StaticJob`, less "freq" as well. */
  function RelaxJob(atoms: Atoms, charge: int, spinMultiplicity: int, xc: string, basis: string, freq: bool,
                    copyFiles: Option<seq<string>>, cpuCount: nat, kwargs: Table): (r: Result<GaussianRun>)
    ensures r.Ok? ==> r.value.additionalFields == Some([("name", Str("Gaussian Relax"))])
  {
    BaseJob(atoms, Some(RelaxDefaults(cpuCount, xc, basis, charge, spinMultiplicity, freq)), Some(kwargs),
            Some([("name", Str("Gaussian Relax"))]), copyFiles)
  }

  // ---------------------------------------------------------------------
  // Properties of the flags

  /** The static flags: a `None` swap deletes its key, any other swap sets
      it, and every default that is not swapped keeps its value. A collected
      `**kwargs` table cannot name "charge" (the parameter), but it can name
      the calculator key "mult"; only then does "mult" differ from
      `spin_multiplicity`. */
  lemma StaticFlags(atoms: Atoms, charge: int, spinMultiplicity: int, xc: string, basis: string,
                    copyFiles: Option<seq<string>>, cpuCount: nat, kwargs: Table, k: string)
    requires WellFormed(kwargs)
    requires StaticJob(atoms, charge, spinMultiplicity, xc, basis, copyFiles, cpuCount, kwargs).Ok?
    ensures var flags := StaticJob(atoms, charge, spinMultiplicity, xc, basis, copyFiles, cpuCount, kwargs).value.flags;
            var defaults := StaticDefaults(cpuCount, xc, basis, charge, spinMultiplicity);
            && (Get(kwargs, k) == Some(Null) ==> k !in Keys(flags))
            && (Get(kwargs, k).Some? && Get(kwargs, k) != Some(Null) ==> Get(flags, k) == Get(kwargs, k))
            && (k !in Keys(kwargs) ==> Get(flags, k) == Get(defaults, k))
  {
    var defaults := StaticDefaults(cpuCount, xc, basis, charge, spinMultiplicity);
    MergeDictsGet(Some(defaults), Some(kwargs), true, k);
    MergeDictsKeys(Some(defaults), Some(kwargs), true, k);
    GetSomeIffKey(kwargs, k);
    if Get(defaults, k).Some? {
      GetIsItem(defaults, k);
    }
  }

  /** The relaxation flags have "freq" mapped to "" when `freq` is set and
      no "freq" key otherwise, unless the swaps name "freq"; "opt" is there
      and "sp" is not, unless swapped. */
  lemma RelaxFlags(atoms: Atoms, charge: int, spinMultiplicity: int, xc: string, basis: string, freq: bool,
                   copyFiles: Option<seq<string>>, cpuCount: nat, kwargs: Table)
    requires WellFormed(kwargs)
    requires RelaxJob(atoms, charge, spinMultiplicity, xc, basis, freq, copyFiles, cpuCount, kwargs).Ok?
    ensures var flags := RelaxJob(atoms, charge, spinMultiplicity, xc, basis, freq, copyFiles, cpuCount, kwargs).value.flags;
            && ("freq" !in Keys(kwargs) ==> (Get(flags, "freq") == Some(Str("")) <==> freq) && ("freq" in Keys(flags) <==> freq))
            && ("opt" !in Keys(kwargs) ==> "opt" in Keys(flags))
            && ("sp" !in Keys(kwargs) ==> "sp" !in Keys(flags))
  {
    var defaults := RelaxDefaults(cpuCount, xc, basis, charge, spinMultiplicity, freq);
    MergeDictsGet(Some(defaults), Some(kwargs), true, "freq");
    MergeDictsKeys(Some(defaults), Some(kwargs), true, "freq");
    MergeDictsKeys(Some(defaults), Some(kwargs), true, "opt");
    MergeDictsKeys(Some(defaults), Some(kwargs), true, "sp");
    GetSomeIffKey(kwargs, "freq");
    GetSomeIffKey(kwargs, "opt");
    GetSomeIffKey(kwargs, "sp");
    GetSomeIffKey(defaults, "opt");
    GetSomeIffKey(defaults, "sp");
    GetIsItem(defaults, "opt");
  }

  /** With no swaps, `_base_job` succeeds on any defaults that name neither
      "command" nor "label", and its flags are the defaults less their
      `None` entries. */
  lemma BaseJobWithoutSwaps(atoms: Atoms, defaults: Table, additionalFields: Option<Table>,
                            copyFiles: Option<seq<string>>)
    requires WellFormed(defaults)
    requires "command" !in Keys(defaults) && "label" !in Keys(defaults)
    ensures BaseJob(atoms, Some(defaults), Some([]), additionalFields, copyFiles).Ok?
    ensures BaseJob(atoms, Some(defaults), Some([]), additionalFields, copyFiles).value.flags == DropNulls(defaults)
  {
    MergeWithoutSwaps(Some(defaults), Some([]), true);
    DropNullsFacts(defaults);
  }

  /** With no swaps the static flags are the defaults themselves: none of
      them is `None`. */
  lemma StaticFlagsWithoutSwaps(atoms: Atoms, charge: int, spinMultiplicity: int, xc: string, basis: string,
                                copyFiles: Option<seq<string>>, cpuCount: nat)
    ensures StaticJob(atoms, charge, spinMultiplicity, xc, basis, copyFiles, cpuCount, []).Ok?
    ensures StaticJob(atoms, charge, spinMultiplicity, xc, basis, copyFiles, cpuCount, []).value.flags ==
            StaticDefaults(cpuCount, xc, basis, charge, spinMultiplicity)
  {
    var s := StaticDefaults(cpuCount, xc, basis, charge, spinMultiplicity);
    BaseJobWithoutSwaps(atoms, s, Some([("name", Str("Gaussian Static"))]), copyFiles);
    DropNullsNoNulls(s);
  }

  /** With no swaps the relaxation flags are the defaults less a `None`
      "freq". */
  lemma RelaxFlagsWithoutSwaps(atoms: Atoms, charge: int, spinMultiplicity: int, xc: string, basis: string, freq: bool,
                               copyFiles: Option<seq<string>>, cpuCount: nat)
    ensures RelaxJob(atoms, charge, spinMultiplicity, xc, basis, freq, copyFiles, cpuCount, []).Ok?
    ensures RelaxJob(atoms, charge, spinMultiplicity, xc, basis, freq, copyFiles, cpuCount, []).value.flags ==
            DropNulls(RelaxDefaults(cpuCount, xc, basis, charge, spinMultiplicity, freq))
  {
    var d := RelaxDefaults(cpuCount, xc, basis, charge, spinMultiplicity, freq);
    BaseJobWithoutSwaps(atoms, d, Some([("name", Str("Gaussian Relax"))]), copyFiles);
  }

  /** A static job called with only a structure: charge 0, multiplicity 1,
      and the default functional and basis set, all unchanged by the merge. */
  lemma StaticDefaultCall(atoms: Atoms, copyFiles: Option<seq<string>>, cpuCount: nat)
    ensures StaticJob(atoms, 0, 1, DefaultXc, DefaultBasis, copyFiles, cpuCount, []).Ok?
    ensures var flags := StaticJob(atoms, 0, 1, DefaultXc, DefaultBasis, copyFiles, cpuCount, []).value.flags;
            && Get(flags, "charge") == Some(Int(0)) && Get(flags, "mult") == Some(Int(1))
            && Get(flags, "xc") == Some(Str("wb97x-d")) && Get(flags, "basis") == Some(Str("def2-tzvp"))
  {
    StaticFlagsWithoutSwaps(atoms, 0, 1, DefaultXc, DefaultBasis, copyFiles, cpuCount);
  }

  /** A relaxation called without `freq` has no "freq" flag. */
  lemma RelaxDefaultFreq(atoms: Atoms, charge: int, spinMultiplicity: int, copyFiles: Option<seq<string>>, cpuCount: nat)
    ensures RelaxJob(atoms, charge, spinMultiplicity, DefaultXc, DefaultBasis, false, copyFiles, cpuCount, []).Ok?
    ensures "freq" !in Keys(RelaxJob(atoms, charge, spinMultiplicity, DefaultXc, DefaultBasis, false, copyFiles, cpuCount, []).value.flags)
  {
    RelaxFlagsWithoutSwaps(atoms, charge, spinMultiplicity, DefaultXc, DefaultBasis, false, copyFiles, cpuCount);
    RelaxFlags(atoms, charge, spinMultiplicity, DefaultXc, DefaultBasis, false, copyFiles, cpuCount, []);
  }
}
