/** The ORCA recipes: default `orcasimpleinput` and `orcablocks` tables,
    the merge of the user swaps over them, and the space-separated keyword
    lines handed to the ORCA calculator. */
module Orca {
  import opened Dicts
  import opened Jobs

  // ---------------------------------------------------------------------
  // Keyword lines

  /** `" ".join(words)` */
  function Join(words: seq<string>): string {
    if words == [] then ""
    else if |words| == 1 then words[0]
    else words[0] + " " + Join(words[1..])
  }

  /** `line.split(" ")`: the pieces between single spaces. */
  function Split(line: string): (pieces: seq<string>)
    ensures |pieces| >= 1
  {
    if line == [] then [""]
    else
      var rest := Split(line[1..]);
      if line[0] == ' ' then [""] + rest
      else [[line[0]] + rest[0]] + rest[1..]
  }

  /** The words of a keyword line; the empty line has none. */
  function Words(line: string): seq<string> {
    if line == "" then [] else Split(line)
  }

  /** A keyword that survives the join: non-empty and without a space. */
  predicate IsKeyword(w: string) {
    w != "" && ' ' !in w
  }

  predicate AllKeywords(t: Table) {
    forall i :: 0 <= i < |t| ==> IsKeyword(t[i].0)
  }

  lemma {:induction false} SplitPrefix(w: string, tail: string)
    requires ' ' !in w
    ensures Split(w + tail) == [w + Split(tail)[0]] + Split(tail)[1..]
  {
    if w != [] {
      assert (w + tail)[0] == w[0] && (w + tail)[1..] == w[1..] + tail;
      SplitPrefix(w[1..], tail);
      assert [w[0]] + (w[1..] + Split(tail)[0]) == w + Split(tail)[0];
    } else {
      assert w + tail == tail;
      assert w + Split(tail)[0] == Split(tail)[0];
      assert [Split(tail)[0]] + Split(tail)[1..] == Split(tail);
    }
  }

  /** Splitting a line of keywords on its spaces gives back the keywords. */
  lemma {:induction false} WordsOfJoin(ws: seq<string>)
    requires forall i :: 0 <= i < |ws| ==> IsKeyword(ws[i])
    ensures Words(Join(ws)) == ws
  {
    if |ws| == 1 {
      SplitPrefix(ws[0], "");
      assert ws[0] + "" == ws[0];
    } else if |ws| > 1 {
      var rest := Join(ws[1..]);
      WordsOfJoin(ws[1..]);
      assert rest != "" by { assert ws[1..][0] != ""; JoinStartsWith(ws[1..]); }
      assert ws[0] + " " + rest == ws[0] + (" " + rest);
      SplitPrefix(ws[0], " " + rest);
      assert (" " + rest)[0] == ' ' && (" " + rest)[1..] == rest;
      assert ws[0] + "" == ws[0];
    }
  }

  lemma {:induction false} JoinStartsWith(ws: seq<string>)
    requires ws != []
    ensures |Join(ws)| >= |ws[0]| && Join(ws)[..|ws[0]|] == ws[0]
  {
    if |ws| > 1 {
      assert Join(ws) == ws[0] + (" " + Join(ws[1..]));
    }
  }

  lemma KeysDistinct(t: Table)
    requires WellFormed(t)
    ensures Distinct(Keys(t))
  {
  }

  // ---------------------------------------------------------------------
  // Default tables

  /** Decimal digits of `n`, as `f"{n}"` writes them. */
  function NatToString(n: nat): string {
    var digit := "0123456789"[n % 10];
    if n < 10 then [digit] else NatToString(n / 10) + [digit]
  }

  /** The `%pal` block entry for `nprocs` processes. */
  function PalBlock(nprocs: nat): string {
    "%pal nprocs " + NatToString(nprocs) + " end"
  }

  /** Default `orcablocks`: the `%pal` entry when `mpirun` is on the path. */
  function DefaultBlocks(mpirunFound: bool, cpuCount: nat): (r: Table)
    ensures WellFormed(r)
    ensures forall k :: Get(r, k).Some? <==> mpirunFound && k == PalBlock(cpuCount)
    ensures forall k :: Get(r, k).Some? ==> Get(r, k) == Some(Bool(true))
  {
    if mpirunFound then [(PalBlock(cpuCount), Bool(true))] else []
  }

  /** The default functional and basis set of both jobs. */
  const DefaultXc: string := "wb97x-d3bj"
  const DefaultBasis: string := "def2-tzvp"

  function StaticDefaultInputs(xc: string, basis: string): (r: Table)
    ensures WellFormed(r)
    ensures IsKeyword(xc) && IsKeyword(basis) ==> AllKeywords(r)
    ensures forall k :: Get(r, k).Some? <==> k in {xc, basis, "sp", "slowconv", "normalprint", "xyzfile"}
    ensures forall k :: Get(r, k).Some? ==> Get(r, k) == Some(Bool(true))
  {
    StaticPairsKeys(xc, basis);
    StaticPairsValues(xc, basis);
    KeywordsOfLiteral(StaticPairs(xc, basis));
    DictLiteral(StaticPairs(xc, basis))
  }

  /** The dict display of the static defaults, in source order. */
  function StaticPairs(xc: string, basis: string): Table {
    [(xc, Bool(true)), (basis, Bool(true)), ("sp", Bool(true)),
     ("slowconv", Bool(true)), ("normalprint", Bool(true)), ("xyzfile", Bool(true))]
  }

  lemma StaticPairsKeys(xc: string, basis: string)
    ensures forall k :: Get(DictLiteral(StaticPairs(xc, basis)), k).Some? <==>
                        k in {xc, basis, "sp", "slowconv", "normalprint", "xyzfile"}
  {
    var pairs := StaticPairs(xc, basis);
    assert Keys(pairs) == [xc, basis, "sp", "slowconv", "normalprint", "xyzfile"];
    DictLiteralLookup(pairs);
  }

  lemma StaticPairsValues(xc: string, basis: string)
    ensures forall k :: Get(DictLiteral(StaticPairs(xc, basis)), k).Some? ==>
                        Get(DictLiteral(StaticPairs(xc, basis)), k) == Some(Bool(true))
  {
    DictLiteralLookup(StaticPairs(xc, basis));
  }

  function RelaxDefaultInputs(xc: string, basis: string, runFreq: bool): (r: Table)
    ensures WellFormed(r)
    ensures IsKeyword(xc) && IsKeyword(basis) ==> AllKeywords(r)
    ensures forall k :: Get(r, k).Some? <==> k in {xc, basis, "opt", "slowconv", "normalprint", "freq", "xyzfile"}
    ensures forall k :: k != "freq" && Get(r, k).Some? ==> Get(r, k) == Some(Bool(true))
    ensures Get(r, "freq") == Some(if runFreq then Bool(true) else Null)
  {
    RelaxPairsKeys(xc, basis, runFreq);
    RelaxPairsValues(xc, basis, runFreq);
    RelaxPairsFreq(xc, basis, runFreq);
    KeywordsOfLiteral(RelaxPairs(xc, basis, runFreq));
    DictLiteral(RelaxPairs(xc, basis, runFreq))
  }

  /** The dict display of the relaxation defaults, in source order. */
  function RelaxPairs(xc: string, basis: string, runFreq: bool): Table {
    [(xc, Bool(true)), (basis, Bool(true)), ("opt", Bool(true)),
     ("slowconv", Bool(true)), ("normalprint", Bool(true)),
     ("freq", if runFreq then Bool(true) else Null), ("xyzfile", Bool(true))]
  }

  lemma RelaxPairsKeys(xc: string, basis: string, runFreq: bool)
    ensures forall k :: Get(DictLiteral(RelaxPairs(xc, basis, runFreq)), k).Some? <==>
                        k in {xc, basis, "opt", "slowconv", "normalprint", "freq", "xyzfile"}
  {
    var pairs := RelaxPairs(xc, basis, runFreq);
    assert Keys(pairs) == [xc, basis, "opt", "slowconv", "normalprint", "freq", "xyzfile"];
    DictLiteralLookup(pairs);
  }

  lemma RelaxPairsValues(xc: string, basis: string, runFreq: bool)
    ensures forall k :: k != "freq" && Get(DictLiteral(RelaxPairs(xc, basis, runFreq)), k).Some? ==>
                        Get(DictLiteral(RelaxPairs(xc, basis, runFreq)), k) == Some(Bool(true))
  {
    DictLiteralLookup(RelaxPairs(xc, basis, runFreq));
  }

  lemma RelaxPairsFreq(xc: string, basis: string, runFreq: bool)
    ensures Get(DictLiteral(RelaxPairs(xc, basis, runFreq)), "freq") == Some(if runFreq then Bool(true) else Null)
  {
    var pairs := RelaxPairs(xc, basis, runFreq);
    DictLiteralGet(pairs, "freq");
    LastAt(pairs, 5);
  }

  /** A dict display whose keys are keywords has only keyword keys. */
  lemma KeywordsOfLiteral(pairs: Table)
    ensures AllKeywords(pairs) ==> AllKeywords(DictLiteral(pairs))
  {
    var r := DictLiteral(pairs);
    if AllKeywords(pairs) {
      forall i | 0 <= i < |r| ensures IsKeyword(r[i].0) {
        assert Keys(r)[i] in Keys(r);
        var j :| 0 <= j < |pairs| && Keys(pairs)[j] == r[i].0;
      }
    }
  }

  // ---------------------------------------------------------------------
  // Jobs

  /** The arguments of the `ORCA` calculator that the recipes set. */
  datatype OrcaCalc = OrcaCalc(charge: int, mult: int, orcasimpleinput: string, orcablocks: string)

  /** What a recipe hands to the engine: the structure with its calculator,
      the files to copy and the extra fields for the summarizer. */
  datatype OrcaRun = OrcaRun(atoms: Atoms, calculator: OrcaCalc, copyFiles: Option<seq<string>>, additionalFields: Option<Table>)

  /** `_base_job`: both tables are merged with `None` removal and their
      keys joined by spaces. */
  function BaseJob(atoms: Atoms, charge: int, spinMultiplicity: int,
                   defaultInputs: Option<Table>, defaultBlocks: Option<Table>,
                   inputSwaps: Option<Table>, blockSwaps: Option<Table>,
                   additionalFields: Option<Table>, copyFiles: Option<seq<string>>): (r: OrcaRun)
    ensures r.atoms == atoms && r.copyFiles == copyFiles && r.additionalFields == additionalFields
    ensures r.calculator.charge == charge && r.calculator.mult == spinMultiplicity
    ensures KeywordsOk(defaultInputs, inputSwaps) ==>
              Distinct(Words(r.calculator.orcasimpleinput)) &&
              forall k :: k in Words(r.calculator.orcasimpleinput) <==> Resolved(defaultInputs, inputSwaps, true, k).Some?
    ensures r.calculator.orcablocks == Join(Keys(MergeDicts(defaultBlocks, blockSwaps, true)))
  {
    var inputs := MergeDicts(defaultInputs, inputSwaps, true);
    var blocks := MergeDicts(defaultBlocks, blockSwaps, true);
    KeywordLine(defaultInputs, inputSwaps);
    OrcaRun(atoms, OrcaCalc(charge, spinMultiplicity, Join(Keys(inputs)), Join(Keys(blocks))), copyFiles, additionalFields)
  }

  /** Both layers are dicts whose keys can be told apart in a keyword line. */
  predicate KeywordsOk(defaults: Option<Table>, swaps: Option<Table>) {
    WellFormed(OrEmpty(defaults)) && WellFormed(OrEmpty(swaps)) &&
    AllKeywords(OrEmpty(defaults)) && AllKeywords(OrEmpty(swaps))
  }

  /** The keyword line lists each merged key once, and a key is listed
      exactly when the merge keeps it. */
  lemma KeywordLine(defaults: Option<Table>, swaps: Option<Table>)
    ensures var line := Join(Keys(MergeDicts(defaults, swaps, true)));
            KeywordsOk(defaults, swaps) ==>
              Distinct(Words(line)) &&
              forall k :: k in Words(line) <==> Resolved(defaults, swaps, true, k).Some?
  {
    if KeywordsOk(defaults, swaps) {
      var merged := MergeDicts(defaults, swaps, true);
      forall i | 0 <= i < |Keys(merged)| ensures IsKeyword(Keys(merged)[i]) {
        var k := Keys(merged)[i];
        assert k in Keys(merged);
        if k in Keys(OrEmpty(defaults)) {
          var j :| 0 <= j < |OrEmpty(defaults)| && Keys(OrEmpty(defaults))[j] == k;
        } else {
          var j :| 0 <= j < |OrEmpty(swaps)| && Keys(OrEmpty(swaps))[j] == k;
        }
      }
      WordsOfJoin(Keys(merged));
      KeysDistinct(merged);
      forall k ensures k in Keys(merged) <==> Resolved(defaults, swaps, true, k).Some? {
        MergeDictsKeys(defaults, swaps, true, k);
      }
    }
  }

  /** `static_job`; `mpirunFound` and `cpuCount` stand for `which("mpirun")`
      and `multiprocessing.cpu_count()`. */
  function StaticJob(atoms: Atoms, charge: int, spinMultiplicity: int, xc: string, basis: string,
                     orcasimpleinput: Option<Table>, orcablocks: Option<Table>, copyFiles: Option<seq<string>>,
                     mpirunFound: bool, cpuCount: nat): (r: OrcaRun)
    ensures r.calculator.charge == charge && r.calculator.mult == spinMultiplicity
    ensures r.additionalFields == Some([("name", Str("ORCA Static"))])
  {
    BaseJob(atoms, charge, spinMultiplicity, Some(StaticDefaultInputs(xc, basis)),
            Some(DefaultBlocks(mpirunFound, cpuCount)), orcasimpleinput, orcablocks,
            Some([("name", Str("ORCA Static"))]), copyFiles)
  }

  /** `relax_job` */
  function RelaxJob(atoms: Atoms, charge: int, spinMultiplicity: int, xc: string, basis: string, runFreq: bool,
                    orcasimpleinput: Option<Table>, orcablocks: Option<Table>, copyFiles: Option<seq<string>>,
                    mpirunFound: bool, cpuCount: nat): (r: OrcaRun)
    ensures r.calculator.charge == charge && r.calculator.mult == spinMultiplicity
    ensures r.additionalFields == Some([("name", Str("ORCA Relax"))])
  {
    BaseJob(atoms, charge, spinMultiplicity, Some(RelaxDefaultInputs(xc, basis, runFreq)),
            Some(DefaultBlocks(mpirunFound, cpuCount)), orcasimpleinput, orcablocks,
            Some([("name", Str("ORCA Relax"))]), copyFiles)
  }

  // ---------------------------------------------------------------------
  // Properties of the keyword lines

  /** A `None` swap removes the keyword from the line; a `True` swap puts
      it in, whether or not the defaults have it. */
  lemma SwapControlsKeyword(atoms: Atoms, charge: int, spinMultiplicity: int,
                            defaultInputs: Option<Table>, defaultBlocks: Option<Table>,
                            inputSwaps: Option<Table>, blockSwaps: Option<Table>,
                            additionalFields: Option<Table>, copyFiles: Option<seq<string>>,
                            k: string, v: Value)
    requires KeywordsOk(defaultInputs, inputSwaps)
    requires Get(OrEmpty(inputSwaps), k) == Some(v)
    ensures var line := BaseJob(atoms, charge, spinMultiplicity, defaultInputs, defaultBlocks,
                                inputSwaps, blockSwaps, additionalFields, copyFiles).calculator.orcasimpleinput;
            (v == Null ==> k !in Words(line)) && (v == Bool(true) ==> k in Words(line))
  {
  }

  /** The block line joins the kept block entries, each once: a `None`
      swap drops its entry, a `True` swap adds it, and an entry no swap
      names is kept exactly when its default is not `None`. Block entries
      hold spaces, so the line itself is not split back. */
  lemma SwapControlsBlock(atoms: Atoms, charge: int, spinMultiplicity: int,
                          defaultInputs: Option<Table>, defaultBlocks: Option<Table>,
                          inputSwaps: Option<Table>, blockSwaps: Option<Table>,
                          additionalFields: Option<Table>, copyFiles: Option<seq<string>>, k: string)
    requires WellFormed(OrEmpty(defaultBlocks)) && WellFormed(OrEmpty(blockSwaps))
    ensures var entries := Keys(MergeDicts(defaultBlocks, blockSwaps, true));
            && BaseJob(atoms, charge, spinMultiplicity, defaultInputs, defaultBlocks,
                       inputSwaps, blockSwaps, additionalFields, copyFiles).calculator.orcablocks == Join(entries)
            && Distinct(entries)
            && (Get(OrEmpty(blockSwaps), k) == Some(Null) ==> k !in entries)
            && (Get(OrEmpty(blockSwaps), k) == Some(Bool(true)) ==> k in entries)
            && (k !in Keys(OrEmpty(blockSwaps)) ==>
                  (k in entries <==> Get(OrEmpty(defaultBlocks), k).Some? && Get(OrEmpty(defaultBlocks), k) != Some(Null)))
  {
    KeysDistinct(MergeDicts(defaultBlocks, blockSwaps, true));
    MergeDictsKeys(defaultBlocks, blockSwaps, true, k);
    GetSomeIffKey(OrEmpty(blockSwaps), k);
  }

  /** A static job called with only a structure: charge 0, multiplicity 1,
      and without input swaps exactly the default keywords, with the
      default functional and basis set. */
  lemma StaticDefaultCall(atoms: Atoms, orcablocks: Option<Table>, copyFiles: Option<seq<string>>,
                          mpirunFound: bool, cpuCount: nat)
    ensures var c := StaticJob(atoms, 0, 1, DefaultXc, DefaultBasis, None, orcablocks,
                                  copyFiles, mpirunFound, cpuCount).calculator;
            && c.charge == 0 && c.mult == 1
            && Distinct(Words(c.orcasimpleinput))
            && forall k :: k in Words(c.orcasimpleinput) <==>
                 k in {"wb97x-d3bj", "def2-tzvp", "sp", "slowconv", "normalprint", "xyzfile"}
  {
    assert IsKeyword(DefaultXc) && IsKeyword(DefaultBasis);
    StaticKeywordsWithoutSwaps(atoms, 0, 1, DefaultXc, DefaultBasis, None, orcablocks, copyFiles, mpirunFound, cpuCount);
  }

  /** A relaxation called without `run_freq` has no "freq" keyword, unless
      the input swaps add it. */
  lemma RelaxDefaultFreq(atoms: Atoms, charge: int, spinMultiplicity: int, orcasimpleinput: Option<Table>,
                         orcablocks: Option<Table>, copyFiles: Option<seq<string>>, mpirunFound: bool, cpuCount: nat)
    requires WellFormed(OrEmpty(orcasimpleinput)) && AllKeywords(OrEmpty(orcasimpleinput))
    requires "freq" !in Keys(OrEmpty(orcasimpleinput))
    ensures "freq" !in Words(RelaxJob(atoms, charge, spinMultiplicity, DefaultXc, DefaultBasis, false, orcasimpleinput,
                                      orcablocks, copyFiles, mpirunFound, cpuCount).calculator.orcasimpleinput)
  {
    assert IsKeyword(DefaultXc) && IsKeyword(DefaultBasis);
    RelaxFreqKeyword(atoms, charge, spinMultiplicity, DefaultXc, DefaultBasis, false, orcasimpleinput, orcablocks,
                     copyFiles, mpirunFound, cpuCount);
  }

  /** With no input swaps, the static keyword line is exactly the default
      keywords, each once. */
  lemma StaticKeywordsWithoutSwaps(atoms: Atoms, charge: int, spinMultiplicity: int, xc: string, basis: string,
                                   orcasimpleinput: Option<Table>, orcablocks: Option<Table>,
                                   copyFiles: Option<seq<string>>, mpirunFound: bool, cpuCount: nat)
    requires IsKeyword(xc) && IsKeyword(basis)
    requires OrEmpty(orcasimpleinput) == []
    ensures var line := StaticJob(atoms, charge, spinMultiplicity, xc, basis, orcasimpleinput, orcablocks,
                                  copyFiles, mpirunFound, cpuCount).calculator.orcasimpleinput;
            Distinct(Words(line)) &&
            forall k :: k in Words(line) <==> k in {xc, basis, "sp", "slowconv", "normalprint", "xyzfile"}
  {
    var d := StaticDefaultInputs(xc, basis);
    assert KeywordsOk(Some(d), orcasimpleinput);
  }

  /** In a relaxation whose swaps leave "freq" alone, the keyword line
      has "freq" exactly when a frequency run is asked for. */
  lemma RelaxFreqKeyword(atoms: Atoms, charge: int, spinMultiplicity: int, xc: string, basis: string, runFreq: bool,
                         orcasimpleinput: Option<Table>, orcablocks: Option<Table>,
                         copyFiles: Option<seq<string>>, mpirunFound: bool, cpuCount: nat)
    requires IsKeyword(xc) && IsKeyword(basis)
    requires WellFormed(OrEmpty(orcasimpleinput)) && AllKeywords(OrEmpty(orcasimpleinput))
    requires "freq" !in Keys(OrEmpty(orcasimpleinput))
    ensures var line := RelaxJob(atoms, charge, spinMultiplicity, xc, basis, runFreq, orcasimpleinput, orcablocks,
                                 copyFiles, mpirunFound, cpuCount).calculator.orcasimpleinput;
            "freq" in Words(line) <==> runFreq
  {
    var d := RelaxDefaultInputs(xc, basis, runFreq);
    assert KeywordsOk(Some(d), orcasimpleinput);
    GetSomeIffKey(OrEmpty(orcasimpleinput), "freq");
  }

  /** With no block swaps, the block line is empty unless `mpirun` is
      found, and then it is the single `%pal` entry. */
  lemma DefaultBlocksLine(atoms: Atoms, charge: int, spinMultiplicity: int, xc: string, basis: string, runFreq: bool,
                          orcasimpleinput: Option<Table>, orcablocks: Option<Table>,
                          copyFiles: Option<seq<string>>, mpirunFound: bool, cpuCount: nat)
    requires OrEmpty(orcablocks) == []
    ensures StaticJob(atoms, charge, spinMultiplicity, xc, basis, orcasimpleinput, orcablocks,
                      copyFiles, mpirunFound, cpuCount).calculator.orcablocks ==
            if mpirunFound then PalBlock(cpuCount) else ""
    ensures RelaxJob(atoms, charge, spinMultiplicity, xc, basis, runFreq, orcasimpleinput, orcablocks,
                     copyFiles, mpirunFound, cpuCount).calculator.orcablocks ==
            if mpirunFound then PalBlock(cpuCount) else ""
  {
    var blocks := DefaultBlocks(mpirunFound, cpuCount);
    MergeWithoutSwaps(Some(blocks), orcablocks, true);
    if mpirunFound {
      assert DropNulls(blocks) == blocks;
      assert Keys(blocks) == [PalBlock(cpuCount)];
    }
  }
}
