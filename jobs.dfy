/** What the recipes share beyond the option tables: structures and result
    documents as opaque values, the errors a Python call can raise while
    binding keyword arguments, and mapping a job over generated structures. */
module Jobs {
  import opened Dicts

  /** An ASE `Atoms` object; the recipes only pass it along. */
  type Atoms(==)

  /** A result document of a summarizer: the output structure under
      "atoms", the rest of the document, and the "relax1" entry that the
      VASP double relaxation adds. A summary with that entry set keeps no
      "relax1" key among its other fields. */
  datatype Summary = Summary(atoms: Atoms, fields: Table, relax1: Option<Summary>)

  /** `TypeError: got multiple values for (keyword) argument 'name'`. */
  datatype CallError = MultipleValues(name: string)

  datatype Result<+T> = Ok(value: T) | Err(error: CallError) {
    predicate IsFailure() { Err? }
    function PropagateFailure<U>(): Result<U> requires Err? { Err(error) }
    function Extract(): T requires Ok? { value }
  }

  /** Python truthiness of a value, as in `3 if relax_cell else 2`. */
  predicate Truthy(v: Value) {
    match v
    case Null => false
    case Bool(b) => b
    case Int(i) => i != 0
    case Str(s) => s != ""
    case StrList(items) => items != []
    case Decimal(m, _) => m != 0
    case Obj(_) => true
  }

  /** The first key of `t` that is among `names`. */
  function FirstIn(t: Table, names: set<string>): (r: Option<string>)
    ensures r.None? <==> forall i :: 0 <= i < |t| ==> t[i].0 !in names
    ensures r.Some? ==> r.value in names && r.value in Keys(t)
  {
    if t == [] then None
    else if t[0].0 in names then Some(t[0].0)
    else FirstIn(t[1..], names)
  }

  /** Binding the keyword table `args` to a callee whose parameters `given`
      were already supplied (positionally or by name): any of them repeated
      in `args` is a TypeError. */
  function NotGiven(args: Table, given: set<string>): (r: Result<Table>)
    ensures r.Ok? <==> forall k :: k in Keys(args) ==> k !in given
    ensures r.Ok? ==> r.value == args
    ensures r.Err? ==> r.error.name in given && r.error.name in Keys(args)
  {
    var clash := FirstIn(args, given);
    if clash.Some? then Err(MultipleValues(clash.value)) else Ok(args)
  }

  /** `NotGiven` for a callee with one parameter already supplied. */
  lemma NotGivenOne(args: Table, a: string)
    ensures NotGiven(args, {a}).Ok? <==> a !in Keys(args)
  {
  }

  /** `NotGiven` for a callee with two parameters already supplied. */
  lemma NotGivenTwo(args: Table, a: string, b: string)
    ensures NotGiven(args, {a, b}).Ok? <==> a !in Keys(args) && b !in Keys(args)
  {
  }

  /** The keyword table of a call `f(..., k1=v1, ..., **spread)`. */
  function KeywordArgs(explicit: Table, spread: Table): (r: Result<Table>)
    requires WellFormed(explicit) && WellFormed(spread)
    ensures r.Ok? <==> forall k :: k in Keys(spread) ==> k !in Keys(explicit)
    ensures r.Err? ==> r.error.name in Keys(explicit) && r.error.name in Keys(spread)
    ensures r.Ok? ==> WellFormed(r.value)
    ensures r.Ok? ==> forall k :: Get(r.value, k) == if k in Keys(explicit) then Get(explicit, k) else Get(spread, k)
  {
    var named := set i | 0 <= i < |explicit| :: explicit[i].0;
    assert forall k :: k in named <==> k in Keys(explicit);
    var _ :- NotGiven(spread, named);
    KeywordArgsFacts(explicit, spread);
    Ok(explicit + spread)
  }

  lemma KeywordArgsFacts(explicit: Table, spread: Table)
    requires WellFormed(explicit) && WellFormed(spread)
    requires forall k :: k in Keys(spread) ==> k !in Keys(explicit)
    ensures WellFormed(explicit + spread)
    ensures forall k :: Get(explicit + spread, k) == if k in Keys(explicit) then Get(explicit, k) else Get(spread, k)
  {
    ConcatWellFormed(explicit, spread);
    forall k ensures Get(explicit + spread, k) == if k in Keys(explicit) then Get(explicit, k) else Get(spread, k) {
      GetConcat(explicit, spread, k);
      GetSomeIffKey(explicit, k);
    }
  }

  lemma ConcatWellFormed(a: Table, b: Table)
    requires WellFormed(a) && WellFormed(b)
    requires forall k :: k in Keys(b) ==> k !in Keys(a)
    ensures WellFormed(a + b)
  {
    var t := a + b;
    forall i, j | 0 <= i < j < |t| ensures t[i].0 != t[j].0 {
      if j < |a| {
        assert t[i] == a[i] && t[j] == a[j];
      } else if i >= |a| {
        assert t[i] == b[i - |a|] && t[j] == b[j - |a|];
      } else {
        var kb := Keys(b)[j - |a|];
        assert kb in Keys(b);
        assert Keys(a)[i] in Keys(a);
        assert t[i] == a[i] && t[j] == b[j - |a|];
      }
    }
  }

  /** The value bound to a parameter with a default: `args.get(k, dflt)`. */
  function GetOr(args: Table, k: string, dflt: Value): Value {
    if Get(args, k).Some? then Get(args, k).value else dflt
  }

  /** What a callee's `**kwargs` receives: the keyword table less the
      callee's named parameters, in order. */
  function Without(t: Table, names: set<string>): (r: Table)
    ensures WellFormed(t) ==> WellFormed(r)
    ensures forall k :: Get(r, k) == if k in names then None else Get(t, k)
    ensures forall k :: k in Keys(r) <==> k in Keys(t) && k !in names
  {
    if t == [] then []
    else
      var rest := Without(t[1..], names);
      assert [t[0]] + t[1..] == t;
      WithoutConsGet(t[0], t[1..], names, rest);
      WithoutConsKeys(t[0], t[1..], names, rest);
      WithoutConsWellFormed(t[0], t[1..], names, rest);
      if t[0].0 in names then rest else [t[0]] + rest
  }

  /** One step of `Without` keeps its lookups. */
  lemma WithoutConsGet(x: (string, Value), t: Table, names: set<string>, rest: Table)
    requires forall k :: Get(rest, k) == if k in names then None else Get(t, k)
    ensures forall k :: Get(if x.0 in names then rest else [x] + rest, k) == if k in names then None else Get([x] + t, k)
  {
    assert ([x] + t)[1..] == t;
    assert ([x] + rest)[1..] == rest;
  }

  /** One step of `Without` keeps its keys. */
  lemma WithoutConsKeys(x: (string, Value), t: Table, names: set<string>, rest: Table)
    requires forall k :: k in Keys(rest) <==> k in Keys(t) && k !in names
    ensures forall k :: k in Keys(if x.0 in names then rest else [x] + rest) <==> k in Keys([x] + t) && k !in names
  {
    assert ([x] + t)[1..] == t;
    assert ([x] + rest)[1..] == rest;
    assert Keys([x] + t) == [x.0] + Keys(t);
    assert Keys([x] + rest) == [x.0] + Keys(rest);
  }

  /** One step of `Without` keeps the keys distinct. */
  lemma WithoutConsWellFormed(x: (string, Value), t: Table, names: set<string>, rest: Table)
    requires WellFormed(t) ==> WellFormed(rest)
    requires forall k :: k in Keys(rest) <==> k in Keys(t) && k !in names
    ensures WellFormed([x] + t) ==> WellFormed(if x.0 in names then rest else [x] + rest)
  {
    WellFormedCons(x, t);
    WellFormedCons(x, rest);
  }

  /** A list comprehension `[f(x) for x in xs]` whose calls can raise: the
      first raising call aborts it with that call's error. */
  function MapAll<A, B>(f: A -> Result<B>, xs: seq<A>): (r: Result<seq<B>>)
    ensures r.Ok? <==> forall i :: 0 <= i < |xs| ==> f(xs[i]).Ok?
    ensures r.Ok? ==> |r.value| == |xs| && forall i :: 0 <= i < |xs| ==> r.value[i] == f(xs[i]).value
    ensures r.Err? ==> exists i :: 0 <= i < |xs| && f(xs[i]) == Err(r.error) && forall j :: 0 <= j < i ==> f(xs[j]).Ok?
  {
    if xs == [] then Ok([])
    else
      var head := f(xs[0]);
      if head.Err? then Err(head.error)
      else
        var rest := MapAll(f, xs[1..]);
        if rest.Err? then
          assert forall j :: 1 <= j < |xs| ==> xs[j] == xs[1..][j - 1];
          Err(rest.error)
        else
          assert forall j :: 1 <= j < |xs| ==> xs[j] == xs[1..][j - 1];
          Ok([head.value] + rest.value)
  }
}
