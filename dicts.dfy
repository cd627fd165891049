/** Option tables as Python builds them: ordered dictionaries from option
    names to flat values, and the two-layer `merge_dicts` that every recipe
    uses to put user swaps over its defaults. */
module Dicts {

  datatype Option<+T> = None | Some(value: T)

  /** An option value. `Null` is Python's `None`; `Decimal(m, e)` is the
      float literal m * 10^e, kept as a token (no floating-point reasoning). */
  datatype Value =
    | Null
    | Bool(b: bool)
    | Int(i: int)
    | Str(s: string)
    | StrList(items: seq<string>)
    | Decimal(mantissa: int, exponent: int)
    | Obj(name: string)

  /** A Python dict as its sequence of items, in insertion order. */
  type Table = seq<(string, Value)>

  function Keys(t: Table): (ks: seq<string>)
    ensures |ks| == |t| && forall i :: 0 <= i < |t| ==> ks[i] == t[i].0
  {
    if t == [] then [] else [t[0].0] + Keys(t[1..])
  }

  /** Every key appears once, as in any Python dict. */
  predicate WellFormed(t: Table) {
    forall i, j :: 0 <= i < j < |t| ==> t[i].0 != t[j].0
  }

  predicate Distinct(ws: seq<string>) {
    forall i, j :: 0 <= i < j < |ws| ==> ws[i] != ws[j]
  }

  /** The dict display `{ks[0]: vs[0], ks[1]: vs[1], ...}` of distinct keys. */
  function Zip(ks: seq<string>, vs: seq<Value>): (r: Table)
    requires |ks| == |vs|
    ensures |r| == |ks| && forall i :: 0 <= i < |r| ==> r[i] == (ks[i], vs[i])
    ensures Keys(r) == ks
    ensures Distinct(ks) ==> WellFormed(r)
  {
    seq(|ks|, i requires 0 <= i < |ks| => (ks[i], vs[i]))
  }

  /** `t.get(k)`: the value stored under `k`, if any. */
  function Get(t: Table, k: string): Option<Value> {
    if t == [] then None
    else if t[0].0 == k then Some(t[0].1)
    else Get(t[1..], k)
  }

  /** `dict(t)` of an absent (`None`) or present table, as `x or {}`. */
  function OrEmpty(o: Option<Table>): Table {
    if o.Some? then o.value else []
  }

  /** `t[k] = v`: an existing key is overwritten in place, a new key is
      appended. */
  function Put(t: Table, k: string, v: Value): Table {
    if t == [] then [(k, v)]
    else if t[0].0 == k then [(k, v)] + t[1..]
    else [t[0]] + Put(t[1..], k, v)
  }

  /** The value the LAST item for `k` in `s` carries: what a sequence of
      assignments `d[k] = v`, one per item, leaves behind. */
  function Last(s: Table, k: string): Option<Value> {
    if s == [] then None
    else
      var later := Last(s[1..], k);
      if later.Some? then later
      else if s[0].0 == k then Some(s[0].1)
      else None
  }

  /** Assigns every item of `s`, in order, into `t`. */
  function Overlay(t: Table, s: Table): Table
    decreases s
  {
    if s == [] then t else Overlay(Put(t, s[0].0, s[0].1), s[1..])
  }

  /** A dict display `{k1: v1, k2: v2, ...}`: a repeated key keeps its first
      position and takes its last value. */
  function DictLiteral(pairs: Table): (r: Table)
    ensures WellFormed(r)
    ensures forall j :: j in Keys(r) <==> j in Keys(pairs)
  {
    OverlayWellFormed([], pairs);
    OverlayKeysAll([], pairs);
    Overlay([], pairs)
  }

  /** The items of `t` whose value is not `None`, in order. */
  function DropNulls(t: Table): Table {
    if t == [] then []
    else if t[0].1 == Null then DropNulls(t[1..])
    else [t[0]] + DropNulls(t[1..])
  }

  /** `merge_dicts(defaults, swaps, remove_nones=removeNones)`: the swaps
      are assigned over the defaults, an absent layer counting as empty;
      with `removeNones`, every key whose final value is `None` is dropped. */
  function MergeDicts(defaults: Option<Table>, swaps: Option<Table>, removeNones: bool): (r: Table)
    ensures WellFormed(OrEmpty(defaults)) ==> WellFormed(r)
    ensures removeNones ==> forall i :: 0 <= i < |r| ==> r[i].1 != Null
    ensures forall j :: j in Keys(r) ==> j in Keys(OrEmpty(defaults)) || j in Keys(OrEmpty(swaps))
  {
    var merged := Overlay(OrEmpty(defaults), OrEmpty(swaps));
    OverlayWellFormed(OrEmpty(defaults), OrEmpty(swaps));
    OverlayKeysAll(OrEmpty(defaults), OrEmpty(swaps));
    DropNullsFacts(merged);
    if removeNones then DropNulls(merged) else merged
  }

  /** Key-wise reference for a merge: the value from the highest layer that
      defines `k` (the swaps over the defaults), unless that value is `None`
      and removal is on, in which case `k` is absent. */
  function Resolved(defaults: Option<Table>, swaps: Option<Table>, removeNones: bool, k: string): Option<Value> {
    var fromSwap := Get(OrEmpty(swaps), k);
    var winner := if fromSwap.Some? then fromSwap else Get(OrEmpty(defaults), k);
    if removeNones && winner == Some(Null) then None else winner
  }

  // ---------------------------------------------------------------------
  // Lemmas about lookups

  /** A table with a leading entry has unique keys iff the rest does and
      does not repeat the leading key. */
  lemma WellFormedCons(x: (string, Value), rest: Table)
    ensures WellFormed([x] + rest) <==> WellFormed(rest) && x.0 !in Keys(rest)
  {
    if WellFormed(rest) && x.0 !in Keys(rest) {
      WellFormedConsIntro(x, rest);
    }
    if WellFormed([x] + rest) {
      WellFormedConsElim(x, rest);
    }
  }

  lemma WellFormedConsIntro(x: (string, Value), rest: Table)
    requires WellFormed(rest) && x.0 !in Keys(rest)
    ensures WellFormed([x] + rest)
  {
    var t := [x] + rest;
    forall i, j | 0 <= i < j < |t| ensures t[i].0 != t[j].0 {
      if i > 0 {
        assert t[i] == rest[i - 1] && t[j] == rest[j - 1];
      } else {
        assert t[j].0 == Keys(rest)[j - 1];
      }
    }
  }

  lemma WellFormedConsElim(x: (string, Value), rest: Table)
    requires WellFormed([x] + rest)
    ensures WellFormed(rest) && x.0 !in Keys(rest)
  {
    var t := [x] + rest;
    forall i, j | 0 <= i < j < |rest| ensures rest[i].0 != rest[j].0 {
      assert rest[i] == t[i + 1] && rest[j] == t[j + 1];
    }
    forall j | 0 <= j < |rest| ensures Keys(rest)[j] != x.0 {
      assert t[j + 1] == rest[j] && t[0] == x;
      assert t[0].0 != t[j + 1].0;
    }
  }

  /** Assignment sets the assigned key and leaves every other key alone. */
  lemma {:induction false} PutGet(t: Table, k: string, v: Value, j: string)
    ensures Get(Put(t, k, v), j) == if j == k then Some(v) else Get(t, j)
  {
    if t != [] && t[0].0 != k {
      PutGet(t[1..], k, v, j);
      assert ([t[0]] + Put(t[1..], k, v))[1..] == Put(t[1..], k, v);
    } else if t != [] {
      assert ([(k, v)] + t[1..])[1..] == t[1..];
    }
  }

  lemma {:induction false} PutKeys(t: Table, k: string, v: Value, j: string)
    ensures j in Keys(Put(t, k, v)) <==> j in Keys(t) || j == k
  {
    if t != [] {
      assert Keys(t) == [t[0].0] + Keys(t[1..]);
      if t[0].0 != k {
        PutKeys(t[1..], k, v, j);
        assert Keys(Put(t, k, v)) == [t[0].0] + Keys(Put(t[1..], k, v));
      } else {
        assert Keys(Put(t, k, v)) == [k] + Keys(t[1..]);
      }
    }
  }

  /** Assignment keeps every key unique. */
  lemma {:induction false} PutWellFormed(t: Table, k: string, v: Value)
    requires WellFormed(t)
    ensures WellFormed(Put(t, k, v))
  {
    if t != [] {
      WellFormedCons(t[0], t[1..]);
      assert t == [t[0]] + t[1..];
      if t[0].0 != k {
        PutWellFormed(t[1..], k, v);
        PutKeys(t[1..], k, v, t[0].0);
        WellFormedCons(t[0], Put(t[1..], k, v));
      } else {
        WellFormedCons((k, v), t[1..]);
      }
    }
  }

  lemma {:induction false} OverlayKeys(t: Table, s: Table, j: string)
    ensures j in Keys(Overlay(t, s)) <==> j in Keys(t) || j in Keys(s)
    decreases s
  {
    if s != [] {
      OverlayKeys(Put(t, s[0].0, s[0].1), s[1..], j);
      PutKeys(t, s[0].0, s[0].1, j);
      assert Keys(s) == [s[0].0] + Keys(s[1..]);
    }
  }

  lemma OverlayKeysAll(t: Table, s: Table)
    ensures forall j :: j in Keys(Overlay(t, s)) <==> j in Keys(t) || j in Keys(s)
  {
    forall j { OverlayKeys(t, s, j); }
  }

  lemma {:induction false} OverlayWellFormed(t: Table, s: Table)
    ensures WellFormed(t) ==> WellFormed(Overlay(t, s))
    decreases s
  {
    if s != [] && WellFormed(t) {
      PutWellFormed(t, s[0].0, s[0].1);
      OverlayWellFormed(Put(t, s[0].0, s[0].1), s[1..]);
    }
  }

  /** Dropping `None` items leaves no `None`, adds no key and keeps keys
      unique. */
  lemma DropNullsFacts(t: Table)
    ensures forall i :: 0 <= i < |DropNulls(t)| ==> DropNulls(t)[i].1 != Null
    ensures forall j :: j in Keys(DropNulls(t)) ==> j in Keys(t)
    ensures WellFormed(t) ==> WellFormed(DropNulls(t))
  {
    DropNullsValues(t);
    DropNullsKeys(t);
    if WellFormed(t) {
      DropNullsWellFormed(t);
    }
  }

  lemma {:induction false} DropNullsValues(t: Table)
    ensures forall i :: 0 <= i < |DropNulls(t)| ==> DropNulls(t)[i].1 != Null
  {
    if t != [] {
      DropNullsValues(t[1..]);
    }
  }

  lemma {:induction false} DropNullsKeys(t: Table)
    ensures forall j :: j in Keys(DropNulls(t)) ==> j in Keys(t)
  {
    if t != [] {
      var rest := DropNulls(t[1..]);
      DropNullsKeys(t[1..]);
      assert Keys(t) == [t[0].0] + Keys(t[1..]);
      if t[0].1 != Null {
        assert Keys([t[0]] + rest) == [t[0].0] + Keys(rest);
      }
    }
  }

  lemma {:induction false} DropNullsWellFormed(t: Table)
    requires WellFormed(t)
    ensures WellFormed(DropNulls(t))
  {
    if t != [] {
      var rest := DropNulls(t[1..]);
      assert t == [t[0]] + t[1..];
      WellFormedCons(t[0], t[1..]);
      DropNullsWellFormed(t[1..]);
      if t[0].1 != Null {
        DropNullsKeys(t[1..]);
        WellFormedCons(t[0], rest);
      }
    }
  }

  lemma {:induction false} GetSomeIffKey(t: Table, k: string)
    ensures Get(t, k).Some? <==> k in Keys(t)
  {
    if t != [] {
      assert Keys(t[1..]) == Keys(t)[1..];
      GetSomeIffKey(t[1..], k);
    }
  }

  lemma {:induction false} GetAt(t: Table, i: nat)
    requires WellFormed(t) && i < |t|
    ensures Get(t, t[i].0) == Some(t[i].1)
  {
    if i > 0 {
      GetAt(t[1..], i - 1);
    }
  }

  /** A dict display whose values other than the j-th are not `None` has
      `None` at most under its j-th key. */
  lemma ZipNullOnlyAt(ks: seq<string>, vs: seq<Value>, j: nat)
    requires |ks| == |vs| && j < |ks|
    requires forall i :: 0 <= i < |vs| && i != j ==> vs[i] != Null
    ensures forall i :: 0 <= i < |ks| && Zip(ks, vs)[i].0 != ks[j] ==> Zip(ks, vs)[i].1 != Null
  {
  }

  /** Looking up the i-th key of a dict display gives the i-th value. */
  lemma ZipGet(ks: seq<string>, vs: seq<Value>, i: nat)
    requires |ks| == |vs| && Distinct(ks) && i < |ks|
    ensures Get(Zip(ks, vs), ks[i]) == Some(vs[i])
  {
    GetAt(Zip(ks, vs), i);
  }

  /** A stored value is one of the table's items. */
  lemma {:induction false} GetIsItem(t: Table, k: string)
    requires Get(t, k).Some?
    ensures (k, Get(t, k).value) in t
  {
    if t[0].0 != k {
      GetIsItem(t[1..], k);
    }
  }

  lemma {:induction false} KeysConcat(a: Table, b: Table)
    ensures Keys(a + b) == Keys(a) + Keys(b)
  {
    if a != [] {
      assert (a + b)[1..] == a[1..] + b;
      KeysConcat(a[1..], b);
    } else {
      assert a + b == b;
    }
  }

  lemma {:induction false} GetConcat(a: Table, b: Table, k: string)
    ensures Get(a + b, k) == if Get(a, k).Some? then Get(a, k) else Get(b, k)
  {
    if a != [] {
      assert (a + b)[0] == a[0] && (a + b)[1..] == a[1..] + b;
      GetConcat(a[1..], b, k);
    } else {
      assert a + b == b;
    }
  }

  lemma {:induction false} LastSomeIffKey(s: Table, k: string)
    ensures Last(s, k).Some? <==> k in Keys(s)
  {
    if s != [] {
      assert Keys(s[1..]) == Keys(s)[1..];
      LastSomeIffKey(s[1..], k);
    }
  }

  /** The last value written for a key is one of the items. */
  lemma {:induction false} LastIsItem(s: Table, k: string)
    requires Last(s, k).Some?
    ensures (k, Last(s, k).value) in s
  {
    if Last(s[1..], k).Some? {
      LastIsItem(s[1..], k);
    }
  }

  /** An item that no later item overrides gives the last value. */
  lemma {:induction false} LastAt(s: Table, i: nat)
    requires i < |s|
    requires forall j :: i < j < |s| ==> s[j].0 != s[i].0
    ensures Last(s, s[i].0) == Some(s[i].1)
  {
    var k := s[i].0;
    if i > 0 {
      LastAt(s[1..], i - 1);
    } else {
      LastSomeIffKey(s[1..], k);
      assert forall j :: 0 <= j < |s[1..]| ==> Keys(s[1..])[j] == s[j + 1].0;
    }
  }

  /** In a table with unique keys, the last item for a key is its only one. */
  lemma {:induction false} LastIsGet(s: Table, k: string)
    requires WellFormed(s)
    ensures Last(s, k) == Get(s, k)
  {
    if s != [] {
      LastIsGet(s[1..], k);
      GetSomeIffKey(s[1..], k);
      assert Keys(s[1..]) == Keys(s)[1..];
      if Get(s[1..], k).Some? {
        assert k != s[0].0;
      }
    }
  }

  /** Assigning the items of `s` over `t` leaves, for every key, the last
      value `s` gives it, and `t`'s value for keys `s` does not name. */
  lemma {:induction false} OverlayGet(t: Table, s: Table, k: string)
    ensures Get(Overlay(t, s), k) == if Last(s, k).Some? then Last(s, k) else Get(t, k)
    decreases s
  {
    if s != [] {
      OverlayGet(Put(t, s[0].0, s[0].1), s[1..], k);
      PutGet(t, s[0].0, s[0].1, k);
    }
  }

  /** Dropping `None` items removes exactly the keys whose value is `None`. */
  lemma {:induction false} DropNullsGet(t: Table, k: string)
    requires WellFormed(t)
    ensures Get(DropNulls(t), k) == if Get(t, k) == Some(Null) then None else Get(t, k)
  {
    if t != [] {
      DropNullsGet(t[1..], k);
      if t[0].0 == k {
        GetSomeIffKey(t[1..], k);
        GetSomeIffKey(DropNulls(t[1..]), k);
        assert Keys(t[1..]) == Keys(t)[1..];
      }
    }
  }

  lemma {:induction false} DropNullsNoNulls(t: Table)
    requires forall i :: 0 <= i < |t| ==> t[i].1 != Null
    ensures DropNulls(t) == t
  {
    if t != [] {
      DropNullsNoNulls(t[1..]);
    }
  }

  // ---------------------------------------------------------------------
  // Lemmas about merge_dicts

  /** The key-wise meaning of `merge_dicts`: the merged table holds, for
      every key, exactly the resolved value of the two layers. */
  lemma MergeDictsGet(defaults: Option<Table>, swaps: Option<Table>, removeNones: bool, k: string)
    requires WellFormed(OrEmpty(defaults)) && WellFormed(OrEmpty(swaps))
    ensures Get(MergeDicts(defaults, swaps, removeNones), k) == Resolved(defaults, swaps, removeNones, k)
  {
    var merged := Overlay(OrEmpty(defaults), OrEmpty(swaps));
    OverlayGet(OrEmpty(defaults), OrEmpty(swaps), k);
    OverlayWellFormed(OrEmpty(defaults), OrEmpty(swaps));
    LastIsGet(OrEmpty(swaps), k);
    if removeNones {
      DropNullsGet(merged, k);
    }
  }

  /** A key is in the merged table exactly when its resolved value exists. */
  lemma MergeDictsKeys(defaults: Option<Table>, swaps: Option<Table>, removeNones: bool, k: string)
    requires WellFormed(OrEmpty(defaults)) && WellFormed(OrEmpty(swaps))
    ensures k in Keys(MergeDicts(defaults, swaps, removeNones)) <==> Resolved(defaults, swaps, removeNones, k).Some?
  {
    MergeDictsGet(defaults, swaps, removeNones, k);
    GetSomeIffKey(MergeDicts(defaults, swaps, removeNones), k);
  }

  /** A default key that no swap names keeps its default value (and, with
      removal on, is dropped only if that default is `None`). */
  lemma MergeKeepsUnswapped(defaults: Option<Table>, swaps: Option<Table>, removeNones: bool, k: string)
    requires WellFormed(OrEmpty(defaults)) && WellFormed(OrEmpty(swaps))
    requires k !in Keys(OrEmpty(swaps))
    ensures Get(MergeDicts(defaults, swaps, removeNones), k) ==
            if removeNones && Get(OrEmpty(defaults), k) == Some(Null) then None else Get(OrEmpty(defaults), k)
  {
    MergeDictsGet(defaults, swaps, removeNones, k);
    GetSomeIffKey(OrEmpty(swaps), k);
  }

  /** A swapped key takes the swap's value; a `None` swap deletes the key
      when removal is on and is stored literally when it is off. */
  lemma MergeTakesSwap(defaults: Option<Table>, swaps: Option<Table>, removeNones: bool, k: string, v: Value)
    requires WellFormed(OrEmpty(defaults)) && WellFormed(OrEmpty(swaps))
    requires Get(OrEmpty(swaps), k) == Some(v)
    ensures Get(MergeDicts(defaults, swaps, removeNones), k) == if removeNones && v == Null then None else Some(v)
    ensures k in Keys(MergeDicts(defaults, swaps, removeNones)) <==> !(removeNones && v == Null)
  {
    MergeDictsGet(defaults, swaps, removeNones, k);
    MergeDictsKeys(defaults, swaps, removeNones, k);
  }

  /** Merging an already merged table as the only layer changes nothing. */
  lemma MergeDictsIdempotent(defaults: Option<Table>, swaps: Option<Table>, removeNones: bool)
    ensures MergeDicts(Some(MergeDicts(defaults, swaps, removeNones)), None, removeNones) ==
            MergeDicts(defaults, swaps, removeNones)
  {
    if removeNones {
      DropNullsNoNulls(MergeDicts(defaults, swaps, removeNones));
    }
  }

  /** With no swaps the result is the defaults, less their `None` items
      when removal is on. */
  lemma MergeWithoutSwaps(defaults: Option<Table>, swaps: Option<Table>, removeNones: bool)
    requires OrEmpty(swaps) == []
    ensures MergeDicts(defaults, swaps, removeNones) ==
            if removeNones then DropNulls(OrEmpty(defaults)) else OrEmpty(defaults)
  {
  }

  /** Dict displays: the value under a key is the last one written for it. */
  lemma DictLiteralGet(pairs: Table, k: string)
    ensures Get(DictLiteral(pairs), k) == Last(pairs, k)
  {
    OverlayGet([], pairs, k);
  }

  /** A dict display has exactly the keys it lists, each with a value it
      lists for that key. */
  lemma DictLiteralLookup(pairs: Table)
    ensures forall k :: Get(DictLiteral(pairs), k).Some? <==> k in Keys(pairs)
    ensures forall k :: Get(DictLiteral(pairs), k).Some? ==> (k, Get(DictLiteral(pairs), k).value) in pairs
  {
    forall k
      ensures Get(DictLiteral(pairs), k).Some? <==> k in Keys(pairs)
      ensures Get(DictLiteral(pairs), k).Some? ==> (k, Get(DictLiteral(pairs), k).value) in pairs
    {
      DictLiteralGet(pairs, k);
      LastSomeIffKey(pairs, k);
      if Last(pairs, k).Some? {
        LastIsItem(pairs, k);
      }
    }
  }
}
