/** The JSON-like values the ingestion lambdas pass around: decoded API
    payloads, decoded secrets and the records written to the keyed store.

    Numbers are kept abstract as a real: `Num` stands for a Python `int` or
    `float`, `Dec` for a `decimal.Decimal`. Python truthiness and `dict.get`
    are written out here because the source's `or`-chains and defaults
    depend on them. */
module JsonValue {

  datatype Option<+T> = None | Some(value: T)

  /** The Python exceptions the modelled expressions can raise. */
  datatype PyError =
    | AttributeError  // `.get` on something that is not a dict
    | IndexError      // `[0]` on an empty list or string
    | KeyError        // `[0]` on a dict whose keys are strings
    | TypeError       // `[0]` on a number, a boolean or None

  /** An expression either yields a value or raises. */
  datatype Result<+T> = Ok(value: T) | Raise(error: PyError) {
    predicate IsFailure() { Raise? }
    function PropagateFailure<U>(): Result<U>
      requires Raise?
    {
      Raise(error)
    }
    function Extract(): T
      requires Ok?
    {
      value
    }
  }

  datatype Value =
    | Null                              // None
    | Bool(b: bool)
    | Num(n: real)                      // int or float
    | Dec(d: real)                      // decimal.Decimal
    | Str(s: string)
    | Obj(fields: seq<(string, Value)>) // dict, in insertion order
    | Arr(items: seq<Value>)            // list

  /** Python's `bool(v)`. */
  predicate Truthy(v: Value)
  {
    match v
    case Null => false
    case Bool(b) => b
    case Num(n) => n != 0.0
    case Dec(d) => d != 0.0
    case Str(s) => s != ""
    case Obj(fields) => fields != []
    case Arr(items) => items != []
  }

  /** The keys of a dict, in insertion order. */
  function Keys(fields: seq<(string, Value)>): (ks: seq<string>)
    ensures |ks| == |fields|
    ensures forall i :: 0 <= i < |fields| ==> ks[i] == fields[i].0
  {
    if fields == [] then [] else Keys(fields[..|fields| - 1]) + [fields[|fields| - 1].0]
  }

  /** A Python dict never holds a key twice. */
  predicate DistinctKeys(fields: seq<(string, Value)>)
  {
    forall i, j :: 0 <= i < j < |fields| ==> fields[i].0 != fields[j].0
  }

  /** The value stored under `k`, if any: the first entry with that key. */
  function Lookup(fields: seq<(string, Value)>, k: string): Option<Value>
  {
    if fields == [] then None
    else if fields[0].0 == k then Some(fields[0].1)
    else Lookup(fields[1..], k)
  }

  /** A lookup finds nothing exactly when no entry has the key, and what it
      finds is an entry of the dict. */
  lemma {:induction false} LookupFinds(fields: seq<(string, Value)>, k: string)
    ensures Lookup(fields, k).None? <==> forall i :: 0 <= i < |fields| ==> fields[i].0 != k
    ensures Lookup(fields, k).Some? ==> (k, Lookup(fields, k).value) in fields
  {
    if fields != [] && fields[0].0 != k {
      LookupFinds(fields[1..], k);
      assert forall i :: 1 <= i < |fields| ==> fields[i] == fields[1..][i - 1];
    }
  }

  /** In a dict without repeated keys the entry at position `i` is what a
      lookup of its key finds. */
  lemma {:induction false} LookupAt(fields: seq<(string, Value)>, i: nat)
    requires DistinctKeys(fields) && i < |fields|
    ensures Lookup(fields, fields[i].0) == Some(fields[i].1)
  {
    if i > 0 {
      assert DistinctKeys(fields[1..]);
      LookupAt(fields[1..], i - 1);
      assert fields[0].0 != fields[i].0;
    }
  }

  /** Python's `v.get(k, default)`: only a dict has `.get`. A key that is
      present with the value None yields None, not the default. */
  function Get(v: Value, k: string, default: Value): (r: Result<Value>)
    ensures r.Raise? <==> !v.Obj?
    ensures r.Raise? ==> r.error == AttributeError
    ensures v.Obj? && Lookup(v.fields, k).Some? ==> r == Ok(Lookup(v.fields, k).value)
    ensures v.Obj? && Lookup(v.fields, k).None? ==> r == Ok(default)
  {
    if !v.Obj? then Raise(AttributeError)
    else
      match Lookup(v.fields, k)
      case Some(x) => Ok(x)
      case None => Ok(default)
  }

  /** Python's `v or empty`, used for `(x or {})`. */
  function OrEmptyDict(v: Value): (r: Value)
    ensures Truthy(v) ==> r == v
    ensures !Truthy(v) ==> r == Obj([])
  {
    if Truthy(v) then v else Obj([])
  }
}
