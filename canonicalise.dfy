/** `convert_numbers` of lambdas/fetch_city_data/package/app.py: the copy
    of a record destined for the keyed store has every int/float leaf turned
    into a Decimal and every None dropped from dicts and lists.

    `Convert` is the specification, one equation per branch of the source;
    `ConvertNumbers` is the source's loop-and-append algorithm, proved to
    compute it. Numbers stay abstract: Num -> Dec is a change of tag that
    keeps the value. */
module Canonicalise {
  import opened JsonValue

  /** The entries of `fields` whose value is not None, in their order. */
  function DropNullFields(fields: seq<(string, Value)>): seq<(string, Value)>
  {
    if fields == [] then []
    else
      var last := fields[|fields| - 1];
      DropNullFields(fields[..|fields| - 1]) + (if last.1.Null? then [] else [last])
  }

  /** The elements of `items` that are not None, in their order. */
  function DropNullItems(items: seq<Value>): seq<Value>
  {
    if items == [] then []
    else
      var last := items[|items| - 1];
      DropNullItems(items[..|items| - 1]) + (if last.Null? then [] else [last])
  }

  /** What `convert_numbers(v)` returns. The branches are tried in the
      source's order: dict, list, bool, int/float, None, anything else. */
  function Convert(v: Value): (r: Value)
    decreases v
    ensures r.Null? <==> v.Null?
    ensures r.Obj? <==> v.Obj?
    ensures r.Arr? <==> v.Arr?
    ensures !r.Num?
    ensures v.Bool? || v.Str? || v.Dec? ==> r == v
    ensures v.Num? ==> r == Dec(v.n)
  {
    match v
    case Obj(fields) =>
      Obj(DropNullFields(seq(|fields|, i requires 0 <= i < |fields| => (fields[i].0, Convert(fields[i].1)))))
    case Arr(items) =>
      Arr(DropNullItems(seq(|items|, i requires 0 <= i < |items| => Convert(items[i]))))
    case Bool(_) => v
    case Num(n) => Dec(n)
    case Null => Null
    case _ => v
  }

  /** The entries of a dict after conversion and before dropping. */
  function ConvertedFields(fields: seq<(string, Value)>): (m: seq<(string, Value)>)
    ensures |m| == |fields|
    ensures forall i :: 0 <= i < |fields| ==> m[i] == (fields[i].0, Convert(fields[i].1))
  {
    seq(|fields|, i requires 0 <= i < |fields| => (fields[i].0, Convert(fields[i].1)))
  }

  /** The elements of a list after conversion and before dropping. */
  function ConvertedItems(items: seq<Value>): (m: seq<Value>)
    ensures |m| == |items|
    ensures forall i :: 0 <= i < |items| ==> m[i] == Convert(items[i])
  {
    seq(|items|, i requires 0 <= i < |items| => Convert(items[i]))
  }

  /** The source's own algorithm: a fresh `out` built by a loop that
      converts each child and appends it unless it converted to None. */
  method ConvertNumbers(v: Value) returns (r: Value)
    decreases v, 1
    ensures r == Convert(v)
  {
    match v {
      case Obj(_) =>
        r := ConvertDictLoop(v);
      case Arr(_) =>
        r := ConvertListLoop(v);
      case Bool(_) =>
        r := v;
      case Num(n) =>
        r := Dec(n);
      case Null =>
        r := Null;
      case _ =>
        r := v;
    }
  }

  /** The dict branch: a fresh `out`, one entry appended per key whose
      converted value is not None. */
  method ConvertDictLoop(v: Value) returns (r: Value)
    requires v.Obj?
    decreases v, 0
    ensures r == Convert(v)
  {
    var fields := v.fields;
    var out: seq<(string, Value)> := [];
    for i := 0 to |fields|
      invariant out == DropNullFields(ConvertedFields(fields[..i]))
    {
      var converted := ConvertNumbers(fields[i].1);
      assert ConvertedFields(fields[..i + 1]) == ConvertedFields(fields[..i]) + [(fields[i].0, converted)];
      if !converted.Null? {
        out := out + [(fields[i].0, converted)];
      }
    }
    assert fields[..|fields|] == fields;
    assert ConvertedFields(fields) == seq(|fields|, i requires 0 <= i < |fields| => (fields[i].0, Convert(fields[i].1)));
    r := Obj(out);
  }

  /** The list branch: a fresh `out`, one element appended per item whose
      converted value is not None. */
  method ConvertListLoop(v: Value) returns (r: Value)
    requires v.Arr?
    decreases v, 0
    ensures r == Convert(v)
  {
    var items := v.items;
    var out: seq<Value> := [];
    for i := 0 to |items|
      invariant out == DropNullItems(ConvertedItems(items[..i]))
    {
      var converted := ConvertNumbers(items[i]);
      assert ConvertedItems(items[..i + 1]) == ConvertedItems(items[..i]) + [converted];
      if !converted.Null? {
        out := out + [converted];
      }
    }
    assert items[..|items|] == items;
    assert ConvertedItems(items) == seq(|items|, i requires 0 <= i < |items| => Convert(items[i]));
    r := Arr(out);
  }

  // ---------------------------------------------------------------------
  // No None anywhere in the output

  /** No dict entry and no list element, at any depth, is None. */
  predicate NullFree(w: Value)
    decreases w
  {
    match w
    case Obj(fields) => forall i :: 0 <= i < |fields| ==> !fields[i].1.Null? && NullFree(fields[i].1)
    case Arr(items) => forall i :: 0 <= i < |items| ==> !items[i].Null? && NullFree(items[i])
    case _ => true
  }

  lemma {:induction false} DropNullFieldsIn(m: seq<(string, Value)>, e: (string, Value))
    requires e in DropNullFields(m)
    ensures e in m && !e.1.Null?
  {
    if m != [] {
      if e in DropNullFields(m[..|m| - 1]) {
        DropNullFieldsIn(m[..|m| - 1], e);
      }
    }
  }

  lemma {:induction false} DropNullItemsIn(m: seq<Value>, x: Value)
    requires x in DropNullItems(m)
    ensures x in m && !x.Null?
  {
    if m != [] {
      if x in DropNullItems(m[..|m| - 1]) {
        DropNullItemsIn(m[..|m| - 1], x);
      }
    }
  }

  /** The converted value never holds a None inside a dict or a list. */
  lemma {:induction false} ConvertNullFree(v: Value)
    decreases v
    ensures NullFree(Convert(v))
  {
    match v
    case Obj(fields) =>
      var out := Convert(v).fields;
      forall i | 0 <= i < |out|
        ensures !out[i].1.Null? && NullFree(out[i].1)
      {
        assert out[i] in DropNullFields(ConvertedFields(fields));
        DropNullFieldsIn(ConvertedFields(fields), out[i]);
        var j :| 0 <= j < |fields| && ConvertedFields(fields)[j] == out[i];
        ConvertNullFree(fields[j].1);
      }
    case Arr(items) =>
      var out := Convert(v).items;
      forall i | 0 <= i < |out|
        ensures !out[i].Null? && NullFree(out[i])
      {
        assert out[i] in DropNullItems(ConvertedItems(items));
        DropNullItemsIn(ConvertedItems(items), out[i]);
        var j :| 0 <= j < |items| && ConvertedItems(items)[j] == out[i];
        ConvertNullFree(items[j]);
      }
    case _ =>
  }

  // ---------------------------------------------------------------------
  // Dicts: the surviving keys, each with its converted value

  /** A key survives exactly when its value is not None; it then maps to
      the converted value. */
  function Surviving(fields: seq<(string, Value)>, k: string): Option<Value>
  {
    match Lookup(fields, k)
    case None => None
    case Some(x) => if x.Null? then None else Some(Convert(x))
  }

  lemma {:induction false} DropNullFieldsLookup(m: seq<(string, Value)>, k: string)
    requires DistinctKeys(m)
    ensures DistinctKeys(DropNullFields(m))
    ensures Lookup(DropNullFields(m), k) ==
            match Lookup(m, k)
            case None => None
            case Some(x) => if x.Null? then None else Some(x)
  {
    if m != [] {
      var init, last := m[..|m| - 1], m[|m| - 1];
      assert m == init + [last];
      assert DistinctKeys(init);
      DropNullFieldsLookup(init, k);
      var d := DropNullFields(init);
      assert forall i :: 0 <= i < |init| ==> init[i].0 != last.0;
      LookupAppend(init, last, k);
      if !last.1.Null? {
        LookupAppend(d, last, k);
        forall i | 0 <= i < |d|
          ensures d[i].0 != last.0
        {
          DropNullFieldsIn(init, d[i]);
        }
        if Lookup(init, k).Some? {
          LookupFinds(init, k);
          assert k != last.0;
        }
        assert DropNullFields(m) == d + [last];
        assert DistinctKeys(d + [last]);
      } else {
        assert DropNullFields(m) == d;
      }
    }
  }

  /** Looking up in `m + [e]` finds `m`'s entry, or else `e`'s. */
  lemma {:induction false} LookupAppend(m: seq<(string, Value)>, e: (string, Value), k: string)
    ensures Lookup(m + [e], k) == if Lookup(m, k).Some? then Lookup(m, k) else if e.0 == k then Some(e.1) else None
  {
    if m != [] {
      assert (m + [e])[1..] == m[1..] + [e];
      LookupAppend(m[1..], e, k);
    }
  }

  /** For a dict with distinct keys, the output dict has distinct keys, its
      keys are the input keys minus those whose value is None, and each maps
      to the converted value. */
  lemma ConvertDict(fields: seq<(string, Value)>)
    requires DistinctKeys(fields)
    ensures DistinctKeys(Convert(Obj(fields)).fields)
    ensures forall k :: Lookup(Convert(Obj(fields)).fields, k) == Surviving(fields, k)
  {
    var m := ConvertedFields(fields);
    assert Convert(Obj(fields)).fields == DropNullFields(m);
    assert forall i :: 0 <= i < |m| ==> m[i].0 == fields[i].0;
    assert DistinctKeys(m);
    DropNullFieldsLookup(m, "");
    forall k
      ensures Lookup(DropNullFields(m), k) == Surviving(fields, k)
    {
      DropNullFieldsLookup(m, k);
      ConvertedLookup(fields, k);
    }
  }

  lemma {:induction false} ConvertedLookup(fields: seq<(string, Value)>, k: string)
    ensures Lookup(ConvertedFields(fields), k) ==
            match Lookup(fields, k)
            case None => None
            case Some(x) => Some(Convert(x))
  {
    if fields != [] {
      assert ConvertedFields(fields)[1..] == ConvertedFields(fields[1..]);
      ConvertedLookup(fields[1..], k);
    }
  }

  /** The output keys are the input keys whose value is not None, in the
      input's order. */
  lemma ConvertDictKeys(fields: seq<(string, Value)>)
    ensures Keys(Convert(Obj(fields)).fields) == Keys(DropNullFields(fields))
  {
    KeysKept(fields, ConvertedFields(fields));
  }

  lemma {:induction false} KeysKept(fields: seq<(string, Value)>, m: seq<(string, Value)>)
    requires |m| == |fields|
    requires forall i :: 0 <= i < |fields| ==> m[i].0 == fields[i].0 && (m[i].1.Null? <==> fields[i].1.Null?)
    ensures Keys(DropNullFields(m)) == Keys(DropNullFields(fields))
  {
    if fields != [] {
      var n := |fields| - 1;
      KeysKept(fields[..n], m[..n]);
      var dm, df := DropNullFields(m[..n]), DropNullFields(fields[..n]);
      if m[n].1.Null? {
        assert DropNullFields(m) == dm;
        assert DropNullFields(fields) == df;
      } else {
        assert Keys(dm + [m[n]]) == Keys(dm) + [m[n].0];
        assert Keys(df + [fields[n]]) == Keys(df) + [fields[n].0];
      }
    }
  }

  // ---------------------------------------------------------------------
  // Lists: the surviving elements, in their order

  /** Converting a list is dropping its None elements and converting the
      rest, each in place: surviving elements keep their relative order. */
  lemma ConvertList(items: seq<Value>)
    ensures Convert(Arr(items)).items ==
            seq(|DropNullItems(items)|, i requires 0 <= i < |DropNullItems(items)| => Convert(DropNullItems(items)[i]))
  {
    DropThenConvert(items);
  }

  lemma {:induction false} DropThenConvert(items: seq<Value>)
    ensures DropNullItems(ConvertedItems(items)) == ConvertedItems(DropNullItems(items))
  {
    if items != [] {
      var n := |items| - 1;
      assert ConvertedItems(items)[..n] == ConvertedItems(items[..n]);
      DropThenConvert(items[..n]);
      if !items[n].Null? {
        assert ConvertedItems(DropNullItems(items[..n]) + [items[n]]) ==
               ConvertedItems(DropNullItems(items[..n])) + [Convert(items[n])];
      }
    }
  }

  /** Every None is dropped and nothing else is: the output list is as long
      as the input minus its None elements. */
  function CountNulls(items: seq<Value>): nat
  {
    if items == [] then 0 else CountNulls(items[..|items| - 1]) + (if items[|items| - 1].Null? then 1 else 0)
  }

  lemma ConvertListLength(items: seq<Value>)
    ensures |Convert(Arr(items)).items| == |items| - CountNulls(items)
  {
    DropThenConvert(items);
    DropLength(items);
  }

  lemma {:induction false} DropLength(items: seq<Value>)
    ensures |DropNullItems(items)| + CountNulls(items) == |items|
  {
    if items != [] {
      DropLength(items[..|items| - 1]);
    }
  }

  /** Nested empty dicts are kept as `{}`, and so are dicts all of whose
      values are None. */
  lemma EmptyDictKept(k: string, fields: seq<(string, Value)>)
    requires forall i :: 0 <= i < |fields| ==> fields[i].1.Null?
    ensures Convert(Obj(fields)) == Obj([])
    ensures Convert(Obj([(k, Obj(fields))])) == Obj([(k, Obj([]))])
  {
    AllNullDropped(ConvertedFields(fields));
    var inner := ConvertedFields([(k, Obj(fields))]);
    assert inner == [(k, Obj([]))];
    assert DropNullFields(inner) == DropNullFields(inner[..0]) + [(k, Obj([]))];
  }

  lemma {:induction false} AllNullDropped(m: seq<(string, Value)>)
    requires forall i :: 0 <= i < |m| ==> m[i].1.Null?
    ensures DropNullFields(m) == []
  {
    if m != [] {
      AllNullDropped(m[..|m| - 1]);
    }
  }

  // ---------------------------------------------------------------------
  // Idempotence

  /** What `convert_numbers` produces: no int/float leaf and no None
      inside a dict or list. */
  predicate Canonical(w: Value)
    decreases w
  {
    match w
    case Num(_) => false
    case Obj(fields) => forall i :: 0 <= i < |fields| ==> !fields[i].1.Null? && Canonical(fields[i].1)
    case Arr(items) => forall i :: 0 <= i < |items| ==> !items[i].Null? && Canonical(items[i])
    case _ => true
  }

  lemma {:induction false} ConvertCanonical(v: Value)
    decreases v
    ensures Canonical(Convert(v))
  {
    match v
    case Obj(fields) =>
      var out := Convert(v).fields;
      forall i | 0 <= i < |out|
        ensures !out[i].1.Null? && Canonical(out[i].1)
      {
        assert out[i] in DropNullFields(ConvertedFields(fields));
        DropNullFieldsIn(ConvertedFields(fields), out[i]);
        var j :| 0 <= j < |fields| && ConvertedFields(fields)[j] == out[i];
        ConvertCanonical(fields[j].1);
      }
    case Arr(items) =>
      var out := Convert(v).items;
      forall i | 0 <= i < |out|
        ensures !out[i].Null? && Canonical(out[i])
      {
        assert out[i] in DropNullItems(ConvertedItems(items));
        DropNullItemsIn(ConvertedItems(items), out[i]);
        var j :| 0 <= j < |items| && ConvertedItems(items)[j] == out[i];
        ConvertCanonical(items[j]);
      }
    case _ =>
  }

  lemma {:induction false} NoNullKept(m: seq<(string, Value)>)
    requires forall i :: 0 <= i < |m| ==> !m[i].1.Null?
    ensures DropNullFields(m) == m
  {
    if m != [] {
      NoNullKept(m[..|m| - 1]);
    }
  }

  lemma {:induction false} NoNullItemKept(m: seq<Value>)
    requires forall i :: 0 <= i < |m| ==> !m[i].Null?
    ensures DropNullItems(m) == m
  {
    if m != [] {
      NoNullItemKept(m[..|m| - 1]);
    }
  }

  /** A canonical value is a fixed point of the conversion. */
  lemma {:induction false} CanonicalFixed(w: Value)
    requires Canonical(w)
    decreases w
    ensures Convert(w) == w
  {
    match w
    case Obj(fields) =>
      var m := ConvertedFields(fields);
      forall i | 0 <= i < |fields|
        ensures m[i] == fields[i]
      {
        CanonicalFixed(fields[i].1);
      }
      assert m == fields;
      NoNullKept(fields);
    case Arr(items) =>
      var m := ConvertedItems(items);
      forall i | 0 <= i < |items|
        ensures m[i] == items[i]
      {
        CanonicalFixed(items[i]);
      }
      assert m == items;
      NoNullItemKept(items);
    case _ =>
  }

  /** `convert_numbers` is idempotent. */
  lemma ConvertIdempotent(v: Value)
    ensures Convert(Convert(v)) == Convert(v)
  {
    ConvertCanonical(v);
    CanonicalFixed(Convert(v));
  }
}
