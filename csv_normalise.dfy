/** The CSV-to-JSON normaliser of lambda_handler.py: each CSV row (a dict
    from column name to cell text, as `csv.DictReader` yields it) becomes a
    seven-field record; rows without a timestamp are dropped and the rest
    are sorted by timestamp.

    Float parsing (`float(s)`) is a parameter `parse`: None stands for the
    `ValueError` that `safe_float` catches. */
module CsvNormalise {
  import opened JsonValue

  /** A CSV row: column name to cell text. A column the row lacks is absent. */
  type Row = map<string, string>

  /** `r.get(k)`. */
  function Cell(r: Row, k: string): Option<string>
  {
    if k in r then Some(r[k]) else None
  }

  /** Python truthiness of `r.get(k)`: present and not empty. */
  predicate TruthyCell(c: Option<string>)
  {
    c.Some? && c.value != ""
  }

  /** Python's `a or b` on two cell values. */
  function Or(a: Option<string>, b: Option<string>): Option<string>
  {
    if TruthyCell(a) then a else b
  }

  /** `safe_float(x)`: None for `''`, None for a missing cell (`float(None)`
      raises and is caught), otherwise whatever `float` makes of the text. */
  function SafeFloat(parse: string -> Option<real>, x: Option<string>): (r: Option<real>)
    ensures x.None? || (x.Some? && x.value == "") ==> r.None?
    ensures x.Some? && x.value != "" ==> r == parse(x.value)
  {
    match x
    case None => None
    case Some(s) => if s == "" then None else parse(s)
  }

  /** A normalised row: the seven keys of the output dict. */
  datatype NormRow = NormRow(
    timestampC: string,
    aqi: Option<real>,
    temperatureC: Option<real>,
    pm2_5: Option<real>,
    humidity: Option<real>,
    rain1h: Option<real>,
    cityId: string)

  const TimestampAliases: seq<string> := ["timestamp_c", "timestamp", "ts"]

  /** `r.get('timestamp_c') or r.get('timestamp') or r.get('ts') or ''`. */
  function Timestamp(r: Row): string
  {
    var c := Or(Or(Cell(r, "timestamp_c"), Cell(r, "timestamp")), Cell(r, "ts"));
    if TruthyCell(c) then c.value else ""
  }

  /** `normalize_row(r)`: `city_id` is never empty, and `timestamp_c` is
      non-empty exactly when the row passes the handler's filter. */
  function NormalizeRow(parse: string -> Option<real>, r: Row): (n: NormRow)
    ensures n.cityId != ""
    ensures n.timestampC != "" <==> HasTimestamp(r)
  {
    var city := Or(Cell(r, "city_id"), Cell(r, "city"));
    NormRow(
      Timestamp(r),
      SafeFloat(parse, Or(Cell(r, "aqi"), Cell(r, "AQI"))),
      SafeFloat(parse, Or(Cell(r, "temperature_c"), Cell(r, "temp"))),
      SafeFloat(parse, Or(Cell(r, "pm2_5"), Cell(r, "pm25"))),
      SafeFloat(parse, Cell(r, "humidity")),
      SafeFloat(parse, Or(Cell(r, "rain_1h"), Cell(r, "rain"))),
      if TruthyCell(city) then city.value else "Unknown")
  }

  // ---------------------------------------------------------------------
  // The alias rule, stated independently of the `or`-chains

  /** The text of the first alias whose cell is non-empty, if any. */
  function FirstTruthy(r: Row, aliases: seq<string>): Option<string>
  {
    if aliases == [] then None
    else if TruthyCell(Cell(r, aliases[0])) then Cell(r, aliases[0])
    else FirstTruthy(r, aliases[1..])
  }

  /** What `FirstTruthy` finds is the cell of some alias, every earlier alias
      is missing or empty, and it finds nothing only when all of them are. */
  lemma {:induction false} FirstTruthySpec(r: Row, aliases: seq<string>)
    ensures FirstTruthy(r, aliases).None? <==>
            forall i :: 0 <= i < |aliases| ==> !TruthyCell(Cell(r, aliases[i]))
    ensures FirstTruthy(r, aliases).Some? ==>
            exists i :: 0 <= i < |aliases| && Cell(r, aliases[i]) == FirstTruthy(r, aliases)
                     && FirstTruthy(r, aliases).value != ""
                     && forall j :: 0 <= j < i ==> !TruthyCell(Cell(r, aliases[j]))
  {
    if aliases != [] && !TruthyCell(Cell(r, aliases[0])) {
      FirstTruthySpec(r, aliases[1..]);
      assert forall i :: 1 <= i < |aliases| ==> aliases[i] == aliases[1..][i - 1];
      if FirstTruthy(r, aliases).Some? {
        var i :| 0 <= i < |aliases[1..]| && Cell(r, aliases[1..][i]) == FirstTruthy(r, aliases)
                 && FirstTruthy(r, aliases).value != ""
                 && forall j :: 0 <= j < i ==> !TruthyCell(Cell(r, aliases[1..][j]));
        assert forall j :: 0 <= j < i + 1 ==> !TruthyCell(Cell(r, aliases[j])) by {
          forall j | 0 <= j < i + 1
            ensures !TruthyCell(Cell(r, aliases[j]))
          {
            if j > 0 {
              assert aliases[j] == aliases[1..][j - 1];
            }
          }
        }
      }
    }
  }

  /** A numeric field parses the first non-empty alias, and is None when
      every alias is missing or empty. */
  function ParsedAlias(parse: string -> Option<real>, r: Row, aliases: seq<string>): Option<real>
  {
    match FirstTruthy(r, aliases)
    case None => None
    case Some(s) => parse(s)
  }

  /** Every field of `normalize_row` follows the alias rule: `timestamp_c` is
      the first non-empty of `timestamp_c`, `timestamp`, `ts` or `''`; `aqi`,
      `temperature_c`, `pm2_5`, `rain_1h` parse the first non-empty of their
      two aliases; `city_id` is the first non-empty of `city_id`, `city` or
      `'Unknown'`. */
  lemma NormalizeRowAliases(parse: string -> Option<real>, r: Row)
    ensures var n := NormalizeRow(parse, r);
            && n.timestampC == (match FirstTruthy(r, TimestampAliases) case None => "" case Some(s) => s)
            && n.aqi == ParsedAlias(parse, r, ["aqi", "AQI"])
            && n.temperatureC == ParsedAlias(parse, r, ["temperature_c", "temp"])
            && n.pm2_5 == ParsedAlias(parse, r, ["pm2_5", "pm25"])
            && n.humidity == ParsedAlias(parse, r, ["humidity"])
            && n.rain1h == ParsedAlias(parse, r, ["rain_1h", "rain"])
            && n.cityId == (match FirstTruthy(r, ["city_id", "city"]) case None => "Unknown" case Some(s) => s)
  {
    TwoAliases(parse, r, "aqi", "AQI");
    TwoAliases(parse, r, "temperature_c", "temp");
    TwoAliases(parse, r, "pm2_5", "pm25");
    TwoAliases(parse, r, "rain_1h", "rain");
    assert FirstTruthy(r, ["humidity"]) == if TruthyCell(Cell(r, "humidity")) then Cell(r, "humidity") else None by {
      assert ["humidity"][1..] == [];
    }
    FirstTruthyTwo(r, "city_id", "city");
    FirstTruthyTwo(r, "timestamp", "ts");
    assert FirstTruthy(r, TimestampAliases) ==
           if TruthyCell(Cell(r, "timestamp_c")) then Cell(r, "timestamp_c") else FirstTruthy(r, ["timestamp", "ts"]) by {
      assert TimestampAliases[0] == "timestamp_c" && TimestampAliases[1..] == ["timestamp", "ts"];
    }
  }

  /** With two aliases: the first non-empty of the two cells, if any. */
  lemma FirstTruthyTwo(r: Row, a: string, b: string)
    ensures FirstTruthy(r, [a, b]) ==
            if TruthyCell(Cell(r, a)) then Cell(r, a) else if TruthyCell(Cell(r, b)) then Cell(r, b) else None
  {
    var l := [a, b];
    assert l[0] == a && l[1..] == [b];
    assert [b][0] == b && [b][1..] == [];
    assert FirstTruthy(r, [b]) == if TruthyCell(Cell(r, b)) then Cell(r, b) else FirstTruthy(r, []);
    assert FirstTruthy(r, l) == if TruthyCell(Cell(r, a)) then Cell(r, a) else FirstTruthy(r, [b]);
  }

  /** `safe_float(r.get(a) or r.get(b))` parses the first non-empty of the
      two cells: an empty first cell falls through to the second. */
  lemma TwoAliases(parse: string -> Option<real>, r: Row, a: string, b: string)
    ensures SafeFloat(parse, Or(Cell(r, a), Cell(r, b))) == ParsedAlias(parse, r, [a, b])
  {
    FirstTruthyTwo(r, a, b);
  }

  /** The source's alias example: an `aqi` column that is present but empty
      falls through to `AQI`. */
  lemma EmptyFirstAliasFallsThrough(parse: string -> Option<real>, r: Row)
    requires "aqi" in r && r["aqi"] == ""
    requires "AQI" in r && r["AQI"] != ""
    ensures NormalizeRow(parse, r).aqi == parse(r["AQI"])
  {
  }

  // ---------------------------------------------------------------------
  // The output dict

  const NormKeys: seq<string> :=
    ["timestamp_c", "aqi", "temperature_c", "pm2_5", "humidity", "rain_1h", "city_id"]

  function OptNum(x: Option<real>): Value
  {
    match x
    case None => Null
    case Some(v) => Num(v)
  }

  /** The normalised row as the dict `json.dumps` writes. */
  function ToJson(n: NormRow): Value
  {
    Obj([("timestamp_c", Str(n.timestampC)), ("aqi", OptNum(n.aqi)),
         ("temperature_c", OptNum(n.temperatureC)), ("pm2_5", OptNum(n.pm2_5)),
         ("humidity", OptNum(n.humidity)), ("rain_1h", OptNum(n.rain1h)),
         ("city_id", Str(n.cityId))])
  }

  /** Every normalised row has exactly the seven keys, once each, in this
      order, and `timestamp_c` and `city_id` are strings. */
  lemma ToJsonKeys(n: NormRow)
    ensures ToJson(n).Obj? && Keys(ToJson(n).fields) == NormKeys
    ensures DistinctKeys(ToJson(n).fields)
    ensures Lookup(ToJson(n).fields, "timestamp_c") == Some(Str(n.timestampC))
    ensures Lookup(ToJson(n).fields, "city_id") == Some(Str(n.cityId))
  {
    var f := ToJson(n).fields;
    assert forall i :: 0 <= i < 7 ==> f[i].0 == NormKeys[i];
    assert DistinctKeys(f);
    LookupAt(f, 0);
    LookupAt(f, 6);
  }

  // ---------------------------------------------------------------------
  // The filter (line 33)

  /** The comprehension's guard: some timestamp alias is non-empty. */
  predicate HasTimestamp(r: Row)
  {
    TruthyCell(Or(Or(Cell(r, "timestamp_c"), Cell(r, "timestamp")), Cell(r, "ts")))
  }

  /** `[normalize_row(r) for r in reader if ...]`: at most one output row
      per input row. */
  function Kept(parse: string -> Option<real>, rows: seq<Row>): (kept: seq<NormRow>)
    ensures |kept| <= |rows|
  {
    if rows == [] then []
    else (if HasTimestamp(rows[0]) then [NormalizeRow(parse, rows[0])] else [])
         + Kept(parse, rows[1..])
  }

  /** The guard holds exactly when some timestamp alias is non-empty, and
      then `timestamp_c` is not empty. */
  lemma HasTimestampIff(parse: string -> Option<real>, r: Row)
    ensures HasTimestamp(r) <==> exists i :: 0 <= i < |TimestampAliases| && TruthyCell(Cell(r, TimestampAliases[i]))
    ensures HasTimestamp(r) <==> NormalizeRow(parse, r).timestampC != ""
  {
    assert TimestampAliases[0] == "timestamp_c" && TimestampAliases[1] == "timestamp" && TimestampAliases[2] == "ts";
  }

  /** The kept rows are the normalised rows of exactly those input rows that
      have a timestamp; there are at most as many as input rows, and each
      has a non-empty `timestamp_c`. */
  lemma {:induction false} KeptSpec(parse: string -> Option<real>, rows: seq<Row>)
    ensures |Kept(parse, rows)| <= |rows|
    ensures forall n :: n in Kept(parse, rows) ==> n.timestampC != ""
    ensures forall n :: n in Kept(parse, rows) <==>
              exists i :: 0 <= i < |rows| && HasTimestamp(rows[i]) && NormalizeRow(parse, rows[i]) == n
  {
    if rows != [] {
      KeptSpec(parse, rows[1..]);
      HasTimestampIff(parse, rows[0]);
      forall n
        ensures n in Kept(parse, rows) <==>
                exists i :: 0 <= i < |rows| && HasTimestamp(rows[i]) && NormalizeRow(parse, rows[i]) == n
      {
        if n in Kept(parse, rows[1..]) {
          var i :| 0 <= i < |rows[1..]| && HasTimestamp(rows[1..][i]) && NormalizeRow(parse, rows[1..][i]) == n;
          assert rows[i + 1] == rows[1..][i];
        }
        if exists i :: 0 <= i < |rows| && HasTimestamp(rows[i]) && NormalizeRow(parse, rows[i]) == n {
          var i :| 0 <= i < |rows| && HasTimestamp(rows[i]) && NormalizeRow(parse, rows[i]) == n;
          if i > 0 {
            assert rows[1..][i - 1] == rows[i];
          }
        }
      }
    }
  }

  /** The filter keeps input order: the rows kept from a concatenation are
      those kept from its first part, followed by those kept from its
      second. */
  lemma {:induction false} KeptAppend(parse: string -> Option<real>, a: seq<Row>, b: seq<Row>)
    ensures Kept(parse, a + b) == Kept(parse, a) + Kept(parse, b)
  {
    if a == [] {
      assert a + b == b;
    } else {
      var head := if HasTimestamp(a[0]) then [NormalizeRow(parse, a[0])] else [];
      assert (a + b)[0] == a[0] && (a + b)[1..] == a[1..] + b;
      assert Kept(parse, a + b) == head + Kept(parse, a[1..] + b);
      KeptAppend(parse, a[1..], b);
      assert Kept(parse, a) == head + Kept(parse, a[1..]);
    }
  }

  // ---------------------------------------------------------------------
  // The sort (line 35): Python's stable `sorted`, keyed on `timestamp_c`

  /** Python's `<=` on strings: code point by code point, a prefix first. */
  predicate LexLe(a: string, b: string)
  {
    a == [] || (b != [] && (a[0] < b[0] || (a[0] == b[0] && LexLe(a[1..], b[1..]))))
  }

  lemma {:induction false} LexLeRefl(a: string)
    ensures LexLe(a, a)
  {
    if a != [] {
      LexLeRefl(a[1..]);
    }
  }

  lemma {:induction false} LexLeTotal(a: string, b: string)
    ensures LexLe(a, b) || LexLe(b, a)
  {
    if a != [] && b != [] && a[0] == b[0] {
      LexLeTotal(a[1..], b[1..]);
    }
  }

  lemma {:induction false} LexLeTrans(a: string, b: string, c: string)
    requires LexLe(a, b) && LexLe(b, c)
    ensures LexLe(a, c)
  {
    if a != [] && a[0] == b[0] && b[0] == c[0] {
      LexLeTrans(a[1..], b[1..], c[1..]);
    }
  }

  lemma {:induction false} LexLeAntisym(a: string, b: string)
    requires LexLe(a, b) && LexLe(b, a)
    ensures a == b
  {
    if a != [] {
      LexLeAntisym(a[1..], b[1..]);
      assert a == [a[0]] + a[1..] && b == [b[0]] + b[1..];
    }
  }

  /** `x.get('timestamp_c') or ''`: `timestamp_c` is always a string. */
  function SortKey(n: NormRow): string
  {
    n.timestampC
  }

  predicate Sorted(s: seq<NormRow>)
  {
    forall i, j :: 0 <= i < j < |s| ==> LexLe(SortKey(s[i]), SortKey(s[j]))
  }

  /** Puts `x` before the first element whose key is not below its own, so
      that `x` stays ahead of the equal keys that came after it. */
  function Insert(x: NormRow, s: seq<NormRow>): (r: seq<NormRow>)
    ensures |r| == |s| + 1
  {
    if s == [] then [x]
    else if LexLe(SortKey(x), SortKey(s[0])) then [x] + s
    else [s[0]] + Insert(x, s[1..])
  }

  /** `sorted(rows, key=...)`: as many rows as it was given. */
  function SortByTimestamp(s: seq<NormRow>): (r: seq<NormRow>)
    ensures |r| == |s|
  {
    if s == [] then [] else Insert(s[0], SortByTimestamp(s[1..]))
  }

  lemma {:induction false} InsertPerm(x: NormRow, s: seq<NormRow>)
    ensures multiset(Insert(x, s)) == multiset([x] + s)
  {
    if s != [] && !LexLe(SortKey(x), SortKey(s[0])) {
      InsertPerm(x, s[1..]);
      assert s == [s[0]] + s[1..];
    }
  }

  lemma {:induction false} InsertSorted(x: NormRow, s: seq<NormRow>)
    requires Sorted(s)
    ensures Sorted(Insert(x, s))
  {
    if s == [] {
    } else if LexLe(SortKey(x), SortKey(s[0])) {
      forall j | 0 < j < |s| + 1
        ensures LexLe(SortKey(x), SortKey(([x] + s)[j]))
      {
        if j > 1 {
          LexLeTrans(SortKey(x), SortKey(s[0]), SortKey(s[j - 1]));
        }
      }
    } else {
      var t := Insert(x, s[1..]);
      InsertSorted(x, s[1..]);
      InsertPerm(x, s[1..]);
      LexLeTotal(SortKey(x), SortKey(s[0]));
      forall j | 0 <= j < |t|
        ensures LexLe(SortKey(s[0]), SortKey(t[j]))
      {
        assert t[j] in multiset([x] + s[1..]);
        if t[j] != x {
          assert t[j] in s[1..];
        }
      }
      assert Sorted([s[0]] + t);
    }
  }

  /** The rows with key `k`, in order. */
  function WithKey(s: seq<NormRow>, k: string): seq<NormRow>
  {
    if s == [] then []
    else (if SortKey(s[0]) == k then [s[0]] else []) + WithKey(s[1..], k)
  }

  lemma {:induction false} InsertStable(x: NormRow, s: seq<NormRow>, k: string)
    ensures WithKey(Insert(x, s), k) == (if SortKey(x) == k then [x] else []) + WithKey(s, k)
  {
    if s == [] {
    } else if LexLe(SortKey(x), SortKey(s[0])) {
      assert ([x] + s)[0] == x && ([x] + s)[1..] == s;
    } else {
      var t := Insert(x, s[1..]);
      var head := if SortKey(s[0]) == k then [s[0]] else [];
      assert ([s[0]] + t)[0] == s[0] && ([s[0]] + t)[1..] == t;
      assert WithKey(Insert(x, s), k) == head + WithKey(t, k);
      InsertStable(x, s[1..], k);
      LexLeRefl(SortKey(x));
      assert SortKey(x) != SortKey(s[0]);
      assert WithKey(s, k) == head + WithKey(s[1..], k);
    }
  }

  /** The sort is sorted, a permutation of its input, and stable: for every
      key, the rows with that key appear in their input order. */
  lemma {:induction false} SortSpec(s: seq<NormRow>)
    ensures Sorted(SortByTimestamp(s))
    ensures multiset(SortByTimestamp(s)) == multiset(s)
    ensures forall k :: WithKey(SortByTimestamp(s), k) == WithKey(s, k)
  {
    if s != [] {
      SortSpec(s[1..]);
      InsertSorted(s[0], SortByTimestamp(s[1..]));
      InsertPerm(s[0], SortByTimestamp(s[1..]));
      assert s == [s[0]] + s[1..];
      forall k
        ensures WithKey(SortByTimestamp(s), k) == WithKey(s, k)
      {
        InsertStable(s[0], SortByTimestamp(s[1..]), k);
      }
    }
  }

  // ---------------------------------------------------------------------
  // The handler (lines 33-37)

  /** What `lambda_handler` returns and writes: `written` and the rows of
      the JSON body. */
  datatype Output = Output(written: nat, rows: seq<NormRow>)

  /** `written` counts the rows of the body, at most one per input row. */
  function Handle(parse: string -> Option<real>, rows: seq<Row>): (o: Output)
    ensures o.written == |o.rows| <= |rows|
  {
    var out := SortByTimestamp(Kept(parse, rows));
    Output(|out|, out)
  }

  /** The written rows are the kept rows, sorted by timestamp and stable;
      `written` is their number, at most the number of input rows; each has
      a non-empty `timestamp_c`; a row appears exactly when some input row
      with a timestamp normalises to it. */
  lemma HandleSpec(parse: string -> Option<real>, rows: seq<Row>)
    ensures var o := Handle(parse, rows);
            && o.written == |o.rows| <= |rows|
            && Sorted(o.rows)
            && multiset(o.rows) == multiset(Kept(parse, rows))
            && (forall k :: WithKey(o.rows, k) == WithKey(Kept(parse, rows), k))
            && (forall n :: n in o.rows ==> n.timestampC != "")
            && (forall n :: n in o.rows <==>
                  exists i :: 0 <= i < |rows| && HasTimestamp(rows[i]) && NormalizeRow(parse, rows[i]) == n)
  {
    var kept := Kept(parse, rows);
    KeptSpec(parse, rows);
    SortSpec(kept);
    var o := Handle(parse, rows);
    assert |multiset(o.rows)| == |multiset(kept)|;
    forall n
      ensures n in o.rows <==> n in kept
    {
      assert n in o.rows <==> n in multiset(o.rows);
      assert n in kept <==> n in multiset(kept);
    }
  }
}
