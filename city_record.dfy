/** The record assembly of `lambda_handler` in
    lambdas/fetch_city_data/package/app.py: the weather and air-quality
    payloads (already fetched) and one reading of the clock become the record
    for the keyed store, its canonical copy, and the blob-store writes.

    The clock is an input: the two `isoformat()` strings and the integer
    epoch seconds. A single epoch serves both `timestamp_epoch` and `ttl`. */
module CityRecord {
  import opened JsonValue
  import opened Canonicalise
  import opened BlobKey

  /** 60 * 60 * 24 * 14: the records expire fourteen days after ingestion. */
  const TtlSeconds: int := 60 * 60 * 24 * 14

  /** One reading of the clock. */
  datatype Clock = Clock(utcIso: string, istIso: string, epoch: int, utc: UtcTime)

  // ---------------------------------------------------------------------
  // Weather fields (lines 136-139): evaluated outside any `try`

  /** `(weather.get(section, {}) or {})`, which must be a dict for the
      following `.get` not to raise: the entries of that dict. */
  function Section(weather: Value, section: string): (r: Result<seq<(string, Value)>>)
    ensures r.Raise? <==> !SectionIsDict(weather, section)
    ensures r.Raise? ==> r.error == AttributeError
    ensures r.Ok? ==> weather.Obj? &&
                      match Lookup(weather.fields, section)
                      case Some(p) => r.value == (if Truthy(p) then p.fields else [])
                      case None => r.value == []
  {
    var part :- Get(weather, section, Obj([]));
    var d := OrEmptyDict(part);
    if d.Obj? then Ok(d.fields) else Raise(AttributeError)
  }

  /** The value a dict holds under `k`, None when absent: `d.get(k)`. */
  function GetOrNull(fields: seq<(string, Value)>, k: string): Value
  {
    match Lookup(fields, k)
    case Some(x) => x
    case None => Null
  }

  /** `((weather.get("rain") or {}).get("1h", 0) or 0)`. */
  function Rain1h(weather: Value): (r: Result<Value>)
    ensures r.Raise? <==> !SectionIsDict(weather, "rain")
    ensures r.Ok? ==> r.value == Num(0.0) || Truthy(r.value)
  {
    var rain :- Get(weather, "rain", Null);
    var d := OrEmptyDict(rain);
    if !d.Obj? then Raise(AttributeError)
    else
      var h := match Lookup(d.fields, "1h") case Some(x) => x case None => Num(0.0);
      Ok(if Truthy(h) then h else Num(0.0))
  }

  // ---------------------------------------------------------------------
  // Air-quality fields (lines 119-127): one `try` around all four

  datatype AirFields = AirFields(co: Value, pm2_5: Value, pm10: Value, aqi: Value)

  const NoAir := AirFields(Null, Null, Null, Null)

  /** `v[0]` on a decoded JSON value: a list or string gives its first
      element, a dict (whose keys are strings) has no key 0. */
  function First(v: Value): Result<Value>
  {
    match v
    case Arr(items) => if items == [] then Raise(IndexError) else Ok(items[0])
    case Str(s) => if s == "" then Raise(IndexError) else Ok(Str([s[0]]))
    case Obj(_) => Raise(KeyError)
    case _ => Raise(TypeError)
  }

  /** The body of the `try`. The source evaluates `air.get("list",
      [{}])[0]` twice, with the same result both times; the dict gets on an
      entry already known to be a dict cannot raise and are plain lookups. */
  function TryAir(air: Value): (r: Result<AirFields>)
    ensures r.Ok? <==> AirShaped(air)
  {
    var list :- Get(air, "list", Arr([Obj([])]));
    var first :- First(list);
    if !first.Obj? then Raise(AttributeError)
    else
      var comp := match Lookup(first.fields, "components") case Some(c) => c case None => Obj([]);
      var main := match Lookup(first.fields, "main") case Some(m) => m case None => Obj([]);
      if !comp.Obj? || !main.Obj? then Raise(AttributeError)
      else
        Ok(AirFields(GetOrNull(comp.fields, "co"), GetOrNull(comp.fields, "pm2_5"),
                     GetOrNull(comp.fields, "pm10"), GetOrNull(main.fields, "aqi")))
  }

  /** Any exception in the `try` sets all four fields to None together. */
  function ExtractAir(air: Value): (a: AirFields)
    ensures !AirShaped(air) ==> a == NoAir
  {
    match TryAir(air)
    case Ok(fields) => fields
    case Raise(_) => NoAir
  }

  // ---------------------------------------------------------------------
  // The record (lines 130-147)

  /** The record's keys, in the order the source writes them. */
  const RecordKeys: seq<string> :=
    ["city_id", "timestamp", "timestamp_utc", "timestamp_ist", "timestamp_epoch",
     "temperature_c", "humidity", "wind_speed_m_s", "rain_1h_mm", "air_raw",
     "co", "pm2_5", "pm10", "aqi", "ttl"]

  /** The value the record literal writes under its `i`-th key. */
  function RecordValue(i: nat, city: string, clock: Clock, temp: Value, humidity: Value, wind: Value,
                       rain: Value, air: Value, a: AirFields): Value
    requires i < 15
  {
    match i
    case 0 => Str(city)
    case 1 => Str(clock.istIso)
    case 2 => Str(clock.utcIso)
    case 3 => Str(clock.istIso)
    case 4 => Num(clock.epoch as real)
    case 5 => temp
    case 6 => humidity
    case 7 => wind
    case 8 => rain
    case 9 => air
    case 10 => a.co
    case 11 => a.pm2_5
    case 12 => a.pm10
    case 13 => a.aqi
    case _ => Num((clock.epoch + TtlSeconds) as real)
  }

  /** The record dict, given the values of its expressions: each key of
      `RecordKeys` with the value in the same position. */
  function RecordOf(city: string, clock: Clock, temp: Value, humidity: Value, wind: Value,
                    rain: Value, air: Value, a: AirFields): (rec: Value)
    ensures rec.Obj? && Keys(rec.fields) == RecordKeys
  {
    Obj(seq(15, i requires 0 <= i < 15 =>
              (RecordKeys[i], RecordValue(i, city, clock, temp, humidity, wind, rain, air, a))))
  }

  /** The record as `lambda_handler` builds it; raises only where a weather
      expression does. */
  function Assemble(city: string, clock: Clock, weather: Value, air: Value): (r: Result<Value>)
    ensures r.Ok? ==> r.value.Obj? && Keys(r.value.fields) == RecordKeys
    ensures r.Raise? ==> r.error == AttributeError
  {
    var a := ExtractAir(air);
    var main :- Section(weather, "main");
    var wind :- Section(weather, "wind");
    var rain :- Rain1h(weather);
    Ok(RecordOf(city, clock, GetOrNull(main, "temp"), GetOrNull(main, "humidity"),
                GetOrNull(wind, "speed"), rain, air, a))
  }

  // ---------------------------------------------------------------------
  // When the weather expressions raise

  /** `(weather.get(section, {}) or {})` is a dict: the section is absent,
      falsy, or itself a dict. */
  predicate SectionIsDict(weather: Value, section: string)
  {
    weather.Obj? &&
    match Lookup(weather.fields, section)
    case None => true
    case Some(p) => !Truthy(p) || p.Obj?
  }

  predicate WeatherShaped(weather: Value)
  {
    SectionIsDict(weather, "main") && SectionIsDict(weather, "wind") && SectionIsDict(weather, "rain")
  }

  /** Assembly raises exactly when the weather payload is not a dict or one
      of `main`, `wind`, `rain` is a truthy non-dict; the air payload never
      makes it raise. */
  lemma AssembleRaisesIff(city: string, clock: Clock, weather: Value, air: Value)
    ensures Assemble(city, clock, weather, air).Raise? <==> !WeatherShaped(weather)
  {
    if !SectionIsDict(weather, "main") {
      assert Section(weather, "main").Raise?;
    } else if !SectionIsDict(weather, "wind") {
      assert Section(weather, "wind").Raise?;
    } else if !SectionIsDict(weather, "rain") {
      assert Rain1h(weather).Raise?;
    }
  }

  /** Missing or None `main`/`wind` give None for every field read from
      them, without raising. */
  lemma MissingSectionGivesNull(weather: Value, section: string, field: string)
    requires weather.Obj?
    requires Lookup(weather.fields, section).None? || Lookup(weather.fields, section) == Some(Null)
    ensures Section(weather, section).Ok? && GetOrNull(Section(weather, section).value, field) == Null
  {
  }

  /** `rain_1h_mm` is never None: it is 0 when `rain` is absent, None or
      falsy, or when its `1h` entry is absent or falsy; otherwise it is the
      `1h` value. */
  lemma RainRule(weather: Value)
    requires SectionIsDict(weather, "rain")
    ensures Rain1h(weather).Ok? && !Rain1h(weather).value.Null?
    ensures var rain := Lookup(weather.fields, "rain");
            (rain.None? || !Truthy(rain.value)) ==> Rain1h(weather) == Ok(Num(0.0))
    ensures var rain := Lookup(weather.fields, "rain");
            rain.Some? && Truthy(rain.value) ==>
              var h := Lookup(rain.value.fields, "1h");
              && (h.None? || !Truthy(h.value) ==> Rain1h(weather) == Ok(Num(0.0)))
              && (h.Some? && Truthy(h.value) ==> Rain1h(weather) == Ok(h.value))
  {
  }

  // ---------------------------------------------------------------------
  // Air extraction: all four fields, or none

  /** The structural conditions under which the `try` body completes. */
  predicate AirShaped(air: Value)
  {
    && air.Obj?
    && var list := match Lookup(air.fields, "list") case None => Arr([Obj([])]) case Some(l) => l;
       && list.Arr? && list.items != [] && list.items[0].Obj?
       && var first := list.items[0];
          && (match Lookup(first.fields, "components") case None => true case Some(c) => c.Obj?)
          && (match Lookup(first.fields, "main") case None => true case Some(m) => m.Obj?)
  }

  /** Unless the air payload has that shape, co, pm2_5, pm10 and aqi are all
      None together (a missing `list` still has it, through the `[{}]`
      default; an empty `list` does not). With it, each field is what the
      first element's `components` (or `main`) holds, None where absent. */
  lemma ExtractAirSpec(air: Value)
    ensures !AirShaped(air) ==> ExtractAir(air) == NoAir
    ensures AirShaped(air) ==>
              var list := match Lookup(air.fields, "list") case None => Arr([Obj([])]) case Some(l) => l;
              var first := list.items[0].fields;
              var comp := match Lookup(first, "components") case None => [] case Some(c) => c.fields;
              var main := match Lookup(first, "main") case None => [] case Some(m) => m.fields;
              ExtractAir(air) == AirFields(GetOrNull(comp, "co"), GetOrNull(comp, "pm2_5"),
                                           GetOrNull(comp, "pm10"), GetOrNull(main, "aqi"))
    ensures air.Obj? && Lookup(air.fields, "list").None? ==> ExtractAir(air) == NoAir
    ensures air.Obj? && Lookup(air.fields, "list") == Some(Arr([])) ==> ExtractAir(air) == NoAir
  {
    if air.Obj? && Lookup(air.fields, "list").None? {
      assert TryAir(air) == Ok(NoAir);
    }
  }

  // ---------------------------------------------------------------------
  // The assembled record

  /** The fifteen keys are all different. */
  lemma RecordKeysDistinct()
    ensures forall i, j :: 0 <= i < j < |RecordKeys| ==> RecordKeys[i] != RecordKeys[j]
  {
  }

  /** Every record has the fifteen keys in the source's order, none twice;
      the sort key `timestamp` is the IST string, equal to `timestamp_ist`;
      `ttl` is the epoch plus fourteen days; `air_raw` is the untouched air
      payload. */
  predicate RecordLayout(rec: Value, city: string, clock: Clock, air: Value)
  {
    && rec.Obj?
    && Keys(rec.fields) == RecordKeys
    && DistinctKeys(rec.fields)
    && Lookup(rec.fields, "city_id") == Some(Str(city))
    && Lookup(rec.fields, "timestamp") == Some(Str(clock.istIso))
    && Lookup(rec.fields, "timestamp_ist") == Some(Str(clock.istIso))
    && Lookup(rec.fields, "timestamp_utc") == Some(Str(clock.utcIso))
    && Lookup(rec.fields, "timestamp_epoch") == Some(Num(clock.epoch as real))
    && Lookup(rec.fields, "air_raw") == Some(air)
    && Lookup(rec.fields, "ttl") == Some(Num((clock.epoch + TtlSeconds) as real))
  }

  /** The eight values read from the payloads, each under its own key. */
  predicate RecordValues(rec: Value, temp: Value, humidity: Value, wind: Value, rain: Value, a: AirFields)
  {
    && rec.Obj?
    && Lookup(rec.fields, "temperature_c") == Some(temp)
    && Lookup(rec.fields, "humidity") == Some(humidity)
    && Lookup(rec.fields, "wind_speed_m_s") == Some(wind)
    && Lookup(rec.fields, "rain_1h_mm") == Some(rain)
    && Lookup(rec.fields, "co") == Some(a.co)
    && Lookup(rec.fields, "pm2_5") == Some(a.pm2_5)
    && Lookup(rec.fields, "pm10") == Some(a.pm10)
    && Lookup(rec.fields, "aqi") == Some(a.aqi)
  }

  /** The `i`-th key of the record holds the `i`-th value. */
  lemma RecordOfLookup(i: nat, city: string, clock: Clock, temp: Value, humidity: Value, wind: Value,
                       rain: Value, air: Value, a: AirFields)
    requires i < 15
    ensures var rec := RecordOf(city, clock, temp, humidity, wind, rain, air, a);
            rec.Obj? && DistinctKeys(rec.fields) &&
            Lookup(rec.fields, RecordKeys[i]) == Some(RecordValue(i, city, clock, temp, humidity, wind, rain, air, a))
  {
    var f := RecordOf(city, clock, temp, humidity, wind, rain, air, a).fields;
    RecordKeysDistinct();
    assert DistinctKeys(f);
    LookupAt(f, i);
  }

  /** The fixed part of the layout. */
  lemma RecordOfFixed(city: string, clock: Clock, temp: Value, humidity: Value, wind: Value,
                      rain: Value, air: Value, a: AirFields)
    ensures RecordLayout(RecordOf(city, clock, temp, humidity, wind, rain, air, a), city, clock, air)
  {
    RecordOfLookup(0, city, clock, temp, humidity, wind, rain, air, a);
    RecordOfLookup(1, city, clock, temp, humidity, wind, rain, air, a);
    RecordOfLookup(2, city, clock, temp, humidity, wind, rain, air, a);
    RecordOfLookup(3, city, clock, temp, humidity, wind, rain, air, a);
    RecordOfLookup(4, city, clock, temp, humidity, wind, rain, air, a);
    RecordOfLookup(9, city, clock, temp, humidity, wind, rain, air, a);
    RecordOfLookup(14, city, clock, temp, humidity, wind, rain, air, a);
  }

  /** The payload part of the layout. */
  lemma RecordOfPayload(city: string, clock: Clock, temp: Value, humidity: Value, wind: Value,
                        rain: Value, air: Value, a: AirFields)
    ensures RecordValues(RecordOf(city, clock, temp, humidity, wind, rain, air, a), temp, humidity, wind, rain, a)
  {
    RecordOfLookup(5, city, clock, temp, humidity, wind, rain, air, a);
    RecordOfLookup(6, city, clock, temp, humidity, wind, rain, air, a);
    RecordOfLookup(7, city, clock, temp, humidity, wind, rain, air, a);
    RecordOfLookup(8, city, clock, temp, humidity, wind, rain, air, a);
    RecordOfLookup(10, city, clock, temp, humidity, wind, rain, air, a);
    RecordOfLookup(11, city, clock, temp, humidity, wind, rain, air, a);
    RecordOfLookup(12, city, clock, temp, humidity, wind, rain, air, a);
    RecordOfLookup(13, city, clock, temp, humidity, wind, rain, air, a);
  }

  /** Every value of the record sits under its own key. */
  lemma RecordOfLayout(city: string, clock: Clock, temp: Value, humidity: Value, wind: Value,
                       rain: Value, air: Value, a: AirFields)
    ensures RecordLayout(RecordOf(city, clock, temp, humidity, wind, rain, air, a), city, clock, air)
    ensures RecordValues(RecordOf(city, clock, temp, humidity, wind, rain, air, a), temp, humidity, wind, rain, a)
  {
    RecordOfFixed(city, clock, temp, humidity, wind, rain, air, a);
    RecordOfPayload(city, clock, temp, humidity, wind, rain, air, a);
  }

  /** The assembled record has the layout; `temperature_c` and `humidity`
      are what `main` holds, `wind_speed_m_s` what `wind` holds,
      `rain_1h_mm` the rain rule's value and the four air fields those of
      the air extraction. */
  lemma AssembledRecord(city: string, clock: Clock, weather: Value, air: Value)
    requires Assemble(city, clock, weather, air).Ok?
    ensures Section(weather, "main").Ok? && Section(weather, "wind").Ok? && Rain1h(weather).Ok?
    ensures RecordLayout(Assemble(city, clock, weather, air).value, city, clock, air)
    ensures var main, wind := Section(weather, "main").value, Section(weather, "wind").value;
            RecordValues(Assemble(city, clock, weather, air).value,
                         GetOrNull(main, "temp"), GetOrNull(main, "humidity"), GetOrNull(wind, "speed"),
                         Rain1h(weather).value, ExtractAir(air))
  {
    var main, wind, rain := Section(weather, "main").value, Section(weather, "wind").value, Rain1h(weather).value;
    RecordOfLayout(city, clock, GetOrNull(main, "temp"), GetOrNull(main, "humidity"),
                   GetOrNull(wind, "speed"), rain, air, ExtractAir(air));
  }

  /** The rules for missing data, as they show in the record itself:
      `rain_1h_mm` is never None; an air payload without the expected shape
      leaves all four air fields None; a missing or None `main` leaves
      `temperature_c` and `humidity` None, and a missing or None `wind`
      leaves `wind_speed_m_s` None. */
  lemma RecordNullRules(city: string, clock: Clock, weather: Value, air: Value)
    requires Assemble(city, clock, weather, air).Ok?
    ensures weather.Obj?
    ensures var rec := Assemble(city, clock, weather, air).value;
            rec.Obj? && Lookup(rec.fields, "rain_1h_mm").Some? && !Lookup(rec.fields, "rain_1h_mm").value.Null?
    ensures var rec := Assemble(city, clock, weather, air).value;
            !AirShaped(air) ==>
              rec.Obj? && Lookup(rec.fields, "co") == Some(Null) && Lookup(rec.fields, "pm2_5") == Some(Null)
              && Lookup(rec.fields, "pm10") == Some(Null) && Lookup(rec.fields, "aqi") == Some(Null)
    ensures var rec := Assemble(city, clock, weather, air).value;
            var m := Lookup(weather.fields, "main");
            m.None? || m == Some(Null) ==>
              rec.Obj? && Lookup(rec.fields, "temperature_c") == Some(Null) && Lookup(rec.fields, "humidity") == Some(Null)
    ensures var rec := Assemble(city, clock, weather, air).value;
            var w := Lookup(weather.fields, "wind");
            w.None? || w == Some(Null) ==> rec.Obj? && Lookup(rec.fields, "wind_speed_m_s") == Some(Null)
  {
    AssembledRecord(city, clock, weather, air);
    AssembleRaisesIff(city, clock, weather, air);
    RainRule(weather);
    ExtractAirSpec(air);
    var m := Lookup(weather.fields, "main");
    if m.None? || m == Some(Null) {
      MissingSectionGivesNull(weather, "main", "temp");
      MissingSectionGivesNull(weather, "main", "humidity");
    }
    var w := Lookup(weather.fields, "wind");
    if w.None? || w == Some(Null) {
      MissingSectionGivesNull(weather, "wind", "speed");
    }
  }

  /** A complete air payload: the four fields come from `components` and
      `main` of the first list entry. */
  lemma AirScenario(air: Value)
    requires air == Obj([("list", Arr([Obj([("main", Obj([("aqi", Num(2.0))])),
                                            ("components", Obj([("co", Num(200.1)), ("pm2_5", Num(8.3)),
                                                                ("pm10", Num(15.0))]))])]))])
    ensures ExtractAir(air) == AirFields(Num(200.1), Num(8.3), Num(15.0), Num(2.0))
  {
  }

  /** A weather payload with `main` and `wind` and no `rain`. */
  lemma WeatherScenario(weather: Value)
    requires weather == Obj([("main", Obj([("temp", Num(24.1)), ("humidity", Num(60.0))])),
                             ("wind", Obj([("speed", Num(3.2))]))])
    ensures Section(weather, "main") == Ok([("temp", Num(24.1)), ("humidity", Num(60.0))])
    ensures Section(weather, "wind") == Ok([("speed", Num(3.2))])
    ensures Rain1h(weather) == Ok(Num(0.0))
  {
  }

  /** The end-to-end scenario: a complete weather payload without `rain`
      and a complete air payload give the record with temperature,
      humidity and wind speed from the weather payload, rain 0, and the
      four air fields. */
  lemma EndToEndScenario(city: string, clock: Clock, weather: Value, air: Value)
    requires weather == Obj([("main", Obj([("temp", Num(24.1)), ("humidity", Num(60.0))])),
                             ("wind", Obj([("speed", Num(3.2))]))])
    requires air == Obj([("list", Arr([Obj([("main", Obj([("aqi", Num(2.0))])),
                                            ("components", Obj([("co", Num(200.1)), ("pm2_5", Num(8.3)),
                                                                ("pm10", Num(15.0))]))])]))])
    ensures Assemble(city, clock, weather, air) ==
            Ok(RecordOf(city, clock, Num(24.1), Num(60.0), Num(3.2), Num(0.0), air,
                        AirFields(Num(200.1), Num(8.3), Num(15.0), Num(2.0))))
  {
    AirScenario(air);
    WeatherScenario(weather);
    var main := [("temp", Num(24.1)), ("humidity", Num(60.0))];
    var wind := [("speed", Num(3.2))];
    assert GetOrNull(main, "temp") == Num(24.1) && GetOrNull(main, "humidity") == Num(60.0);
    assert GetOrNull(wind, "speed") == Num(3.2);
  }

  // ---------------------------------------------------------------------
  // The canonical copy (line 150)

  /** The copy written to the keyed store keeps its primary key (`city_id`,
      `timestamp`), turns `ttl` into a Decimal, holds no None anywhere, and
      has lost exactly the record's None fields. */
  ghost predicate CleanCopy(clean: Value, rec: Value, city: string, clock: Clock)
    requires rec.Obj?
  {
    && clean.Obj?
    && NullFree(clean)
    && DistinctKeys(clean.fields)
    && Lookup(clean.fields, "city_id") == Some(Str(city))
    && Lookup(clean.fields, "timestamp") == Some(Str(clock.istIso))
    && Lookup(clean.fields, "ttl") == Some(Dec((clock.epoch + TtlSeconds) as real))
    && (forall k :: Lookup(clean.fields, k).None? <==>
          (Lookup(rec.fields, k).None? || Lookup(rec.fields, k) == Some(Null)))
  }

  /** Canonicalising a record with the layout gives that copy. */
  lemma CleanRecordOf(rec: Value, city: string, clock: Clock, air: Value)
    requires RecordLayout(rec, city, clock, air)
    ensures CleanCopy(Convert(rec), rec, city, clock)
  {
    ConvertDict(rec.fields);
    ConvertNullFree(rec);
    assert Surviving(rec.fields, "ttl") == Some(Dec((clock.epoch + TtlSeconds) as real));
  }

  /** `convert_numbers(item)` of every assembled record is that copy. */
  lemma CleanRecord(city: string, clock: Clock, weather: Value, air: Value)
    requires Assemble(city, clock, weather, air).Ok?
    ensures Assemble(city, clock, weather, air).value.Obj?
    ensures var rec := Assemble(city, clock, weather, air).value;
            CleanCopy(Convert(rec), rec, city, clock)
  {
    AssembledRecord(city, clock, weather, air);
    CleanRecordOf(Assemble(city, clock, weather, air).value, city, clock, air);
  }

  // ---------------------------------------------------------------------
  // The writes (lines 152-187), as an abstract trace

  datatype Write =
    | PutItem(item: Value)                                   // DynamoDB put_item
    | PutObject(bucket: string, key: string, body: Value)    // S3 put_object

  /** The writes of one invocation, in order: the canonical copy to the
      keyed store, then the raw payloads and the uncanonicalised record to
      whichever buckets are configured. */
  function Writes(rawBucket: Option<string>, procBucket: Option<string>, city: string, clock: Clock,
                  weather: Value, air: Value, record: Value): (ws: seq<Write>)
    requires ValidTime(clock.utc)
    ensures |ws| >= 1 && ws[0] == PutItem(Convert(record))
    ensures |ws| == 1 + (if rawBucket.Some? then 1 else 0) + (if procBucket.Some? then 1 else 0)
    ensures rawBucket.Some? ==>
              ws[1] == PutObject(rawBucket.value, SafeS3Key("raw", city, clock.utc),
                                 Obj([("weather", weather), ("air", air)]))
    ensures procBucket.Some? ==>
              ws[|ws| - 1] == PutObject(procBucket.value, SafeS3Key("processed", city, clock.utc), record)
  {
    var raw := if rawBucket.Some? then
                 [PutObject(rawBucket.value, SafeS3Key("raw", city, clock.utc), Obj([("weather", weather), ("air", air)]))]
               else [];
    var proc := if procBucket.Some? then
                  [PutObject(procBucket.value, SafeS3Key("processed", city, clock.utc), record)]
                else [];
    [PutItem(Convert(record))] + raw + proc
  }

  /** The raw and processed snapshots of one invocation never share a key. */
  lemma SnapshotKeysDiffer(city: string, t: UtcTime)
    requires ValidTime(t)
    ensures SafeS3Key("raw", city, t) != SafeS3Key("processed", city, t)
  {
    SafeS3KeyLayout("raw", city, t);
    SafeS3KeyLayout("processed", city, t);
    assert |SafeS3Key("raw", city, t)| != |SafeS3Key("processed", city, t)|;
  }

  /** The keyed store is written once, first; every later write is a blob,
      and no two blobs of one invocation share a key, so neither snapshot
      overwrites the other. */
  lemma WritesDistinct(rawBucket: Option<string>, procBucket: Option<string>, city: string, clock: Clock,
                       weather: Value, air: Value, record: Value)
    requires ValidTime(clock.utc)
    ensures var ws := Writes(rawBucket, procBucket, city, clock, weather, air, record);
            forall i :: 0 < i < |ws| ==> ws[i].PutObject?
    ensures var ws := Writes(rawBucket, procBucket, city, clock, weather, air, record);
            forall i, j :: 0 < i < j < |ws| ==> ws[i].key != ws[j].key
  {
    SnapshotKeysDiffer(city, clock.utc);
  }
}
