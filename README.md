# Smart-city ingestion pipeline: a Dafny model of its core

The pipeline ingests weather and air-quality readings for a city. This project models and proves the sequential logic inside its AWS Lambda functions:

- **Record canonicaliser** (`convert_numbers`, module `Canonicalise`). It walks a decoded JSON value, turns every int/float into a `Decimal` and drops `None` from dicts and lists. The copy written to DynamoDB is its output.
- **Blob key** (`safe_s3_key`, module `BlobKey`). It builds the object key `prefix/city/YYYYmmddTHHMMSSZ.json` with a zero-padded UTC stamp. The module's `ParseStamp` exists only in the model: it reads the stamp back, which proves that the key determines the instant.
- **Record assembly** (the field-extraction block of the fetching `lambda_handler`, module `CityRecord`). It turns the weather and air payloads into the 15-key record. It also covers the canonical copy and the order of the DynamoDB and S3 writes.
- **CSV normaliser** (lambda_handler.py, module `CsvNormalise`). `safe_float` and `normalize_row` are its per-row steps. The handler keeps the rows that have a timestamp and sorts them by timestamp.
- **Secret cache** (`get_secret` in two files, module `SecretCache`). It memoises the parsed Secrets Manager value per name for the lifetime of the process. The module also models the API-key selection the two handlers make with that secret.

Decoded JSON is the datatype `JsonValue.Value`:

- `Obj` is a dict, kept as its entries in insertion order.
- `Num` stands for a Python int or float, `Dec` for a `Decimal`.
- Python truthiness, `dict.get` with a default, and `or` are written out explicitly.

The expressions that can raise return `Result`, so the `AttributeError`, `IndexError`, `KeyError` and `TypeError` cases stay visible.

Inputs and abstractions:

- The clock is an input: one `Clock` holds the two `isoformat()` strings, the integer epoch and the UTC calendar fields.
- Float parsing (`float(s)`) is a parameter `parse`.
- JSON decoding of a secret is a parameter `decode`.
- The secrets client is a parameter that answers each call with a `SecretString`, a response without one, or an exception (`ClientError` stands for any exception the client raises; those that are not a botocore `ClientError` escape the `except` and propagate the same way, leaving the cache unchanged).

`get_secret` mutates a module-level dict, so it is the class `SecretCache.SecretStore`. The class has a `cache` map field and a `GetSecret` method. That method is proved equal to the pure transition `Step`, and the memoisation and frame lemmas are stated over `Step` and its iterate `Replay`. `convert_numbers` builds its output with loops and appends. `Canonicalise.ConvertNumbers` does the same, with two loop methods proved equal to the recursive `Convert`.

Two behaviours of the code that the model keeps as written:

- A missing or None `main`/`wind` section gives None fields without raising. A truthy section that is not a dict (a list, a string) makes `.get` raise outside any `try`, and the whole invocation fails. `CityRecord.AssembleRaisesIff` states exactly when that happens.
- `ttl` is computed from a second `time.time()` call, not from `timestamp_epoch`. The model uses one epoch for both (see Left out).

## Model

| member | source | states |
|---|---|---|
| JsonValue.Get | lambdas/fetch_city_data/package/app.py:136-139 | `.get` raises AttributeError exactly when the receiver is not a dict; on a dict it gives the value stored under the key when there is one, and the default otherwise |
| JsonValue.LookupFinds | lambdas/fetch_city_data/package/app.py:120-125 | a dict lookup finds nothing exactly when no entry has the key; what it finds is an entry of the dict |
| JsonValue.LookupAt | lambdas/fetch_city_data/package/app.py:130-147 | in a dict without repeated keys, looking up the key at position i gives the value at position i |
| Canonicalise.Convert | lambdas/fetch_city_data/package/app.py:43-70 | the result is None exactly when the input is None; dicts map to dicts and lists to lists; bools, strings and Decimals are unchanged; an int/float becomes a Decimal of the same value; no int/float is ever returned |
| Canonicalise.ConvertNumbers | lambdas/fetch_city_data/package/app.py:43-70 | the source's branch order, with loops, computes exactly `Convert` |
| Canonicalise.ConvertDictLoop | lambdas/fetch_city_data/package/app.py:49-55 | the dict loop, appending each non-None converted value under its key, computes the dict case of `Convert` |
| Canonicalise.ConvertListLoop | lambdas/fetch_city_data/package/app.py:56-62 | the list loop, appending each non-None converted element, computes the list case of `Convert` |
| Canonicalise.ConvertNullFree | lambdas/fetch_city_data/package/app.py:49-62 | no dict or list anywhere in the output holds None |
| Canonicalise.ConvertDict | lambdas/fetch_city_data/package/app.py:50-55 | for a dict, the output keys are distinct; a key is present exactly when its input value is not None, and it maps to the converted value |
| Canonicalise.ConvertDictKeys | lambdas/fetch_city_data/package/app.py:50-55 | the output keys are the input keys with a non-None value, in input order |
| Canonicalise.ConvertList | lambdas/fetch_city_data/package/app.py:56-61 | the output list is the input's non-None elements, each converted, in their relative order |
| Canonicalise.ConvertListLength | lambdas/fetch_city_data/package/app.py:56-61 | the output list is shorter than the input by exactly its number of None elements |
| Canonicalise.EmptyDictKept | lambdas/fetch_city_data/package/app.py:49-55 | a dict whose values are all None (the empty dict included) becomes `{}`, and a nested one is kept as `{}` under its key |
| Canonicalise.ConvertCanonical | lambdas/fetch_city_data/package/app.py:43-70 | the output holds no int/float and no None inside any dict or list |
| Canonicalise.CanonicalFixed | lambdas/fetch_city_data/package/app.py:63-70 | a value with no int/float and no nested None is returned unchanged |
| Canonicalise.ConvertIdempotent | lambdas/fetch_city_data/package/app.py:43-70 | `convert_numbers(convert_numbers(x)) == convert_numbers(x)` |
| BlobKey.Padded | lambdas/fetch_city_data/package/app.py:97 | a zero-padded field has exactly its width, all decimal digits |
| BlobKey.PaddedRoundTrip | lambdas/fetch_city_data/package/app.py:97 | reading a zero-padded field back as decimal gives the number |
| BlobKey.Stamp | lambdas/fetch_city_data/package/app.py:97 | the `%Y%m%dT%H%M%SZ` stamp has 16 characters: 8 digits, `T`, 6 digits, `Z` |
| BlobKey.StampRoundTrip | lambdas/fetch_city_data/package/app.py:97 | parsing the stamp gives back the year, month, day, hour, minute and second |
| BlobKey.SafeS3Key | lambdas/fetch_city_data/package/app.py:93-98 | the key is 23 characters longer than prefix and city together, starts with the prefix and ends in `.json` |
| BlobKey.SafeS3KeyLayout | lambdas/fetch_city_data/package/app.py:93-98 | the key is prefix, `/`, city, `/`, the 16-character stamp (which parses back to the instant) and `.json` |
| BlobKey.SafeS3KeyInjective | lambdas/fetch_city_data/package/app.py:93-98 | two different instants never share a key within one prefix and city |
| BlobKey.StampExample | lambdas/fetch_city_data/package/app.py:95 | 2025-11-19 06:00:56 UTC gives the stamp `20251119T060056Z` of the docstring's example key |
| CityRecord.Section | lambdas/fetch_city_data/package/app.py:136-138 | `(weather.get(s, {}) or {})` followed by `.get` raises AttributeError exactly when the payload is not a dict or the section is a truthy non-dict; otherwise it reads the section's entries, none when the section is absent or falsy |
| CityRecord.Rain1h | lambdas/fetch_city_data/package/app.py:139 | the rain expression raises exactly when `rain` is a truthy non-dict (or the payload is not a dict); otherwise it is 0 or a truthy value |
| CityRecord.TryAir | lambdas/fetch_city_data/package/app.py:119-125 | the `try` body completes exactly when the air payload has the shape it needs |
| CityRecord.ExtractAir | lambdas/fetch_city_data/package/app.py:118-127 | without that shape, co, pm2_5, pm10 and aqi are all None |
| CityRecord.RecordOf | lambdas/fetch_city_data/package/app.py:130-147 | the record literal is a dict with the fifteen keys in the source's order |
| CityRecord.Assemble | lambdas/fetch_city_data/package/app.py:118-147 | an assembled record is a dict with the fifteen keys in order; assembly can raise only an AttributeError |
| CityRecord.AssembleRaisesIff | lambdas/fetch_city_data/package/app.py:119-147 | assembly raises exactly when the weather payload is not a dict or one of `main`, `wind`, `rain` is a truthy non-dict; the air payload never makes it raise |
| CityRecord.MissingSectionGivesNull | lambdas/fetch_city_data/package/app.py:136-138 | a missing or None `main`/`wind` gives None for every field read from it, without raising |
| CityRecord.RainRule | lambdas/fetch_city_data/package/app.py:139 | `rain_1h_mm` is never None: it is 0 when `rain` is absent or falsy or its `1h` is absent or falsy, else the `1h` value |
| CityRecord.ExtractAirSpec | lambdas/fetch_city_data/package/app.py:119-127 | co, pm2_5, pm10 and aqi are all None together unless the payload has the shape the `try` needs; a missing `list` gives all None through the `[{}]` default, and so does an empty `list`; otherwise each is read from the first entry's `components` or `main` |
| CityRecord.RecordKeysDistinct | lambdas/fetch_city_data/package/app.py:130-147 | the record's fifteen keys are all different |
| CityRecord.RecordOfLayout | lambdas/fetch_city_data/package/app.py:130-147 | the record has the fifteen keys in order, once each; `timestamp` equals `timestamp_ist`; `timestamp_epoch` is the epoch; `air_raw` is the air payload; `ttl` is the epoch plus fourteen days (1209600 s); each of the eight payload values sits under its own key |
| CityRecord.AssembledRecord | lambdas/fetch_city_data/package/app.py:118-147 | every record the handler assembles has that layout; `temperature_c` and `humidity` are what `main` holds, `wind_speed_m_s` what `wind` holds, `rain_1h_mm` the rain expression's value, and co, pm2_5, pm10, aqi the air extraction's fields |
| CityRecord.RecordNullRules | lambdas/fetch_city_data/package/app.py:118-147 | in every assembled record `rain_1h_mm` is never None; an air payload without the needed shape leaves all four air fields None; a missing or None `main` leaves `temperature_c` and `humidity` None, and a missing or None `wind` leaves `wind_speed_m_s` None |
| CityRecord.AirScenario | lambdas/fetch_city_data/package/app.py:119-125 | a complete air payload yields its co, pm2_5, pm10 and aqi |
| CityRecord.WeatherScenario | lambdas/fetch_city_data/package/app.py:136-139 | a weather payload with `main` and `wind` and no `rain` yields those sections and rain 0 |
| CityRecord.EndToEndScenario | lambdas/fetch_city_data/package/app.py:119-147 | those two payloads assemble into the record with temperature, humidity, wind speed, rain 0 and the four air fields in place |
| CityRecord.CleanRecordOf | lambdas/fetch_city_data/package/app.py:150 | the canonical copy of a record with the layout is a None-free dict with distinct keys; it keeps `city_id` and `timestamp`; its `ttl` is a Decimal; it lacks exactly the record's None fields |
| CityRecord.CleanRecord | lambdas/fetch_city_data/package/app.py:130-150 | the canonical copy of every assembled record has those properties |
| CityRecord.Writes | lambdas/fetch_city_data/package/app.py:152-187 | the canonical copy is put to DynamoDB first; then the raw payloads go to the raw bucket under the `raw` key when it is configured; then the uncanonicalised record goes to the processed bucket under the `processed` key when that is configured |
| CityRecord.WritesDistinct | lambdas/fetch_city_data/package/app.py:152-187 | DynamoDB is written once, first; every later write is to S3, and no two S3 writes of one invocation share a key |
| CityRecord.SnapshotKeysDiffer | lambdas/fetch_city_data/package/app.py:164-178 | the raw and processed keys of one invocation differ |
| CsvNormalise.SafeFloat | lambda_handler.py:9-13 | `safe_float` never raises: it is None for a missing cell and for `''`; for any other text it is exactly what `float` makes of it, None when that fails |
| CsvNormalise.NormalizeRow | lambda_handler.py:15-26 | `city_id` is never empty; `timestamp_c` is non-empty exactly when the row passes the handler's filter |
| CsvNormalise.FirstTruthySpec | lambda_handler.py:17-25 | the first non-empty alias is a cell of some alias with every earlier alias missing or empty; there is none exactly when every alias is missing or empty |
| CsvNormalise.NormalizeRowAliases | lambda_handler.py:15-26 | `timestamp_c` is the first non-empty of `timestamp_c`, `timestamp`, `ts`, or `''`; each numeric field parses the first non-empty of its aliases, None when there is none; `city_id` is the first non-empty of `city_id`, `city`, or `Unknown` |
| CsvNormalise.FirstTruthyTwo | lambda_handler.py:20-25 | with two aliases, the first non-empty of the two cells, if any |
| CsvNormalise.TwoAliases | lambda_handler.py:20-24 | `safe_float(r.get(a) or r.get(b))` parses the first non-empty of the two cells |
| CsvNormalise.EmptyFirstAliasFallsThrough | lambda_handler.py:20 | an empty `aqi` cell falls through to `AQI` |
| CsvNormalise.ToJsonKeys | lambda_handler.py:18-26 | every normalised row has exactly the seven keys, once each, with `timestamp_c` and `city_id` as strings |
| CsvNormalise.Kept | lambda_handler.py:33 | the comprehension yields at most one row per input row |
| CsvNormalise.HasTimestampIff | lambda_handler.py:33 | a row is kept exactly when some timestamp alias is non-empty, which is exactly when its normalised `timestamp_c` is non-empty |
| CsvNormalise.KeptSpec | lambda_handler.py:33 | the kept rows are at most as many as the input rows; each has a non-empty `timestamp_c`; a row is kept exactly when some input row with a timestamp normalises to it |
| CsvNormalise.KeptAppend | lambda_handler.py:33 | the filter keeps input order: the rows kept from `a + b` are those kept from `a` followed by those kept from `b` |
| CsvNormalise.LexLeRefl | lambda_handler.py:35 | string order is reflexive |
| CsvNormalise.LexLeTotal | lambda_handler.py:35 | any two strings are ordered one way or the other |
| CsvNormalise.LexLeTrans | lambda_handler.py:35 | string order is transitive |
| CsvNormalise.LexLeAntisym | lambda_handler.py:35 | strings ordered both ways are equal |
| CsvNormalise.InsertPerm | lambda_handler.py:35 | inserting a row adds exactly that row |
| CsvNormalise.InsertSorted | lambda_handler.py:35 | inserting into a sorted sequence keeps it sorted |
| CsvNormalise.InsertStable | lambda_handler.py:35 | an inserted row goes ahead of the rows with an equal timestamp |
| CsvNormalise.SortByTimestamp | lambda_handler.py:35 | `sorted` returns as many rows as it is given (its order is `SortSpec`) |
| CsvNormalise.SortSpec | lambda_handler.py:35 | the sort is ascending by `timestamp_c`, a permutation of its input, and stable: for every timestamp, the rows with it keep their input order |
| CsvNormalise.Handle | lambda_handler.py:33-37 | `written` is the number of rows in the body, at most one per input row |
| CsvNormalise.HandleSpec | lambda_handler.py:33-37 | the written rows are the kept rows sorted and stable; `written` is their number, at most the input row count; every row has a non-empty `timestamp_c`; a row is written exactly when some input row with a timestamp normalises to it |
| SecretCache.ConfiguredSecretName | lambdas/fetch_city_data/app.py:13 | the weather handler's secret name is `OPENWEATHER_SECRET_NAME` when set, `smartcity/openweather` otherwise |
| SecretCache.ParseSecret | lambdas/fetch_city_data/app.py:47-51 | the cached value is the decoded `SecretString` when it decodes, the raw string otherwise, and None when the response has no `SecretString` |
| SecretCache.Step | lambdas/fetch_city_data/app.py:36-53 | after a call that returns, the cache holds the returned value under the name; a call fails only on a miss with a client error; the client is asked exactly on a miss |
| SecretCache.StepHit | lambdas/fetch_city_data/app.py:38-39 | a hit returns the stored value, a stored None included, without calling the client and with the cache unchanged |
| SecretCache.StepMiss | lambdas/fetch_city_data/app.py:47-53 | a miss with a successful fetch stores the parsed value under the name only and returns it; other entries are unchanged |
| SecretCache.StepFailure | lambdas/fetch_city_data/app.py:41-45 | a client error propagates and the cache is unchanged, the name still absent |
| SecretCache.StepFrame | lambdas/fetch_city_data/app.py:36-53 | a call never removes or changes an entry; it adds at most its own name; a raising call changes nothing; the client is called exactly on a miss |
| SecretCache.MemoStable | csv_to_json.py:11-12 | once a name is cached, every later call for it returns that value without calling the client, whatever the client would now answer |
| SecretCache.FirstSuccessSticks | csv_to_json.py:18-24 | after the first successful call for a name, every later call for it returns the identical value |
| SecretCache.FailureRetried | csv_to_json.py:13-17 | after a client error, the next call for the same name asks the client again |
| SecretCache.SecretStore.constructor | lambdas/fetch_city_data/app.py:34 | the cache starts empty |
| SecretCache.SecretStore.GetSecret | lambdas/fetch_city_data/app.py:36-53 | the call returns or raises as `Step` does; the cache becomes `Step`'s cache; the client log grows by the name exactly on a miss |
| SecretCache.SecretStore.GetTwice | csv_to_json.py:9-24 | each call returns or raises as `Step` does from the cache the previous call left, and the cache ends as the two `Step`s leave it; once a first call succeeds, a second call returns the same value whatever the client now answers and asks it nothing more; after a failed first call, the second fetches afresh and the client is asked twice |
| SecretCache.SelectApiKey | lambdas/fetch_city_data/app.py:100-104 | a dict secret gives its `OPENWEATHER_API_KEY` entry, None when absent; any other secret is the key itself |
| SecretCache.StartOf | lambdas/fetch_city_data/app.py:100-108 | the handler propagates exactly when `get_secret` raised; it answers 500 `missing_api_key` only for a falsy selected key; it fetches only with a truthy key |
| SecretCache.StartIff | lambdas/fetch_city_data/app.py:100-108 | the handler answers 500 `missing_api_key`, without fetching, exactly when the selected key is falsy; otherwise it fetches with that key |
| SecretCache.MissingSecretStringSticks | lambdas/fetch_city_data/app.py:38-108 | a secret without `SecretString` is cached as None; that invocation and every later one answer `missing_api_key` without asking the client again |
| SecretCache.StartInvocation | lambdas/fetch_city_data/app.py:98-108 | the handler's opening asks for the configured secret name and is `StartOf` of the `get_secret` outcome, with the cache and client log updated as `Step` says |
| SecretCache.CsvHandlerKey | csv_to_json.py:27-32 | the CSV handler asks for `smartcity/openweather`; its key is `SelectApiKey` of the secret, or the client's error propagates |

## Left out

- HTTP fetching (`fetch_weather`, `fetch_air`, `fetch_json` and its urllib fallback) and the retry/backoff policy: network I/O and a library's retry adapter. The payloads are inputs.
- DynamoDB `put_item`, S3 `put_object`, S3 `get_object` and `process_and_store`: external services. The fetching handler's writes are modelled only as the ordered trace `CityRecord.Writes`. That handler's final `statusCode` 200 response is not modelled.
- The text of `Decimal(str(float))`: floating-point representation. `Num` becomes `Dec` with the same abstract value.
- The clock: `datetime.now`, `isoformat`, the IST +05:30 conversion and `time.time()` are one `Clock` input. The source reads `time.time()` twice (`timestamp_epoch` and `ttl`); the model uses a single epoch for both, so a second that ticks between the two reads is not modelled.
- BlobKey.Padded: `%Y` for years below 1000 is platform-dependent in Python's `strftime`. The model always pads the year to four digits.
- CsvNormalise.SafeFloat: Python's `float` parser is the function parameter `parse`, not a model of its grammar.
- Floats are modelled as mathematical reals (`parse` returns `Option<real>`, `JsonValue.Num` holds a `real`). NaN, positive and negative infinity and binary rounding are not represented. So the model cannot show that `safe_float("nan")` or `safe_float("inf")` returns NaN or inf instead of None, nor that `json.dumps` then writes the non-JSON tokens `NaN`/`Infinity` into the CSV handler's output.
- CSV parsing by `csv.DictReader` is left out. A row is a map from column to cell. A missing cell (DictReader's `restval` None) is an absent key, which `.get` treats the same way. Extra unnamed cells are not modelled.
- CityRecord.TryAir evaluates `air.get("list", [{}])[0]` once where the source evaluates it twice. Both evaluations give the same value or raise the same exception, so the outcome is the same.
- The JSON text that `json.dumps` writes for the CSV output and the S3 bodies is left out; only its structure (`CsvNormalise.ToJson`, the write bodies) is modelled.
- The Flask app (app.py), the React dashboard and csv_to_json_latest.py: a web route, UI code and a file-I/O script outside this core.
- The environment is read once, at import time, and is an input: `env` of `SecretCache.StartInvocation` is `OPENWEATHER_SECRET_NAME`, and `rawBucket`/`procBucket` of `CityRecord.Writes` are the already-resolved bucket settings, that is `(RAW_BUCKET or "").strip() or None` and the same for `PROC_BUCKET`, falling back to `PROCESSED_BUCKET` (lambdas/fetch_city_data/package/app.py:23-24). The `os.getenv`/`os.environ.get` reads, the whitespace stripping and that fallback are not modelled.
- Logging everywhere, and the rest of both secret-reading handlers after the key is chosen (the HTTP fetch and the S3 writes).
