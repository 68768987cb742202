# Weather lookup service — Dafny model

The service answers `POST /get_weather`: it takes a city name or a pair of
coordinates, asks the OpenWeatherMap current-weather endpoint, reduces the
provider's JSON to a fixed response (city, country, main weather and its
description, coordinates, temperature, felt temperature, wind speed),
appends a text record of the response to a local log file and returns it.
Everything lives in `main.py`.

This project models the four pieces of that handler that have behaviour of
their own, plus the handler that composes them:

- `query_url.dfy` (module `QueryUrl`): the request schema and the query URL.
  `BuildUrl` concatenates the URL the way the handler does. `QueryParams` is
  the parameter list the handler writes into it. `UrlRendersParams` proves
  that the string is that list rendered, and further lemmas say which
  parameters the list holds. The list is not always what the provider reads:
  `ParseQuery` splits a query string at `&`, then each piece at its first `=`.
  A value is query-safe when it holds no `&`, `#`, `+` or `%`, the characters
  the client or the provider treat specially. `SentQueryParses` proves the
  provider reads back the list when every value is query-safe.
  `CityNameInjectsParams` shows a city name holding `&lat=` adding a parameter
  of its own, because values are inserted unescaped.
- `retry.dfy` (module `Retry`): `perform_request` under
  `@retry(stop=stop_after_attempt(3))`. `PerformRequest` is the attempt loop.
  `RetryFrom` is its recursive specification.
- `py_json.dfy` (module `PyJson`): the decoded body as a JSON datatype. It
  also holds the Python operations the handler applies to the body (`in`,
  `[key]`, `[0]`) and pydantic's field kind checks. Each raises where Python
  raises.
- `response_mapper.dfy` (module `ResponseMapper`): the field mapping, in
  Python's evaluation order. Every exception becomes a `Failure`.
- `request_log.dfy` (module `RequestLog`): `save_request_in_txt_file`. The log
  file is the class `LogFile`, whose `contents` field the save method updates
  in place.
- `weather_service.dfy` (module `WeatherService`): `get_weather_from_api`.
  An exhausted retry becomes HTTP 404 with the fixed Russian detail message.
  Any other exception escapes and becomes a server error.
- `wrappers.dfy` (module `Wrappers`): `Option` and `Result`.

Outside inputs are parameters: the API key, the network, the clock, and
Python's text forms of floats and dicts. The network is `network(url, i)`:
the response to the `i`-th call for `url`, counting from 0.

Four details of the code worth stating:

- A log record is separated from the previous one by a single `'\n'`, not by
  a blank line (main.py:54-57).
- `raise_for_status` raises only for statuses 400–599. Any other status with a
  JSON body counts as a successful attempt, not just 2xx (main.py:47).
- `lat` and `lon` are `Optional[float]`. An explicit `null` passes validation
  and appears as `None` in the coordinate query (main.py:19-20, 65).
- An omitted `lat` or `lon` keeps its declared default, the integer `0`, because
  pydantic does not validate defaults. It is written as `0` in the URL, not as
  the float text `0.0` (main.py:19-20, 65). The datatype `Coord` therefore has
  three cases: `Omitted`, `Null` and `Given(x)`.

The schemas are modelled as pydantic 2 validates them: a `str` field accepts
only a JSON string, and a `float` field only a JSON number. Pydantic 1 would
instead coerce a number given for a `str` field into its text.

## Model

| member | source | states |
|---|---|---|
| QueryUrl.DefaultRequest | main.py:17-21 | The request with every field at its default (no city, both coordinates omitted, language `eng`) is within the schema's bounds, `ValidRequest`. |
| QueryUrl.DefaultRequestQuery | main.py:64-65 | The default request asks by coordinates: `lat` and `lon` are both `0`, with no `q` and no `lang`. Its URL is exactly the metric prefix, `lat=0&lon=0&appid=` and the key. |
| QueryUrl.BuildUrl | main.py:64-70 | Every URL starts with the endpoint and `?units=metric&`, whichever branch builds it. |
| QueryUrl.UrlPrefixAndSuffix | main.py:63-70 | Every URL starts with the metric endpoint prefix. It ends with `&lang=<lang>` when the language is not `eng`, and with `&appid=<key>` otherwise. |
| QueryUrl.UrlRendersParams | main.py:64-70 | The concatenated URL is exactly the endpoint, `?` and the parameter list rendered as `name=value` joined by `&`. |
| QueryUrl.LookupQuery | main.py:64-70 | The value of each parameter name in the parameter list: `units=metric`; `lat`/`lon` only for an empty city name; `q` only for a non-empty one; the key; and `lang`. |
| QueryUrl.CoordinateQuery | main.py:64-65 | In the parameter list: with an empty city name, `lat` and `lon` carry the coordinate texts and there is no `q` parameter. |
| QueryUrl.NameQuery | main.py:66-67 | In the parameter list: with a city name, `q` carries the name verbatim (unescaped) and neither `lat` nor `lon` is sent. |
| QueryUrl.UnitsKeyAndLang | main.py:65-70 | Every query starts with `units=metric` and carries `appid=<key>`. A `lang` parameter is present, last and equal to the language exactly when the language is not `eng`. Otherwise `appid` is last. |
| QueryUrl.ParseRender | main.py:65-70 | Reading back a rendered, non-empty list gives the list, when no name holds `&` or `=` and no value holds `&`. |
| QueryUrl.SentQueryParses | main.py:64-70 | When the city name, language, key and (for a coordinate query) coordinate texts are query-safe (no `&`, `#`, `+` or `%`), the provider reads back exactly the parameter list from the URL sent. |
| QueryUrl.SentNameQuery | main.py:66-67 | A query-safe city name (with a query-safe language and key) reaches the provider as `q`, verbatim, with no `lat` or `lon`. |
| QueryUrl.CityNameInjectsParams | main.py:67 | A city name `x&lat=y`, with `x` and `y` query-safe, puts no `lat` in the parameter list, yet the provider reads `lat=y` from the URL and reads the city name as `x` alone. |
| Retry.AttemptOnce | main.py:45-48 | One call succeeds exactly when the transport delivered a response, the status is not 4xx/5xx and the body decodes. The result is that body. |
| Retry.RetryFrom | main.py:44-48 | A successful retry returns the body of some allowed attempt. Starting past the last attempt gives `Exhausted`. |
| Retry.PerformRequest | main.py:44-48 | Between 1 and 3 calls are made, and every call before the last failed. The result is the last call's body when that call succeeded. `Exhausted` comes only after 3 failures. The result equals `RetryFrom`. |
| Retry.ExhaustedIffAllFail | main.py:44 | The retry is exhausted if and only if every allowed attempt fails. |
| Retry.SuccessIsFirstSuccess | main.py:44-48 | A successful retry returns the body of an attempt that every earlier attempt failed before: the first success. |
| Retry.RecoversOnThirdAttempt | main.py:44-48 | Two failures followed by a success still return the third call's body. |
| PyJson.Contains | main.py:78-83 | `key in v` is key membership on an object, membership of the string `key` among a list's elements, and substring on a string. It raises, always `TypeError`, exactly on null, booleans and numbers. |
| PyJson.Subscript | main.py:78-90 | `v[key]` succeeds exactly on an object holding the key, and returns its value. An object without the key raises `KeyError`. |
| PyJson.First | main.py:82-83 | `v[0]` on a list succeeds exactly when the list is non-empty, and gives its first element. Only lists and strings can succeed. |
| PyJson.AsStr | main.py:24-31 | A `str` model field accepts exactly a JSON string, unchanged. |
| PyJson.AsFloat | main.py:34-41 | A `float` model field accepts exactly a JSON number, unchanged. |
| ResponseMapper.CityNameValue | main.py:78 | On an object body: the `name` entry when present, otherwise `"Unknown"`. Any other body either raises or gives `"Unknown"`. |
| ResponseMapper.CountryValue | main.py:79 | On an object body: `"Unknown"` without `sys`; with an object `sys`, its `country` entry or `"Unknown"`; with a non-object `sys`, a raise or `"Unknown"`. |
| ResponseMapper.WeatherValue | main.py:82-83 | On an object body: `""` without `weather`; `IndexError` for an empty `weather` list; otherwise the key's read on the list's first element. |
| ResponseMapper.Required | main.py:86-90 | `data[outer][inner]` succeeds exactly when both steps are objects holding the keys, and gives that value. A failure is `KeyError` or `TypeError`. |
| ResponseMapper.MapResponse | main.py:92-94 | A successful mapping has exactly one `CityInfo` and one `WeatherInfo`. |
| ResponseMapper.RequiredIsPath | main.py:86-90 | `data[outer][inner]` succeeds exactly when the two-step object path exists, and yields the value at that path. |
| ResponseMapper.MappedNumbers | main.py:86-94 | Latitude, longitude, temperature, felt temperature and wind speed are the numbers found at `coord.lat`, `coord.lon`, `main.temp`, `main.feels_like` and `wind.speed`, unchanged. |
| ResponseMapper.MissingNumberFails | main.py:86-90 | If any of the five numeric paths is missing, the mapping fails. No default applies. |
| ResponseMapper.MappedCityName | main.py:78 | Only an object body maps. The city name is the body's `name` when that key is present, otherwise `"Unknown"`. |
| ResponseMapper.MappedCountry | main.py:79 | The country is `sys.country` when both keys exist. It is `"Unknown"` when `sys` is absent, or is an object without `country`. |
| ResponseMapper.MappedWeather | main.py:82-83 | Without a `weather` key, main and description are both `""`. With one, it is a non-empty list and both texts come from its first element. |
| ResponseMapper.EmptyWeatherFails | main.py:82 | A `weather` list that is present but empty makes the mapping fail. |
| ResponseMapper.WellFormedBodyMaps | main.py:78-94 | A body with string descriptive fields (where present) and all five numbers present always maps. |
| ResponseMapper.LondonExample | main.py:78-94 | The London body maps to the response with name London, country GB, Clouds / overcast clouds, lat 51.5, lon -0.1, temperature 15.2, felt temperature 14.8 and wind 3.1. |
| RequestLog.Record | main.py:56 | A record is the response text, one `'\n'` at index `|text|`, then the timestamp, with nothing after it: its prefix is the text and its suffix the timestamp. |
| RequestLog.AfterSave | main.py:53-57 | After a save the file ends with the record. In append mode the old contents stay as a prefix. In write mode the file is the record's length. |
| RequestLog.AfterSaveShape | main.py:53-57 | In append mode the old contents stay as an exact prefix. Exactly one `'\n'` follows them when they were non-empty, then the record. An empty file gets just the record. In write mode the record replaces the contents. |
| RequestLog.LogFile.SaveRequestInTxtFile | main.py:51-57 | The file's new contents are the old contents after one save, as `AfterSave` defines it. |
| RequestLog.AppendsJoin | main.py:51-57 | Appending records one by one to an empty file gives the records joined by single line breaks. Nothing comes before the first record or after the last. |
| RequestLog.TwoRecords | main.py:53-57 | Two saves to an empty log give the first record, one `'\n'` and the second record. |
| WeatherService.HandlerReply | main.py:60-97 | The reply is an HTTP error exactly when the retry is exhausted, and then it is 404 with the fixed detail. A response is the mapping of the fetched body. An unhandled error is that mapping's failure. |
| WeatherService.GetWeatherFromApi | main.py:60-97 | The handler's reply is `HandlerReply`. A reply carrying a response has been appended to the log as one record. An error reply leaves the log unchanged. |
| WeatherService.NotFoundIffAllAttemptsFail | main.py:72-76 | The only HTTP error is 404 with the fixed detail. It is returned exactly when all three provider calls fail. |
| WeatherService.OkIsMappedFirstSuccess | main.py:72-94 | A successful reply is the mapping of the body of the first successful provider call. |
| WeatherService.LondonEndToEnd | main.py:60-97 | A London request in the default language, answered at once with the London body, returns the London response. |

## Left out

- FastAPI routing, request parsing and response serialisation (main.py:14, 60). The request schema's bounds are the precondition `ValidRequest`.
- Loading the API key from `.env` (main.py:11-12). The key is a parameter; an unset variable corresponds to passing the text `None`.
- The real HTTP call, redirects and JSON decoding (main.py:46-48). They become the `network` parameter and a body that is either decoded JSON or undecodable.
- The two-second wait between attempts (main.py:44). Timing is not observable in the model.
- `datetime.now()`, `str(dict)` and Python's float formatting in the URL (main.py:56, 65). These are opaque strings or opaque string-valued functions.
- The debug `print(url)` (main.py:71).
- URL handling outside the plain `&`/`=` split (main.py:46): `requests` cutting the URL at a `#` fragment and quoting other characters, and the provider decoding `%XX` escapes and `+` as a space. The lemmas about what the provider reads require query-safe values, so they say nothing about values holding `#`, `+` or `%`.
- The missing timeout on `requests.get` (main.py:46): a provider that never answers blocks the handler forever, whereas the model's `network` always answers.
- Filesystem errors and concurrent writers to the log. The log file name (`request_results`, main.py:51) is not modelled: the model has one file.
- `open` modes other than `"a"` and `"w"`. The handler only uses `"a"`.
- Floating point: JSON numbers are exact reals, and no arithmetic is done on them.
- The `"Unknown"` defaults declared on `WeatherInfo` and `CityInfo` (main.py:25-26, 30-31). The handler always passes explicit values, so these defaults never take effect on this path.
- PyJson.AsFloat: pydantic's lax mode may also coerce numeric strings and booleans into a `float` field. The model treats those inputs as validation failures.
