/**
 * The inbound request and the provider query URL built from it
 * (`WeatherRequest` and the first half of `get_weather_from_api`).
 *
 * The URL is built by plain string concatenation, as the handler does.
 * Its partner is `QueryParams`, the parameter list the handler means to
 * send; `UrlRendersParams` proves the string is exactly that list
 * rendered, and the lemmas after it state which parameters the list holds.
 * Because values are inserted unescaped, the provider reads back that list
 * only when no value contains `&` (`SentQueryParses`); a city name that
 * does adds parameters of its own (`CityNameInjectsParams`).
 */
module QueryUrl {
  import opened Wrappers

  /** A coordinate as the request schema leaves it. `Omitted` is the
      declared default, the integer 0, which the schema does not validate
      and so never turns into a float; `Null` is an explicit `null`, allowed
      by `Optional[float]`; `Given` is a number the schema accepted as a float. */
  datatype Coord = Omitted | Null | Given(x: real)

  datatype WeatherRequest = WeatherRequest(cityName: string, lon: Coord, lat: Coord, lang: string)

  /** The field bounds the request schema enforces before the handler runs;
      only a given number is range-checked. */
  predicate ValidRequest(req: WeatherRequest) {
    && (req.lon.Given? ==> -180.0 <= req.lon.x <= 180.0)
    && (req.lat.Given? ==> -90.0 <= req.lat.x <= 90.0)
  }

  /** The request an empty JSON body produces: every field at its default. */
  function DefaultRequest(): (req: WeatherRequest)
    ensures ValidRequest(req)
  {
    WeatherRequest("", Omitted, Omitted, DefaultLang)
  }

  const Endpoint: string := "https://api.openweathermap.org/data/2.5/weather"
  const MetricPrefix: string := Endpoint + "?units=metric&"
  /** The language for which the handler sends no `lang` parameter. */
  const DefaultLang: string := "eng"

  /** The text an f-string gives a coordinate: `0` for the untouched integer
      default, `None` for `null`, otherwise whatever Python's float
      formatting (`showFloat`) yields. */
  function CoordText(c: Coord, showFloat: real -> string): string {
    match c
    case Omitted => "0"
    case Null => "None"
    case Given(x) => showFloat(x)
  }

  predicate IsSuffix(t: string, s: string) {
    |t| <= |s| && s[|s| - |t|..] == t
  }

  /** What the handler appends after the key: nothing for the default language. */
  function LangSuffix(lang: string): string {
    if lang != DefaultLang then "&lang=" + lang else ""
  }

  /** The query URL, concatenated as the handler does: a coordinate query
      when no city is named, a name query otherwise (the name is inserted
      unescaped), the key last, then `&lang=` unless the language is the
      default one. */
  function BuildUrl(req: WeatherRequest, apiKey: string, showFloat: real -> string): (url: string)
    ensures MetricPrefix <= url
  {
    var query :=
      if req.cityName == "" then
        "lat=" + CoordText(req.lat, showFloat) + "&lon=" + CoordText(req.lon, showFloat) + "&appid=" + apiKey
      else
        "q=" + req.cityName + "&appid=" + apiKey;
    ConcatEnds(MetricPrefix, query, LangSuffix(req.lang));
    MetricPrefix + query + LangSuffix(req.lang)
  }

  /** Both query forms start with the metric prefix; the URL ends with the
      language parameter when one is sent and with the API key otherwise. */
  lemma UrlPrefixAndSuffix(req: WeatherRequest, apiKey: string, showFloat: real -> string)
    ensures var url := BuildUrl(req, apiKey, showFloat);
      && MetricPrefix <= url
      && (req.lang != DefaultLang ==> IsSuffix("&lang=" + req.lang, url))
      && (req.lang == DefaultLang ==> IsSuffix("&appid=" + apiKey, url))
  {
  }

  /** `a` starts and `c` ends the concatenation `a + b + c`. */
  lemma ConcatEnds(a: string, b: string, c: string)
    ensures a <= a + b + c && IsSuffix(c, a + b + c)
  {
    assert (a + b + c)[..|a|] == a;
    assert (a + b + c)[|a + b|..] == c;
  }

  /** One `name=value` pair of a query string. */
  datatype Param = Param(name: string, value: string)

  /** The parameter list the handler writes into the URL, in order. This is
      what the provider reads back only under `SentQueryParses`. */
  function QueryParams(req: WeatherRequest, apiKey: string, showFloat: real -> string): seq<Param> {
    [Param("units", "metric")]
    + (if req.cityName == "" then
         [Param("lat", CoordText(req.lat, showFloat)), Param("lon", CoordText(req.lon, showFloat))]
       else
         [Param("q", req.cityName)])
    + KeyedParams(apiKey, req.lang)
  }

  /** The closing parameters: the key, then the language unless it is the default. */
  function KeyedParams(apiKey: string, lang: string): seq<Param> {
    [Param("appid", apiKey)] + (if lang != DefaultLang then [Param("lang", lang)] else [])
  }

  /** Parameters joined as `name=value` with `&` between them. */
  function Render(ps: seq<Param>): string
    decreases |ps|
  {
    if ps == [] then ""
    else if |ps| == 1 then ps[0].name + "=" + ps[0].value
    else ps[0].name + "=" + ps[0].value + "&" + Render(ps[1..])
  }

  /** The value of the first parameter called `name`, if any. */
  function Lookup(ps: seq<Param>, name: string): Option<string>
    decreases |ps|
  {
    if ps == [] then None
    else if ps[0].name == name then Some(ps[0].value)
    else Lookup(ps[1..], name)
  }

  lemma {:induction false} RenderCons(p: Param, ps: seq<Param>)
    requires ps != []
    ensures Render([p] + ps) == p.name + "=" + p.value + "&" + Render(ps)
  {
    assert ([p] + ps)[1..] == ps;
  }

  lemma {:induction false} LookupCons(p: Param, ps: seq<Param>, name: string)
    ensures Lookup([p] + ps, name) == if p.name == name then Some(p.value) else Lookup(ps, name)
  {
    assert ([p] + ps)[1..] == ps;
  }

  /** The text after `appid=`: the key, then the language parameter if any. */
  lemma {:induction false} RenderKeyed(apiKey: string, lang: string)
    ensures Render(KeyedParams(apiKey, lang)) == "appid=" + apiKey + LangSuffix(lang)
  {
    if lang != DefaultLang {
      RenderCons(Param("appid", apiKey), [Param("lang", lang)]);
    }
  }

  lemma Assoc(a: string, b: string, c: string)
    ensures a + b + c == a + (b + c)
  {
  }

  /** Rendering a list that starts with the units parameter. */
  lemma {:induction false} RenderUnitsFirst(rest: seq<Param>)
    requires rest != []
    ensures Endpoint + "?" + Render([Param("units", "metric")] + rest) == MetricPrefix + Render(rest)
  {
    var r := Render(rest);
    RenderCons(Param("units", "metric"), rest);
    assert "units" + "=" + "metric" + "&" == "units=metric&";
    assert "?" + "units=metric&" == "?units=metric&";
    Assoc("?", "units=metric&", r);
    Assoc(Endpoint, "?", "units=metric&" + r);
    Assoc(Endpoint, "?units=metric&", r);
  }

  lemma {:induction false} RenderLonFirst(lon: string, apiKey: string, lang: string)
    ensures Render([Param("lon", lon)] + KeyedParams(apiKey, lang)) == "lon=" + lon + ("&appid=" + apiKey + LangSuffix(lang))
  {
    var head, tail := "lon=" + lon, LangSuffix(lang);
    RenderKeyed(apiKey, lang);
    RenderCons(Param("lon", lon), KeyedParams(apiKey, lang));
    assert "lon" + "=" + lon == head;
    assert "&" + "appid=" == "&appid=";
    assert head + "&" + ("appid=" + apiKey + tail) == head + ("&appid=" + apiKey + tail);
  }

  lemma {:induction false} RenderLatFirst(lat: string, lon: string, apiKey: string, lang: string)
    ensures Render([Param("lat", lat)] + ([Param("lon", lon)] + KeyedParams(apiKey, lang)))
         == "lat=" + lat + "&lon=" + lon + "&appid=" + apiKey + LangSuffix(lang)
  {
    var head, tail := "lat=" + lat, LangSuffix(lang);
    var k := "&appid=" + apiKey + tail;
    RenderLonFirst(lon, apiKey, lang);
    RenderCons(Param("lat", lat), [Param("lon", lon)] + KeyedParams(apiKey, lang));
    assert "lat" + "=" + lat == head;
    assert "&" + "lon=" == "&lon=";
    assert head + "&" + ("lon=" + lon + k) == head + "&lon=" + lon + k;
    var front := head + "&lon=" + lon;
    assert front + k == front + "&appid=" + apiKey + tail;
  }

  lemma {:induction false} RenderQFirst(city: string, apiKey: string, lang: string)
    ensures Render([Param("q", city)] + KeyedParams(apiKey, lang)) == "q=" + city + "&appid=" + apiKey + LangSuffix(lang)
  {
    var head, tail := "q=" + city, LangSuffix(lang);
    RenderKeyed(apiKey, lang);
    RenderCons(Param("q", city), KeyedParams(apiKey, lang));
    assert "q" + "=" + city == head;
    assert "&" + "appid=" == "&appid=";
    assert head + "&" + ("appid=" + apiKey + tail) == head + "&appid=" + apiKey + tail;
  }

  /** The concatenated URL is the endpoint, `?`, and the parameter list rendered. */
  lemma {:induction false} UrlRendersParams(req: WeatherRequest, apiKey: string, showFloat: real -> string)
    ensures BuildUrl(req, apiKey, showFloat) == Endpoint + "?" + Render(QueryParams(req, apiKey, showFloat))
  {
    var keyed := KeyedParams(apiKey, req.lang);
    var lang := LangSuffix(req.lang);
    var rest, query;
    if req.cityName == "" {
      var lat, lon := CoordText(req.lat, showFloat), CoordText(req.lon, showFloat);
      rest := [Param("lat", lat)] + ([Param("lon", lon)] + keyed);
      query := "lat=" + lat + "&lon=" + lon + "&appid=" + apiKey;
      RenderLatFirst(lat, lon, apiKey, req.lang);
    } else {
      rest := [Param("q", req.cityName)] + keyed;
      query := "q=" + req.cityName + "&appid=" + apiKey;
      RenderQFirst(req.cityName, apiKey, req.lang);
    }
    assert QueryParams(req, apiKey, showFloat) == [Param("units", "metric")] + rest;
    RenderUnitsFirst(rest);
    Assoc(MetricPrefix, query, lang);
  }

  lemma {:induction false} LookupKeyed(apiKey: string, lang: string, name: string)
    ensures Lookup(KeyedParams(apiKey, lang), name)
         == if name == "appid" then Some(apiKey)
            else if name == "lang" && lang != DefaultLang then Some(lang)
            else None
  {
    var tail := if lang != DefaultLang then [Param("lang", lang)] else [];
    LookupCons(Param("appid", apiKey), tail, name);
    if tail != [] {
      LookupCons(Param("lang", lang), [], name);
      assert [Param("lang", lang)] + [] == tail;
    }
  }

  /** The value each parameter name has in the parameter list, and which names are absent. */
  lemma {:induction false} LookupQuery(req: WeatherRequest, apiKey: string, showFloat: real -> string, name: string)
    ensures Lookup(QueryParams(req, apiKey, showFloat), name)
         == if name == "units" then Some("metric")
            else if name == "lat" && req.cityName == "" then Some(CoordText(req.lat, showFloat))
            else if name == "lon" && req.cityName == "" then Some(CoordText(req.lon, showFloat))
            else if name == "q" && req.cityName != "" then Some(req.cityName)
            else Lookup(KeyedParams(apiKey, req.lang), name)
  {
    var keyed := KeyedParams(apiKey, req.lang);
    var ps := QueryParams(req, apiKey, showFloat);
    var units := Param("units", "metric");
    if req.cityName == "" {
      var latP, lonP := Param("lat", CoordText(req.lat, showFloat)), Param("lon", CoordText(req.lon, showFloat));
      assert ps == [units] + ([latP] + ([lonP] + keyed));
      LookupCons(units, [latP] + ([lonP] + keyed), name);
      LookupCons(latP, [lonP] + keyed, name);
      LookupCons(lonP, keyed, name);
    } else {
      var qP := Param("q", req.cityName);
      assert ps == [units] + ([qP] + keyed);
      LookupCons(units, [qP] + keyed, name);
      LookupCons(qP, keyed, name);
    }
  }

  /** With no city name the parameter list is by coordinates: `lat` and `lon` carry the
      coordinate texts and there is no `q` parameter. */
  lemma CoordinateQuery(req: WeatherRequest, apiKey: string, showFloat: real -> string)
    requires req.cityName == ""
    ensures var ps := QueryParams(req, apiKey, showFloat);
      && Lookup(ps, "lat") == Some(CoordText(req.lat, showFloat))
      && Lookup(ps, "lon") == Some(CoordText(req.lon, showFloat))
      && Lookup(ps, "q") == None
  {
    LookupQuery(req, apiKey, showFloat, "lat");
    LookupQuery(req, apiKey, showFloat, "lon");
    LookupQuery(req, apiKey, showFloat, "q");
    LookupKeyed(apiKey, req.lang, "q");
  }

  /** With a city name the parameter list is by name: `q` carries the name verbatim and
      neither `lat` nor `lon` is sent. */
  lemma NameQuery(req: WeatherRequest, apiKey: string, showFloat: real -> string)
    requires req.cityName != ""
    ensures var ps := QueryParams(req, apiKey, showFloat);
      && Lookup(ps, "q") == Some(req.cityName)
      && Lookup(ps, "lat") == None && Lookup(ps, "lon") == None
  {
    LookupQuery(req, apiKey, showFloat, "q");
    LookupQuery(req, apiKey, showFloat, "lat");
    LookupQuery(req, apiKey, showFloat, "lon");
    LookupKeyed(apiKey, req.lang, "lat");
    LookupKeyed(apiKey, req.lang, "lon");
  }

  /** Every query asks for metric units first and carries the API key; a `lang`
      parameter is sent, last, exactly when the language is not the default. */
  lemma UnitsKeyAndLang(req: WeatherRequest, apiKey: string, showFloat: real -> string)
    ensures var ps := QueryParams(req, apiKey, showFloat);
      && ps[0] == Param("units", "metric")
      && Lookup(ps, "appid") == Some(apiKey)
      && (Lookup(ps, "lang").Some? <==> req.lang != DefaultLang)
      && (req.lang != DefaultLang ==> Lookup(ps, "lang") == Some(req.lang) && ps[|ps| - 1] == Param("lang", req.lang))
      && (req.lang == DefaultLang ==> ps[|ps| - 1] == Param("appid", apiKey))
  {
    LookupQuery(req, apiKey, showFloat, "appid");
    LookupQuery(req, apiKey, showFloat, "lang");
    LookupKeyed(apiKey, req.lang, "appid");
    LookupKeyed(apiKey, req.lang, "lang");
  }

  /** A request with every field at its default asks by coordinates, sends
      both as `0`, and sends no city name and no language. */
  lemma DefaultRequestQuery(apiKey: string, showFloat: real -> string)
    ensures var ps := QueryParams(DefaultRequest(), apiKey, showFloat);
      && Lookup(ps, "lat") == Some("0") && Lookup(ps, "lon") == Some("0")
      && Lookup(ps, "q") == None && Lookup(ps, "lang") == None
    ensures BuildUrl(DefaultRequest(), apiKey, showFloat) == MetricPrefix + "lat=0&lon=0&appid=" + apiKey
  {
    CoordinateQuery(DefaultRequest(), apiKey, showFloat);
    UnitsKeyAndLang(DefaultRequest(), apiKey, showFloat);
    assert "lat=" + "0" + "&lon=" + "0" + "&appid=" == "lat=0&lon=0&appid=";
  }

  /** The index of the first `c` in `s`. */
  function IndexOf(s: string, c: char): (i: nat)
    requires c in s
    ensures i < |s| && s[i] == c && c !in s[..i]
    decreases |s|
  {
    if s[0] == c then 0
    else
      var j := IndexOf(s[1..], c);
      assert s[..j + 1] == [s[0]] + s[1..][..j];
      j + 1
  }

  /** `s` cut at every `sep`, as Python's `str.split(sep)` cuts it: there is
      always one piece more than there are separators. */
  function Split(s: string, sep: char): (parts: seq<string>)
    ensures |parts| >= 1
    decreases |s|
  {
    if sep in s then
      var i := IndexOf(s, sep);
      [s[..i]] + Split(s[i + 1..], sep)
    else [s]
  }

  /** One `name=value` piece, cut at its first `=`; a piece without `=` is
      a name with an empty value. */
  function ParseParam(piece: string): Param {
    if '=' in piece then
      var i := IndexOf(piece, '=');
      Param(piece[..i], piece[i + 1..])
    else Param(piece, "")
  }

  function ParseEach(pieces: seq<string>): (ps: seq<Param>)
    ensures |ps| == |pieces|
    decreases |pieces|
  {
    if pieces == [] then [] else [ParseParam(pieces[0])] + ParseEach(pieces[1..])
  }

  /** How a receiver reads a query string: pieces between `&`, each cut at its first `=`. */
  function ParseQuery(query: string): seq<Param> {
    ParseEach(Split(query, '&'))
  }

  /** The part of a URL after the endpoint and its `?`. */
  function QueryString(url: string): string {
    if |url| > |Endpoint| then url[|Endpoint| + 1..] else ""
  }

  /** Text that reaches the provider unchanged inside a query value: no `&`
      (a parameter separator), no `#` (the client cuts the URL there) and
      no `+` or `%` (the provider decodes those). */
  predicate QuerySafe(s: string) {
    '&' !in s && '#' !in s && '+' !in s && '%' !in s
  }

  /** Parameters a query string can carry unambiguously: no `&` anywhere and
      no `=` in a name. */
  predicate Unambiguous(ps: seq<Param>) {
    forall i :: 0 <= i < |ps| ==> '&' !in ps[i].name && '=' !in ps[i].name && '&' !in ps[i].value
  }

  lemma {:induction false} IndexOfAfter(a: string, c: char, b: string)
    requires c !in a
    ensures c in a + [c] + b && IndexOf(a + [c] + b, c) == |a|
  {
    var s := a + [c] + b;
    assert s[|a|] == c;
    assert s[..|a|] == a;
    assert forall k :: |a| < k <= |s| ==> s[..k][|a|] == c;
  }

  lemma {:induction false} ParseCons(a: string, b: string)
    requires '&' !in a
    ensures ParseQuery(a + "&" + b) == [ParseParam(a)] + ParseQuery(b)
  {
    var s := a + "&" + b;
    IndexOfAfter(a, '&', b);
    assert s[..|a|] == a && s[|a| + 1..] == b;
    assert Split(s, '&') == [a] + Split(b, '&');
    assert ([a] + Split(b, '&'))[1..] == Split(b, '&');
  }

  lemma {:induction false} ParseParamOf(name: string, value: string)
    requires '=' !in name
    ensures ParseParam(name + "=" + value) == Param(name, value)
  {
    var s := name + "=" + value;
    IndexOfAfter(name, '=', value);
    assert s[..|name|] == name && s[|name| + 1..] == value;
  }

  /** Reading back a rendered list gives the list, when it is unambiguous. */
  lemma {:induction false} ParseRender(ps: seq<Param>)
    requires ps != [] && Unambiguous(ps)
    ensures ParseQuery(Render(ps)) == ps
    decreases |ps|
  {
    var a := ps[0].name + "=" + ps[0].value;
    ParseParamOf(ps[0].name, ps[0].value);
    assert '&' !in a;
    if |ps| == 1 {
      assert Split(a, '&') == [a];
    } else {
      assert Unambiguous(ps[1..]) by {
        forall i | 0 <= i < |ps[1..]|
          ensures '&' !in ps[1..][i].name && '=' !in ps[1..][i].name && '&' !in ps[1..][i].value
        {
          assert ps[1..][i] == ps[i + 1];
        }
      }
      ParseRender(ps[1..]);
      ParseCons(a, Render(ps[1..]));
      assert ps == [ps[0]] + ps[1..];
    }
  }

  /** The parameter list holds no `&` and its names no `=` when every value is query-safe. */
  lemma ParamsUnambiguous(req: WeatherRequest, apiKey: string, showFloat: real -> string)
    requires QuerySafe(req.cityName) && QuerySafe(req.lang) && QuerySafe(apiKey)
    requires req.cityName == "" ==> QuerySafe(CoordText(req.lat, showFloat)) && QuerySafe(CoordText(req.lon, showFloat))
    ensures Unambiguous(QueryParams(req, apiKey, showFloat))
  {
    var ps := QueryParams(req, apiKey, showFloat);
    var names := ["units", "lat", "lon", "q", "appid", "lang"];
    assert forall n :: n in names ==> '&' !in n && '=' !in n;
    forall i | 0 <= i < |ps|
      ensures '&' !in ps[i].name && '=' !in ps[i].name && '&' !in ps[i].value
    {
      assert ps[i].name in names;
    }
  }

  /** When every value is query-safe, the provider reads back exactly the
      parameter list from the URL sent. */
  lemma SentQueryParses(req: WeatherRequest, apiKey: string, showFloat: real -> string)
    requires QuerySafe(req.cityName) && QuerySafe(req.lang) && QuerySafe(apiKey)
    requires req.cityName == "" ==> QuerySafe(CoordText(req.lat, showFloat)) && QuerySafe(CoordText(req.lon, showFloat))
    ensures ParseQuery(QueryString(BuildUrl(req, apiKey, showFloat))) == QueryParams(req, apiKey, showFloat)
  {
    var ps := QueryParams(req, apiKey, showFloat);
    UrlRendersParams(req, apiKey, showFloat);
    var url := BuildUrl(req, apiKey, showFloat);
    assert url == Endpoint + "?" + Render(ps);
    assert QueryString(url) == Render(ps);
    ParamsUnambiguous(req, apiKey, showFloat);
    ParseRender(ps);
  }

  /** A query-safe city name reaches the provider as the `q` parameter,
      with no coordinates beside it. */
  lemma SentNameQuery(req: WeatherRequest, apiKey: string, showFloat: real -> string)
    requires req.cityName != ""
    requires QuerySafe(req.cityName) && QuerySafe(req.lang) && QuerySafe(apiKey)
    ensures var read := ParseQuery(QueryString(BuildUrl(req, apiKey, showFloat)));
      && Lookup(read, "q") == Some(req.cityName)
      && Lookup(read, "lat") == None && Lookup(read, "lon") == None
  {
    SentQueryParses(req, apiKey, showFloat);
    NameQuery(req, apiKey, showFloat);
  }

  /** The query string sent for a city name that holds `&lat=`: the part
      before it and the part after it become two pieces of their own. */
  lemma {:induction false} InjectedQueryString(x: string, y: string, apiKey: string, showFloat: real -> string)
    ensures var req := WeatherRequest(x + "&lat=" + y, Omitted, Omitted, DefaultLang);
      QueryString(BuildUrl(req, apiKey, showFloat))
        == ("units" + "=" + "metric") + "&" + (("q" + "=" + x) + "&" + (("lat" + "=" + y) + "&" + Render([Param("appid", apiKey)])))
  {
    var city := x + "&lat=" + y;
    var req := WeatherRequest(city, Omitted, Omitted, DefaultLang);
    UrlRendersParams(req, apiKey, showFloat);
    var ps := QueryParams(req, apiKey, showFloat);
    var url := BuildUrl(req, apiKey, showFloat);
    assert QueryString(url) == Render(ps) by {
      assert url == Endpoint + "?" + Render(ps);
      assert url[|Endpoint| + 1..] == Render(ps);
    }
    var appid := [Param("appid", apiKey)];
    var r2 := Render(appid);
    assert ps == [Param("units", "metric")] + ([Param("q", city)] + appid);
    RenderCons(Param("units", "metric"), [Param("q", city)] + appid);
    RenderCons(Param("q", city), appid);
    assert "q" + "=" + city + "&" + r2 == ("q" + "=" + x) + "&" + (("lat" + "=" + y) + "&" + r2) by {
      assert "&lat=" == "&" + ("lat" + "=");
    }
  }

  /** How the provider reads the injected query string: units, `q=x`,
      `lat=y`, then whatever the rest gives. */
  lemma {:induction false} InjectedParse(x: string, y: string, rest: string)
    requires '&' !in x && '&' !in y
    ensures ParseQuery(("units" + "=" + "metric") + "&" + (("q" + "=" + x) + "&" + (("lat" + "=" + y) + "&" + rest)))
         == [Param("units", "metric")] + ([Param("q", x)] + ([Param("lat", y)] + ParseQuery(rest)))
  {
    var units, q, lat := "units" + "=" + "metric", "q" + "=" + x, "lat" + "=" + y;
    ParseCons(units, q + "&" + (lat + "&" + rest));
    ParseCons(q, lat + "&" + rest);
    ParseCons(lat, rest);
    ParseParamOf("units", "metric");
    ParseParamOf("q", x);
    ParseParamOf("lat", y);
  }

  /** A city name `x&lat=y`, with `x` and `y` query-safe, puts no `lat`
      parameter in the parameter list,
      yet the provider reads `lat=y` from the URL sent, and reads the city
      name as `x` alone. */
  lemma CityNameInjectsParams(x: string, y: string, apiKey: string, showFloat: real -> string)
    requires QuerySafe(x) && QuerySafe(y)
    ensures var req := WeatherRequest(x + "&lat=" + y, Omitted, Omitted, DefaultLang);
      && Lookup(QueryParams(req, apiKey, showFloat), "lat") == None
      && Lookup(ParseQuery(QueryString(BuildUrl(req, apiKey, showFloat))), "lat") == Some(y)
      && Lookup(ParseQuery(QueryString(BuildUrl(req, apiKey, showFloat))), "q") == Some(x)
  {
    var req := WeatherRequest(x + "&lat=" + y, Omitted, Omitted, DefaultLang);
    NameQuery(req, apiKey, showFloat);
    InjectedQueryString(x, y, apiKey, showFloat);
    var r2 := Render([Param("appid", apiKey)]);
    InjectedParse(x, y, r2);
    var rest := ParseQuery(r2);
    LookupCons(Param("units", "metric"), [Param("q", x)] + ([Param("lat", y)] + rest), "lat");
    LookupCons(Param("q", x), [Param("lat", y)] + rest, "lat");
    LookupCons(Param("lat", y), rest, "lat");
    LookupCons(Param("units", "metric"), [Param("q", x)] + ([Param("lat", y)] + rest), "q");
    LookupCons(Param("q", x), [Param("lat", y)] + rest, "q");
  }
}
