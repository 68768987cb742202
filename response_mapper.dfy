/**
 * The second half of `get_weather_from_api`: the provider body is turned
 * into the service's response. The descriptive fields fall back to
 * defaults when their keys are absent; the numeric fields are read with
 * plain subscripts, so a missing one raises. Every Python exception that
 * can occur is a `Failure`, raised at the same point as in the handler.
 */
module ResponseMapper {
  import opened Wrappers
  import opened PyJson

  datatype CityInfo = CityInfo(cityName: string, cityCountry: string)

  datatype WeatherInfo = WeatherInfo(weatherMain: string, weatherDescription: string)

  datatype WeatherResponse = WeatherResponse(
    cityInfo: seq<CityInfo>,
    lon: real,
    lat: real,
    weatherInfo: seq<WeatherInfo>,
    temperature: real,
    feelsLikeTemperature: real,
    windSpeed: real)

  const Unknown: string := "Unknown"

  /** The city name value: the body's `name` entry when the body holds
      that key, the text `Unknown` when it does not. */
  function CityNameValue(data: Json): (r: Result<Json, PyError>)
    ensures data.JObject? ==> r == Success(if "name" in data.fields then data.fields["name"] else JString(Unknown))
    ensures !data.JObject? && r.Success? ==> r.value == JString(Unknown)
  {
    var present :- Contains(data, "name");
    if present then Subscript(data, "name") else Success(JString(Unknown))
  }

  /** The country value: the `country` entry of the body's `sys` object when
      both keys are there, the text `Unknown` when either is missing. */
  function CountryValue(data: Json): (r: Result<Json, PyError>)
    ensures data.JObject? && "sys" !in data.fields ==> r == Success(JString(Unknown))
    ensures data.JObject? && "sys" in data.fields && data.fields["sys"].JObject? ==>
      var sys := data.fields["sys"].fields;
      r == Success(if "country" in sys then sys["country"] else JString(Unknown))
    ensures data.JObject? && "sys" in data.fields && !data.fields["sys"].JObject? && r.Success? ==>
      r.value == JString(Unknown)
  {
    var hasSys :- Contains(data, "sys");
    if !hasSys then Success(JString(Unknown))
    else
      var sys :- Subscript(data, "sys");
      var present :- Contains(sys, "country");
      if present then Subscript(sys, "country") else Success(JString(Unknown))
  }

  /** A weather text: the `key` entry of the first element of the body's
      `weather` list when the body holds that list, the empty text when it
      does not. An empty list raises `IndexError`. */
  function WeatherValue(data: Json, key: string): (r: Result<Json, PyError>)
    ensures data.JObject? && "weather" !in data.fields ==> r == Success(JString(""))
    ensures data.JObject? && "weather" in data.fields && data.fields["weather"] == JArray([]) ==>
      r == Failure(IndexError)
    ensures data.JObject? && "weather" in data.fields && data.fields["weather"].JArray? && |data.fields["weather"].items| > 0 ==>
      r == Subscript(data.fields["weather"].items[0], key)
  {
    var present :- Contains(data, "weather");
    if present then
      var weather :- Subscript(data, "weather");
      var first :- First(weather);
      Subscript(first, key)
    else Success(JString(""))
  }

  /** A numeric read through two keys, which raises when either is missing
      or a step is not an object. */
  function Required(data: Json, outer: string, inner: string): (r: Result<Json, PyError>)
    ensures r.Success? <==> data.JObject? && outer in data.fields
                            && data.fields[outer].JObject? && inner in data.fields[outer].fields
    ensures r.Success? ==> r.value == data.fields[outer].fields[inner]
    ensures r.Failure? ==> r.error == KeyError || r.error == TypeError
  {
    var obj :- Subscript(data, outer);
    Subscript(obj, inner)
  }

  /** The whole mapping, in the handler's order: city (validated when
      `CityInfo` is built), weather (validated when `WeatherInfo` is built),
      the five numeric reads, and the validation of `WeatherResponse`. */
  function MapResponse(data: Json): (r: Result<WeatherResponse, PyError>)
    ensures r.Success? ==> |r.value.cityInfo| == 1 && |r.value.weatherInfo| == 1
  {
    var nameV :- CityNameValue(data);
    var countryV :- CountryValue(data);
    var cityName :- AsStr(nameV);
    var country :- AsStr(countryV);
    var mainV :- WeatherValue(data, "main");
    var descriptionV :- WeatherValue(data, "description");
    var weatherMain :- AsStr(mainV);
    var description :- AsStr(descriptionV);
    var latV :- Required(data, "coord", "lat");
    var lonV :- Required(data, "coord", "lon");
    var tempV :- Required(data, "main", "temp");
    var feelsV :- Required(data, "main", "feels_like");
    var speedV :- Required(data, "wind", "speed");
    var lon :- AsFloat(lonV);
    var lat :- AsFloat(latV);
    var temp :- AsFloat(tempV);
    var feels :- AsFloat(feelsV);
    var speed :- AsFloat(speedV);
    Success(WeatherResponse([CityInfo(cityName, country)], lon, lat, [WeatherInfo(weatherMain, description)], temp, feels, speed))
  }

  /** The read `data[outer][inner]` succeeds exactly when the object path exists. */
  lemma RequiredIsPath(data: Json, outer: string, inner: string)
    ensures Required(data, outer, inner).Success? <==> Path(data, [outer, inner]).Some?
    ensures Required(data, outer, inner).Success? ==> Path(data, [outer, inner]) == Some(Required(data, outer, inner).value)
  {
    assert [outer, inner][1..] == [inner];
    if data.JObject? && outer in data.fields {
      var obj := data.fields[outer];
      assert Path(data, [outer, inner]) == Path(obj, [inner]);
      assert [inner][1..] == [];
      assert Path(obj, [inner]) == if obj.JObject? && inner in obj.fields then Some(obj.fields[inner]) else None;
    }
  }

  /** The five numeric values are copied unchanged from their paths. */
  lemma MappedNumbers(data: Json)
    requires MapResponse(data).Success?
    ensures var resp := MapResponse(data).value;
      && Path(data, ["coord", "lat"]) == Some(JNumber(resp.lat))
      && Path(data, ["coord", "lon"]) == Some(JNumber(resp.lon))
      && Path(data, ["main", "temp"]) == Some(JNumber(resp.temperature))
      && Path(data, ["main", "feels_like"]) == Some(JNumber(resp.feelsLikeTemperature))
      && Path(data, ["wind", "speed"]) == Some(JNumber(resp.windSpeed))
  {
  }

  /** A missing numeric field makes the mapping fail: nothing is defaulted. */
  lemma MissingNumberFails(data: Json)
    requires || Path(data, ["coord", "lat"]).None?
             || Path(data, ["coord", "lon"]).None?
             || Path(data, ["main", "temp"]).None?
             || Path(data, ["main", "feels_like"]).None?
             || Path(data, ["wind", "speed"]).None?
    ensures MapResponse(data).Failure?
  {
  }

  /** The city name is the body's `name` when the key is present (and then
      must be a string), `"Unknown"` otherwise. A body that is not an
      object never maps. */
  lemma MappedCityName(data: Json)
    requires MapResponse(data).Success?
    ensures data.JObject?
    ensures var name := MapResponse(data).value.cityInfo[0].cityName;
      && ("name" in data.fields ==> data.fields["name"] == JString(name))
      && ("name" !in data.fields ==> name == Unknown)
  {
  }

  /** The country is `sys.country` when both keys are present, `"Unknown"`
      when `sys` is absent or is an object without `country`. */
  lemma MappedCountry(data: Json)
    requires MapResponse(data).Success?
    ensures data.JObject?
    ensures var country := MapResponse(data).value.cityInfo[0].cityCountry;
      && (Path(data, ["sys", "country"]).Some? ==> Path(data, ["sys", "country"]) == Some(JString(country)))
      && ("sys" !in data.fields ==> country == Unknown)
      && (("sys" in data.fields && data.fields["sys"].JObject? && "country" !in data.fields["sys"].fields)
          ==> country == Unknown)
  {
  }

  /** Without a `weather` key both weather texts are empty; with one, it
      must be a non-empty list whose first element supplies both texts. */
  lemma MappedWeather(data: Json)
    requires MapResponse(data).Success?
    ensures data.JObject?
    ensures var info := MapResponse(data).value.weatherInfo[0];
      && ("weather" !in data.fields ==> info.weatherMain == "" && info.weatherDescription == "")
      && ("weather" in data.fields ==>
            var w := data.fields["weather"];
            && w.JArray? && |w.items| > 0
            && Path(w.items[0], ["main"]) == Some(JString(info.weatherMain))
            && Path(w.items[0], ["description"]) == Some(JString(info.weatherDescription)))
  {
  }

  /** A `weather` list that is present but empty makes the mapping fail. */
  lemma EmptyWeatherFails(data: Json)
    requires data.JObject? && "weather" in data.fields && data.fields["weather"] == JArray([])
    ensures MapResponse(data).Failure?
  {
  }

  predicate OptionalString(fields: map<string, Json>, key: string) {
    key in fields ==> fields[key].JString?
  }

  predicate NumberAt(data: Json, outer: string, inner: string) {
    Path(data, [outer, inner]).Some? && Path(data, [outer, inner]).value.JNumber?
  }

  /** A body of the shape the provider documents: an object whose
      descriptive fields, where present, are strings in objects and lists,
      and whose five numeric fields are present and numbers. */
  predicate WellFormedBody(data: Json) {
    && data.JObject?
    && OptionalString(data.fields, "name")
    && ("sys" in data.fields ==> data.fields["sys"].JObject? && OptionalString(data.fields["sys"].fields, "country"))
    && ("weather" in data.fields ==>
          var w := data.fields["weather"];
          && w.JArray? && |w.items| > 0 && w.items[0].JObject?
          && "main" in w.items[0].fields && w.items[0].fields["main"].JString?
          && "description" in w.items[0].fields && w.items[0].fields["description"].JString?)
    && NumberAt(data, "coord", "lat") && NumberAt(data, "coord", "lon")
    && NumberAt(data, "main", "temp") && NumberAt(data, "main", "feels_like")
    && NumberAt(data, "wind", "speed")
  }

  /** Every well-formed body maps; with the lemmas above this fixes every
      field of the response. */
  lemma WellFormedBodyMaps(data: Json)
    requires WellFormedBody(data)
    ensures MapResponse(data).Success?
  {
    RequiredIsPath(data, "coord", "lat");
    RequiredIsPath(data, "coord", "lon");
    RequiredIsPath(data, "main", "temp");
    RequiredIsPath(data, "main", "feels_like");
    RequiredIsPath(data, "wind", "speed");
  }

  /** A provider body for London, with every field present. */
  function LondonBody(): Json {
    JObject(map[
      "name" := JString("London"),
      "sys" := JObject(map["country" := JString("GB")]),
      "weather" := JArray([JObject(map["main" := JString("Clouds"), "description" := JString("overcast clouds")])]),
      "coord" := JObject(map["lat" := JNumber(51.5), "lon" := JNumber(-0.1)]),
      "main" := JObject(map["temp" := JNumber(15.2), "feels_like" := JNumber(14.8)]),
      "wind" := JObject(map["speed" := JNumber(3.1)])])
  }

  /** The London body maps to the response with every value carried over. */
  lemma LondonExample()
    ensures MapResponse(LondonBody()) == Success(WeatherResponse(
      [CityInfo("London", "GB")], -0.1, 51.5, [WeatherInfo("Clouds", "overcast clouds")], 15.2, 14.8, 3.1))
  {
    LondonText();
    LondonNumbers();
  }

  lemma LondonText()
    ensures CityNameValue(LondonBody()) == Success(JString("London"))
    ensures CountryValue(LondonBody()) == Success(JString("GB"))
    ensures WeatherValue(LondonBody(), "main") == Success(JString("Clouds"))
    ensures WeatherValue(LondonBody(), "description") == Success(JString("overcast clouds"))
  {
  }

  lemma LondonNumbers()
    ensures Required(LondonBody(), "coord", "lat") == Success(JNumber(51.5))
    ensures Required(LondonBody(), "coord", "lon") == Success(JNumber(-0.1))
    ensures Required(LondonBody(), "main", "temp") == Success(JNumber(15.2))
    ensures Required(LondonBody(), "main", "feels_like") == Success(JNumber(14.8))
    ensures Required(LondonBody(), "wind", "speed") == Success(JNumber(3.1))
  {
  }
}
