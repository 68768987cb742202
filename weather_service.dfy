/**
 * The `/get_weather` handler, `get_weather_from_api`, composed from the
 * pieces: build the query URL, fetch with retries, turn an exhausted retry
 * into HTTP 404, map the body, log the response and return it.
 *
 * The API key, the network, Python's float and dict formatting and the
 * clock are parameters.
 */
module WeatherService {
  import opened Wrappers
  import opened PyJson
  import opened QueryUrl
  import Retry
  import opened ResponseMapper
  import opened RequestLog

  /** The fixed detail sent with the 404 reply. */
  const RetryFailureDetail: string := "Ошибка при повторных попытках запроса"
  const NotFound: int := 404

  /** What the caller receives: the response, the one handled HTTP error,
      or an exception the handler lets escape (a server error). */
  datatype Reply = Ok(response: WeatherResponse) | HttpException(status: int, detail: string) | Unhandled(error: PyError)

  /** The reply for a request, given the provider's behaviour: 404 with the
      fixed detail when the retries run out, otherwise the mapping of the
      fetched body, whose failure escapes unhandled. */
  function HandlerReply(req: WeatherRequest, apiKey: string, showFloat: real -> string,
                        network: (string, nat) -> Retry.Response): (r: Reply)
    ensures var fetched := Retry.RetryFrom(BuildUrl(req, apiKey, showFloat), network, 0);
      && (r.HttpException? <==> fetched.Exhausted?)
      && (r.HttpException? ==> r.status == NotFound && r.detail == RetryFailureDetail)
      && (r.Ok? ==> fetched.Success? && MapResponse(fetched.body) == Success(r.response))
      && (r.Unhandled? ==> fetched.Success? && MapResponse(fetched.body) == Failure(r.error))
  {
    match Retry.RetryFrom(BuildUrl(req, apiKey, showFloat), network, 0)
    case Exhausted => HttpException(NotFound, RetryFailureDetail)
    case Success(data) =>
      match MapResponse(data)
      case Failure(e) => Unhandled(e)
      case Success(resp) => Ok(resp)
  }

  /** The handler. A reply with a response is logged first, as one appended
      record; an error reply leaves the log untouched. */
  method GetWeatherFromApi(req: WeatherRequest, apiKey: string, showFloat: real -> string,
                           network: (string, nat) -> Retry.Response,
                           showDict: WeatherResponse -> string, timestamp: string, log: LogFile)
    returns (reply: Reply)
    requires ValidRequest(req)
    modifies log
    ensures reply == HandlerReply(req, apiKey, showFloat, network)
    ensures reply.Ok? ==> log.contents == AfterSave(old(log.contents), Append, showDict(reply.response), timestamp)
    ensures !reply.Ok? ==> log.contents == old(log.contents)
  {
    var url := BuildUrl(req, apiKey, showFloat);
    var fetched, _ := Retry.PerformRequest(url, network);
    if fetched.Exhausted? {
      return HttpException(NotFound, RetryFailureDetail);
    }
    var mapped := MapResponse(fetched.body);
    if mapped.Failure? {
      return Unhandled(mapped.error);
    }
    log.SaveRequestInTxtFile(showDict(mapped.value), timestamp, Append);
    reply := Ok(mapped.value);
  }

  /** The caller sees 404, with the fixed detail, exactly when all three
      calls to the provider failed; no other path produces an HTTP error. */
  lemma NotFoundIffAllAttemptsFail(req: WeatherRequest, apiKey: string, showFloat: real -> string,
                                   network: (string, nat) -> Retry.Response)
    ensures var reply := HandlerReply(req, apiKey, showFloat, network);
      && (reply.HttpException? ==> reply == HttpException(NotFound, RetryFailureDetail))
      && (reply.HttpException? <==>
            forall i :: 0 <= i < Retry.MaxAttempts ==> Retry.Fails(BuildUrl(req, apiKey, showFloat), network, i))
  {
    Retry.ExhaustedIffAllFail(BuildUrl(req, apiKey, showFloat), network, 0);
  }

  /** A reply with a response carries exactly what the body of the first
      successful call maps to. */
  lemma OkIsMappedFirstSuccess(req: WeatherRequest, apiKey: string, showFloat: real -> string,
                               network: (string, nat) -> Retry.Response)
    requires HandlerReply(req, apiKey, showFloat, network).Ok?
    ensures exists j, body :: (0 <= j < Retry.MaxAttempts
      && Retry.AttemptOnce(network(BuildUrl(req, apiKey, showFloat), j)) == Some(body)
      && (forall i :: 0 <= i < j ==> Retry.Fails(BuildUrl(req, apiKey, showFloat), network, i))
      && MapResponse(body) == Success(HandlerReply(req, apiKey, showFloat, network).response))
  {
    var url := BuildUrl(req, apiKey, showFloat);
    var body := Retry.RetryFrom(url, network, 0).body;
    Retry.SuccessIsFirstSuccess(url, network, 0, body);
  }

  /** The London request answered at once with the London body gives the
      London response. */
  lemma LondonEndToEnd(apiKey: string, showFloat: real -> string, network: (string, nat) -> Retry.Response)
    requires Retry.AttemptOnce(network(BuildUrl(WeatherRequest("London", Omitted, Omitted, "eng"), apiKey, showFloat), 0))
          == Some(LondonBody())
    ensures HandlerReply(WeatherRequest("London", Omitted, Omitted, "eng"), apiKey, showFloat, network)
         == Ok(WeatherResponse([CityInfo("London", "GB")], -0.1, 51.5, [WeatherInfo("Clouds", "overcast clouds")], 15.2, 14.8, 3.1))
  {
    LondonExample();
  }
}
