/**
 * The boundary between app.py and the outside world: the GET requests it sends
 * upstream, what comes back once `requests.get`, `raise_for_status()` and
 * `.json()` have run, and the (status, JSON body) pair a Flask view returns.
 */
module Http {
  import opened Wrappers
  import opened Json

  /** A GET request: the URL, the query parameters in the order of the params
      dict, and the headers. */
  datatype HttpRequest = HttpRequest(url: string, params: seq<(string, string)>, headers: seq<(string, string)>)

  /** The upstream's reply: a parsed JSON body, a `requests.exceptions.RequestException`
      (connection error, timeout, error status, unparsable body), or any other exception. */
  datatype Answer = Parsed(json: Value) | RequestFailure(msg: string) | OtherFailure(msg: string)

  /** The two `except` clauses of the search view tell these apart. */
  datatype FetchError = RequestError(msg: string) | UnexpectedError(msg: string)

  /** What a view produces: `jsonify(body), status`, or an exception the view
      does not catch, which Flask answers with its own 500 page. */
  datatype Response = Reply(status: int, body: Value) | InternalServerError(fault: Fault)

  /** The values read from the environment: STACKOVERFLOW_KEY and REDDIT_USERNAME. */
  datatype Config = Config(stackOverflowKey: Option<string>, redditUsername: Option<string>)

  /** `{'error': msg}`. */
  function ErrorBody(msg: string): Value {
    Obj([("error", Str(msg))])
  }

  /** A query parameter whose value may be None: `requests` leaves such a parameter out. */
  function OptionalParam(name: string, value: Option<string>): (ps: seq<(string, string)>)
    ensures value.None? <==> ps == []
    ensures value.Some? ==> ps == [(name, value.value)]
  {
    if value.Some? then [(name, value.value)] else []
  }

  /** A fetcher's outcome from the upstream's reply: a request exception stays
      one, and an exception raised while reading the body is unexpected. */
  function Lift<T>(answer: Answer, decode: Value -> Result<T, Fault>): (r: Result<T, FetchError>)
    ensures answer.RequestFailure? ==> r == Err(RequestError(answer.msg))
    ensures answer.OtherFailure? ==> r == Err(UnexpectedError(answer.msg))
    ensures answer.Parsed? && decode(answer.json).Ok? ==> r == Ok(decode(answer.json).value)
    ensures answer.Parsed? && decode(answer.json).Err? ==> r == Err(UnexpectedError(decode(answer.json).error.Message()))
  {
    match answer
    case RequestFailure(msg) => Err(RequestError(msg))
    case OtherFailure(msg) => Err(UnexpectedError(msg))
    case Parsed(json) =>
      match decode(json)
      case Ok(v) => Ok(v)
      case Err(f) => Err(UnexpectedError(f.Message()))
  }

  /** Logging two requests one after the other logs both, in that order. */
  lemma AppendTwo(log: seq<HttpRequest>, first: HttpRequest, second: HttpRequest)
    ensures (log + [first]) + [second] == log + [first, second]
  {
  }

  /**
   * The network as app.py sees it: every request is logged in the order it is
   * sent, and the upstream's reply to a request is fixed by `respond`.
   */
  class Transport {
    var log: seq<HttpRequest>
    const respond: HttpRequest -> Answer

    constructor (respond: HttpRequest -> Answer)
      ensures log == [] && this.respond == respond
    {
      log := [];
      this.respond := respond;
    }

    /** `requests.get(...)` followed by `raise_for_status()` and `.json()`. */
    method Get(request: HttpRequest) returns (answer: Answer)
      modifies this
      ensures log == old(log) + [request]
      ensures answer == respond(request)
    {
      log := log + [request];
      answer := respond(request);
    }
  }
}
