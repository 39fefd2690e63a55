/**
 * The `/search` view (app.py:156-184): validate the query, fetch Stack
 * Overflow and then Reddit, and answer with both result lists, or with a
 * single error when either fetch fails.
 */
module Search {
  import opened Wrappers
  import opened Json
  import opened Text
  import opened Http
  import StackOverflow
  import Reddit

  /** The page size asked of Reddit; `has_more` compares against it. */
  const RedditLimit := 10

  const NoQueryMessage := "No search query provided"
  const RequestErrorPrefix := "Error fetching data from APIs: "
  const UnexpectedErrorPrefix := "An unexpected error occurred: "

  /** The query-string arguments, each absent when the caller left it out.
      `page` is already parsed as an int. */
  datatype SearchRequest = SearchRequest(query: Option<string>, sort: Option<string>, page: Option<int>, after: Option<string>) {
    /** `request.args.get('query', '').strip()`. */
    function Query(): (r: string)
      ensures query.None? ==> r == ""
      ensures r == "" <==> forall k :: 0 <= k < |query.GetOr("")| ==> IsSpace(query.GetOr("")[k])
    {
      StripEmptyIff(query.GetOr(""));
      Strip(query.GetOr(""))
    }

    /** `request.args.get('sort', 'relevance')`. */
    function SortOption(): (r: string)
      ensures sort.None? ==> r == "relevance"
      ensures sort.Some? ==> r == sort.value
    {
      sort.GetOr("relevance")
    }

    /** `int(request.args.get('page', 1))`. */
    function Page(): (r: int)
      ensures page.None? ==> r == 1
      ensures page.Some? ==> r == page.value
    {
      page.GetOr(1)
    }
  }

  /** The answer to a successful search. */
  datatype SearchResponse = SearchResponse(
    stackOverflow: seq<StackOverflow.Record>,
    reddit: seq<Reddit.Record>,
    hasMore: bool,
    redditAfter: Value)
  {
    /** The dict passed to `jsonify`: both lists, record by record, the flag and the cursor. */
    function ToJson(): (j: Value)
      ensures j.Obj?
      ensures Lookup(j.members, "stackoverflow") == Some(Arr(JsonList(stackOverflow, (r: StackOverflow.Record) => r.ToJson())))
      ensures Lookup(j.members, "reddit") == Some(Arr(JsonList(reddit, (r: Reddit.Record) => r.ToJson())))
      ensures Lookup(j.members, "has_more") == Some(Bool(hasMore))
      ensures Lookup(j.members, "reddit_after") == Some(redditAfter)
    {
      var ms := [("stackoverflow", Arr(JsonList(stackOverflow, (r: StackOverflow.Record) => r.ToJson()))),
                 ("reddit", Arr(JsonList(reddit, (r: Reddit.Record) => r.ToJson()))),
                 ("has_more", Bool(hasMore)), ("reddit_after", redditAfter)];
      LookupUnique(ms, 0);
      LookupUnique(ms, 1);
      LookupUnique(ms, 2);
      LookupUnique(ms, 3);
      Obj(ms)
    }
  }

  /** A list of records as `jsonify` sees it: one dict per record, in order. */
  function JsonList<T>(rs: seq<T>, toJson: T -> Value): (js: seq<Value>)
    ensures |js| == |rs| && forall i :: 0 <= i < |rs| ==> js[i] == toJson(rs[i])
  {
    seq(|rs|, i requires 0 <= i < |rs| => toJson(rs[i]))
  }

  /** The 500 reply for a failed fetch; the two `except` clauses differ only in the prefix. */
  function FailureResponse(e: FetchError): (resp: Response)
    ensures resp.Reply? && resp.status == 500
    ensures e.RequestError? ==> resp.body == ErrorBody(RequestErrorPrefix + e.msg)
    ensures e.UnexpectedError? ==> resp.body == ErrorBody(UnexpectedErrorPrefix + e.msg)
  {
    match e
    case RequestError(msg) => Reply(500, ErrorBody(RequestErrorPrefix + msg))
    case UnexpectedError(msg) => Reply(500, ErrorBody(UnexpectedErrorPrefix + msg))
  }

  /** The Stack Overflow request a search sends. */
  function StackOverflowRequest(cfg: Config, req: SearchRequest): HttpRequest {
    StackOverflow.Request(cfg.stackOverflowKey, req.Query(), req.SortOption(), req.Page())
  }

  /** The Reddit request a search sends. */
  function RedditRequest(cfg: Config, req: SearchRequest): HttpRequest {
    Reddit.Request(cfg.redditUsername, req.Query(), req.SortOption(), RedditLimit, req.after)
  }

  /** What Stack Overflow's reply makes of the Stack Overflow fetch. */
  function StackOverflowOutcome(cfg: Config, respond: HttpRequest -> Answer, req: SearchRequest): Result<seq<StackOverflow.Record>, FetchError> {
    Lift(respond(StackOverflowRequest(cfg, req)), StackOverflow.Results)
  }

  /** What Reddit's reply makes of the Reddit fetch. */
  function RedditOutcome(cfg: Config, respond: HttpRequest -> Answer, req: SearchRequest): Result<Reddit.Listing, FetchError> {
    Lift(respond(RedditRequest(cfg, req)), Reddit.Parse)
  }

  /** A search as a value: the response and the requests sent, in order, when
      the upstreams answer as `respond` says. */
  function Outcome(cfg: Config, respond: HttpRequest -> Answer, req: SearchRequest): (r: (Response, seq<HttpRequest>))
    ensures |r.1| <= 2
    ensures r.1 != [] ==> r.1[0] == StackOverflowRequest(cfg, req)
    ensures |r.1| == 2 ==> r.1[1] == RedditRequest(cfg, req)
  {
    if req.Query() == "" then
      (Reply(400, ErrorBody(NoQueryMessage)), [])
    else
      match StackOverflowOutcome(cfg, respond, req)
      case Err(e) => (FailureResponse(e), [StackOverflowRequest(cfg, req)])
      case Ok(so) =>
        match RedditOutcome(cfg, respond, req)
        case Err(e) => (FailureResponse(e), [StackOverflowRequest(cfg, req), RedditRequest(cfg, req)])
        case Ok(listing) =>
          (Reply(200, SearchResponse(so, listing.records, |listing.records| == RedditLimit, listing.after).ToJson()),
           [StackOverflowRequest(cfg, req), RedditRequest(cfg, req)])
  }

  /** `search()`: the early return for an empty query, then the two fetches in
      order inside one `try`, then the combined answer. */
  method Search(t: Transport, cfg: Config, req: SearchRequest) returns (resp: Response)
    modifies t
    ensures resp == Outcome(cfg, t.respond, req).0
    ensures t.log == old(t.log) + Outcome(cfg, t.respond, req).1
  {
    ghost var sent := t.log;
    ghost var soRequest, redditRequest := StackOverflowRequest(cfg, req), RedditRequest(cfg, req);
    var query := Strip(req.query.GetOr(""));
    var sortOption := req.sort.GetOr("relevance");
    var page := req.page.GetOr(1);
    var redditAfter := req.after;
    if query == "" {
      return Reply(400, ErrorBody(NoQueryMessage));
    }
    assert query == req.Query() && sortOption == req.SortOption() && page == req.Page();
    var stackOverflowResults := StackOverflow.Fetch(t, cfg.stackOverflowKey, query, sortOption, page);
    assert stackOverflowResults == StackOverflowOutcome(cfg, t.respond, req);
    assert t.log == sent + [soRequest];
    if stackOverflowResults.Err? {
      return FailureResponse(stackOverflowResults.error);
    }
    var redditLimit := RedditLimit;
    var reddit := Reddit.Fetch(t, cfg.redditUsername, query, sortOption, redditLimit, redditAfter);
    assert reddit == RedditOutcome(cfg, t.respond, req);
    assert t.log == (sent + [soRequest]) + [redditRequest];
    AppendTwo(sent, soRequest, redditRequest);
    if reddit.Err? {
      return FailureResponse(reddit.error);
    }
    var redditResults, newAfter := reddit.value.records, reddit.value.after;
    resp := Reply(200, SearchResponse(stackOverflowResults.value, redditResults,
                                      |redditResults| == redditLimit, newAfter).ToJson());
  }

  /** A query that is empty after stripping is answered 400 before any request is sent. */
  lemma EmptyQueryRejected(cfg: Config, respond: HttpRequest -> Answer, req: SearchRequest)
    ensures (forall k :: 0 <= k < |req.query.GetOr("")| ==> IsSpace(req.query.GetOr("")[k])) <==>
            Outcome(cfg, respond, req) == (Reply(400, ErrorBody(NoQueryMessage)), [])
  {
    StripEmptyIff(req.query.GetOr(""));
  }

  /** Otherwise Stack Overflow is asked first, with the stripped query and the
      caller's sort and page, and Reddit second, with the stripped query, the
      caller's sort and cursor and a limit of 10; Reddit is asked only when
      Stack Overflow succeeded. */
  lemma RequestsInOrder(cfg: Config, respond: HttpRequest -> Answer, req: SearchRequest)
    requires req.Query() != ""
    ensures var sent := Outcome(cfg, respond, req).1;
      && 1 <= |sent| <= 2
      && sent[0] == StackOverflow.Request(cfg.stackOverflowKey, req.Query(), req.SortOption(), req.Page())
      && (|sent| == 2 <==> StackOverflowOutcome(cfg, respond, req).Ok?)
      && (|sent| == 2 ==> sent[1] == Reddit.Request(cfg.redditUsername, req.Query(), req.SortOption(), 10, req.after))
  {
  }

  /** Either failure answers 500 with no results at all; a request exception and
      any other exception are told apart by the message prefix. */
  lemma AllOrNothing(cfg: Config, respond: HttpRequest -> Answer, req: SearchRequest)
    requires req.Query() != ""
    ensures var resp := Outcome(cfg, respond, req).0;
      && (resp.Reply? && resp.status == 200 <==>
            StackOverflowOutcome(cfg, respond, req).Ok? && RedditOutcome(cfg, respond, req).Ok?)
      && (StackOverflowOutcome(cfg, respond, req).Err? ==>
            resp == FailureResponse(StackOverflowOutcome(cfg, respond, req).error))
      && (StackOverflowOutcome(cfg, respond, req).Ok? && RedditOutcome(cfg, respond, req).Err? ==>
            resp == FailureResponse(RedditOutcome(cfg, respond, req).error))
  {
    var so := StackOverflowOutcome(cfg, respond, req);
    if so.Ok? {
      var rd := RedditOutcome(cfg, respond, req);
      if rd.Err? {
        assert Outcome(cfg, respond, req).0 == FailureResponse(rd.error);
      }
    } else {
      assert Outcome(cfg, respond, req).0 == FailureResponse(so.error);
    }
  }

  /** Every answer of a search is 200 with results, or 400 or 500 with a body
      that holds nothing but the error message. */
  lemma ErrorBodyHoldsOnlyTheError(cfg: Config, respond: HttpRequest -> Answer, req: SearchRequest)
    ensures var resp := Outcome(cfg, respond, req).0;
      && resp.Reply?
      && (resp.status != 200 ==>
            (resp.status == 400 || resp.status == 500) &&
            exists msg :: resp.body == ErrorBody(msg))
  {
    if req.Query() != "" {
      var so := StackOverflowOutcome(cfg, respond, req);
      if so.Err? {
        assert Outcome(cfg, respond, req).0.body == ErrorBody(FailureResponse(so.error).body.members[0].1.s);
      } else {
        var rd := RedditOutcome(cfg, respond, req);
        if rd.Err? {
          assert Outcome(cfg, respond, req).0.body == ErrorBody(FailureResponse(rd.error).body.members[0].1.s);
        }
      }
    }
  }

  /** A Stack Overflow failure fails the search and Reddit is never asked,
      whatever Reddit would have answered. */
  lemma StackOverflowFailureStopsReddit(cfg: Config, respond: HttpRequest -> Answer, req: SearchRequest, msg: string)
    requires req.Query() != ""
    requires respond(StackOverflowRequest(cfg, req)) == RequestFailure(msg)
    ensures Outcome(cfg, respond, req) ==
              (Reply(500, ErrorBody("Error fetching data from APIs: " + msg)), [StackOverflowRequest(cfg, req)])
  {
  }

  /** On success the answer holds both lists unchanged, `has_more` is true
      exactly when Reddit gave 10 results, and `reddit_after` is Reddit's cursor. */
  lemma SuccessResponse(cfg: Config, respond: HttpRequest -> Answer, req: SearchRequest,
                        so: seq<StackOverflow.Record>, listing: Reddit.Listing)
    requires req.Query() != ""
    requires StackOverflowOutcome(cfg, respond, req) == Ok(so)
    requires RedditOutcome(cfg, respond, req) == Ok(listing)
    ensures Outcome(cfg, respond, req).0 ==
              Reply(200, SearchResponse(so, listing.records, |listing.records| == 10, listing.after).ToJson())
    ensures Lookup(Outcome(cfg, respond, req).0.body.members, "has_more") == Some(Bool(|listing.records| == 10))
    ensures Lookup(Outcome(cfg, respond, req).0.body.members, "reddit_after") == Some(listing.after)
  {
  }
}
