/** `fetch_reddit` (app.py:70-97): one page of Reddit search results and the cursor to the next. */
module Reddit {
  import opened Wrappers
  import opened Json
  import opened Http
  import SortOptions

  const SearchUrl := "https://www.reddit.com/search.json"
  const Origin := "https://www.reddit.com"
  const Source := "Reddit"

  /** One normalised result. `link` is already the absolute URL. */
  datatype Record = Record(title: Value, link: string, score: Value, numComments: Value, date: Value) {

    /** The dict app.py appends to its results list. */
    function ToJson(): (j: Value)
      ensures j.Obj? && Lookup(j.members, "source") == Some(Str(Source))
      ensures Lookup(j.members, "title") == Some(title)
      ensures Lookup(j.members, "link") == Some(Str(link))
      ensures Lookup(j.members, "is_answered") == Some(Str("N/A"))
      ensures Lookup(j.members, "score") == Some(score)
      ensures Lookup(j.members, "num_comments") == Some(numComments)
      ensures Lookup(j.members, "date") == Some(date)
    {
      var ms := [("source", Str(Source)), ("title", title), ("link", Str(link)), ("is_answered", Str("N/A")),
                 ("score", score), ("num_comments", numComments), ("date", date)];
      LookupUnique(ms, 0);
      LookupUnique(ms, 1);
      LookupUnique(ms, 2);
      LookupUnique(ms, 3);
      LookupUnique(ms, 4);
      LookupUnique(ms, 5);
      LookupUnique(ms, 6);
      Obj(ms)
    }
  }

  /** A page of results with the cursor `data.after`, which may be any JSON value, None included. */
  datatype Listing = Listing(records: seq<Record>, after: Value)

  /** The User-Agent header; REDDIT_USERNAME defaults to 'yourusername'. */
  function UserAgent(username: Option<string>): (r: string)
    ensures username.None? ==> r == "CodeQuestApp/1.0 by yourusername"
    ensures username.Some? ==> r == "CodeQuestApp/1.0 by " + username.value
  {
    "CodeQuestApp/1.0 by " + username.GetOr("yourusername")
  }

  /** The request sent upstream; a missing `after` is left out of the query string. */
  function Request(username: Option<string>, query: string, sortOption: string, limit: int, after: Option<string>): (r: HttpRequest)
    ensures r.url == SearchUrl && r.headers == [("User-Agent", UserAgent(username))]
    ensures |r.params| == if after.Some? then 4 else 3
  {
    HttpRequest(
      SearchUrl,
      [("q", query), ("sort", SortOptions.RedditSort(sortOption)), ("limit", Decimal(limit))] + OptionalParam("after", after),
      [("User-Agent", UserAgent(username))])
  }

  /** `f"https://www.reddit.com{permalink}"`. */
  function Link(permalink: Value): (r: string)
    ensures |r| >= |Origin| && r[..|Origin|] == Origin
    ensures permalink.Str? ==> r[|Origin|..] == permalink.s
  {
    Origin + Format(permalink)
  }

  /** The record built from one entry of `children`: `item['data']` must exist
      and be a dict. */
  function RecordOf(child: Value): (r: Result<Record, Fault>)
    ensures r.Ok? <==> (child.Obj? && Lookup(child.members, "data").Some? &&
                        Lookup(child.members, "data").value.Obj?)
    ensures !child.Obj? ==> r == Err(NotSubscriptable(TypeName(child)))
    ensures child.Obj? && Lookup(child.members, "data").None? ==> r == Err(KeyMissing("data"))
    ensures (child.Obj? && Lookup(child.members, "data").Some? && !Lookup(child.members, "data").value.Obj? ==>
               r == Err(NoAttribute(TypeName(Lookup(child.members, "data").value), "get")))
  {
    var post :- Index(child, "data");
    match post
    case Obj(ms) =>
      Ok(Record(
        Field(ms, "title", Str("No Title")),
        Link(Field(ms, "permalink", Str("#"))),
        Field(ms, "score", Int(0)),
        Field(ms, "num_comments", Int(0)),
        Field(ms, "created_utc", Int(0))))
    case _ => Err(NoAttribute(TypeName(post), "get"))
  }

  /** The listing read from a response body: the cursor `data.after` first, then
      one record per entry of `data.children`. Both read `data.get('data', {})`,
      which gives the same value twice. */
  function Parse(data: Value): (r: Result<Listing, Fault>)
    ensures r.Ok? ==> data.Obj?
    ensures !data.Obj? ==> r == Err(NoAttribute(TypeName(data), "get"))
  {
    var inner :- Get(data, "data", Obj([]));
    var after :- Get(inner, "after", Null);
    var children := Field(inner.members, "children", Arr([]));
    var xs :- Iterate(children);
    var records :- MapAll(xs, RecordOf);
    Ok(Listing(records, after))
  }

  /** The body of `fetch_reddit` once the response is parsed (app.py:84-97);
      `Collect` is its loop. */
  method Normalize(data: Value) returns (r: Result<Listing, Fault>)
    ensures r == Parse(data)
  {
    var inner :- Get(data, "data", Obj([]));
    var newAfter :- Get(inner, "after", Null);
    // `inner` is a dict now, so its second `.get` cannot raise.
    var children := Field(inner.members, "children", Arr([]));
    var xs :- Iterate(children);
    var results :- Collect(xs, RecordOf);
    return Ok(Listing(results, newAfter));
  }

  /** `fetch_reddit(query, sort_option, limit, after)`: one GET, then the listing. */
  method Fetch(t: Transport, username: Option<string>, query: string, sortOption: string, limit: int, after: Option<string>)
    returns (r: Result<Listing, FetchError>)
    modifies t
    ensures t.log == old(t.log) + [Request(username, query, sortOption, limit, after)]
    ensures r == Lift(t.respond(Request(username, query, sortOption, limit, after)), Parse)
  {
    var answer := t.Get(Request(username, query, sortOption, limit, after));
    match answer {
      case RequestFailure(msg) =>
        r := Err(RequestError(msg));
      case OtherFailure(msg) =>
        r := Err(UnexpectedError(msg));
      case Parsed(data) =>
        var listing := Normalize(data);
        if listing.Ok? {
          r := Ok(listing.value);
        } else {
          r := Err(UnexpectedError(listing.error.Message()));
        }
    }
  }

  /** The link is always the site origin followed by the formatted permalink.
      A missing permalink gives 'https://www.reddit.com#', not a bare '#'. */
  lemma LinkIsAbsolute(child: Value, ms: seq<(string, Value)>)
    requires child.Obj? && Lookup(child.members, "data") == Some(Obj(ms))
    ensures var rec := RecordOf(child);
      && rec.Ok?
      && rec.value.link[..|Origin|] == Origin
      && (NoKey(ms, "permalink") ==> rec.value.link == "https://www.reddit.com#")
      && (forall p :: Lookup(ms, "permalink") == Some(Str(p)) ==> rec.value.link == Origin + p)
  {
    LookupSpec(ms, "permalink");
  }

  /** The relative permalink '/r/x/comments/1/' becomes an absolute URL. */
  lemma LinkExample()
    ensures Link(Str("/r/x/comments/1/")) == "https://www.reddit.com/r/x/comments/1/"
  {
  }

  /** Every record is tagged 'Reddit' with `is_answered` 'N/A'; each field is
      the post's value under its key, or 'No Title' and 0 when the post has no
      such key; `date` is read from `created_utc`. */
  lemma RecordDefaults(child: Value, ms: seq<(string, Value)>)
    requires child.Obj? && Lookup(child.members, "data") == Some(Obj(ms))
    ensures var rec := RecordOf(child);
      && rec.Ok?
      && Lookup(rec.value.ToJson().members, "source") == Some(Str("Reddit"))
      && Lookup(rec.value.ToJson().members, "is_answered") == Some(Str("N/A"))
      && (NoKey(ms, "title") ==> rec.value.title == Str("No Title"))
      && (NoKey(ms, "score") ==> rec.value.score == Int(0))
      && (NoKey(ms, "num_comments") ==> rec.value.numComments == Int(0))
      && (NoKey(ms, "created_utc") ==> rec.value.date == Int(0))
      && (!NoKey(ms, "title") ==> Some(rec.value.title) == Lookup(ms, "title"))
      && (!NoKey(ms, "score") ==> Some(rec.value.score) == Lookup(ms, "score"))
      && (!NoKey(ms, "num_comments") ==> Some(rec.value.numComments) == Lookup(ms, "num_comments"))
      && (!NoKey(ms, "created_utc") ==> Some(rec.value.date) == Lookup(ms, "created_utc"))
      && Lookup(rec.value.ToJson().members, "date") == Some(rec.value.date)
  {
    LookupSpec(ms, "title");
    LookupSpec(ms, "score");
    LookupSpec(ms, "num_comments");
    LookupSpec(ms, "created_utc");
  }

  /** A child that is a dict without a `data` key raises KeyError('data'), and
      so does the whole listing when every child before it is well formed:
      no cursor is returned on that path. */
  lemma ChildWithoutDataFails(data: Value, xs: seq<Value>, k: nat)
    requires data.Obj? && Lookup(data.members, "data").Some?
    requires Lookup(data.members, "data").value.Obj?
    requires Lookup(Lookup(data.members, "data").value.members, "children") == Some(Arr(xs))
    requires k < |xs| && xs[k].Obj? && NoKey(xs[k].members, "data")
    requires forall i :: 0 <= i < k ==> RecordOf(xs[i]).Ok?
    ensures Parse(data) == Err(KeyMissing("data"))
  {
    LookupSpec(xs[k].members, "data");
    MapAllFirstFailure(xs, RecordOf, k);
  }

  /** One record per child in upstream order, and the cursor is `data.after`,
      None when absent, whenever the listing is read without error. */
  lemma OneRecordPerChild(data: Value)
    requires Parse(data).Ok?
    ensures data.Obj?
    ensures var inner := Field(data.members, "data", Obj([]));
      && inner.Obj?
      && Parse(data).value.after == Field(inner.members, "after", Null)
      && (forall xs :: Lookup(inner.members, "children") == Some(Arr(xs)) ==>
            |Parse(data).value.records| == |xs| &&
            forall i :: 0 <= i < |xs| ==> RecordOf(xs[i]) == Ok(Parse(data).value.records[i]))
  {
  }

  /** A body without `data`, or whose `data` has no `children`, gives no
      results; the cursor is then None, or `data.after` when present. */
  lemma MissingChildrenGiveNoResults(data: Value)
    requires data.Obj?
    ensures NoKey(data.members, "data") ==> Parse(data) == Ok(Listing([], Null))
    ensures forall ims :: Lookup(data.members, "data") == Some(Obj(ims)) && NoKey(ims, "children") ==>
              Parse(data) == Ok(Listing([], Field(ims, "after", Null)))
  {
    LookupSpec(data.members, "data");
    forall ims | Lookup(data.members, "data") == Some(Obj(ims)) && NoKey(ims, "children")
      ensures Parse(data) == Ok(Listing([], Field(ims, "after", Null)))
    {
      LookupSpec(ims, "children");
    }
  }

  /** The request carries the query, the translated sort, the limit and the
      caller's cursor, with the application's User-Agent. */
  lemma RequestShape(username: Option<string>, query: string, sortOption: string, limit: int, after: Option<string>)
    ensures var req := Request(username, query, sortOption, limit, after);
      && req.url == SearchUrl
      && req.params[..3] == [("q", query), ("sort", SortOptions.RedditSort(sortOption)), ("limit", Decimal(limit))]
      && (after.None? ==> |req.params| == 3)
      && (after.Some? ==> req.params[3..] == [("after", after.value)])
      && req.headers == [("User-Agent", UserAgent(username))]
  {
  }
}
