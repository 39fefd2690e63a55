/** `fetch_stackoverflow` (app.py:42-68): one page of Stack Exchange search results. */
module StackOverflow {
  import opened Wrappers
  import opened Json
  import opened Http
  import SortOptions

  const SearchUrl := "https://api.stackexchange.com/2.3/search/advanced"
  const PageSize := 10
  const Source := "Stack Overflow"

  /** One normalised result. Each field holds whatever JSON value the item gave,
      or the default. */
  datatype Record = Record(title: Value, link: Value, isAnswered: Value, score: Value, numAnswers: Value, date: Value) {

    /** The dict app.py appends to its results list. */
    function ToJson(): (j: Value)
      ensures j.Obj? && Lookup(j.members, "source") == Some(Str(Source))
      ensures Lookup(j.members, "title") == Some(title)
      ensures Lookup(j.members, "link") == Some(link)
      ensures Lookup(j.members, "is_answered") == Some(isAnswered)
      ensures Lookup(j.members, "score") == Some(score)
      ensures Lookup(j.members, "num_answers") == Some(numAnswers)
      ensures Lookup(j.members, "date") == Some(date)
    {
      var ms := [("source", Str(Source)), ("title", title), ("link", link), ("is_answered", isAnswered),
                 ("score", score), ("num_answers", numAnswers), ("date", date)];
      LookupUnique(ms, 0);
      LookupUnique(ms, 1);
      LookupUnique(ms, 2);
      LookupUnique(ms, 3);
      LookupUnique(ms, 4);
      LookupUnique(ms, 5);
      LookupUnique(ms, 6);
      Obj(ms)
    }
  }

  /** The request sent upstream; `key` is STACKOVERFLOW_KEY, left out when unset. */
  function Request(key: Option<string>, query: string, sortOption: string, page: int): (r: HttpRequest)
    ensures r.url == SearchUrl && r.headers == []
    ensures |r.params| == if key.Some? then 7 else 6
  {
    HttpRequest(
      SearchUrl,
      [("order", "desc"), ("sort", SortOptions.StackOverflowSort(sortOption)), ("q", query), ("site", "stackoverflow")]
        + OptionalParam("key", key)
        + [("page", Decimal(page)), ("pagesize", Decimal(PageSize))],
      [])
  }

  /** The record built from one entry of `items`; each `item.get` needs a dict. */
  function RecordOf(item: Value): (r: Result<Record, Fault>)
    ensures r.Ok? <==> item.Obj?
    ensures r.Err? ==> r.error == NoAttribute(TypeName(item), "get")
  {
    match item
    case Obj(ms) =>
      Ok(Record(
        Field(ms, "title", Str("No Title")),
        Field(ms, "link", Str("#")),
        Field(ms, "is_answered", Bool(false)),
        Field(ms, "score", Int(0)),
        Field(ms, "answer_count", Int(0)),
        Field(ms, "creation_date", Int(0))))
    case _ => Err(NoAttribute(TypeName(item), "get"))
  }

  /** The results built from a response body: `data.get('items', [])`, then one record per item. */
  function Results(data: Value): (r: Result<seq<Record>, Fault>)
    ensures r.Ok? ==> data.Obj?
    ensures !data.Obj? ==> r == Err(NoAttribute(TypeName(data), "get"))
  {
    var items :- Get(data, "items", Arr([]));
    var xs :- Iterate(items);
    MapAll(xs, RecordOf)
  }

  /** The body of `fetch_stackoverflow` once the response is parsed
      (app.py:57-68); `Collect` is its loop. */
  method Normalize(data: Value) returns (r: Result<seq<Record>, Fault>)
    ensures r == Results(data)
  {
    var items :- Get(data, "items", Arr([]));
    var xs :- Iterate(items);
    r := Collect(xs, RecordOf);
  }

  /** `fetch_stackoverflow(query, sort_option, page)`: one GET, then the results. */
  method Fetch(t: Transport, key: Option<string>, query: string, sortOption: string, page: int)
    returns (r: Result<seq<Record>, FetchError>)
    modifies t
    ensures t.log == old(t.log) + [Request(key, query, sortOption, page)]
    ensures r == Lift(t.respond(Request(key, query, sortOption, page)), Results)
  {
    var answer := t.Get(Request(key, query, sortOption, page));
    match answer {
      case RequestFailure(msg) =>
        r := Err(RequestError(msg));
      case OtherFailure(msg) =>
        r := Err(UnexpectedError(msg));
      case Parsed(data) =>
        var results := Normalize(data);
        if results.Ok? {
          r := Ok(results.value);
        } else {
          r := Err(UnexpectedError(results.error.Message()));
        }
    }
  }

  /** One record per item, in upstream order, when every item is a dict; the
      first item that is not a dict raises. */
  lemma OneRecordPerItem(data: Value, xs: seq<Value>)
    requires data.Obj? && Lookup(data.members, "items") == Some(Arr(xs))
    ensures Results(data).Ok? <==> forall i :: 0 <= i < |xs| ==> xs[i].Obj?
    ensures Results(data).Ok? ==>
              (|Results(data).value| == |xs| &&
               forall i :: 0 <= i < |xs| ==> RecordOf(xs[i]) == Ok(Results(data).value[i]))
    ensures Results(data).Err? ==>
              exists k :: (0 <= k < |xs| && !xs[k].Obj? &&
                           Results(data).error == NoAttribute(TypeName(xs[k]), "get") &&
                           forall i :: 0 <= i < k ==> xs[i].Obj?)
  {
    var r := MapAll(xs, RecordOf);
    assert Results(data) == r;
    if r.Err? {
      var k :| 0 <= k < |xs| && RecordOf(xs[k]) == Err(r.error) && forall i :: 0 <= i < k ==> RecordOf(xs[i]).Ok?;
      assert !xs[k].Obj?;
    }
  }

  /** A body without `items` gives no results and no error. */
  lemma MissingItemsGiveNoResults(data: Value)
    requires data.Obj? && NoKey(data.members, "items")
    ensures Results(data) == Ok([])
  {
    LookupSpec(data.members, "items");
  }

  /** A body that is not a dict raises on `data.get`. */
  lemma NonObjectBodyFails(data: Value)
    requires !data.Obj?
    ensures Results(data) == Err(NoAttribute(TypeName(data), "get"))
  {
  }

  /** Each field of a record is the item's value under its key, or the default
      when the item has no such key: 'No Title', '#', False and 0, with
      `num_answers` read from `answer_count` and `date` from `creation_date`. */
  lemma RecordDefaults(ms: seq<(string, Value)>)
    ensures RecordOf(Obj(ms)).Ok?
    ensures var rec := RecordOf(Obj(ms)).value;
      && (NoKey(ms, "title") ==> rec.title == Str("No Title"))
      && (NoKey(ms, "link") ==> rec.link == Str("#"))
      && (NoKey(ms, "is_answered") ==> rec.isAnswered == Bool(false))
      && (NoKey(ms, "score") ==> rec.score == Int(0))
      && (NoKey(ms, "answer_count") ==> rec.numAnswers == Int(0))
      && (NoKey(ms, "creation_date") ==> rec.date == Int(0))
      && (!NoKey(ms, "title") ==> Some(rec.title) == Lookup(ms, "title"))
      && (!NoKey(ms, "link") ==> Some(rec.link) == Lookup(ms, "link"))
      && (!NoKey(ms, "is_answered") ==> Some(rec.isAnswered) == Lookup(ms, "is_answered"))
      && (!NoKey(ms, "score") ==> Some(rec.score) == Lookup(ms, "score"))
      && (!NoKey(ms, "answer_count") ==> Some(rec.numAnswers) == Lookup(ms, "answer_count"))
      && (!NoKey(ms, "creation_date") ==> Some(rec.date) == Lookup(ms, "creation_date"))
  {
    LookupSpec(ms, "title");
    LookupSpec(ms, "link");
    LookupSpec(ms, "is_answered");
    LookupSpec(ms, "score");
    LookupSpec(ms, "answer_count");
    LookupSpec(ms, "creation_date");
  }

  /** The request carries, in this order, order=desc, the translated sort, the
      query, site=stackoverflow, the configured key when there is one, the
      caller's page and a page size of 10. */
  lemma RequestShape(key: Option<string>, query: string, sortOption: string, page: int)
    ensures var req := Request(key, query, sortOption, page);
      && req.url == SearchUrl
      && ("sort", SortOptions.StackOverflowSort(sortOption)) in req.params
      && ("q", query) in req.params
      && ("page", Decimal(page)) in req.params
      && ("pagesize", "10") in req.params
      && (key.Some? <==> exists v :: ("key", v) in req.params)
      && req.params[..4] == [("order", "desc"), ("sort", SortOptions.StackOverflowSort(sortOption)),
                             ("q", query), ("site", "stackoverflow")]
      && (key.None? ==> req.params[4..] == [("page", Decimal(page)), ("pagesize", "10")])
      && (key.Some? ==> req.params[4..] == [("key", key.value), ("page", Decimal(page)), ("pagesize", "10")])
  {
    var req := Request(key, query, sortOption, page);
    var head := [("order", "desc"), ("sort", SortOptions.StackOverflowSort(sortOption)), ("q", query), ("site", "stackoverflow")];
    var tail := [("page", Decimal(page)), ("pagesize", Decimal(PageSize))];
    assert req.params == head + OptionalParam("key", key) + tail;
    assert Decimal(PageSize) == "10" by {
      assert Digits(1) == "1";
    }
    assert req.params[1] == head[1];
    assert req.params[2] == head[2];
    assert req.params[|req.params| - 2] == tail[0];
    assert req.params[|req.params| - 1] == tail[1];
    if key.Some? {
      assert req.params[4] == ("key", key.value);
    }
  }
}
