# Code Quest search aggregation — a Dafny model

This project models the core of `app.py`, a Flask service. The service passes one developer question to two upstream search services, Stack Exchange (Stack Overflow) and Reddit. It normalises their answers into one result shape and returns both lists together with Reddit's next-page cursor. The service can also email a digest of results, and the model covers that endpoint's request validation.

Upstream HTTP replies are given as already-parsed values (`Http.Answer`). The network is a `Transport` object that logs every request in order and answers each one through a fixed function. The mail server is a `Mailer` that logs every send attempt. Because of this, the proofs can speak about which requests were sent, in which order, and when none were.

Modules, following the structure of `app.py`:

- `Wrappers`: `Option` and `Result`.
- `Json`: JSON values as Python sees them. It models `dict.get`, `v['key']`, iteration, truthiness and f-string formatting, including the exception each one raises on a value of the wrong shape. It also holds the result-building loop (`Collect`) and its specification (`MapAll`).
- `Text`: `str.strip()` over CPython's `str.isspace()` characters.
- `SortOptions`: `SORT_OPTION_MAPPING` and Reddit's sort whitelist.
- `Http`: requests, upstream answers, view responses, the transport and the environment configuration.
- `StackOverflow`, `Reddit`: `fetch_stackoverflow` and `fetch_reddit`.
- `Search`: the `/search` view.
- `SendEmail`: the `/send_email` view.

Each imperative part of the source is a method that is proved equal to a specification function: the two append loops, the `search` view with its early returns, and the recipient loop with its early return. The properties are lemmas about those functions.

## Model

| member | source | states |
|---|---|---|
| `Json.LookupSpec` | app.py:58 | a key is found iff some member has it, and the value found is that of its last binding, as `json.loads` keeps |
| `Json.KeysSpec` | app.py:113 | iterating a dict visits each of its keys, and each only once |
| `Json.KeysOrder` | app.py:113 | the keys come in first-occurrence order: a key visited earlier occurs in the dict before any occurrence of a key visited later |
| `Json.Get` | app.py:58 | `v.get(k, d)` succeeds exactly on a dict, and there gives the stored value or the default; on anything else it raises AttributeError naming the type |
| `Json.Index` | app.py:87 | `v['data']` gives the stored value; a dict without the key raises KeyError; any other type raises TypeError |
| `Json.Fault.Message` | app.py:175-178 | `str(e)` is never empty, and a KeyError's text is the quoted key, as in KeyError('data') |
| `Json.Iterate` | app.py:113 | `for` visits a list's elements, a string's one-character strings or a dict's keys in order; anything else raises TypeError, not iterable, naming the type |
| `Json.MapAll` | app.py:57-67 | building records item by item succeeds iff every item converts; the results are then one per item, in order; otherwise the error is that of the first failing item |
| `Json.Collect` | app.py:57-67 | the append loop that stops at the first exception computes exactly `MapAll` |
| `Json.Truthy` | app.py:106 | None, False, 0 and the empty string, list and dict are false, and every other value is true |
| `Json.DigitsRoundTrip` | app.py:51-52 | the decimal text sent for a number reads back as that number |
| `Text.StripSpec` | app.py:158 | `strip()` returns the slice whose outside is all whitespace and whose first and last characters are not |
| `Text.Strip` | app.py:158 | the stripped query is no longer than the raw one, and when it is not empty it neither starts nor ends with whitespace |
| `Text.StripEmptyIff` | app.py:158 | a query strips to the empty string iff every character of it is whitespace |
| `Text.StripIdempotent` | app.py:158 | stripping twice is stripping once |
| `Search.SearchRequest.Query` | app.py:158 | a missing query reads as empty, and the stripped query is empty iff the raw one is all whitespace |
| `Search.SearchRequest.SortOption` | app.py:159 | a missing sort reads as relevance; a given one is passed on unchanged |
| `Search.SearchRequest.Page` | app.py:160 | a missing page reads as 1; a given one is passed on unchanged |
| `SortOptions.StackOverflowSort` | app.py:36-44 | the translated sort is always one of relevance, votes, creation |
| `SortOptions.StackOverflowSortCases` | app.py:36-44 | votes iff the input is score; creation iff the input is date; relevance for every other input, relevance included |
| `SortOptions.RedditSort` | app.py:77 | the output is always whitelisted; it equals the input iff the input is one of relevance, new, hot, top; otherwise it is relevance |
| `SortOptions.RedditSortIdempotent` | app.py:77 | translating twice is translating once |
| `SortOptions.SortVocabulariesDiffer` | app.py:77 | an option unknown to both upstreams becomes relevance for both; score/date are Stack Exchange-only and new/hot/top are Reddit-only |
| `Http.OptionalParam` | app.py:50 | a parameter whose value is None is left out of the query string, otherwise it is sent as given |
| `Http.Lift` | app.py:54-56 | a request exception stays a request error; any other exception, and any exception raised while reading the body, is an unexpected error carrying its message |
| `Http.Transport.Get` | app.py:54 | each GET is appended to the log and answered as the upstream answers it |
| `StackOverflow.Record.ToJson` | app.py:59-67 | the record's dict has `source` 'Stack Overflow' (with a space), and title, link, is_answered, score, num_answers and date as stored |
| `StackOverflow.RecordOf` | app.py:59-67 | an item is converted iff it is a dict; otherwise the first `.get` raises AttributeError naming its type |
| `StackOverflow.Results` | app.py:57-58 | results come back only for a dict body; any other body raises AttributeError on `data.get` |
| `StackOverflow.Normalize` | app.py:57-68 | the result-building code computes exactly `Results` of the body |
| `StackOverflow.Fetch` | app.py:42-68 | exactly one request is sent, and the outcome is the upstream answer lifted through `Results` |
| `StackOverflow.Request` | app.py:43-53 | the request goes to the advanced-search URL with no headers and six parameters, seven when a key is configured |
| `StackOverflow.RequestShape` | app.py:43-53 | the parameters are exactly order=desc, the translated sort, the query, site=stackoverflow, the configured key (left out when unset), the caller's page and page size 10, in that order |
| `StackOverflow.OneRecordPerItem` | app.py:57-68 | one record per item, in upstream order, iff every item is a dict; otherwise the first non-dict item's AttributeError |
| `StackOverflow.MissingItemsGiveNoResults` | app.py:58 | a body without `items` gives an empty list, not an error |
| `StackOverflow.NonObjectBodyFails` | app.py:58 | a body that is not a dict raises AttributeError on `data.get` |
| `StackOverflow.RecordDefaults` | app.py:61-66 | a present key is passed through as stored; absent keys give 'No Title', '#', False, 0, 0, 0; `num_answers` is read from `answer_count` and `date` from `creation_date` |
| `Reddit.Record.ToJson` | app.py:88-96 | the record's dict has `source` 'Reddit', `is_answered` 'N/A', and title, the absolute link, score, num_comments and date as stored |
| `Reddit.RecordOf` | app.py:87-96 | a child converts iff it is a dict whose `data` is a dict; a non-dict child raises TypeError, a dict child without `data` raises KeyError, and a `data` that is not a dict raises AttributeError on `.get` |
| `Reddit.Link` | app.py:91 | the link is the site origin followed by the permalink text |
| `Reddit.Parse` | app.py:85-86 | a listing comes back only for a dict body; any other body raises AttributeError on `data.get` |
| `Reddit.Normalize` | app.py:84-97 | the result-building code computes exactly `Parse` of the body |
| `Reddit.Fetch` | app.py:70-97 | exactly one request is sent, and the outcome is the upstream answer lifted through `Parse` |
| `Reddit.UserAgent` | app.py:73 | the User-Agent names the configured username, and `yourusername` when none is set |
| `Reddit.Request` | app.py:71-80 | the request goes to search.json with only the User-Agent header and three parameters, four when a cursor is given |
| `Reddit.RequestShape` | app.py:72-80 | the request carries the query, the whitelisted sort, the limit and the caller's cursor (left out when None), with the application's User-Agent |
| `Reddit.LinkIsAbsolute` | app.py:91 | for any child dict whose `data` is a dict (other keys such as `kind` included), the link starts with https://www.reddit.com; a string permalink is appended to it; a missing permalink gives https://www.reddit.com# |
| `Reddit.LinkExample` | app.py:91 | the permalink /r/x/comments/1/ becomes https://www.reddit.com/r/x/comments/1/ |
| `Reddit.RecordDefaults` | app.py:88-95 | for any child dict whose `data` is a dict: source 'Reddit' and is_answered 'N/A'; a present title, score, num_comments or created_utc is passed through; absent ones give 'No Title' and 0; `date` is read from `created_utc` and reaches the dict |
| `Reddit.ChildWithoutDataFails` | app.py:87 | a child dict without `data` raises KeyError('data') for the whole listing, so no cursor comes back |
| `Reddit.OneRecordPerChild` | app.py:85-97 | a listing read without error has one record per child in order, and its cursor is `data.after`, or None when absent |
| `Reddit.MissingChildrenGiveNoResults` | app.py:85-86 | a body without `data`, or whose `data` lacks `children`, gives no results; the cursor is then None or `data.after` |
| `Search.SearchResponse.ToJson` | app.py:179-184 | the answer dict holds both lists record by record, `has_more` and `reddit_after` |
| `Search.FailureResponse` | app.py:173-178 | a failed fetch answers 500 with 'Error fetching data from APIs: ' for request errors and 'An unexpected error occurred: ' otherwise |
| `Search.Outcome` | app.py:165-170 | at most two requests are sent: Stack Overflow's first, then Reddit's |
| `Search.Search` | app.py:156-184 | the view's response and the requests it sends are exactly those of `Outcome` |
| `Search.EmptyQueryRejected` | app.py:158-164 | an all-whitespace or missing query, and only such a query, gives 400 'No search query provided' with no request sent |
| `Search.RequestsInOrder` | app.py:165-170 | Stack Overflow is asked first with the stripped query, sort and page; Reddit second with the stripped query, sort, limit 10 and the caller's cursor; Reddit is asked iff Stack Overflow succeeded |
| `Search.AllOrNothing` | app.py:165-178 | the answer is 200 iff both fetches succeed; a Stack Overflow failure answers with its own error and a Reddit failure with Reddit's |
| `Search.ErrorBodyHoldsOnlyTheError` | app.py:162-178 | the view always answers; every answer other than 200 is a 400 or a 500 whose body holds only the error message |
| `Search.StackOverflowFailureStopsReddit` | app.py:167-175 | a Stack Overflow request exception fails the search with its message, and only one request is sent |
| `Search.SuccessResponse` | app.py:179-184 | on success both lists are returned unchanged, `has_more` is true iff Reddit gave 10 results, and `reddit_after` is Reddit's cursor |
| `SendEmail.Mailer.Send` | app.py:131 | each attempt is recorded and succeeds as the mail server decides |
| `SendEmail.FirstInvalid` | app.py:113-116 | none iff every recipient is an address string; otherwise the first recipient that is not one |
| `SendEmail.CheckRecipients` | app.py:113-116 | the loop with its early return finds exactly `FirstInvalid` |
| `SendEmail.Validate` | app.py:105-121 | a message is produced only for a dict and goes to its recipients as given; every response the checks give is a 400 |
| `SendEmail.Subject` | app.py:128 | the subject quotes the query string, and an absent query gives empty quotes |
| `SendEmail.SendEmail` | app.py:103-136 | the view's response and the send attempts it makes are exactly those of `Outcome` |
| `SendEmail.Outcome` | app.py:103-136 | at most one send attempt, made iff validation passes, with the validated message, and then answered by the send's outcome |
| `SendEmail.SendResponse` | app.py:133-136 | 200 with 'Email sent successfully!' iff the send succeeds; otherwise 500 with 'Failed to send email. Please try again later.' |
| `SendEmail.NoDataRejected` | app.py:105-108 | a falsy body, and only one, gives 400 'No data provided' with no send attempt |
| `SendEmail.NoRecipientsRejected` | app.py:109-112 | a non-empty dict gives 400 'No recipient emails provided' iff its recipients are missing or falsy |
| `SendEmail.FirstInvalidRecipientNamed` | app.py:113-116 | the 400 names the first recipient that is not a string containing '@' |
| `SendEmail.NoResultsRejected` | app.py:117-121 | with valid recipients, the answer is 400 'No search results to include in the email.' iff both result lists are missing or empty |
| `SendEmail.ValidateOkIff` | app.py:105-121 | a message is produced iff every check passes: a truthy dict, truthy recipients that can be iterated, all of them addresses, and at least one non-empty result list; the message goes to the recipients as given |
| `SendEmail.SendOnlyWhenValid` | app.py:127-136 | at most one send attempt, made iff validation passes; a failed attempt answers 500; the answer is 200 iff the attempt succeeds |

## Left out

- HTTP transport: `requests.get`, `raise_for_status`, `.json()` and the 10-second timeouts are replaced by the transport's answer function. Every failure of that step arrives as a request failure or another failure.
- Environment and configuration loading (`load_dotenv`, `os.getenv`, the mail settings): STACKOVERFLOW_KEY and REDDIT_USERNAME are given as `Http.Config`, and the model keeps REDDIT_USERNAME's default 'yourusername'.
- Flask itself: routing, `jsonify`, `render_template`, the `home` route and `request.get_json` rejecting a non-JSON body. Views return a status and a JSON value. JSON output key order follows the source's dict literals; `jsonify`'s key sorting is not modelled.
- Mail composition and delivery (`Mail`, `Message`, `mail.send`) and the email body template: a message is its subject and recipients, and the mail server's success is a given function. An exception raised while rendering the template (app.py:122-126) is not modelled.
- `SearchCache` and `db.create_all`: no request path ever reads or writes that table.
- The `datetimeformat` template filter (app.py:152-154): it is a formatting helper for templates.
- Logging calls: they do not affect any result.
- `int(request.args.get('page', 1))` (app.py:160): `page` is taken as an already-parsed integer. A value that does not parse fails outside the `try`, and Flask handles that failure.
- Floating-point JSON numbers, such as Reddit's `created_utc`: `Json.Value` has integers only.
- Json.Format: lists and dicts are shown as the markers `[...]` and `{...}` instead of Python's repr. Links and error messages built from such values therefore differ from the source's text.
- Json.Fault.Message: exception texts follow CPython 3.11's wording, and other Python versions word some TypeErrors differently.
- Concurrency: the source fetches strictly one after the other, and the model does the same.

## Behaviour that follows the code

- A Reddit post without a permalink gets the link `https://www.reddit.com#`, not a bare `#` (`Reddit.LinkIsAbsolute`).
- Stack Overflow records are tagged 'Stack Overflow', with a space.
- Record fields are whatever JSON value the upstream sent: an explicit `null` stays `null`. A default is used only when the key is absent.
- Any failure of either fetch fails the whole search. There are no partial results.
- The sort option is any string, not only an enumerated value. Each upstream maps unknown options to relevance.
