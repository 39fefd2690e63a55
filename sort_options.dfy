/**
 * The translation of the caller's sort option into each upstream's own
 * vocabulary (app.py:36-44 for Stack Overflow, app.py:77 for Reddit).
 */
module SortOptions {

  /** SORT_OPTION_MAPPING: this application's sort names to Stack Exchange's. */
  const SortOptionMapping: map<string, string> :=
    map["relevance" := "relevance", "score" := "votes", "date" := "creation"]

  /** The sort values Reddit is sent unchanged. */
  const RedditSorts: seq<string> := ["relevance", "new", "hot", "top"]

  /** `SORT_OPTION_MAPPING.get(sort_option, 'relevance')`. */
  function StackOverflowSort(option: string): (r: string)
    ensures r in {"relevance", "votes", "creation"}
  {
    if option in SortOptionMapping then SortOptionMapping[option] else "relevance"
  }

  /** Each Stack Exchange sort value comes from exactly the options listed here. */
  lemma StackOverflowSortCases(option: string)
    ensures StackOverflowSort(option) == "votes" <==> option == "score"
    ensures StackOverflowSort(option) == "creation" <==> option == "date"
    ensures StackOverflowSort(option) == "relevance" <==> option != "score" && option != "date"
  {
  }

  /** `sort_option if sort_option in ['relevance', 'new', 'hot', 'top'] else 'relevance'`. */
  function RedditSort(option: string): (r: string)
    ensures r in RedditSorts
    ensures r == option <==> option in RedditSorts
    ensures option !in RedditSorts ==> r == "relevance"
  {
    if option in RedditSorts then option else "relevance"
  }

  /** Translating a translated Reddit sort value changes nothing. */
  lemma RedditSortIdempotent(option: string)
    ensures RedditSort(RedditSort(option)) == RedditSort(option)
  {
  }

  /** An option neither upstream knows becomes `relevance` for both, while
      `score` and `date` are understood by Stack Exchange only and `new`, `hot`
      and `top` by Reddit only. */
  lemma SortVocabulariesDiffer(option: string)
    ensures option !in RedditSorts && option !in SortOptionMapping ==>
              StackOverflowSort(option) == "relevance" && RedditSort(option) == "relevance"
    ensures option in {"score", "date"} ==>
              StackOverflowSort(option) != "relevance" && RedditSort(option) == "relevance"
    ensures option in {"new", "hot", "top"} ==>
              StackOverflowSort(option) == "relevance" && RedditSort(option) == option
  {
  }
}
