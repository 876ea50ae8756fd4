/**
 * The projection `perform_search` applies to the raw search results
 * (services/search.py). The search service itself is the parameter
 * `tavily`: for a query, the raw result list it returns, or the exception
 * its `invoke` raised.
 */
module Search {
  import opened PyValues

  /** `{"url": r.get("url", "No URL"), "content": r.get("content", "No content")}`. */
  function Project(result: map<string, Value>): (item: map<string, Value>)
    ensures item.Keys == {"url", "content"}
    ensures "url" in result ==> item["url"] == result["url"]
    ensures "url" !in result ==> item["url"] == Str("No URL")
    ensures "content" in result ==> item["content"] == result["content"]
    ensures "content" !in result ==> item["content"] == Str("No content")
  {
    map["url" := Get(result, "url", Str("No URL")), "content" := Get(result, "content", Str("No content"))]
  }

  /** Projecting twice changes nothing more: the projection is idempotent. */
  lemma ProjectIdempotent(result: map<string, Value>)
    ensures Project(Project(result)) == Project(result)
  {
  }

  /** The list comprehension over raw results that are all dictionaries. */
  function ProjectAll(results: seq<map<string, Value>>): (items: seq<map<string, Value>>)
    ensures |items| == |results|
    ensures forall i :: 0 <= i < |results| ==> items[i] == Project(results[i])
  {
    seq(|results|, i requires 0 <= i < |results| => Project(results[i]))
  }

  /** The comprehension works element by element, so it distributes over concatenation. */
  lemma ProjectAllAppend(xs: seq<map<string, Value>>, ys: seq<map<string, Value>>)
    ensures ProjectAll(xs + ys) == ProjectAll(xs) + ProjectAll(ys)
  {
  }

  /** Every value has a `.get`, that is, is a dictionary. */
  predicate AllDicts(values: seq<Value>) {
    forall i :: 0 <= i < |values| ==> values[i].Dict?
  }

  /** The dictionaries of a list of dictionary values. */
  function Fields(values: seq<Value>): (ds: seq<map<string, Value>>)
    requires AllDicts(values)
    ensures |ds| == |values| && forall i :: 0 <= i < |values| ==> Dict(ds[i]) == values[i]
  {
    seq(|values|, i requires 0 <= i < |values| => values[i].fields)
  }

  /** The attribute a result without `.get` is missing. */
  const NoGet: Exc := AttributeError("get")

  /**
   * `perform_search(query)`: the exception of a failing search call passes
   * through; a result that is not a dictionary makes `.get` raise;
   * otherwise one projected item per result, in order.
   */
  function PerformSearch(query: string, tavily: string -> Result<seq<Value>>): (r: Result<seq<map<string, Value>>>)
    ensures tavily(query).Raised? ==> r == Raised(tavily(query).exc)
    ensures tavily(query).Ok? && !AllDicts(tavily(query).value) ==> r == Raised(NoGet)
    ensures r.Ok? <==> tavily(query).Ok? && AllDicts(tavily(query).value)
    ensures r.Ok? ==> |r.value| == |tavily(query).value|
    ensures r.Ok? ==> forall i :: 0 <= i < |r.value| ==>
      r.value[i].Keys == {"url", "content"} && r.value[i] == Project(tavily(query).value[i].fields)
    ensures tavily(query) == Ok([]) ==> r == Ok([])
  {
    var results :- tavily(query);
    if AllDicts(results) then Ok(ProjectAll(Fields(results))) else Raised(NoGet)
  }

  /** A list of dictionaries as one Python value. */
  function DictList(ds: seq<map<string, Value>>): (v: Value)
    ensures v.List? && |v.items| == |ds|
    ensures forall i :: 0 <= i < |ds| ==> v.items[i] == Dict(ds[i])
  {
    List(seq(|ds|, i requires 0 <= i < |ds| => Dict(ds[i])))
  }
}
