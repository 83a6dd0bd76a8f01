/** The result mapping of tools/search_tool.py: `search_products(query, k)` takes the first
    `k` raw search results and turns each into a hit record. The search engine itself is an
    input: it hands back either a list of result dicts or a plain string. */
module SearchTool {
  import opened Wrappers
  import opened JsonValues
  import opened A2ATypes

  /** What `_ddg.invoke(...)` returns: result dicts, or the single text the DuckDuckGo tool
      actually produces. */
  datatype RawResults = Hits(items: seq<Dict>) | Text(s: string)

  /** How many elements the slice `x[:k]` keeps of `n`: a negative `k` counts from the end. */
  function SliceCount(n: nat, k: int): (c: nat)
    ensures c <= n
    ensures 0 <= k ==> c == (if k < n then k else n)
  {
    if 0 <= k then (if k < n then k else n)
    else if n + k > 0 then n + k else 0
  }

  const NoUrl := Exc("KeyError", "'url'")
  const StrHasNoGet := Exc("AttributeError", "'str' object has no attribute 'get'")

  /** The hit built from one raw result: name is the title, else the url; price and currency
      are None; features is the content, else the empty string; the url is copied. */
  function Hit(r: Dict): (h: Dict)
    requires "url" in r
    ensures h.Keys == {"name", "price", "currency", "features", "url"}
    ensures h["url"] == r["url"] && h["price"] == JNull && h["currency"] == JNull
    ensures "title" in r ==> h["name"] == r["title"]
    ensures "title" !in r ==> h["name"] == r["url"]
    ensures "content" in r ==> h["features"] == r["content"]
    ensures "content" !in r ==> h["features"] == JStr("")
  {
    map["name" := if "title" in r then r["title"] else r["url"],
        "price" := JNull,
        "currency" := JNull,
        "features" := if "content" in r then r["content"] else JStr(""),
        "url" := r["url"]]
  }

  /** `search_products(query, k)` for the raw results of `query`. Over result dicts it gives
      one hit per kept result, in order, and raises KeyError as soon as a kept result has no
      "url" (the default of `r.get("title", r["url"])` is evaluated first, so a title does not
      help). Over a string the slice is a string and the first character has no `get`. */
  method SearchProducts(raw: RawResults, k: int := 5) returns (r: Result<seq<Dict>, Exc>)
    ensures raw.Text? ==> r == (if SliceCount(|raw.s|, k) == 0 then Success([]) else Failure(StrHasNoGet))
    ensures raw.Hits? ==>
      var n := SliceCount(|raw.items|, k);
      (r.Success? <==> forall i :: 0 <= i < n ==> "url" in raw.items[i])
      && (r.Failure? ==> r.error == NoUrl)
      && (r.Success? ==> |r.value| == n
                         && forall i :: 0 <= i < n ==> "url" in raw.items[i] && r.value[i] == Hit(raw.items[i]))
  {
    match raw
    case Text(s) =>
      if SliceCount(|s|, k) == 0 {
        return Success([]);
      }
      return Failure(StrHasNoGet);
    case Hits(items) =>
      var n := SliceCount(|items|, k);
      var hits: seq<Dict> := [];
      var i := 0;
      while i < n
        invariant 0 <= i <= n && |hits| == i
        invariant forall j :: 0 <= j < i ==> "url" in items[j] && hits[j] == Hit(items[j])
      {
        var item := items[i];
        if "url" !in item {
          return Failure(NoUrl);
        }
        hits := hits + [Hit(item)];
        i := i + 1;
      }
      return Success(hits);
  }
}
