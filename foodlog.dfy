/** The food-log list's ordering and category filter, and where the edit
    and delete views send the user afterwards. */
module FoodLogViews {
  import opened Common
  import opened Records

  /** The `sort` parameter's values and the ordering each selects. */
  const SortMap: map<string, string> :=
    map["date_asc" := "date_logged", "date_desc" := "-date_logged",
        "name_asc" := "food_name", "name_desc" := "-food_name",
        "calories_asc" := "calories", "calories_desc" := "-calories"]

  const DefaultSort: string := "date_desc"
  const FallbackOrdering: string := "-date_logged"

  /** `sort_map.get(request.GET.get('sort', 'date_desc'), '-date_logged')`. */
  function Ordering(sort: Option<string>): (o: string)
    ensures sort.Some? && sort.value in SortMap ==> o == SortMap[sort.value]
    ensures sort.Some? && sort.value !in SortMap ==> o == FallbackOrdering
    ensures sort.None? ==> o == SortMap[DefaultSort]
  {
    var key := sort.GetOr(DefaultSort);
    if key in SortMap then SortMap[key] else FallbackOrdering
  }

  /** Every parameter gives one of the six orderings, and a missing or
      unknown one gives newest first. */
  lemma OrderingIsKnown(sort: Option<string>)
    ensures Ordering(sort) in SortMap.Values
    ensures sort.None? || sort.value !in SortMap ==> Ordering(sort) == "-date_logged"
  {
    assert SortMap["date_desc"] == FallbackOrdering;
  }

  /** The category filter: an empty parameter keeps every log. */
  function FilterCategory(logs: seq<FoodLog>, category: string): (r: seq<FoodLog>)
    ensures |r| <= |logs|
    ensures forall x :: x in r <==> x in logs && (category == "" || x.category == category)
    ensures category == "" ==> r == logs
  {
    if category == "" then logs
    else Filter(logs, (x: FoodLog) => x.category == category)
  }

  /** `reverse("food_log_list")`. */
  const ListPath: string := "/logs/"

  /** `get_success_url` of the edit and delete views: back to the list,
      carrying the current query string when there is one. */
  function SuccessUrl(query: string): (url: string)
    ensures |url| >= |ListPath| && url[..|ListPath|] == ListPath
    ensures query == "" <==> url == ListPath
    ensures query != "" ==> |url| > |ListPath| && url[|ListPath|] == '?' && url[|ListPath| + 1..] == query
  {
    if query == "" then ListPath else ListPath + "?" + query
  }

  /** The query string can be read back from the address. */
  lemma SuccessUrlKeepsQuery(q1: string, q2: string)
    requires SuccessUrl(q1) == SuccessUrl(q2)
    ensures q1 == q2
  {
    if q1 != "" && q2 != "" {
      assert q1 == SuccessUrl(q1)[|ListPath| + 1..];
    }
  }
}
