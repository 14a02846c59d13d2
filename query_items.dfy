/**
 * The query-item list of a request URL and the one update the request
 * builder performs on it: replace the FIRST item whose VALUE equals the
 * new value, or append when there is none. The match is on the value,
 * not on the item's name, exactly as the builder's `country` and
 * `category` setters do it.
 */
module QueryItems {
  import opened Wrappers

  /** One `name=value` pair of a URL query. */
  datatype QueryItem = QueryItem(name: string, value: string)

  /** Index of the first item whose value is `v`, if any (`firstIndex(where:)`). */
  function FirstIndexOfValue(items: seq<QueryItem>, v: string): (r: Option<nat>)
    ensures r.Some? ==> r.value < |items| && items[r.value].value == v
    ensures r.Some? ==> forall j :: 0 <= j < r.value ==> items[j].value != v
    ensures r.None? <==> forall j :: 0 <= j < |items| ==> items[j].value != v
  {
    if |items| == 0 then None
    else if items[0].value == v then Some(0)
    else
      match FirstIndexOfValue(items[1..], v)
      case None => None
      case Some(i) => Some(i + 1)
  }

  /**
   * The item list after setting `name` to `value`: the first item carrying
   * `value` (whatever its name) becomes `name=value`; with no such item,
   * `name=value` is appended.
   */
  function SetByValue(items: seq<QueryItem>, name: string, value: string): (r: seq<QueryItem>)
    ensures |r| == if value in Values(items) then |items| else |items| + 1
    ensures QueryItem(name, value) in r
    ensures forall j :: 0 <= j < |items| && items[j].value != value ==> r[j] == items[j]
  {
    match FirstIndexOfValue(items, value)
    case Some(i) =>
      var updated := items[i := QueryItem(name, value)];
      assert updated[i] == QueryItem(name, value);
      updated
    case None => items + [QueryItem(name, value)]
  }

  /** The set of values carried by the items. */
  function Values(items: seq<QueryItem>): set<string>
  {
    set i | 0 <= i < |items| :: items[i].value
  }

  /** No two items carry the same value. */
  predicate DistinctValues(items: seq<QueryItem>)
  {
    forall i, j :: 0 <= i < j < |items| ==> items[i].value != items[j].value
  }

  /** With no item carrying `value`, the new item goes at the end and nothing else moves. */
  lemma SetByValueAppends(items: seq<QueryItem>, name: string, value: string)
    requires forall j :: 0 <= j < |items| ==> items[j].value != value
    ensures |SetByValue(items, name, value)| == |items| + 1
    ensures SetByValue(items, name, value)[|items|] == QueryItem(name, value)
    ensures SetByValue(items, name, value)[..|items|] == items
  {
  }

  /**
   * When item `i` is the first to carry `value`, it becomes `name=value`
   * whatever its old name was; the length and every other index are unchanged.
   */
  lemma SetByValueReplacesFirstMatch(items: seq<QueryItem>, name: string, value: string, i: nat)
    requires i < |items| && items[i].value == value
    requires forall j :: 0 <= j < i ==> items[j].value != value
    ensures |SetByValue(items, name, value)| == |items|
    ensures SetByValue(items, name, value)[i] == QueryItem(name, value)
    ensures forall j :: 0 <= j < |items| && j != i ==> SetByValue(items, name, value)[j] == items[j]
  {
  }

  /**
   * A second set with the same value lands on the item the first one wrote:
   * the earlier name is overwritten, whichever names the two calls use.
   */
  lemma SetByValueSupersedes(items: seq<QueryItem>, first: string, second: string, value: string)
    ensures SetByValue(SetByValue(items, first, value), second, value) == SetByValue(items, second, value)
  {
    var once := SetByValue(items, first, value);
    match FirstIndexOfValue(items, value)
    case None =>
      SetByValueAppends(items, first, value);
      SetByValueReplacesFirstMatch(once, second, value, |items|);
      SetByValueAppends(items, second, value);
      assert SetByValue(once, second, value) == SetByValue(items, second, value);
    case Some(i) =>
      SetByValueReplacesFirstMatch(items, first, value, i);
      SetByValueReplacesFirstMatch(once, second, value, i);
      SetByValueReplacesFirstMatch(items, second, value, i);
      assert SetByValue(once, second, value) == SetByValue(items, second, value);
  }

  /** Setting the same name to the same value twice is the same as setting it once. */
  lemma SetByValueIdempotent(items: seq<QueryItem>, name: string, value: string)
    ensures SetByValue(SetByValue(items, name, value), name, value) == SetByValue(items, name, value)
  {
    SetByValueSupersedes(items, name, name, value);
  }

  /**
   * Because matching is by value, `category(x)` followed by `country(x)`
   * leaves one item `country=x` and no `category` item.
   */
  lemma CategoryThenCountrySameValue(x: string)
    ensures SetByValue(SetByValue([], "category", x), "country", x) == [QueryItem("country", x)]
    ensures forall j :: 0 <= j < |SetByValue(SetByValue([], "category", x), "country", x)| ==>
              SetByValue(SetByValue([], "category", x), "country", x)[j].name != "category"
  {
  }

  /**
   * Because matching is by value, setting the same name twice with two
   * different values keeps both items: names are not kept unique.
   */
  lemma SameNameTwiceKeepsBoth(a: string, b: string)
    requires a != b
    ensures SetByValue(SetByValue([], "country", a), "country", b)
              == [QueryItem("country", a), QueryItem("country", b)]
  {
  }

  /** The values present afterwards are those present before plus the new one. */
  lemma SetByValueValues(items: seq<QueryItem>, name: string, value: string)
    ensures Values(SetByValue(items, name, value)) == Values(items) + {value}
  {
  }

  /** Value-matching keeps an item list free of repeated values. */
  lemma SetByValuePreservesDistinctValues(items: seq<QueryItem>, name: string, value: string)
    requires DistinctValues(items)
    ensures DistinctValues(SetByValue(items, name, value))
  {
  }
}
