/** The shapes of the JSON bodies the pages receive. */
module Json {
  import opened Wrappers

  /** A list endpoint answers either with a bare array or with a paginated object whose
      `results` field may be missing. */
  datatype ListReply<T> = ArrayBody(items: seq<T>) | ObjectBody(results: Option<seq<T>>)

  /** `data.results` as JavaScript reads it: an array has no `results` field. */
  function Results<T>(reply: ListReply<T>): Option<seq<T>> {
    match reply
    case ArrayBody(_) => None
    case ObjectBody(r) => r
  }

  /** `data.results || []`: the paginated list, or nothing. */
  function ResultsOrEmpty<T>(reply: ListReply<T>): (r: seq<T>)
    ensures r == Results(reply).GetOr([])
  {
    match reply
    case ObjectBody(Some(items)) => items
    case _ => []
  }

  /** `data.results || data`: the paginated list, or the body itself when it is a list;
      `None` when the body is an object without a list (the page then holds no array). */
  function ResultsOrBody<T>(reply: ListReply<T>): (r: Option<seq<T>>)
    ensures r.None? <==> reply == ObjectBody(None)
  {
    match reply
    case ArrayBody(items) => Some(items)
    case ObjectBody(results) => results
  }

  /** `Array.isArray(data) ? data : data.results || []`: the body when it is a list, else
      the paginated list, else nothing. */
  function BodyOrResults<T>(reply: ListReply<T>): (r: seq<T>)
    ensures ResultsOrBody(reply).Some? ==> r == ResultsOrBody(reply).value
    ensures ResultsOrBody(reply).None? ==> r == []
  {
    match reply
    case ArrayBody(items) => items
    case ObjectBody(results) => results.GetOr([])
  }

  /** A bare array is taken as the list by `Array.isArray(data) ? data : ...` but read as
      no list at all by `data.results || []`. */
  lemma BareArrayReadings<T>(items: seq<T>)
    ensures BodyOrResults(ArrayBody(items)) == items
    ensures ResultsOrEmpty(ArrayBody(items)) == []
    ensures Results(ArrayBody(items)).None?
  {
  }

  /** A paginated body is read the same way by every normalisation. */
  lemma PaginatedReadingsAgree<T>(items: seq<T>)
    ensures BodyOrResults(ObjectBody(Some(items))) == ResultsOrEmpty(ObjectBody(Some(items))) == items
    ensures ResultsOrBody(ObjectBody(Some(items))) == Results(ObjectBody(Some(items))) == Some(items)
  {
  }

  /** One `key: value` member of a JSON object. */
  datatype Entry<V> = Entry(key: string, value: V)

  /** `Object.keys(obj)`, in member order. */
  function Keys<V>(obj: seq<Entry<V>>): (ks: seq<string>)
    ensures |ks| == |obj|
    ensures forall i :: 0 <= i < |obj| ==> ks[i] == obj[i].key
  {
    if obj == [] then [] else [obj[0].key] + Keys(obj[1..])
  }

  /** `obj[key]`: the member's value, `None` for `undefined`. A JSON object has no
      repeated member (`JSON.parse` keeps one per key), so the first match is the one. */
  function Get<V>(obj: seq<Entry<V>>, key: string): (r: Option<V>)
    ensures r.None? <==> key !in Keys(obj)
  {
    if obj == [] then None
    else if obj[0].key == key then Some(obj[0].value)
    else Get(obj[1..], key)
  }
}
