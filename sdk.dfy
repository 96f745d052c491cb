/**
 * The shapes this adapter exchanges with the HubSpot SDK. The SDK itself is not
 * modelled: its search endpoint is a function the calling code is given, and
 * create and update calls are recorded as the request that would be sent.
 */
module Sdk {
  import opened Wrappers
  import opened Json

  /** A CRM object as a plain mapping, as `to_dict()` returns it. */
  type Record = map<string, Value>

  datatype Direction = Ascending | Descending

  datatype Sort = Sort(propertyName: string, direction: Direction)

  datatype Filter = Filter(propertyName: string, operator: string, value: Value)

  /** The filters of one group are combined with AND. */
  datatype FilterGroup = FilterGroup(filters: seq<Filter>)

  /**
   * `PublicObjectSearchRequest`: a field the caller leaves unset is the empty
   * sequence (or `None` for the limit).
   */
  datatype SearchRequest = SearchRequest(
    filterGroups: seq<FilterGroup>,
    sorts: seq<Sort>,
    limit: Option<int>,
    properties: seq<string>)

  datatype SearchResult = SearchResult(total: int, results: seq<Record>)

  /** A search response whose positive total comes with at least one result. */
  type SearchResponse = r: SearchResult | r.total > 0 ==> |r.results| > 0
    witness SearchResult(0, [])
}
