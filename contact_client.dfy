/**
 * ContactClient: the recent-contacts search request and the duplicate-contact
 * guard in front of contact creation. The SDK's search endpoint is the function
 * `search`; its create endpoint is the function `create`. Every SDK call the
 * guard makes is recorded, in order, in the returned `calls`.
 */
module ContactClient {
  import opened Wrappers
  import opened Json
  import opened Sdk

  /** An SDK call issued by `create_contact`. */
  datatype ContactApiCall =
    | DoSearch(request: SearchRequest)
    | BasicCreate(properties: Record)

  /** The properties fetched for each recent contact. */
  const RecentProperties: seq<string> :=
    ["firstname", "lastname", "email", "phone", "company", "hs_lastmodifieddate", "lastmodifieddate"]

  /** `_create_contact_search_request`: all contacts, most recently modified first. */
  function RecentContactsRequest(limit: int): (r: SearchRequest)
    ensures r.filterGroups == []
    ensures |r.sorts| == 1 && r.sorts[0].propertyName == "lastmodifieddate"
    ensures r.sorts[0].direction == Descending
    ensures r.limit == Some(limit)
    ensures |r.properties| == 7
    ensures forall i, j :: 0 <= i < j < |r.properties| ==> r.properties[i] != r.properties[j]
    ensures forall p :: p in r.properties <==> p in RecentProperties
  {
    SearchRequest([], [Sort("lastmodifieddate", Descending)], Some(limit), RecentProperties)
  }

  /** An equality filter on one contact property. */
  function EqFilter(propertyName: string, value: Value): Filter
  {
    Filter(propertyName, "EQ", value)
  }

  /**
   * The search `_find_existing_contact` sends: one filter group (so every filter
   * must match), first name and last name in that order, then the company only
   * when it is truthy.
   */
  function DuplicateSearchRequest(firstname: Value, lastname: Value, company: Value)
    : (r: SearchRequest)
    ensures |r.filterGroups| == 1
    ensures |r.filterGroups[0].filters| == if Truthy(company) then 3 else 2
    ensures r.filterGroups[0].filters[0] == Filter("firstname", "EQ", firstname)
    ensures r.filterGroups[0].filters[1] == Filter("lastname", "EQ", lastname)
    ensures Truthy(company) ==> r.filterGroups[0].filters[2] == Filter("company", "EQ", company)
    ensures forall f :: f in r.filterGroups[0].filters ==> f.operator == "EQ"
    ensures (exists f :: f in r.filterGroups[0].filters && f.propertyName == "company")
            <==> Truthy(company)
    ensures r.sorts == [] && r.limit == None && r.properties == []
  {
    var names := [EqFilter("firstname", firstname), EqFilter("lastname", lastname)];
    var filters := if Truthy(company) then names + [EqFilter("company", company)] else names;
    SearchRequest([FilterGroup(filters)], [], None, [])
  }

  /**
   * A falsy company (None, an empty string, ...) adds no filter, so the search is
   * the one made without any company at all.
   */
  lemma FalsyCompanyIgnored(firstname: Value, lastname: Value, company: Value)
    requires !Truthy(company)
    ensures DuplicateSearchRequest(firstname, lastname, company)
            == DuplicateSearchRequest(firstname, lastname, Null)
  {
  }

  /** The first hit of a search, when it found anything. */
  function FirstHit(response: SearchResponse): (hit: Option<Record>)
    ensures hit.Some? <==> response.total > 0
    ensures hit.Some? ==> hit.value == response.results[0]
  {
    if response.total > 0 then Some(response.results[0]) else None
  }

  /** The guard runs exactly when both name keys are present, whatever their values. */
  predicate GuardApplies(properties: Record)
  {
    "firstname" in properties && "lastname" in properties
  }

  /** The existing contact the guard finds for `properties`, if any. */
  function ExistingMatch(properties: Record, search: SearchRequest -> SearchResponse)
    : (hit: Option<Record>)
    ensures hit.Some? ==> GuardApplies(properties)
  {
    if GuardApplies(properties) then
      FirstHit(search(DuplicateSearchRequest(properties["firstname"], properties["lastname"],
                                             Get(properties, "company"))))
    else None
  }

  /** `_find_existing_contact`: build the equality filters, search, keep the first hit. */
  method FindExistingContact(firstname: Value, lastname: Value, company: Value,
                             search: SearchRequest -> SearchResponse)
    returns (request: SearchRequest, existing: Option<Record>)
    ensures request == DuplicateSearchRequest(firstname, lastname, company)
    ensures existing == FirstHit(search(request))
  {
    var filters := [EqFilter("firstname", firstname), EqFilter("lastname", lastname)];
    if Truthy(company) {
      filters := filters + [EqFilter("company", company)];
    }
    request := SearchRequest([FilterGroup(filters)], [], None, []);
    var response := search(request);
    if response.total > 0 {
      existing := Some(response.results[0]);
    } else {
      existing := None;
    }
  }

  /**
   * Python's truth value of `_find_existing_contact`'s result: None and an
   * empty record are false.
   */
  predicate Found(hit: Option<Record>)
  {
    hit.Some? && hit.value != map[]
  }

  /**
   * `create_contact`. When both names are given and a contact with those names
   * (and that company, if truthy) exists, it is returned tagged as already
   * existing and nothing is created (a hit that converts to an empty record
   * counts as no hit, as in Python); otherwise exactly one create call carries
   * `properties` unchanged and its response is returned.
   */
  method CreateContact(properties: Record, search: SearchRequest -> SearchResponse,
                       create: Record -> Record)
    returns (result: Record, calls: seq<ContactApiCall>)
    ensures (|calls| > 0 && calls[0].DoSearch?) <==> GuardApplies(properties)
    ensures GuardApplies(properties) ==>
      calls[0] == DoSearch(DuplicateSearchRequest(properties["firstname"], properties["lastname"],
                                                  Get(properties, "company")))
    ensures Found(ExistingMatch(properties, search)) ==>
      && calls == [calls[0]]
      && result == map["already_exists" := Bool(true),
                       "contact" := Object(ExistingMatch(properties, search).value)]
    ensures !Found(ExistingMatch(properties, search)) ==>
      && |calls| == (if GuardApplies(properties) then 2 else 1)
      && calls[|calls| - 1] == BasicCreate(properties)
      && result == create(properties)
  {
    calls := [];
    if "firstname" in properties && "lastname" in properties {
      var request, existing := FindExistingContact(properties["firstname"], properties["lastname"],
                                                   Get(properties, "company"), search);
      calls := calls + [DoSearch(request)];
      if existing.Some? && existing.value != map[] {
        result := map["already_exists" := Bool(true), "contact" := Object(existing.value)];
        return;
      }
    }
    calls := calls + [BasicCreate(properties)];
    result := create(properties);
  }
}
