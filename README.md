# HubSpot MCP server: property tools and contact/property clients in Dafny

This project models three pieces of a HubSpot MCP server:

- **Property tools** (`property_handler.py`). `get_property`, `update_property` and `create_property` each publish a JSON schema, check that the tool arguments hold the keys the tool requires, read the named arguments, and pass every other argument as a keyword argument to the property client. A tool either fails validation, naming the missing keys, or yields the client call it makes.
- **Property client** (`property_client.py`). `update_property` and `create_property` build the SDK payload step by step: fixed entries, an `options` entry when options were given, and then a copy of each keyword argument that is not on the method's exclusion list. `get_property` asks for one live (not archived) property definition.
- **Contact client** (`contact_client.py`). It builds the recent-contacts search request. It also models the duplicate guard in front of `create_contact`: when both names are given, it searches for a contact with equal first name, last name and (when truthy) company. A hit is returned tagged `already_exists`. Otherwise the contact is created with its properties unchanged.

Modules:

- `Wrappers`: Option and Result.
- `Json`: JSON values and Python truthiness.
- `Sdk`: search requests and responses.
- `PropertyClient`, `ContactClient`, `PropertyHandler`.

The client methods that fill a dictionary in a loop are Dafny methods with loops. The two payload loops share `CopyKwargs`. Each method is proved equal to a payload or request function, and the lemmas state the properties of those functions. The handlers only compute a value, so they are functions.

The SDK is not modelled:
- The search endpoint is a function parameter, `search`. A response with a positive total carries at least one result.
- The create endpoint is a function parameter, `create`.
- Property requests are returned as the `PropertyRequest` value that would be sent.
- The handler's tools yield the `PropertyCall` they would make on the client.

## Model

| member | source | states |
|---|---|---|
| PropertyHandler.GetPropertySchema | src/mcp_server_hubspot/handlers/property_handler.py:25-45 | requires exactly `object_type` and `property_name`, declares only those two, and restricts `object_type` to companies/contacts |
| PropertyHandler.UpdatePropertySchema | src/mcp_server_hubspot/handlers/property_handler.py:47-81 | requires `object_type`, `property_name` and `options`; `object_type` is restricted; option items must carry `label` and `value`; every required key is declared |
| PropertyHandler.CreatePropertySchema | src/mcp_server_hubspot/handlers/property_handler.py:83-137 | requires the six keys `object_type,name,label,type,fieldType,groupName` in that order; `options` and `description` are declared but optional; `object_type` is restricted; option items must carry `label` and `value` |
| PropertyHandler.MissingKeys | src/mcp_server_hubspot/handlers/property_handler.py:148 | a key is reported missing iff it is listed and absent; the missing keys keep their listed order (a subsequence of the required list); the list is no longer than the required list |
| PropertyHandler.ValidateRequired | src/mcp_server_hubspot/handlers/property_handler.py:148 | passes iff arguments exist and hold every listed key, and then returns them unchanged; otherwise the error is the missing keys in listed order, and it is non-empty unless there were no arguments |
| PropertyHandler.GetProperty | src/mcp_server_hubspot/handlers/property_handler.py:139-155 | succeeds iff both keys are present; the call carries exactly the two argument values; a failure names the missing keys |
| PropertyHandler.RouteUpdateProperty | src/mcp_server_hubspot/handlers/property_handler.py:157-176 | succeeds iff the three required keys are present; reads the three values; kwargs are every argument outside the withheld keys, unchanged; a failure names the missing keys |
| PropertyHandler.UpdatePropertyAsWritten | src/mcp_server_hubspot/handlers/property_handler.py:173-176 | the source's update tool: forwards every argument except its three named keys, including one named `self` |
| PropertyHandler.UpdateProperty | src/mcp_server_hubspot/handlers/property_handler.py:173-176 | the corrected update tool: also withholds `self`, so the client call always binds |
| PropertyHandler.AsWrittenUpdateCallDoesNotBind | src/mcp_server_hubspot/handlers/property_handler.py:173-176 | with valid arguments that include `self`, the source's update tool passes validation and then makes a call Python cannot bind |
| PropertyHandler.UpdateCorrectionAgreesOtherwise | src/mcp_server_hubspot/handlers/property_handler.py:173-176 | without an argument named `self`, the corrected and as-written update tools give the same result |
| PropertyHandler.RouteCreateProperty | src/mcp_server_hubspot/handlers/property_handler.py:180-206 | succeeds iff the six required keys are present; reads them as named arguments; `options` is the argument or None; kwargs are every argument outside the withheld keys, unchanged |
| PropertyHandler.ReadCreateArguments | src/mcp_server_hubspot/handlers/property_handler.py:192-203 | the call holds the six named arguments, `options` or None, and the arguments minus the withheld keys as kwargs |
| PropertyHandler.CreatePropertyAsWritten | src/mcp_server_hubspot/handlers/property_handler.py:201-206 | the source's create tool: forwards every argument except its seven named keys, including any named `property_type`, `field_type` or `group_name` |
| PropertyHandler.CreateProperty | src/mcp_server_hubspot/handlers/property_handler.py:201-206 | the corrected create tool: also withholds the client's parameter names `self`, `property_type`, `field_type` and `group_name`, so the client call always binds |
| PropertyHandler.AsWrittenCreateCallDoesNotBind | src/mcp_server_hubspot/handlers/property_handler.py:201-206 | with valid arguments that include any of `self`, `property_type`, `field_type` or `group_name`, the source's create tool passes validation and then makes a call Python cannot bind |
| PropertyHandler.CreateCorrectionAgreesOtherwise | src/mcp_server_hubspot/handlers/property_handler.py:201-206 | when none of those four parameter names is an argument, the corrected and as-written create tools give the same result |
| PropertyHandler.GetPropertyValidatesSchema | src/mcp_server_hubspot/handlers/property_handler.py:44 | the get tool fails exactly when a key its schema requires is absent, and it names those keys in schema order |
| PropertyHandler.UpdatePropertyValidatesSchema | src/mcp_server_hubspot/handlers/property_handler.py:80 | the same agreement for the corrected update tool and its schema |
| PropertyHandler.UpdatePropertyAsWrittenValidatesSchema | src/mcp_server_hubspot/handlers/property_handler.py:80 | the same agreement for the source's update tool, as written, and its schema |
| PropertyHandler.CreatePropertyValidatesSchema | src/mcp_server_hubspot/handlers/property_handler.py:136 | the same agreement for the corrected create tool and its schema |
| PropertyHandler.CreatePropertyAsWrittenValidatesSchema | src/mcp_server_hubspot/handlers/property_handler.py:136 | the same agreement for the source's create tool, as written, and its schema |
| PropertyHandler.UpdateToolPayload | src/mcp_server_hubspot/handlers/property_handler.py:166-176 | end to end, the corrected tool's update payload is the arguments minus `self`, `object_type` and `property_name`, and minus `options` when it is null |
| PropertyHandler.CreateToolPayload | src/mcp_server_hubspot/handlers/property_handler.py:189-206 | end to end, the corrected tool's create payload is the arguments minus `object_type`, `self`, `property_type`, `field_type` and `group_name`, and minus `options` when it is absent or null |
| PropertyClient.OptionsEntry | src/mcp_server_hubspot/clients/property_client.py:71-73 | an `options` entry exists iff options is not None, and then holds it |
| PropertyClient.Copied | src/mcp_server_hubspot/clients/property_client.py:76-78 | the copied keys are exactly the keyword keys outside the exclusion list, with their values |
| PropertyClient.UpdatePayload | src/mcp_server_hubspot/clients/property_client.py:69-78 | payload keys are `options` (when given) plus the non-excluded kwargs; never `object_type`/`property_name`; kwarg values are kept; empty for no options and no kwargs |
| PropertyClient.CreatePayload | src/mcp_server_hubspot/clients/property_client.py:116-131 | payload keys are the five fixed keys, `options` when given and the non-excluded kwargs; never `object_type`; kwarg values are kept |
| PropertyClient.CreateFixedEntries | src/mcp_server_hubspot/clients/property_client.py:116-131 | `name` and `label` always hold their parameters; a keyword argument named `type`, `fieldType` or `groupName` replaces that fixed entry |
| PropertyClient.GetProperty | src/mcp_server_hubspot/clients/property_client.py:41-45 | a by-name lookup of the given object type and property, not archived |
| PropertyClient.CopyKwargs | src/mcp_server_hubspot/clients/property_client.py:76-78 | the loop yields the starting map overwritten by every non-excluded keyword argument |
| PropertyClient.UpdateProperty | src/mcp_server_hubspot/clients/property_client.py:51-87 | the update request for the object type and property name carries exactly `UpdatePayload` |
| PropertyClient.CreateProperty | src/mcp_server_hubspot/clients/property_client.py:93-139 | the create request for the object type carries exactly `CreatePayload` |
| PropertyClient.UpdateFilterInert | src/mcp_server_hubspot/clients/property_client.py:52-54 | for a call Python binds (no keyword argument repeats a parameter name, `self` included), the update exclusion removes nothing: payload = options entry + all kwargs |
| PropertyClient.CreateFilterInert | src/mcp_server_hubspot/clients/property_client.py:94-97 | for a call Python binds, the create exclusion removes nothing: payload = fixed entries + options entry + kwargs, with kwargs taking precedence |
| PropertyClient.OptionsOnlyUpdate | src/mcp_server_hubspot/clients/property_client.py:69-78 | updating only options sends a payload of just `options` |
| ContactClient.RecentContactsRequest | src/mcp_server_hubspot/clients/contact_client.py:96-113 | no filters; one sort, descending on `lastmodifieddate`; the given limit; the seven listed properties, with no duplicates |
| ContactClient.DuplicateSearchRequest | src/mcp_server_hubspot/clients/contact_client.py:163-188 | one filter group of EQ filters: firstname, then lastname, then company iff the company is truthy; no sorts, limit or properties |
| ContactClient.FalsyCompanyIgnored | src/mcp_server_hubspot/clients/contact_client.py:179 | a falsy company gives the same search as no company |
| ContactClient.FirstHit | src/mcp_server_hubspot/clients/contact_client.py:194-197 | a hit exists iff the total is positive, and it is the first result |
| ContactClient.ExistingMatch | src/mcp_server_hubspot/clients/contact_client.py:126-131 | a match can only come from a search that ran because both names were present |
| ContactClient.FindExistingContact | src/mcp_server_hubspot/clients/contact_client.py:147-197 | sends exactly `DuplicateSearchRequest` and returns the first hit of its response |
| ContactClient.CreateContact | src/mcp_server_hubspot/clients/contact_client.py:115-145 | searches first iff both names are present; on a truthy match, returns it tagged `already_exists` and creates nothing; otherwise makes exactly one create call with the properties unchanged and returns its response |

## Left out

- The SDK is not modelled: the HTTP calls behind `do_search`, `basic_api.create` and `core_api.get_by_name/update/create`, and the SDK model classes (`PropertyUpdate`, `PropertyCreate`, `SimplePublicObjectInputForCreate`). Search and create are function parameters. Property calls are modelled as the request that would be sent.
- SearchResponse: assumes a response with a positive `total` has at least one result. This rules out the IndexError that `results[0]` would raise at contact_client.py:195 if the SDK broke that rule.
- The serialisation of responses is not modelled: `to_dict`, `convert_datetime_fields` and `json.dumps`. Records are plain maps.
- Error handling is not modelled: `handle_hubspot_errors` (the ApiException path), `create_text_response` and the tool dispatch around the handlers. They are I/O wrappers.
- `validate_required_arguments` lives in the base handler, which is not part of this model. `ValidateRequired` is written from its call sites in three assumed ways:
  1. a missing key raises an error naming the missing keys in listed order;
  2. `None` arguments report every listed key as missing;
  3. otherwise the arguments pass unchanged.
- The handlers call `self.hubspot`, a client facade that is not part of this model. It is assumed to forward its arguments to the property client unchanged.
- `get_recent`, `get_by_id` and the contact `update` are SDK pass-throughs. Only the request `get_recent` sends is modelled, by `RecentContactsRequest`.
- Keyword-argument order is not modelled. The payload loops visit keys in an arbitrary order, and since every key is written once the result does not depend on that order.
- Floating-point JSON numbers are not modelled, because `Value` has integers only. The only number a modelled operation inspects is the truth value of `company` (contact_client.py:179). A float company such as 0.0 (falsy) or 2.5 (truthy) cannot be represented.
- The SDK's distinction between a request field left as `None` and one set to an empty list is not kept. An unset field is `[]` or `None` in `SearchRequest`.
- The allowed values in the schemas (`object_type` in companies/contacts) are published but not enforced by the handlers, so the handler model does not enforce them either.
- Logging, the FAISS storage, the server setup and the other handlers are outside this core.

## Findings

| source | as written | input that shows it | evidently intended | confidence | as-written member | corrected member |
|---|---|---|---|---|---|---|
| src/mcp_server_hubspot/handlers/property_handler.py:201-206 with src/mcp_server_hubspot/clients/property_client.py:94-97 | the create tool withholds only its own seven argument keys, so an argument named `property_type`, `field_type` or `group_name` is passed as `**kwargs` to a method that already receives a positional parameter of that name; Python raises TypeError ("got multiple values for argument") before the method body runs | `create_property` arguments with the six required keys plus `"property_type": "string"` | withhold the client's parameter names as well, so every valid argument set yields a call that binds; the client's exclusion list at property_client.py:129-130 suggests these names were meant to be dropped | medium, not executed; it depends on the client facade forwarding the arguments unchanged | PropertyHandler.CreatePropertyAsWritten, PropertyHandler.AsWrittenCreateCallDoesNotBind | PropertyHandler.CreateProperty, PropertyHandler.CreateToolPayload |
| src/mcp_server_hubspot/handlers/property_handler.py:173-176 and :201-206 with src/mcp_server_hubspot/clients/property_client.py:52 and :94 | both tools forward an argument named `self` as a keyword argument to a bound client method, whose `self` is already filled; Python raises TypeError ("got multiple values for argument 'self'") | `update_property` arguments `object_type`, `property_name`, `options` plus `"self": 1` | withhold `self` too, so every valid argument set yields a call that binds | medium, not executed; it depends on the client facade forwarding the arguments unchanged | PropertyHandler.UpdatePropertyAsWritten, PropertyHandler.AsWrittenUpdateCallDoesNotBind, PropertyHandler.AsWrittenCreateCallDoesNotBind | PropertyHandler.UpdateProperty, PropertyHandler.UpdateToolPayload, PropertyHandler.CreateProperty |
