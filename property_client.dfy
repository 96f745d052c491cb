/**
 * PropertyClient: builds the requests sent to the SDK's properties API.
 * `update_property` and `create_property` fill a payload dictionary step by
 * step: fixed entries, an `options` entry when options were given, then a copy
 * of every keyword argument not on the method's exclusion list.
 */
module PropertyClient {
  import opened Json

  /** The request handed to `crm.properties.core_api`. */
  datatype PropertyRequest =
    | GetByName(objectType: Value, propertyName: Value, archived: bool)
    | CoreUpdate(objectType: Value, propertyName: Value, propertyUpdate: map<string, Value>)
    | CoreCreate(objectType: Value, propertyCreate: map<string, Value>)

  /** Keyword arguments `update_property` never copies into its payload. */
  const UpdateSkipped: set<string> := {"object_type", "property_name"}

  /**
   * Keyword arguments `create_property` never copies into its payload: the
   * method's own parameter names, not the payload keys `type`, `fieldType`
   * and `groupName`.
   */
  const CreateSkipped: set<string> :=
    {"object_type", "name", "label", "property_type", "field_type", "group_name", "options"}

  /**
   * The parameter names of `update_property` besides `**kwargs`, including
   * `self`, which a bound method call fills positionally.
   */
  const UpdateParameters: set<string> := {"self", "object_type", "property_name", "options"}

  /** The parameter names of `create_property` besides `**kwargs`, including `self`. */
  const CreateParameters: set<string> :=
    {"self", "object_type", "name", "label", "property_type", "field_type", "group_name", "options"}

  /**
   * Python accepts a call `client.update_property(<three arguments>, **kwargs)`
   * only when no keyword argument repeats a parameter name, `self` included;
   * otherwise it raises TypeError ("got multiple values for argument") before
   * the body runs.
   */
  predicate UpdateCallBinds(kwargs: map<string, Value>)
  {
    kwargs.Keys !! UpdateParameters
  }

  /** The same rule for `client.create_property(<seven arguments>, **kwargs)`. */
  predicate CreateCallBinds(kwargs: map<string, Value>)
  {
    kwargs.Keys !! CreateParameters
  }

  /** The payload keys `create_property` always writes. */
  const CreateFixedKeys: set<string> := {"name", "label", "type", "fieldType", "groupName"}

  /** The `options` entry: present exactly when options is not None. */
  function OptionsEntry(options: Value): (m: map<string, Value>)
    ensures "options" in m <==> options != Null
    ensures m.Keys <= {"options"}
    ensures options != Null ==> m["options"] == options
  {
    if options != Null then map["options" := options] else map[]
  }

  /** The keyword arguments whose key is not in `skipped`, with their values. */
  function Copied(kwargs: map<string, Value>, skipped: set<string>): (m: map<string, Value>)
    ensures m.Keys == kwargs.Keys - skipped
    ensures forall k :: k in m ==> m[k] == kwargs[k]
  {
    map k | k in kwargs && k !in skipped :: kwargs[k]
  }

  /** Copying one more keyword argument extends the copy by that entry, unless it is skipped. */
  lemma CopiedStep(kwargs: map<string, Value>, pending: set<string>, key: string, skipped: set<string>)
    requires key in pending && pending <= kwargs.Keys
    ensures Copied(kwargs - (pending - {key}), skipped)
            == if key in skipped then Copied(kwargs - pending, skipped)
               else Copied(kwargs - pending, skipped)[key := kwargs[key]]
  {
  }

  /** The `PropertyUpdate` fields `update_property` sends. */
  function UpdatePayload(options: Value, kwargs: map<string, Value>): (p: map<string, Value>)
    ensures p.Keys == (if options != Null then {"options"} else {}) + (kwargs.Keys - UpdateSkipped)
    ensures "object_type" !in p && "property_name" !in p
    ensures forall k :: k in kwargs && k !in UpdateSkipped ==> p[k] == kwargs[k]
    ensures options != Null && "options" !in kwargs ==> p["options"] == options
    ensures options == Null && kwargs == map[] ==> p == map[]
  {
    OptionsEntry(options) + Copied(kwargs, UpdateSkipped)
  }

  /** The `PropertyCreate` fields `create_property` sends. */
  function CreatePayload(name: Value, propertyLabel: Value, propertyType: Value, fieldType: Value,
                         groupName: Value, options: Value, kwargs: map<string, Value>)
    : (p: map<string, Value>)
    ensures p.Keys == CreateFixedKeys + (if options != Null then {"options"} else {})
                      + (kwargs.Keys - CreateSkipped)
    ensures "object_type" !in p
    ensures forall k :: k in kwargs && k !in CreateSkipped ==> p[k] == kwargs[k]
    ensures options != Null ==> p["options"] == options
  {
    map["name" := name, "label" := propertyLabel, "type" := propertyType,
        "fieldType" := fieldType, "groupName" := groupName]
      + OptionsEntry(options) + Copied(kwargs, CreateSkipped)
  }

  /**
   * The fixed create entries: `name` and `label` always hold their parameters,
   * while a keyword argument literally named `type`, `fieldType` or `groupName`
   * is copied after the fixed entries and so replaces them, since the
   * exclusion list names the parameters `property_type`, `field_type` and
   * `group_name` rather than these payload keys.
   */
  lemma CreateFixedEntries(name: Value, propertyLabel: Value, propertyType: Value, fieldType: Value,
                           groupName: Value, options: Value, kwargs: map<string, Value>)
    ensures var p := CreatePayload(name, propertyLabel, propertyType, fieldType, groupName, options, kwargs);
      && p["name"] == name
      && p["label"] == propertyLabel
      && p["type"] == (if "type" in kwargs then kwargs["type"] else propertyType)
      && p["fieldType"] == (if "fieldType" in kwargs then kwargs["fieldType"] else fieldType)
      && p["groupName"] == (if "groupName" in kwargs then kwargs["groupName"] else groupName)
  {
  }

  /** `get_property`: a lookup of one live (not archived) property definition. */
  function GetProperty(objectType: Value, propertyName: Value): (r: PropertyRequest)
    ensures r.GetByName? && !r.archived
    ensures r.objectType == objectType && r.propertyName == propertyName
  {
    GetByName(objectType, propertyName, false)
  }

  /**
   * The copy loop both methods end with (`for key, value in kwargs.items()`):
   * every keyword argument whose key is not in `skipped` is written into
   * `data`, replacing an entry of the same key.
   */
  method CopyKwargs(data: map<string, Value>, kwargs: map<string, Value>, skipped: set<string>)
    returns (result: map<string, Value>)
    ensures result == data + Copied(kwargs, skipped)
  {
    result := data;
    var pending := kwargs.Keys;
    while pending != {}
      invariant pending <= kwargs.Keys
      invariant result == data + Copied(kwargs - pending, skipped)
      decreases pending
    {
      var key :| key in pending;
      CopiedStep(kwargs, pending, key, skipped);
      if key !in skipped {
        result := result[key := kwargs[key]];
      }
      pending := pending - {key};
    }
    assert kwargs - {} == kwargs;
  }

  /** `update_property`: the update request, built entry by entry. */
  method UpdateProperty(objectType: Value, propertyName: Value, options: Value,
                        kwargs: map<string, Value>)
    returns (request: PropertyRequest)
    ensures request == CoreUpdate(objectType, propertyName, UpdatePayload(options, kwargs))
  {
    var updateData: map<string, Value> := map[];
    if options != Null {
      updateData := updateData["options" := options];
    }
    assert updateData == OptionsEntry(options);
    updateData := CopyKwargs(updateData, kwargs, UpdateSkipped);
    request := CoreUpdate(objectType, propertyName, updateData);
  }

  /** `create_property`: the create request, built entry by entry. */
  method CreateProperty(objectType: Value, name: Value, propertyLabel: Value, propertyType: Value,
                        fieldType: Value, groupName: Value, options: Value,
                        kwargs: map<string, Value>)
    returns (request: PropertyRequest)
    ensures request == CoreCreate(objectType,
      CreatePayload(name, propertyLabel, propertyType, fieldType, groupName, options, kwargs))
  {
    var createData: map<string, Value> := map[
      "name" := name, "label" := propertyLabel, "type" := propertyType,
      "fieldType" := fieldType, "groupName" := groupName];
    ghost var fixed := createData;
    if options != Null {
      createData := createData["options" := options];
    }
    assert createData == fixed + OptionsEntry(options);
    createData := CopyKwargs(createData, kwargs, CreateSkipped);
    request := CoreCreate(objectType, createData);
  }

  /**
   * Python binds `object_type`, `property_name` and `options` to the named
   * parameters, so a real call's kwargs never hold them; the update filter then
   * removes nothing and every keyword argument reaches the payload.
   */
  lemma UpdateFilterInert(options: Value, kwargs: map<string, Value>)
    requires UpdateCallBinds(kwargs)
    ensures UpdatePayload(options, kwargs) == OptionsEntry(options) + kwargs
  {
    assert Copied(kwargs, UpdateSkipped) == kwargs;
  }

  /**
   * For the same reason a real call's kwargs never hold a create parameter name,
   * so the create filter removes nothing; a keyword argument named `type`,
   * `fieldType` or `groupName` replaces the fixed entry.
   */
  lemma CreateFilterInert(name: Value, propertyLabel: Value, propertyType: Value,
                                             fieldType: Value, groupName: Value, options: Value,
                                             kwargs: map<string, Value>)
    requires CreateCallBinds(kwargs)
    ensures CreatePayload(name, propertyLabel, propertyType, fieldType, groupName, options, kwargs)
            == map["name" := name, "label" := propertyLabel, "type" := propertyType,
                   "fieldType" := fieldType, "groupName" := groupName]
               + OptionsEntry(options) + kwargs
  {
    assert Copied(kwargs, CreateSkipped) == kwargs;
  }

  /** Updating only the options of a property sends a payload holding only them. */
  lemma OptionsOnlyUpdate(options: Value)
    requires options != Null
    ensures UpdatePayload(options, map[]) == map["options" := options]
  {
  }
}
