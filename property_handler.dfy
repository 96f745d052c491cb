/**
 * PropertyHandler: the three property tools. Each tool publishes a JSON schema,
 * checks that the arguments hold the keys it requires, reads its named
 * arguments and forwards the remaining ones as keyword arguments to the
 * property client. A tool either fails validation or yields the client call it
 * makes; the handler changes nothing.
 */
module PropertyHandler {
  import opened Wrappers
  import opened Json
  import PropertyClient

  /** The tool arguments the runtime passes (possibly none at all). */
  type Arguments = map<string, Value>

  /** The validation error: the required keys that are absent, in listed order. */
  datatype ValidationError = MissingArguments(missing: seq<string>)

  /** The property-client method a tool calls, with the arguments it passes. */
  datatype PropertyCall =
    | GetPropertyCall(objectType: Value, propertyName: Value)
    | UpdatePropertyCall(objectType: Value, propertyName: Value, options: Value,
                         kwargs: map<string, Value>)
    | CreatePropertyCall(objectType: Value, name: Value, propertyLabel: Value,
                         propertyType: Value, fieldType: Value, groupName: Value,
                         options: Value, kwargs: map<string, Value>)

  // ---------------------------------------------------------------- schemas

  /** A JSON schema of type "object": its declared properties and required keys. */
  datatype ObjectSchema = ObjectSchema(properties: map<string, PropertySchema>, required: seq<string>)

  /**
   * The schema of one property: its JSON type, description, allowed values
   * ("enum") and, for an array, the schema of its items.
   */
  datatype PropertySchema = PropertySchema(
    jsonType: string,
    description: Option<string>,
    allowed: Option<seq<string>>,
    items: Option<ObjectSchema>)

  function Described(jsonType: string, description: string): PropertySchema
  {
    PropertySchema(jsonType, Some(description), None, None)
  }

  function Plain(jsonType: string): PropertySchema
  {
    PropertySchema(jsonType, None, None, None)
  }

  /** The `object_type` entry shared by the three tools' schemas. */
  function ObjectTypeSchema(): PropertySchema
  {
    PropertySchema("string", Some("Type of CRM object"), Some(["companies", "contacts"]), None)
  }

  /** The `options` entry of the update and create schemas. */
  function OptionsSchema(): PropertySchema
  {
    PropertySchema("array", Some("Array of option objects for dropdown fields"), None,
      Some(ObjectSchema(
        map["label" := Plain("string"), "value" := Plain("string"),
            "description" := Plain("string"), "displayOrder" := Plain("integer")],
        ["label", "value"])))
  }

  /** Every required key of a schema is one of its declared properties. */
  predicate RequiredDeclared(schema: ObjectSchema)
  {
    forall k :: k in schema.required ==> k in schema.properties
  }

  /** The `object_type` property accepts exactly `companies` and `contacts`. */
  predicate ObjectTypeRestricted(schema: ObjectSchema)
  {
    && "object_type" in schema.properties
    && schema.properties["object_type"].allowed == Some(["companies", "contacts"])
  }

  /** The items of the `options` array must carry exactly `label` and `value`. */
  predicate OptionItemsNeedLabelAndValue(schema: ObjectSchema)
  {
    && "options" in schema.properties
    && schema.properties["options"].jsonType == "array"
    && schema.properties["options"].items.Some?
    && schema.properties["options"].items.value.required == ["label", "value"]
  }

  /** `get_property_schema`. */
  function GetPropertySchema(): (s: ObjectSchema)
    ensures s.required == ["object_type", "property_name"]
    ensures s.properties.Keys == {"object_type", "property_name"}
    ensures ObjectTypeRestricted(s) && RequiredDeclared(s)
  {
    ObjectSchema(
      map["object_type" := ObjectTypeSchema(),
          "property_name" := Described("string", "Name of the property")],
      ["object_type", "property_name"])
  }

  /** `get_update_property_schema`. */
  function UpdatePropertySchema(): (s: ObjectSchema)
    ensures s.required == ["object_type", "property_name", "options"]
    ensures s.properties.Keys == {"object_type", "property_name", "options"}
    ensures ObjectTypeRestricted(s) && OptionItemsNeedLabelAndValue(s) && RequiredDeclared(s)
  {
    ObjectSchema(
      map["object_type" := ObjectTypeSchema(),
          "property_name" := Described("string", "Name of the property"),
          "options" := OptionsSchema()],
      ["object_type", "property_name", "options"])
  }

  /** `get_create_property_schema`: `options` and `description` are optional. */
  function CreatePropertySchema(): (s: ObjectSchema)
    ensures s.required == ["object_type", "name", "label", "type", "fieldType", "groupName"]
    ensures s.properties.Keys == {"object_type", "name", "label", "type", "fieldType",
                                  "groupName", "options", "description"}
    ensures ObjectTypeRestricted(s) && OptionItemsNeedLabelAndValue(s) && RequiredDeclared(s)
  {
    ObjectSchema(
      map["object_type" := ObjectTypeSchema(),
          "name" := Described("string", "Internal name of the property"),
          "label" := Described("string", "Display label for the property"),
          "type" := Described("string", "Data type (string, number, date, enumeration, etc.)"),
          "fieldType" := Described("string", "Field type (text, textarea, select, number, date, etc.)"),
          "groupName" := Described("string", "Property group name"),
          "options" := OptionsSchema(),
          "description" := Described("string", "Property description")],
      ["object_type", "name", "label", "type", "fieldType", "groupName"])
  }

  // ------------------------------------------------------------- validation

  predicate Has(arguments: Option<Arguments>, key: string)
  {
    arguments.Some? && key in arguments.value
  }

  /** Whether there are arguments and they hold every key of `required`. */
  predicate HasAll(arguments: Option<Arguments>, required: seq<string>)
  {
    arguments.Some? && forall k :: k in required ==> k in arguments.value
  }

  /** Whether `a` is `b` with some elements left out, the rest in their order. */
  predicate Subsequence<T(==)>(a: seq<T>, b: seq<T>)
    decreases |b|
  {
    || a == []
    || (b != [] && ((a[0] == b[0] && Subsequence(a[1..], b[1..])) || Subsequence(a, b[1..])))
  }

  /** The keys of `required` that `arguments` lacks, in the order listed. */
  function MissingKeys(arguments: Option<Arguments>, required: seq<string>): (missing: seq<string>)
    ensures forall k :: k in missing <==> k in required && !Has(arguments, k)
    ensures Subsequence(missing, required)
    ensures |missing| <= |required|
    decreases |required|
  {
    if required == [] then []
    else
      var rest := MissingKeys(arguments, required[1..]);
      if Has(arguments, required[0]) then rest
      else
        assert ([required[0]] + rest)[1..] == rest;
        [required[0]] + rest
  }

  /**
   * `validate_required_arguments`: the arguments pass when every listed key is
   * present; otherwise the error names every listed key that is absent.
   */
  function ValidateRequired(arguments: Option<Arguments>, required: seq<string>)
    : (r: Result<Arguments, ValidationError>)
    ensures r.Success? <==> HasAll(arguments, required)
    ensures r.Success? ==> r.value == arguments.value
    ensures r.Failure? ==> r.error == MissingArguments(MissingKeys(arguments, required))
    ensures r.Failure? ==> arguments.None? || r.error.missing != []
  {
    if arguments.Some? && forall k :: k in required ==> k in arguments.value then
      Success(arguments.value)
    else
      var missing := MissingKeys(arguments, required);
      assert arguments.Some? ==> exists k :: k in required && k !in arguments.value && k in missing;
      Failure(MissingArguments(missing))
  }

  // ------------------------------------------------------------------ tools

  /** `get_property`: validate, then call the client with the two named arguments. */
  function GetProperty(arguments: Option<Arguments>): (r: Result<PropertyCall, ValidationError>)
    ensures r.Success? <==> HasAll(arguments, ["object_type", "property_name"])
    ensures r.Failure? ==>
      r.error == MissingArguments(MissingKeys(arguments, ["object_type", "property_name"]))
    ensures r.Success? ==>
      r.value == GetPropertyCall(arguments.value["object_type"], arguments.value["property_name"])
  {
    match ValidateRequired(arguments, ["object_type", "property_name"])
    case Failure(e) => Failure(e)
    case Success(args) => Success(GetPropertyCall(args["object_type"], args["property_name"]))
  }

  /** The argument keys `update_property` does not forward as keyword arguments. */
  const UpdateNamed: set<string> := {"object_type", "property_name", "options"}

  /**
   * The call the update tool makes for `arguments`: the three named arguments
   * as read and every argument not in `withheld` forwarded unchanged as a
   * keyword argument.
   */
  predicate UpdateRouted(arguments: Arguments, c: PropertyCall, withheld: set<string>)
  {
    && c.UpdatePropertyCall?
    && "object_type" in arguments && c.objectType == arguments["object_type"]
    && "property_name" in arguments && c.propertyName == arguments["property_name"]
    && "options" in arguments && c.options == arguments["options"]
    && c.kwargs == arguments - withheld
  }

  /**
   * The update tool's routing: validate, read three named arguments, forward
   * every argument whose key is not in `withheld`.
   */
  function RouteUpdateProperty(arguments: Option<Arguments>, withheld: set<string>)
    : (r: Result<PropertyCall, ValidationError>)
    ensures r.Success? <==> HasAll(arguments, ["object_type", "property_name", "options"])
    ensures r.Failure? ==>
      r.error == MissingArguments(
        MissingKeys(arguments, ["object_type", "property_name", "options"]))
    ensures r.Success? ==> arguments.Some? && UpdateRouted(arguments.value, r.value, withheld)
  {
    match ValidateRequired(arguments, ["object_type", "property_name", "options"])
    case Failure(e) => Failure(e)
    case Success(args) =>
      var kwargs := map k | k in args && k !in withheld :: args[k];
      assert kwargs == args - withheld;
      Success(UpdatePropertyCall(args["object_type"], args["property_name"], args["options"], kwargs))
  }

  /**
   * `update_property` as written: the forwarded keyword arguments hold none of
   * the three named keys and every other argument unchanged.
   */
  function UpdatePropertyAsWritten(arguments: Option<Arguments>)
    : (r: Result<PropertyCall, ValidationError>)
    ensures r.Success? ==> arguments.Some? && r.value.UpdatePropertyCall?
    ensures r.Success? ==> r.value.kwargs == arguments.value - UpdateNamed
  {
    RouteUpdateProperty(arguments, UpdateNamed)
  }

  /**
   * `update_property` as evidently intended: it also withholds `self`, so the
   * call it makes is one Python accepts.
   */
  function UpdateProperty(arguments: Option<Arguments>): (r: Result<PropertyCall, ValidationError>)
    ensures r.Success? ==> arguments.Some? && r.value.UpdatePropertyCall?
    ensures r.Success? ==> PropertyClient.UpdateCallBinds(r.value.kwargs)
    ensures r.Success? ==>
      r.value.kwargs == arguments.value - UpdateNamed - PropertyClient.UpdateParameters
  {
    RouteUpdateProperty(arguments, UpdateNamed + PropertyClient.UpdateParameters)
  }

  /** An argument named `self` reaches the client as a keyword argument, a call Python rejects. */
  lemma AsWrittenUpdateCallDoesNotBind(arguments: Arguments)
    requires "object_type" in arguments && "property_name" in arguments && "options" in arguments
    requires "self" in arguments
    ensures UpdatePropertyAsWritten(Some(arguments)).Success?
    ensures !PropertyClient.UpdateCallBinds(UpdatePropertyAsWritten(Some(arguments)).value.kwargs)
  {
    assert "self" in UpdatePropertyAsWritten(Some(arguments)).value.kwargs;
  }

  /** Without an argument named `self`, the update correction changes nothing. */
  lemma UpdateCorrectionAgreesOtherwise(arguments: Option<Arguments>)
    requires arguments.Some? ==> "self" !in arguments.value
    ensures UpdateProperty(arguments) == UpdatePropertyAsWritten(arguments)
  {
    var r, w := UpdateProperty(arguments), UpdatePropertyAsWritten(arguments);
    if r.Success? {
      assert r.value.kwargs == w.value.kwargs;
    }
  }

  /** The argument keys the source's `create_property` does not forward as keyword arguments. */
  const CreateNamed: set<string> :=
    {"object_type", "name", "label", "type", "fieldType", "groupName", "options"}

  /**
   * The call the create tool makes for `arguments`: the six named arguments as
   * read, `options` or None, and every argument not in `withheld` forwarded
   * unchanged as a keyword argument.
   */
  predicate CreateRouted(arguments: Arguments, c: PropertyCall, withheld: set<string>)
  {
    && c.CreatePropertyCall?
    && "object_type" in arguments && c.objectType == arguments["object_type"]
    && "name" in arguments && c.name == arguments["name"]
    && "label" in arguments && c.propertyLabel == arguments["label"]
    && "type" in arguments && c.propertyType == arguments["type"]
    && "fieldType" in arguments && c.fieldType == arguments["fieldType"]
    && "groupName" in arguments && c.groupName == arguments["groupName"]
    && c.options == Get(arguments, "options")
    && c.kwargs == arguments - withheld
  }

  /**
   * The create tool's routing: validate, read seven named arguments, forward
   * every argument whose key is not in `withheld`.
   */
  function RouteCreateProperty(arguments: Option<Arguments>, withheld: set<string>)
    : (r: Result<PropertyCall, ValidationError>)
    ensures r.Success? <==>
      HasAll(arguments, ["object_type", "name", "label", "type", "fieldType", "groupName"])
    ensures r.Failure? ==>
      r.error == MissingArguments(
        MissingKeys(arguments, ["object_type", "name", "label", "type", "fieldType", "groupName"]))
    ensures r.Success? ==> arguments.Some? && CreateRouted(arguments.value, r.value, withheld)
  {
    match ValidateRequired(arguments, ["object_type", "name", "label", "type", "fieldType", "groupName"])
    case Failure(e) => Failure(e)
    case Success(args) => Success(ReadCreateArguments(args, withheld))
  }

  /** Reading the validated create arguments: named ones as they are, the rest as kwargs. */
  function ReadCreateArguments(args: Arguments, withheld: set<string>): (c: PropertyCall)
    requires "object_type" in args && "name" in args && "label" in args
    requires "type" in args && "fieldType" in args && "groupName" in args
    ensures CreateRouted(args, c, withheld)
  {
    var kwargs := map k | k in args && k !in withheld :: args[k];
    assert kwargs == args - withheld;
    CreatePropertyCall(args["object_type"], args["name"], args["label"], args["type"],
                       args["fieldType"], args["groupName"], Get(args, "options"), kwargs)
  }

  /**
   * `create_property` as written: the forwarded keyword arguments hold none of
   * the seven named keys and every other argument unchanged.
   */
  function CreatePropertyAsWritten(arguments: Option<Arguments>)
    : (r: Result<PropertyCall, ValidationError>)
    ensures r.Success? ==> arguments.Some? && r.value.CreatePropertyCall?
    ensures r.Success? ==> r.value.kwargs == arguments.value - CreateNamed
  {
    RouteCreateProperty(arguments, CreateNamed)
  }

  /**
   * `create_property` as evidently intended: it also withholds the client's
   * parameter names `self`, `property_type`, `field_type` and `group_name`, so
   * the call it makes is one Python accepts.
   */
  function CreateProperty(arguments: Option<Arguments>): (r: Result<PropertyCall, ValidationError>)
    ensures r.Success? ==> arguments.Some? && r.value.CreatePropertyCall?
    ensures r.Success? ==> PropertyClient.CreateCallBinds(r.value.kwargs)
    ensures r.Success? ==>
      r.value.kwargs == arguments.value - CreateNamed - PropertyClient.CreateParameters
  {
    RouteCreateProperty(arguments, CreateNamed + PropertyClient.CreateParameters)
  }

  /**
   * The source's create tool forwards an argument named `self`, `property_type`,
   * `field_type` or `group_name` as a keyword argument of the client method
   * that has a parameter of that name, a call Python rejects.
   */
  lemma AsWrittenCreateCallDoesNotBind(arguments: Arguments)
    requires "object_type" in arguments && "name" in arguments && "label" in arguments
    requires "type" in arguments && "fieldType" in arguments && "groupName" in arguments
    requires || "self" in arguments || "property_type" in arguments
             || "field_type" in arguments || "group_name" in arguments
    ensures CreatePropertyAsWritten(Some(arguments)).Success?
    ensures !PropertyClient.CreateCallBinds(CreatePropertyAsWritten(Some(arguments)).value.kwargs)
  {
    var kwargs := CreatePropertyAsWritten(Some(arguments)).value.kwargs;
    if "self" in arguments {
      assert "self" in kwargs;
    } else if "property_type" in arguments {
      assert "property_type" in kwargs;
    } else if "field_type" in arguments {
      assert "field_type" in kwargs;
    } else {
      assert "group_name" in kwargs;
    }
  }

  /** Without those four keys among the arguments, the create correction changes nothing. */
  lemma CreateCorrectionAgreesOtherwise(arguments: Option<Arguments>)
    requires arguments.Some? ==>
      "self" !in arguments.value && "property_type" !in arguments.value
      && "field_type" !in arguments.value && "group_name" !in arguments.value
    ensures CreateProperty(arguments) == CreatePropertyAsWritten(arguments)
  {
    var r, w := CreateProperty(arguments), CreatePropertyAsWritten(arguments);
    if r.Success? {
      assert r.value.kwargs == w.value.kwargs;
    }
  }

  // ------------------------------------------- schemas against validation

  /**
   * Each tool validates exactly the list its schema declares as required: it
   * fails precisely when a key of that list is absent, naming those keys in the
   * schema's order.
   */
  lemma GetPropertyValidatesSchema(arguments: Option<Arguments>)
    ensures GetProperty(arguments).Success? <==> HasAll(arguments, GetPropertySchema().required)
    ensures GetProperty(arguments).Failure? ==>
      GetProperty(arguments)
      == Failure(MissingArguments(MissingKeys(arguments, GetPropertySchema().required)))
  {
  }

  lemma UpdatePropertyAsWrittenValidatesSchema(arguments: Option<Arguments>)
    ensures UpdatePropertyAsWritten(arguments).Success?
            <==> HasAll(arguments, UpdatePropertySchema().required)
    ensures UpdatePropertyAsWritten(arguments).Failure? ==>
      UpdatePropertyAsWritten(arguments)
      == Failure(MissingArguments(MissingKeys(arguments, UpdatePropertySchema().required)))
  {
  }

  lemma UpdatePropertyValidatesSchema(arguments: Option<Arguments>)
    ensures UpdateProperty(arguments).Success? <==> HasAll(arguments, UpdatePropertySchema().required)
    ensures UpdateProperty(arguments).Failure? ==>
      UpdateProperty(arguments)
      == Failure(MissingArguments(MissingKeys(arguments, UpdatePropertySchema().required)))
  {
  }

  lemma CreatePropertyValidatesSchema(arguments: Option<Arguments>)
    ensures CreateProperty(arguments).Success? <==> HasAll(arguments, CreatePropertySchema().required)
    ensures CreateProperty(arguments).Failure? ==>
      CreateProperty(arguments)
      == Failure(MissingArguments(MissingKeys(arguments, CreatePropertySchema().required)))
  {
  }

  /** The same agreement holds for the create tool as written. */
  lemma CreatePropertyAsWrittenValidatesSchema(arguments: Option<Arguments>)
    ensures CreatePropertyAsWritten(arguments).Success?
            <==> HasAll(arguments, CreatePropertySchema().required)
    ensures CreatePropertyAsWritten(arguments).Failure? ==>
      CreatePropertyAsWritten(arguments)
      == Failure(MissingArguments(MissingKeys(arguments, CreatePropertySchema().required)))
  {
  }

  // ------------------------------------------------- tool to SDK payload

  /**
   * Through the corrected update tool, the update payload is the arguments
   * without the two addressing keys and `self`, and without `options` when it
   * is null.
   */
  lemma UpdateToolPayload(arguments: Arguments)
    requires UpdateProperty(Some(arguments)).Success?
    ensures var c := UpdateProperty(Some(arguments)).value;
      PropertyClient.UpdatePayload(c.options, c.kwargs)
      == arguments - {"self", "object_type", "property_name"}
                   - (if arguments["options"] == Null then {"options"} else {})
  {
  }

  /** The payload the create tool's call leads to, once the client's filter is known inert. */
  function BoundCreatePayload(c: PropertyCall): map<string, Value>
    requires c.CreatePropertyCall?
  {
    map["name" := c.name, "label" := c.propertyLabel, "type" := c.propertyType,
        "fieldType" := c.fieldType, "groupName" := c.groupName]
      + PropertyClient.OptionsEntry(c.options) + c.kwargs
  }

  /** The arguments the create tool's payload is made of. */
  function CreateToolEntries(arguments: Arguments): map<string, Value>
  {
    arguments - {"self", "object_type", "property_type", "field_type", "group_name"}
              - (if Get(arguments, "options") == Null then {"options"} else {})
  }

  lemma CreateToolKeysCovered(arguments: Arguments, c: PropertyCall)
    requires CreateRouted(arguments, c, CreateNamed + PropertyClient.CreateParameters)
    ensures forall k :: k in CreateToolEntries(arguments) ==> k in BoundCreatePayload(c)
  {
  }

  /** The forwarded keyword arguments all reach the create payload. */
  lemma CreateToolKwargsKept(arguments: Arguments, kwargs: map<string, Value>)
    requires kwargs == arguments - (CreateNamed + PropertyClient.CreateParameters)
    ensures forall k :: k in kwargs ==> k in CreateToolEntries(arguments)
  {
  }

  /** The five fixed entries all come from the arguments. */
  lemma CreateToolFixedKept(arguments: Arguments)
    requires "name" in arguments && "label" in arguments && "type" in arguments
    requires "fieldType" in arguments && "groupName" in arguments
    ensures && "name" in CreateToolEntries(arguments) && "label" in CreateToolEntries(arguments)
            && "type" in CreateToolEntries(arguments) && "fieldType" in CreateToolEntries(arguments)
            && "groupName" in CreateToolEntries(arguments)
  {
  }

  lemma CreateToolKeysOnly(arguments: Arguments, c: PropertyCall)
    requires CreateRouted(arguments, c, CreateNamed + PropertyClient.CreateParameters)
    ensures forall k :: k in BoundCreatePayload(c) ==> k in CreateToolEntries(arguments)
  {
    CreateToolKwargsKept(arguments, c.kwargs);
    CreateToolFixedKept(arguments);
    forall k | k in BoundCreatePayload(c)
      ensures k in CreateToolEntries(arguments)
    {
      if k in c.kwargs {
      } else if k == "options" {
      } else {
        assert k in {"name", "label", "type", "fieldType", "groupName"};
      }
    }
  }

  lemma CreateToolValues(arguments: Arguments, c: PropertyCall)
    requires CreateRouted(arguments, c, CreateNamed + PropertyClient.CreateParameters)
    ensures forall k :: k in CreateToolEntries(arguments) ==>
      BoundCreatePayload(c)[k] == CreateToolEntries(arguments)[k]
  {
    CreateToolKeysCovered(arguments, c);
    forall k | k in CreateToolEntries(arguments)
      ensures BoundCreatePayload(c)[k] == arguments[k]
    {
      if k in c.kwargs {
      } else if k == "options" {
      } else {
        assert k in {"name", "label", "type", "fieldType", "groupName"};
      }
    }
  }

  /**
   * Through the corrected create tool, the create payload is the arguments
   * without `object_type`, `self` and the three client parameter names
   * `property_type`, `field_type` and `group_name`, and without `options`
   * when it is absent or null: the handler withholds `type`, `fieldType` and
   * `groupName`, so no keyword argument overrides a fixed entry.
   */
  lemma CreateToolPayload(arguments: Arguments)
    requires CreateProperty(Some(arguments)).Success?
    ensures var c := CreateProperty(Some(arguments)).value;
      PropertyClient.CreatePayload(c.name, c.propertyLabel, c.propertyType, c.fieldType,
                                   c.groupName, c.options, c.kwargs)
      == CreateToolEntries(arguments)
  {
    var c := CreateProperty(Some(arguments)).value;
    assert CreateRouted(arguments, c, CreateNamed + PropertyClient.CreateParameters);
    PropertyClient.CreateFilterInert(c.name, c.propertyLabel, c.propertyType, c.fieldType,
                                     c.groupName, c.options, c.kwargs);
    CreateToolKeysCovered(arguments, c);
    CreateToolKeysOnly(arguments, c);
    CreateToolValues(arguments, c);
    assert BoundCreatePayload(c) == CreateToolEntries(arguments);
  }
}
