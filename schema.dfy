/**
 * Schema assembly: the schemas of the image property kinds, the base
 * property table, and the `API` object whose per-schema property tables
 * take custom properties on top of the base ones.
 */
module Schema {
  import opened Values

  // ----- property kinds ---------------------------------------------------------

  /** Python's `int(v)` on the values a property's `max_length` can be. */
  function PythonInt(v: Value): (r: Result<int, Error>)
    ensures v.JInt? ==> r == Ok(v.i)
    ensures v.JStr? ==> (r.Ok? <==> AllDigits(v.s))
    ensures v.JNull? || v.JList? || v.JObj? ==> r.Err? && r.error.TypeError?
  {
    match v
    case JInt(i) => Ok(i)
    case JBool(b) => Ok(if b then 1 else 0)
    case JStr(s) =>
      if AllDigits(s) then Ok(ParseDecimal(s)) else Err(ValueError("invalid literal for int() with base 10: " + StrRepr(s)))
    case JNull => Err(TypeError("int() argument must be a string or a number, not 'NoneType'"))
    case JList(_) => Err(TypeError("int() argument must be a string or a number, not 'list'"))
    case JObj(_) => Err(TypeError("int() argument must be a string or a number, not 'dict'"))
  }

  /** A non-empty run of decimal digits. */
  predicate AllDigits(s: string)
  {
    s != "" && forall i :: 0 <= i < |s| ==> '0' <= s[i] <= '9'
  }

  /** An image property declaration of one of the three kinds. */
  datatype ImageProperty =
    | PropertyString(name: Value, description: Value, maxLength: Option<int>, required: Value, default: Value)
    | PropertyEnum(name: Value, description: Value, options: Value, required: Value, default: Value)
    | PropertyBool(name: Value, description: Value, required: Value, default: Value)

  /** `ImagePropertyString(name, desc, max_length, required, default)`: a given `max_length` goes through `int()`. */
  function NewPropertyString(name: Value, desc: Value, maxLength: Value, required: Value, default: Value)
    : (r: Result<ImageProperty, Error>)
    ensures maxLength == JNull ==> r == Ok(PropertyString(name, desc, None, required, default))
    ensures maxLength != JNull ==>
      (r.Ok? <==> PythonInt(maxLength).Ok?)
      && (r.Ok? ==> r.value == PropertyString(name, desc, Some(PythonInt(maxLength).value), required, default))
  {
    if maxLength == JNull then Ok(PropertyString(name, desc, None, required, default))
    else
      match PythonInt(maxLength)
      case Err(e) => Err(e)
      case Ok(n) => Ok(PropertyString(name, desc, Some(n), required, default))
  }

  /** `schema[key] = value` when `present`. */
  function AddIf(m: map<string, Value>, present: bool, key: string, value: Value): (r: map<string, Value>)
    ensures present ==> r == m[key := value]
    ensures !present ==> r == m
  {
    if present then m[key := value] else m
  }

  /**
   * `schema()` of a property: its type and description, an enum's options,
   * a string's `maxLength` only when one is given, `optional` only when the
   * property is not required, and `default` only when it is not None.
   */
  function PropertySchema(p: ImageProperty): (s: map<string, Value>)
    ensures "type" in s && "description" in s && s["description"] == p.description
    ensures p.PropertyString? ==> s["type"] == JStr("string")
    ensures p.PropertyEnum? ==> s["type"] == JStr("enum") && "enum" in s && s["enum"] == p.options
    ensures p.PropertyBool? ==> s["type"] == JStr("boolean")
    ensures "maxLength" in s <==> p.PropertyString? && p.maxLength.Some?
    ensures "maxLength" in s ==> s["maxLength"] == JInt(p.maxLength.value)
    ensures "optional" in s <==> !Truthy(p.required)
    ensures "optional" in s ==> s["optional"] == JBool(true)
    ensures "default" in s <==> p.default != JNull
    ensures "default" in s ==> s["default"] == p.default
    ensures "enum" in s <==> p.PropertyEnum?
    ensures s.Keys <= {"type", "description", "enum", "maxLength", "optional", "default"}
  {
    var kind := match p
      case PropertyString(_, _, maxLength, _, _) =>
        AddIf(map["type" := JStr("string"), "description" := p.description], maxLength.Some?, "maxLength",
              if maxLength.Some? then JInt(maxLength.value) else JNull)
      case PropertyEnum(_, _, options, _, _) =>
        map["type" := JStr("enum"), "description" := p.description, "enum" := options]
      case PropertyBool(_, _, _, _) =>
        map["type" := JStr("boolean"), "description" := p.description];
    AddIf(AddIf(kind, !Truthy(p.required), "optional", JBool(true)), p.default != JNull, "default", p.default)
  }

  // ----- the API --------------------------------------------------------------

  type Table = map<string, map<string, Value>>

  /** `_BASE_SCHEMA_PROPERTIES`: the base properties of the `image` and `access` schemas. */
  const BaseSchemaProperties: Table := map[
    "image" := map[
      "id" := JObj(map["type" := JStr("string"), "description" := JStr("An identifier for the image"),
                       "maxLength" := JInt(36)]),
      "name" := JObj(map["type" := JStr("string"), "description" := JStr("Descriptive name for the image"),
                         "maxLength" := JInt(255)]),
      "visibility" := JObj(map["type" := JStr("string"), "description" := JStr("Scope of image accessibility"),
                               "enum" := JList([JStr("public"), JStr("private")])])],
    "access" := map[
      "tenant_id" := JObj(map["type" := JStr("string"), "description" := JStr("The tenant identifier")]),
      "can_share" := JObj(map["type" := JStr("boolean"), "description" := JStr("Ability of tenant to share with others"),
                              "default" := JBool(false)])]]

  /** `additionalProperties`: a string schema for `image` when the option allows it, else False. */
  function AdditionalProperties(name: string, allowAdditional: bool): (r: Value)
    ensures r == JObj(map["type" := JStr("string")]) <==> name == "image" && allowAdditional
    ensures r == JBool(false) <==> !(name == "image" && allowAdditional)
  {
    if name == "image" && allowAdditional then JObj(map["type" := JStr("string")]) else JBool(false)
  }

  /** The base keys a custom table redefines differently. */
  function Conflicts(base: map<string, Value>, custom: map<string, Value>): (k: set<string>)
    ensures forall key :: key in k <==> key in base && key in custom && base[key] != custom[key]
  {
    set key | key in base && key in custom && base[key] != custom[key]
  }

  /**
   * The property table `set_custom_schema_properties(name, custom)`
   * leaves for `name`: a copy of the base table updated with the custom
   * one.  A schema name without base properties is a KeyError, a custom
   * value that is not a dictionary has no `keys`, and a differing
   * redefinition of a base key is a SchemaLoadError naming the keys.
   */
  function CustomTable(base: Table, name: string, custom: Value): (r: Result<map<string, Value>, Error>)
    ensures name !in base ==> r == Err(KeyError(name))
    ensures name in base && !custom.JObj? ==> r == Err(AttributeError(TypeName(custom), "keys"))
    ensures name in base && custom.JObj? ==>
      (r.Err? <==> Conflicts(base[name], custom.fields) != {})
      && (r.Err? ==> r.error == SchemaLoadError(Conflicts(base[name], custom.fields)))
  {
    if name !in base then Err(KeyError(name))
    else if !custom.JObj? then Err(AttributeError(TypeName(custom), "keys"))
    else
      var conflicts := Conflicts(base[name], custom.fields);
      if conflicts != {} then Err(SchemaLoadError(conflicts)) else Ok(base[name] + custom.fields)
  }

  /**
   * A base property keeps its definition and a custom property gets its
   * own: the merged table holds exactly the keys of both, and they agree
   * wherever both define a key.
   */
  lemma CustomTableMerges(base: Table, name: string, custom: Value)
    requires CustomTable(base, name, custom).Ok?
    ensures var t := CustomTable(base, name, custom).value;
      && name in base && custom.JObj?
      && t.Keys == base[name].Keys + custom.fields.Keys
      && (forall k :: k in base[name] ==> t[k] == base[name][k])
      && (forall k :: k in custom.fields ==> t[k] == custom.fields[k])
  {
    var t := CustomTable(base, name, custom).value;
    forall k | k in base[name]
      ensures t[k] == base[name][k]
    {
      if k in custom.fields {
        assert k !in Conflicts(base[name], custom.fields);
      }
    }
  }

  /** Redefining base properties with identical definitions is allowed. */
  lemma IdenticalRedefinitionAllowed(base: Table, name: string, custom: map<string, Value>)
    requires name in base
    requires forall k :: k in custom && k in base[name] ==> custom[k] == base[name][k]
    ensures CustomTable(base, name, JObj(custom)).Ok?
  {
    assert Conflicts(base[name], custom) == {};
  }

  /** `API(conf, base_properties)` */
  class API {
    /** `conf.allow_additional_image_properties` */
    const allowAdditional: bool
    const baseProperties: Table
    var schemaProperties: Table

    constructor (allowAdditional: bool, baseProperties: Table)
      ensures this.allowAdditional == allowAdditional && this.baseProperties == baseProperties
      ensures schemaProperties == baseProperties
    {
      this.allowAdditional, this.baseProperties := allowAdditional, baseProperties;
      schemaProperties := baseProperties;
    }

    /**
     * `get_schema(name)`: the name, the schema's current properties and its
     * `additionalProperties`; a name without properties is a KeyError.
     */
    function GetSchema(name: string): (r: Result<Value, Error>)
      reads this
      ensures name !in schemaProperties ==> r == Err(KeyError(name))
      ensures name in schemaProperties ==>
        && r.Ok? && r.value.JObj?
        && r.value.fields.Keys == {"name", "properties", "additionalProperties"}
        && r.value.fields["name"] == JStr(name)
        && r.value.fields["properties"] == JObj(schemaProperties[name])
        && r.value.fields["additionalProperties"] == AdditionalProperties(name, allowAdditional)
    {
      if name !in schemaProperties then Err(KeyError(name))
      else Ok(JObj(map["name" := JStr(name), "properties" := JObj(schemaProperties[name]),
                       "additionalProperties" := AdditionalProperties(name, allowAdditional)]))
    }

    /**
     * `set_custom_schema_properties(name, custom)`: on success the table of
     * `name` becomes the base table merged with `custom`, replacing earlier
     * custom properties; other schemas and the base properties stay as they
     * were, and on an error nothing changes.
     */
    method SetCustomSchemaProperties(name: string, custom: Value) returns (o: Outcome<Error>)
      modifies this`schemaProperties
      ensures CustomTable(baseProperties, name, custom).Err? ==>
        o == Fail(CustomTable(baseProperties, name, custom).error) && schemaProperties == old(schemaProperties)
      ensures CustomTable(baseProperties, name, custom).Ok? ==>
        o == Pass && schemaProperties == old(schemaProperties)[name := CustomTable(baseProperties, name, custom).value]
    {
      if name !in baseProperties {
        return Fail(KeyError(name));
      }
      var properties := baseProperties[name];
      if !custom.JObj? {
        return Fail(AttributeError(TypeName(custom), "keys"));
      }
      var conflicting := set k | k in properties && k in custom.fields && properties[k] != custom.fields[k];
      if conflicting != {} {
        return Fail(SchemaLoadError(conflicting));
      }
      properties := properties + custom.fields;
      schemaProperties := schemaProperties[name := properties];
      return Pass;
    }
  }

  /** With no custom properties the table of a base schema is its base table. */
  lemma NoCustomProperties(base: Table, name: string)
    requires name in base
    ensures CustomTable(base, name, JObj(map[])) == Ok(base[name])
  {
    assert base[name] + map[] == base[name];
  }
}
