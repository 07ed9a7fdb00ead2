/** The shared tool helpers: building a tool result, the JSON-schema records
    a tool declares its input with, reading a schema from JSON (serde's
    derived `Deserialize`) and writing it back as a `Document` for the tool
    configuration. */
module Tool {
  import opened Wrappers
  import J = Json
  import opened Messages
  import opened Text

  /** A result whose only content is one text block. */
  function CreateToolResultBlock(id: string, content: string, status: ToolResultStatus): (r: ToolResultBlock)
    ensures r.toolUseId == id && r.status == status
    ensures r.content == [ResultText(content)]
  {
    ToolResultBlock(id, [ResultText(content)], status)
  }

  datatype PropertyType = String | Object | Number | Array | Boolean | Null

  /** The variant name as `{:?}` prints it, which is also what `Display` prints. */
  function DebugName(t: PropertyType): string {
    match t
    case String => "String"
    case Object => "Object"
    case Number => "Number"
    case Array => "Array"
    case Boolean => "Boolean"
    case Null => "Null"
  }

  /** The name serde reads and writes under `rename_all = "camelCase"`. */
  function SerdeName(t: PropertyType): string {
    match t
    case String => "string"
    case Object => "object"
    case Number => "number"
    case Array => "array"
    case Boolean => "boolean"
    case Null => "null"
  }

  /** The wire name written by `Property::to_document` is the name serde
      reads back. */
  lemma WireNameIsSerdeName(t: PropertyType)
    ensures ToLowerAscii(DebugName(t)) == SerdeName(t)
  {
    var d := DebugName(t);
    assert LowerChar(d[0]) == SerdeName(t)[0];
  }

  datatype Property = Property(propertyType: PropertyType, description: string)

  datatype ToolJsonSchema = ToolJsonSchema(schemaType: string, properties: map<string, Property>, required: seq<string>)

  /** `Property::to_document`: an object with exactly the keys "type" and
      "description". */
  function PropertyToDocument(p: Property): (d: J.Document)
    ensures d.Object? && d.fields.Keys == {"type", "description"}
    ensures d.fields["type"] == J.String(SerdeName(p.propertyType))
    ensures d.fields["description"] == J.String(p.description)
  {
    WireNameIsSerdeName(p.propertyType);
    J.Object(map[
      "type" := J.String(ToLowerAscii(DebugName(p.propertyType))),
      "description" := J.String(p.description)])
  }

  function RequiredToDocuments(required: seq<string>): (r: seq<J.Document>)
    ensures |r| == |required|
    ensures forall i :: 0 <= i < |required| ==> r[i] == J.String(required[i])
  {
    seq(|required|, i requires 0 <= i < |required| => J.String(required[i]))
  }

  /** `ToolJsonSchema::to_document`: an object with exactly the keys "type",
      "properties" and "required"; one entry per declared property under the
      same key, and the required names in their order. */
  function SchemaToDocument(s: ToolJsonSchema): (d: J.Document)
    ensures d.Object? && d.fields.Keys == {"type", "properties", "required"}
    ensures d.fields["type"] == J.String(s.schemaType)
    ensures d.fields["properties"].Object? && d.fields["properties"].fields.Keys == s.properties.Keys
    ensures forall k :: k in s.properties ==> d.fields["properties"].fields[k] == PropertyToDocument(s.properties[k])
    ensures d.fields["required"].Array? && |d.fields["required"].items| == |s.required|
    ensures forall i :: 0 <= i < |s.required| ==> d.fields["required"].items[i] == J.String(s.required[i])
  {
    var properties := map k | k in s.properties :: PropertyToDocument(s.properties[k]);
    J.Object(map[
      "type" := J.String(s.schemaType),
      "properties" := J.Object(properties),
      "required" := J.Array(RequiredToDocuments(s.required))])
  }

  // Reading a schema back: serde's derived `Deserialize` on a JSON object.
  // Unknown keys are ignored, a missing or ill-typed field is an error.

  function StringField(fields: map<string, J.Document>, key: string): (r: Result<string, string>)
    ensures r.Ok? <==> key in fields && fields[key].String?
    ensures r.Ok? ==> r.value == fields[key].s
  {
    if key !in fields then Err("missing field `" + key + "`")
    else if fields[key].String? then Ok(fields[key].s)
    else Err("invalid type for `" + key + "`, expected a string")
  }

  /** Whether `d` names the unit variant `name`: serde accepts the bare
      string `"name"` and the one-entry object `{"name": null}`. */
  predicate NamesVariant(d: J.Document, name: string) {
    d == J.String(name) || d == J.Object(map[name := J.Null])
  }

  /** A value names at most one variant. */
  lemma NamesOneVariant(d: J.Document, a: string, b: string)
    requires NamesVariant(d, a) && NamesVariant(d, b)
    ensures a == b
  {
    if d.Object? {
      assert a in d.fields.Keys;
      assert d.fields.Keys == {b};
    }
  }

  function PropertyTypeFromDocument(d: J.Document): (r: Result<PropertyType, string>)
    ensures forall t: PropertyType :: NamesVariant(d, SerdeName(t)) ==> r == Ok(t)
    ensures r.Ok? ==> NamesVariant(d, SerdeName(r.value))
  {
    forall t: PropertyType, name: string | NamesVariant(d, SerdeName(t)) && NamesVariant(d, name)
      ensures SerdeName(t) == name
    {
      NamesOneVariant(d, SerdeName(t), name);
    }
    if NamesVariant(d, "string") then Ok(String)
    else if NamesVariant(d, "object") then Ok(Object)
    else if NamesVariant(d, "number") then Ok(Number)
    else if NamesVariant(d, "array") then Ok(Array)
    else if NamesVariant(d, "boolean") then Ok(Boolean)
    else if NamesVariant(d, "null") then Ok(Null)
    else Err("unknown variant, expected one of `string`, `object`, `number`, `array`, `boolean`, `null`")
  }

  function PropertyFromDocument(d: J.Document): (r: Result<Property, string>)
    ensures r.Ok? <==> d.Object? && "type" in d.fields && PropertyTypeFromDocument(d.fields["type"]).Ok?
                       && "description" in d.fields && d.fields["description"].String?
    ensures r.Ok? ==> PropertyTypeFromDocument(d.fields["type"]) == Ok(r.value.propertyType)
                      && r.value.description == d.fields["description"].s
  {
    if !d.Object? then Err("invalid type: expected struct Property")
    else if "type" !in d.fields then Err("missing field `type`")
    else
      var t :- PropertyTypeFromDocument(d.fields["type"]);
      var description :- StringField(d.fields, "description");
      Ok(Property(t, description))
  }

  /** A `HashMap<String, Property>`: every entry must be a property. */
  function PropertiesFromDocument(d: J.Document): (r: Result<map<string, Property>, string>)
    ensures r.Ok? <==> d.Object? && forall k :: k in d.fields ==> PropertyFromDocument(d.fields[k]).Ok?
    ensures r.Ok? ==> r.value.Keys == d.fields.Keys
    ensures r.Ok? ==> forall k :: k in d.fields ==> PropertyFromDocument(d.fields[k]) == Ok(r.value[k])
  {
    if !d.Object? then Err("invalid type: expected a map")
    else if forall k :: k in d.fields ==> PropertyFromDocument(d.fields[k]).Ok? then
      Ok(map k | k in d.fields :: PropertyFromDocument(d.fields[k]).value)
    else Err("invalid property")
  }

  /** A `Vec<String>`: every item must be a string. */
  function RequiredFromDocument(d: J.Document): (r: Result<seq<string>, string>)
    ensures r.Ok? <==> d.Array? && forall i :: 0 <= i < |d.items| ==> d.items[i].String?
    ensures r.Ok? ==> |r.value| == |d.items| && forall i :: 0 <= i < |d.items| ==> d.items[i] == J.String(r.value[i])
  {
    if !d.Array? then Err("invalid type: expected a sequence")
    else if forall i :: 0 <= i < |d.items| ==> d.items[i].String? then
      Ok(seq(|d.items|, i requires 0 <= i < |d.items| => d.items[i].s))
    else Err("invalid type: expected a string")
  }

  /** `ToolJsonSchema::new`: succeeds exactly when "type" is a string,
      "properties" maps names to well-formed properties and "required" is a
      list of strings. It checks neither that "type" is "object" nor that the
      required names are declared properties. */
  function NewSchema(d: J.Document): (r: Result<ToolJsonSchema, string>)
    ensures r.Ok? <==>
      && d.Object?
      && "type" in d.fields && d.fields["type"].String?
      && "properties" in d.fields && PropertiesFromDocument(d.fields["properties"]).Ok?
      && "required" in d.fields && RequiredFromDocument(d.fields["required"]).Ok?
    ensures r.Ok? ==>
      && r.value.schemaType == d.fields["type"].s
      && PropertiesFromDocument(d.fields["properties"]) == Ok(r.value.properties)
      && RequiredFromDocument(d.fields["required"]) == Ok(r.value.required)
  {
    if !d.Object? then Err("invalid type: expected struct ToolJsonSchema")
    else
      var schemaType :- StringField(d.fields, "type");
      if "properties" !in d.fields then Err("missing field `properties`")
      else
        var properties :- PropertiesFromDocument(d.fields["properties"]);
        if "required" !in d.fields then Err("missing field `required`")
        else
          var required :- RequiredFromDocument(d.fields["required"]);
          Ok(ToolJsonSchema(schemaType, properties, required))
  }

  lemma PropertyRoundTrip(p: Property)
    ensures PropertyFromDocument(PropertyToDocument(p)) == Ok(p)
  {
    var d := PropertyToDocument(p);
    assert NamesVariant(d.fields["type"], SerdeName(p.propertyType));
  }

  /** Writing a schema as a document and reading it back gives the same
      schema: same type, same properties under the same keys, same required
      list in the same order, whatever the required names are. */
  lemma {:induction false} SchemaRoundTrip(s: ToolJsonSchema)
    ensures NewSchema(SchemaToDocument(s)) == Ok(s)
  {
    var d := SchemaToDocument(s);
    var props := d.fields["properties"];
    forall k | k in props.fields
      ensures PropertyFromDocument(props.fields[k]) == Ok(s.properties[k])
    {
      PropertyRoundTrip(s.properties[k]);
    }
    var parsed := PropertiesFromDocument(props);
    assert parsed.Ok?;
    assert parsed.value == s.properties;
    var req := RequiredFromDocument(d.fields["required"]);
    assert req.Ok?;
    assert req.value == s.required;
  }
}
