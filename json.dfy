/** The JSON tree that crosses every tool boundary: `aws_smithy_types::Document`
    and `serde_json::Value` have the same six cases and are one type here.
    Numbers are integers (floating-point numbers are not modelled). */
module Json {
  import opened Wrappers

  datatype Document =
    | Null
    | Bool(b: bool)
    | Number(n: int)
    | String(s: string)
    | Array(items: seq<Document>)
    | Object(fields: map<string, Document>)

  /** `Document::as_object` */
  function AsObject(d: Document): Option<map<string, Document>> {
    if d.Object? then Some(d.fields) else None
  }

  /** `Document::as_string` */
  function AsString(d: Document): Option<string> {
    if d.String? then Some(d.s) else None
  }

  /** `Document::as_number` */
  function AsNumber(d: Document): Option<int> {
    if d.Number? then Some(d.n) else None
  }

  /** `HashMap::get` */
  function Get(fields: map<string, Document>, key: string): Option<Document> {
    if key in fields then Some(fields[key]) else None
  }

  /** `map.get(key).unwrap_or(&Document::Null)` */
  function GetOrNull(fields: map<string, Document>, key: string): Document {
    if key in fields then fields[key] else Null
  }
}
