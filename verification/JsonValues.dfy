/** JSON documents as trees; text syntax and key order are not modelled. */
module JsonValues {
  import opened Wrappers

  datatype Json =
    | Null
    | Bool(flag: bool)
    | Number(amount: real)
    | String(text: string)
    | Array(items: seq<Json>)
    | Object(fields: map<string, Json>)
  {
    function Get(key: string): Option<Json> {
      if Object? && key in fields then Some(fields[key]) else None
    }

    /** The string stored under `key`, if there is one. */
    function GetString(key: string): Option<string> {
      if Get(key).Some? && Get(key).value.String? then Some(Get(key).value.text) else None
    }
  }

  /** A file that should hold a JSON object. */
  datatype File = Missing | Unparsable | Parsed(document: Json)

  /** The fields of the object in a file; a missing file counts as an empty object. */
  function DocumentOf(file: File): Option<map<string, Json>> {
    match file
    case Missing => Some(map[])
    case Unparsable => None
    case Parsed(document) => if document.Object? then Some(document.fields) else None
  }
}
