/** JSON values as the backend reads and edits them (serde_json::Value). */
module JsonValues {
  import opened Wrappers

  /** Numbers are kept as their text: no modelled code computes with them. */
  datatype Value =
    | Null
    | Bool(flag: bool)
    | Number(text: string)
    | String(str: string)
    | Array(items: seq<Value>)
    | Object(fields: map<string, Value>)
  {
    function Get(key: string): Option<Value> {
      if Object? && key in fields then Some(fields[key]) else None
    }

    function GetString(key: string): Option<string> {
      match Get(key)
      case Some(String(s)) => Some(s)
      case _ => None
    }

    function GetBool(key: string): Option<bool> {
      match Get(key)
      case Some(Bool(b)) => Some(b)
      case _ => None
    }

    function GetArray(key: string): Option<seq<Value>> {
      match Get(key)
      case Some(Array(items)) => Some(items)
      case _ => None
    }

    function GetObject(key: string): Option<map<string, Value>> {
      match Get(key)
      case Some(Object(m)) => Some(m)
      case _ => None
    }
  }
}
