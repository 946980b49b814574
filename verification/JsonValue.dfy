/** JSON values as both sides of the bridge read them. Text parsing and printing are not modelled. */
module JsonValue {
  import opened Wrappers

  datatype Value =
    | Null
    | Bool(b: bool)
    | Int(n: int)
    | Real(r: real)
    | Str(s: string)
    | Arr(items: seq<Value>)
    | Obj(fields: map<string, Value>)
  {
    /** The member `key` of an object; nothing for any other value. */
    function Get(key: string): Option<Value> {
      if Obj? && key in fields then Some(fields[key]) else None
    }

    function AsStr(): Option<string> {
      if Str? then Some(s) else None
    }

    /** The integer, when it fits a signed 64-bit word. */
    function AsI64(): Option<int> {
      if Int? && -0x8000_0000_0000_0000 <= n < 0x8000_0000_0000_0000 then Some(n) else None
    }
  }

  /** The string member `key`, if there is one. */
  function GetStr(v: Value, key: string): Option<string> {
    match v.Get(key)
    case Some(x) => x.AsStr()
    case None => None
  }

  /** The member `key`, or null. */
  function GetOrNull(v: Value, key: string): Value {
    v.Get(key).GetOr(Null)
  }
}
