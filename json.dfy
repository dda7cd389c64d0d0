/**
  Values as the tile receives them from the query API and the host: JSON
  values, with objects as string-keyed maps. Owning a property
  (`Object.prototype.hasOwnProperty`) is membership in the map.
 */
module Json {

  datatype Value =
    | Null
    | Bool(b: bool)
    | Num(n: int)
    | Str(s: string)
    | Arr(items: seq<Value>)
    | Obj(fields: map<string, Value>)

  /** A plain JavaScript object, such as a query definition or a filter map. */
  type Object = map<string, Value>

  /** JavaScript truthiness: `null`, `false`, `0` and `""` are falsy; objects and arrays are not. */
  predicate Truthy(v: Value)
  {
    match v
    case Null => false
    case Bool(b) => b
    case Num(n) => n != 0
    case Str(s) => s != ""
    case Arr(_) => true
    case Obj(_) => true
  }

  /**
    The own properties an object spread (`{ ...v }`) copies out of `v`: all of
    them for an object, none for `null`, a boolean or a number.
   */
  function Spread(v: Value): (m: Object)
    ensures v.Obj? ==> m == v.fields
    ensures v.Null? || v.Bool? || v.Num? ==> m == map[]
  {
    if v.Obj? then v.fields else map[]
  }
}
