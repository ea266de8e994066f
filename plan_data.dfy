/**
 * The data a Terraform plan supplies for one resource change: the attribute values of the
 * `after` object, which are arbitrary JSON, and the change record itself.
 */
module PlanData {

  /** A JSON value as found in a plan's `after` object (numbers restricted to integers). */
  datatype Value =
    | Null
    | Bool(b: bool)
    | Num(n: int)
    | Str(s: string)
    | Arr(items: seq<Value>)
    | Obj(fields: map<string, Value>)

  /** Python truthiness of a JSON value: null, false, 0, "", [] and {} are false. */
  predicate Truthy(v: Value) {
    match v
    case Null => false
    case Bool(b) => b
    case Num(n) => n != 0
    case Str(s) => s != ""
    case Arr(items) => items != []
    case Obj(fields) => fields != map[]
  }

  /** `d.get(key, default)`: the stored value whenever the key is present, whatever it is. */
  function Get(m: map<string, Value>, key: string, default: Value): Value {
    if key in m then m[key] else default
  }

  /**
   * One entry of the plan's `resource_changes`: its `type`, its `address`, and from its
   * `change` object the `actions` list and the `after` attribute map.
   */
  datatype Change = Change(kind: string, address: string, actions: seq<string>, after: map<string, Value>)
}
