/**
  The few Python values a command-file `data` dict can hold, with the two
  views of them the loader relies on: truthiness (`if value:`) and the exact
  runtime type (`type(value)`).
 */
module PyValues {

  /** The result of `type(value)`; `ObjectType` stands for every other class. */
  datatype PyType =
    | StrType
    | ListType
    | FunctionType
    | IntType
    | BoolType
    | NoneType
    | ObjectType(className: string)

  /**
    A Python value. `PFunc` is a plain `def`/`async def` function, identified
    by its qualified name. `PObject` is an instance of any other class (a
    callable object, a `list` subclass, ...); whether it is truthy depends on
    its class, so it is recorded with the value.
   */
  datatype PyVal =
    | PStr(s: string)
    | PList(items: seq<PyVal>)
    | PFunc(qualname: string)
    | PInt(i: int)
    | PBool(b: bool)
    | PNone
    | PObject(className: string, truthy: bool)

  /** `type(v)`: the exact class, so a subclass of `list` is not `ListType`. */
  function TypeOf(v: PyVal): PyType {
    match v
    case PStr(_) => StrType
    case PList(_) => ListType
    case PFunc(_) => FunctionType
    case PInt(_) => IntType
    case PBool(_) => BoolType
    case PNone => NoneType
    case PObject(c, _) => ObjectType(c)
  }

  /** `bool(v)`: empty strings and lists, zero, `False` and `None` are falsy. */
  predicate Truthy(v: PyVal) {
    match v
    case PStr(s) => |s| > 0
    case PList(xs) => |xs| > 0
    case PFunc(_) => true
    case PInt(i) => i != 0
    case PBool(b) => b
    case PNone => false
    case PObject(_, t) => t
  }
}
