/** Python values as they arrive from a YAML or JSON loader, tagged by their
    runtime type, with the `type(...)` and `isinstance(...)` views the source uses. */
module PyValues {

  datatype PyValue =
    | VNone
    | VBool(b: bool)
    | VInt(i: int)
    | VFloat(f: real)
    | VStr(s: string)
    | VList(items: seq<PyValue>)
    | VDict(entries: map<string, PyValue>)

  /** The built-in classes of the values above. */
  datatype PyType = NoneType | Bool | Int | Float | Str | List | Dict

  /** `type(v)`: the exact class of a value. */
  function TypeOf(v: PyValue): PyType {
    match v
    case VNone => NoneType
    case VBool(_) => Bool
    case VInt(_) => Int
    case VFloat(_) => Float
    case VStr(_) => Str
    case VList(_) => List
    case VDict(_) => Dict
  }

  /** `t.__name__` */
  function TypeName(t: PyType): string {
    match t
    case NoneType => "NoneType"
    case Bool => "bool"
    case Int => "int"
    case Float => "float"
    case Str => "str"
    case List => "list"
    case Dict => "dict"
  }

  /** Subclass relation among these classes: in Python `bool` is a subclass of `int`. */
  predicate IsSubclass(sub: PyType, sup: PyType) {
    sub == sup || (sub == Bool && sup == Int)
  }

  /** `isinstance(v, t)` */
  predicate IsInstance(v: PyValue, t: PyType) {
    IsSubclass(TypeOf(v), t)
  }

  /** The integer an `int` instance stands for; `True` and `False` are 1 and 0. */
  function IntValue(v: PyValue): int
    requires IsInstance(v, Int)
  {
    if v.VBool? then (if v.b then 1 else 0) else v.i
  }
}
