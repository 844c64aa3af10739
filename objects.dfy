/**
 * The PHP objects that flow through a run: instances of MockMiddlewareData and of stdClass,
 * their class names, and the is-a relation the executor checks with.
 */
module Objects {
  import opened MockData

  /** A fully qualified PHP class name, as `get_class` returns it. */
  type ClassName = string

  const MockMiddlewareDataClass: ClassName := "Garden\\Middleware\\Tests\\Fixtures\\MockMiddlewareData"
  const StdClassName: ClassName := "stdClass"

  /**
   * `is_a($sub, $sup, true)`. Every class in the model is final or never extended,
   * so a class is-a another exactly when the two are the same class.
   */
  predicate IsA(sub: ClassName, sup: ClassName)
  {
    sub == sup
  }

  /** PHP's `\stdClass`: an object without state. */
  class StdClass {
    constructor ()
    {
    }
  }

  /** An object reference of one of the model's classes. */
  datatype Value = Data(d: MockMiddlewareData) | Std(s: StdClass)

  /** `get_class($v)`. */
  function ClassOf(v: Value): ClassName
  {
    match v
    case Data(_) => MockMiddlewareDataClass
    case Std(_) => StdClassName
  }

  /** What an object holds, without its identity: the items of a data object. */
  datatype ObjState = DataState(items: seq<string>) | StdState

  function StateClass(s: ObjState): ClassName
  {
    match s
    case DataState(_) => MockMiddlewareDataClass
    case StdState => StdClassName
  }

  /** The state of the object `v` refers to; it has the same class as `v`. */
  function Observe(v: Value): (s: ObjState)
    reads if v.Data? then {v.d} else {}
    ensures StateClass(s) == ClassOf(v)
    ensures v.Data? ==> s == DataState(v.d.items)
  {
    match v
    case Data(d) => DataState(d.items)
    case Std(_) => StdState
  }
}
