/**
 * What the executor observes of a middleware's PHP Generator at its two hand-over points.
 * PHP generators become two explicit steps: `Start` (call `process` and run to the first
 * suspension, which `valid()` and `current()` observe) and `Resume` (send the result and
 * run on, which `valid()` and `getReturn()` observe).
 */
module Generator {
  import opened Wrappers
  import opened Objects

  /** After starting: it finished without suspending, or it suspended with a value or null. */
  datatype Start<V> = NoYield | Yielded(value: Option<V>)

  /** After resuming: it suspended again, or it finished returning a value or null. */
  datatype Resume<V> = YieldedAgain | Returned(value: Option<V>)

  function MapStart<V, W>(s: Start<V>, f: V -> W): Start<W>
  {
    match s
    case NoYield => NoYield
    case Yielded(None) => Yielded(None)
    case Yielded(Some(v)) => Yielded(Some(f(v)))
  }

  function MapResume<V, W>(r: Resume<V>, f: V -> W): Resume<W>
  {
    match r
    case YieldedAgain => YieldedAgain
    case Returned(None) => Returned(None)
    case Returned(Some(v)) => Returned(Some(f(v)))
  }

  /** The objects a resume outcome refers to. */
  function Refs(r: Resume<Value>): set<object>
  {
    if r.Returned? && r.value.Some? && r.value.value.Data? then {r.value.value.d} else {}
  }

  /** A resume outcome with each returned object replaced by its state; classes are kept. */
  function ObserveResume(r: Resume<Value>): (o: Resume<ObjState>)
    reads Refs(r)
    ensures MapResume(o, StateClass) == MapResume(r, ClassOf)
  {
    match r
    case YieldedAgain => YieldedAgain
    case Returned(None) => Returned(None)
    case Returned(Some(v)) => Returned(Some(Observe(v)))
  }
}
