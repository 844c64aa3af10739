/**
 * The middlewares a run can hold, and PHP's dynamic dispatch of `process` and of the
 * generator's `send` to the middleware's own class.
 */
module Middlewares {
  import opened Wrappers
  import opened MockData
  import opened Objects
  import opened Generator
  import opened MockMiddlewareFixture
  import opened BadMiddlewareFixture

  datatype Middleware = Mock(mock: MockMiddleware) | Bad(bad: BadMiddleware)

  /** `get_class($middleware)`. */
  function Name(m: Middleware): ClassName
  {
    match m
    case Mock(_) => MockMiddlewareClass
    case Bad(_) => BadMiddlewareClass
  }

  /** The item every middleware pushes onto the params before it suspends. */
  function StartTag(m: Middleware): string
  {
    match m
    case Mock(mm) => mm.toPush
    case Bad(_) => "bad"
  }

  /** What resuming `m`'s generator pushes onto the result it is sent. */
  function SentTag(m: Middleware): seq<string>
  {
    match m
    case Mock(mm) => [mm.toPush]
    case Bad(b) => if b.Suspends() && b.mode != ModeWrongYield then ["bad"] else []
  }

  function StartSpec(m: Middleware): Start<ClassName>
  {
    match m
    case Mock(mm) => mm.StartSpec()
    case Bad(b) => b.StartSpec()
  }

  function ResumeSpec(m: Middleware, items: seq<string>): Resume<ObjState>
  {
    match m
    case Mock(mm) => mm.ResumeSpec(items)
    case Bad(b) => b.ResumeSpec(items)
  }

  /**
   * Starting `m` on `params`: exactly `StartTag(m)` is pushed onto the params and the outcome
   * has the classes `StartSpec(m)` describes.
   */
  method Process(m: Middleware, params: MockMiddlewareData) returns (s: Start<Value>)
    modifies params
    ensures params.items == old(params.items) + [StartTag(m)]
    ensures MapStart(s, ClassOf) == StartSpec(m)
  {
    match m
    case Mock(mm) => s := mm.Process(params);
    case Bad(b) => s := b.Process(params);
  }

  /**
   * Resuming `m`'s generator with `result`: exactly `SentTag(m)` is pushed onto the result,
   * the outcome's state is `ResumeSpec(m, ...)` of the result's items before the call, and a
   * returned data object is the result itself or new.
   */
  method Send(m: Middleware, result: MockMiddlewareData) returns (r: Resume<Value>)
    modifies result
    ensures result.items == old(result.items) + SentTag(m)
    ensures ObserveResume(r) == ResumeSpec(m, old(result.items))
    ensures r.Returned? && r.value.Some? && r.value.value.Data? ==>
      r.value.value.d == result || fresh(r.value.value.d)
  {
    match m
    case Mock(mm) => r := mm.Send(result);
    case Bad(b) => r := b.Send(result);
  }
}
