/**
 * `MiddlewareExecutor`: the two-phase engine. It starts every middleware's generator in
 * descend order, checking each suspension, calls the tip once, then resumes the suspended
 * generators in the reverse of the order they were started, checking each return.
 * The reference semantics `RunSpec` states the run as a function of the inputs; the
 * imperative `MiddlewareExecutor.Run` is proved to compute it.
 */
module Executor {
  import opened Wrappers
  import opened Sequences
  import opened MockData
  import opened Objects
  import opened Generator
  import opened Errors
  import opened Middlewares
  import opened MockTipFixture

  /** `MiddlewareCollection::ORDER_FIFO` and `ORDER_LIFO`. */
  const OrderFifo := "fifo"
  const OrderLifo := "lifo"

  // ---------------------------------------------------------------------------
  // Order computation

  /** The descend order: registration order for exactly "lifo", its reverse otherwise. */
  function DescendOrder<T>(order: string, xs: seq<T>): (r: seq<T>)
    ensures |r| == |xs|
  {
    if order == OrderLifo then xs else Reverse(xs)
  }

  /** `iterateReverse`: walk from the last element back to the first. */
  method IterateReverse<T>(xs: seq<T>) returns (r: seq<T>)
    ensures r == Reverse(xs)
  {
    r := [];
    var k := |xs|;
    while k > 0
      invariant 0 <= k <= |xs|
      invariant r == Reverse(xs[k..])
    {
      k := k - 1;
      assert xs[k..][1..] == xs[k + 1..];
      r := r + [xs[k]];
    }
  }

  /** `iterate`: the given order when the order is exactly "lifo", reversed for any other. */
  method Iterate<T>(order: string, xs: seq<T>) returns (r: seq<T>)
    ensures order == OrderLifo ==> r == xs
    ensures order != OrderLifo ==> r == Reverse(xs)
  {
    if order == OrderLifo {
      r := xs;
    } else {
      r := IterateReverse(xs);
    }
  }

  /** The ascend order, the reverse of the descend order, is registration order under FIFO. */
  lemma AscendOrder<T>(order: string, xs: seq<T>)
    ensures Reverse(DescendOrder(order, xs)) == if order == OrderLifo then Reverse(xs) else xs
  {
    if order != OrderLifo {
      ReverseReverse(xs);
    }
  }

  /** Every middleware is in the descend order as often as it is registered. */
  lemma DescendOrderPermutes<T>(order: string, xs: seq<T>)
    ensures multiset(DescendOrder(order, xs)) == multiset(xs)
  {
    if order != OrderLifo {
      ReversePermutes(xs);
    }
  }

  // ---------------------------------------------------------------------------
  // The six checks

  /**
   * The three descend checks, in order: the generator suspended, with a non-null value, whose
   * class is-a the original params class. The first that fails is reported.
   */
  function DescendCheck(middleware: ClassName, s: Start<ClassName>, original: ClassName): (v: Option<Violation>)
    ensures v.None? <==> s.Yielded? && s.value.Some? && IsA(s.value.value, original)
    ensures s.NoYield? ==> v == Some(DidNotYield(middleware))
    ensures s == Yielded(None) ==> v == Some(NoYieldValue(middleware))
    ensures s.Yielded? && s.value.Some? && !IsA(s.value.value, original) ==>
      v == Some(YieldTypeMismatch(middleware, original, s.value.value))
  {
    match s
    case NoYield => Some(DidNotYield(middleware))
    case Yielded(None) => Some(NoYieldValue(middleware))
    case Yielded(Some(c)) => if IsA(c, original) then None else Some(YieldTypeMismatch(middleware, original, c))
  }

  /**
   * The three ascend checks, in order: the generator finished, returning a non-null value,
   * whose class is-a the class of the tip's result. The first that fails is reported.
   */
  function AscendCheck(middleware: ClassName, r: Resume<ClassName>, expected: ClassName): (v: Option<Violation>)
    ensures v.None? <==> r.Returned? && r.value.Some? && IsA(r.value.value, expected)
    ensures r.YieldedAgain? ==> v == Some(ExtraYield(middleware))
    ensures r == Returned(None) ==> v == Some(NoReturn(middleware))
    ensures r.Returned? && r.value.Some? && !IsA(r.value.value, expected) ==>
      v == Some(ReturnTypeMismatch(middleware, expected, r.value.value))
  {
    match r
    case YieldedAgain => Some(ExtraYield(middleware))
    case Returned(None) => Some(NoReturn(middleware))
    case Returned(Some(c)) => if IsA(c, expected) then None else Some(ReturnTypeMismatch(middleware, expected, c))
  }

  // ---------------------------------------------------------------------------
  // Reference semantics

  /** An entry of `$middlewareStack`: the middleware's class and its suspended generator. */
  datatype Frame = Frame(name: ClassName, generator: Middleware)

  /** What the executor does to the middlewares and the tip, in order. */
  datatype Event = Started(m: Middleware) | TipRan | Resumed(m: Middleware)

  /** State after the descend phase, or after a descend check failed. */
  datatype Descent = Descent(params: seq<string>, stack: seq<Frame>, trace: seq<Event>, failure: Option<Violation>)

  /** State after the ascend phase: the final result's items, or the violation that aborted. */
  datatype Ascent = Ascent(trace: seq<Event>, outcome: Result<seq<string>, Violation>)

  /** A whole run: the params' items afterwards, the events, and the result or the violation. */
  datatype Run = Run(params: seq<string>, trace: seq<Event>, outcome: Result<seq<string>, Violation>)

  /** Starting each of `ds` in turn on the same params, until a check fails. */
  function Descend(ds: seq<Middleware>, original: ClassName, params: seq<string>, stack: seq<Frame>, trace: seq<Event>): Descent
    decreases |ds|
  {
    if ds == [] then Descent(params, stack, trace, None)
    else
      var m := ds[0];
      var params', trace' := params + [StartTag(m)], trace + [Started(m)];
      match DescendCheck(Name(m), StartSpec(m), original)
      case Some(v) => Descent(params', stack, trace', Some(v))
      case None => Descend(ds[1..], original, params', stack + [Frame(Name(m), m)], trace')
  }

  /** Resuming each of `frames` in turn, passing each output on, until a check fails. */
  function Ascend(frames: seq<Frame>, expected: ClassName, result: seq<string>, trace: seq<Event>): Ascent
    requires expected == MockMiddlewareDataClass
    decreases |frames|
  {
    if frames == [] then Ascent(trace, Ok(result))
    else
      var f := frames[0];
      var o := ResumeSpec(f.generator, result);
      var trace' := trace + [Resumed(f.generator)];
      match AscendCheck(f.name, MapResume(o, StateClass), expected)
      case Some(v) => Ascent(trace', Err(v))
      case None => Ascend(frames[1..], expected, o.value.value.items, trace')
  }

  /** `MiddlewareExecutor::run` on params holding `params`. */
  function RunSpec(tip: MockMiddlewareTip, middlewares: seq<Middleware>, order: string, params: seq<string>): Run
  {
    var d := Descend(DescendOrder(order, middlewares), MockMiddlewareDataClass, params, [], []);
    if d.failure.Some? then Run(d.params, d.trace, Err(d.failure.value))
    else
      var a := Ascend(Reverse(d.stack), MockMiddlewareDataClass, tip.Produced(), d.trace + [TipRan]);
      Run(d.params, a.trace, a.outcome)
  }

  /** The observable outcome of a run agrees with `spec`. */
  predicate Conforms(spec: Run, params: MockMiddlewareData, r: Result<Value, InvalidMiddlewareException>, trace: seq<Event>)
    reads params, if r.Ok? && r.value.Data? then {r.value.d} else {}
  {
    && params.items == spec.params
    && trace == spec.trace
    && match spec.outcome
       case Ok(items) => r.Ok? && r.value.Data? && r.value.d.items == items
       case Err(v) => r == Err(Exception(v))
  }

  // ---------------------------------------------------------------------------
  // The executor

  class MiddlewareExecutor {
    const tip: MockMiddlewareTip
    const middlewares: seq<Middleware>
    const order: string

    constructor (tip: MockMiddlewareTip, middlewares: seq<Middleware>, order: string)
      ensures this.tip == tip && this.middlewares == middlewares && this.order == order
    {
      this.tip := tip;
      this.middlewares := middlewares;
      this.order := order;
    }

    /**
     * Runs the middlewares around the tip on `params`. Every middleware and the tip get the
     * same `params` object; the ghost `trace` records the calls. The outcome, the events and
     * the params' items are those of `RunSpec`; a result is a data object made during the run.
     */
    method Run(params: MockMiddlewareData) returns (r: Result<Value, InvalidMiddlewareException>, ghost trace: seq<Event>)
      modifies params
      ensures Conforms(RunSpec(tip, middlewares, order, old(params.items)), params, r, trace)
      ensures r.Ok? ==> r.value.Data? && fresh(r.value.d)
    {
      var middlewareStack, violation;
      middlewareStack, trace, violation := DescendAll(params);
      if violation.Some? {
        r := Err(Exception(violation.value));
        return;
      }
      var produced := tip.Run(params);
      trace := trace + [TipRan];
      r, trace := AscendAll(middlewareStack, produced, trace);
    }

    /**
     * The first loop of the run: starts each middleware in descend order on `params` and stacks
     * its generator, until a check fails. Params, stack, events and violation are `Descend`'s.
     */
    method DescendAll(params: MockMiddlewareData) returns (middlewareStack: seq<Frame>, ghost trace: seq<Event>, violation: Option<Violation>)
      modifies params
      ensures Descend(DescendOrder(order, middlewares), MockMiddlewareDataClass, old(params.items), [], [])
           == Descent(params.items, middlewareStack, trace, violation)
    {
      middlewareStack := [];
      trace := [];
      var originalType := ClassOf(Data(params));
      ghost var d0 := Descend(DescendOrder(order, middlewares), MockMiddlewareDataClass, params.items, [], []);
      var descend := Iterate(order, middlewares);
      assert descend == DescendOrder(order, middlewares) && descend[0..] == descend;
      var i := 0;
      while i < |descend|
        invariant 0 <= i <= |descend|
        invariant originalType == MockMiddlewareDataClass
        invariant Descend(descend[i..], MockMiddlewareDataClass, params.items, middlewareStack, trace) == d0
      {
        var middleware := descend[i];
        var middlewareClass := Name(middleware);
        assert descend[i..][1..] == descend[i + 1..];
        var generator := Process(middleware, params);
        trace := trace + [Started(middleware)];
        violation := DescendCheck(middlewareClass, MapStart(generator, ClassOf), originalType);
        if violation.Some? {
          return;
        }
        middlewareStack := middlewareStack + [Frame(middlewareClass, middleware)];
        i := i + 1;
      }
      violation := None;
    }

    /**
     * The second loop of the run: resumes the stacked generators in reverse with the tip's
     * result, each getting the previous one's, until a check fails. Events and outcome are
     * `Ascend`'s; a result is `produced` or a data object made during the loop.
     */
    method AscendAll(middlewareStack: seq<Frame>, produced: MockMiddlewareData, ghost trace0: seq<Event>)
      returns (r: Result<Value, InvalidMiddlewareException>, ghost trace: seq<Event>)
      modifies produced
      ensures var a := Ascend(Reverse(middlewareStack), MockMiddlewareDataClass, old(produced.items), trace0);
        && trace == a.trace
        && match a.outcome
           case Ok(items) => r.Ok? && r.value.Data? && r.value.d.items == items
           case Err(v) => r == Err(Exception(v))
      ensures r.Ok? ==> r.value.Data? && (r.value.d == produced || fresh(r.value.d))
    {
      trace := trace0;
      var result: Value := Data(produced);
      var expectedResultClass := ClassOf(result);
      ghost var a0 := Ascend(Reverse(middlewareStack), expectedResultClass, produced.items, trace);
      var ascend := IterateReverse(middlewareStack);
      var j := 0;
      while j < |ascend|
        invariant 0 <= j <= |ascend|
        invariant result.Data? && (result.d == produced || fresh(result.d))
        invariant Ascend(ascend[j..], expectedResultClass, result.d.items, trace) == a0
      {
        var frame := ascend[j];
        assert ascend[j..][1..] == ascend[j + 1..];
        var outcome := Send(frame.generator, result.d);
        trace := trace + [Resumed(frame.generator)];
        var violation := AscendCheck(frame.name, MapResume(outcome, ClassOf), expectedResultClass);
        if violation.Some? {
          r := Err(Exception(violation.value));
          return;
        }
        result := outcome.value.value;
        j := j + 1;
      }
      r := Ok(result);
    }
  }
}
