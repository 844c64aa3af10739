/**
 * `InvalidMiddlewareException` and the six protocol violations the executor reports with it,
 * each with its exact message.
 */
module Errors {
  import opened Objects

  /** The exception the executor and the collection throw; only its message is observable. */
  datatype InvalidMiddlewareException = InvalidMiddlewareException(message: string)

  /** Message of the collection's guard for a run without a tip. */
  const NotSeededMessage := "Cannot run middleware without seeding it."

  /** One protocol violation, naming the offending middleware's class. */
  datatype Violation =
    | DidNotYield(middleware: ClassName)
    | NoYieldValue(middleware: ClassName)
    | YieldTypeMismatch(middleware: ClassName, expected: ClassName, actual: ClassName)
    | ExtraYield(middleware: ClassName)
    | NoReturn(middleware: ClassName)
    | ReturnTypeMismatch(middleware: ClassName, expected: ClassName, actual: ClassName)

  function Message(v: Violation): string
  {
    match v
    case DidNotYield(m) => "Middleware did not yield: " + m
    case NoYieldValue(m) => "Middleware did not yield a value: " + m
    case YieldTypeMismatch(m, e, a) =>
      "Middleware did not yield the same type: " + m + ".\n" + ExpectedInstead(e, a)
    case ExtraYield(m) => "Middleware did not yield exactly once: " + m
    case NoReturn(m) => "Middleware not return a result: " + m
    case ReturnTypeMismatch(m, e, a) =>
      "Middleware did not return the correct type: " + m + ".\n" + ExpectedInstead(e, a)
  }

  /** The second line of both type-mismatch messages. */
  function ExpectedInstead(expected: ClassName, actual: ClassName): string
  {
    "Expected a " + expected + " instead got a " + actual
  }

  /** `t` occurs in `s`; PHPUnit's `expectExceptionMessage` asks this of the message. */
  predicate Contains(s: string, t: string)
  {
    exists i, j :: 0 <= i <= j <= |s| && s[i..j] == t
  }

  lemma Suffix(a: string, b: string)
    ensures Contains(a + b, b)
  {
    assert (a + b)[|a|..|a| + |b|] == b;
  }

  lemma Infix(a: string, b: string, c: string)
    ensures Contains(a + b + c, b)
  {
    assert (a + b + c)[|a|..|a| + |b|] == b;
  }

  lemma Extend(s: string, t: string, u: string)
    requires Contains(s, t)
    ensures Contains(s + u, t)
  {
    var i, j :| 0 <= i <= j <= |s| && s[i..j] == t;
    assert (s + u)[i..j] == t;
  }

  /** Every message names the offending middleware's class. */
  lemma MessageNamesMiddleware(v: Violation)
    ensures Contains(Message(v), v.middleware)
  {
    match v
    case DidNotYield(m) => Suffix("Middleware did not yield: ", m);
    case NoYieldValue(m) => Suffix("Middleware did not yield a value: ", m);
    case ExtraYield(m) => Suffix("Middleware did not yield exactly once: ", m);
    case NoReturn(m) => Suffix("Middleware not return a result: ", m);
    case YieldTypeMismatch(m, e, a) =>
      Infix("Middleware did not yield the same type: ", m, ".\n");
      Extend("Middleware did not yield the same type: " + m + ".\n", m, ExpectedInstead(e, a));
    case ReturnTypeMismatch(m, e, a) =>
      Infix("Middleware did not return the correct type: ", m, ".\n");
      Extend("Middleware did not return the correct type: " + m + ".\n", m, ExpectedInstead(e, a));
  }

  /** A type-mismatch message also names the expected and the actual class. */
  lemma MessageNamesClasses(v: Violation)
    requires v.YieldTypeMismatch? || v.ReturnTypeMismatch?
    ensures Contains(Message(v), ExpectedInstead(v.expected, v.actual))
  {
    match v
    case YieldTypeMismatch(m, e, a) =>
      Suffix("Middleware did not yield the same type: " + m + ".\n", ExpectedInstead(e, a));
    case ReturnTypeMismatch(m, e, a) =>
      Suffix("Middleware did not return the correct type: " + m + ".\n", ExpectedInstead(e, a));
  }

  /** The exception thrown for a violation. */
  function Exception(v: Violation): InvalidMiddlewareException
  {
    InvalidMiddlewareException(Message(v))
  }
}
