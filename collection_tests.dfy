/**
 * The scenarios of the collection's test suite: a collection seeded with the tip "result"
 * and the mock middlewares middle1..middle4, run on params holding "initial", in both orders
 * and with each faulty middleware appended. Each scenario is stated once on the reference
 * semantics and once as a run of the collection object.
 */
module CollectionTests {
  import opened Wrappers
  import opened Sequences
  import opened MockData
  import opened Objects
  import opened Errors
  import opened MockMiddlewareFixture
  import opened BadMiddlewareFixture
  import opened Middlewares
  import opened MockTipFixture
  import opened Executor
  import opened ExecutorProperties
  import opened Collection

  const Tip := MockMiddlewareTip("result")
  const M1 := Mock(MockMiddleware("middle1"))
  const M2 := Mock(MockMiddleware("middle2"))
  const M3 := Mock(MockMiddleware("middle3"))
  const M4 := Mock(MockMiddleware("middle4"))
  const Middles := [M1, M2, M3, M4]

  /** The mock middleware passes every check; a faulty one fails exactly those its mode names. */
  lemma FixtureChecks(mock: MockMiddleware, bad: BadMiddleware)
    ensures DescendPasses(Mock(mock)) && AscendPasses(Mock(mock))
    ensures DescendPasses(Bad(bad)) <==> bad.mode != ModeNoYield && bad.mode != ModeWrongYield
    ensures AscendPasses(Bad(bad)) <==> bad.mode !in {ModeExtraYield, ModeWrongReturn, ModeNoReturn}
  {
  }

  lemma ReverseFour<T>(a: T, b: T, c: T, d: T)
    ensures Reverse([a, b, c, d]) == [d, c, b, a]
  {
    assert Reverse([d]) == Reverse([d][1..]) + [d] == [d];
    assert Reverse([c, d]) == Reverse([c, d][1..]) + [c] == [d, c];
    assert Reverse([b, c, d]) == Reverse([b, c, d][1..]) + [b] == [d, c, b];
    assert Reverse([a, b, c, d]) == Reverse([a, b, c, d][1..]) + [a];
  }

  lemma ReverseFive<T>(a: T, b: T, c: T, d: T, e: T)
    ensures Reverse([a, b, c, d, e]) == [e, d, c, b, a]
  {
    ReverseFour(b, c, d, e);
    assert Reverse([a, b, c, d, e]) == Reverse([a, b, c, d, e][1..]) + [a];
  }

  lemma TagsFour(a: Middleware, b: Middleware, c: Middleware, d: Middleware)
    ensures Tags([a, b, c, d]) == [StartTag(a), StartTag(b), StartTag(c), StartTag(d)]
  {
    assert Tags([d]) == [StartTag(d)] + Tags([d][1..]) == [StartTag(d)];
    assert Tags([c, d]) == [StartTag(c)] + Tags([c, d][1..]) == [StartTag(c), StartTag(d)];
    assert Tags([b, c, d]) == [StartTag(b)] + Tags([b, c, d][1..]) == [StartTag(b), StartTag(c), StartTag(d)];
    assert Tags([a, b, c, d]) == [StartTag(a)] + Tags([a, b, c, d][1..]);
  }

  lemma StartsFour(a: Middleware, b: Middleware, c: Middleware, d: Middleware)
    ensures Starts([a, b, c, d]) == [Started(a), Started(b), Started(c), Started(d)]
  {
    assert Starts([d]) == [Started(d)] + Starts([d][1..]) == [Started(d)];
    assert Starts([c, d]) == [Started(c)] + Starts([c, d][1..]) == [Started(c), Started(d)];
    assert Starts([b, c, d]) == [Started(b)] + Starts([b, c, d][1..]) == [Started(b), Started(c), Started(d)];
    assert Starts([a, b, c, d]) == [Started(a)] + Starts([a, b, c, d][1..]);
  }

  lemma ResumesFour(a: Middleware, b: Middleware, c: Middleware, d: Middleware)
    ensures Resumes([a, b, c, d]) == [Resumed(a), Resumed(b), Resumed(c), Resumed(d)]
  {
    assert Resumes([d]) == [Resumed(d)] + Resumes([d][1..]) == [Resumed(d)];
    assert Resumes([c, d]) == [Resumed(c)] + Resumes([c, d][1..]) == [Resumed(c), Resumed(d)];
    assert Resumes([b, c, d]) == [Resumed(b)] + Resumes([b, c, d][1..]) == [Resumed(b), Resumed(c), Resumed(d)];
    assert Resumes([a, b, c, d]) == [Resumed(a)] + Resumes([a, b, c, d][1..]);
  }

  lemma TagsFive(a: Middleware, b: Middleware, c: Middleware, d: Middleware, e: Middleware)
    ensures Tags([a, b, c, d, e]) == [StartTag(a), StartTag(b), StartTag(c), StartTag(d), StartTag(e)]
  {
    TagsFour(b, c, d, e);
    assert Tags([a, b, c, d, e]) == [StartTag(a)] + Tags([a, b, c, d, e][1..]);
  }

  lemma StartsFive(a: Middleware, b: Middleware, c: Middleware, d: Middleware, e: Middleware)
    ensures Starts([a, b, c, d, e]) == [Started(a), Started(b), Started(c), Started(d), Started(e)]
  {
    StartsFour(b, c, d, e);
    assert Starts([a, b, c, d, e]) == [Started(a)] + Starts([a, b, c, d, e][1..]);
  }

  /** FIFO over four mock middlewares registered as `a`, `b`, `c`, `d`. */
  lemma {:induction false} FifoOfFour(tip: MockMiddlewareTip, a: Middleware, b: Middleware, c: Middleware, d: Middleware, p: seq<string>)
    requires a.Mock? && b.Mock? && c.Mock? && d.Mock?
    ensures RunSpec(tip, [a, b, c, d], OrderFifo, p)
         == Run(p + [StartTag(d), StartTag(c), StartTag(b), StartTag(a)],
                [Started(d), Started(c), Started(b), Started(a)] + [TipRan] + [Resumed(a), Resumed(b), Resumed(c), Resumed(d)],
                Ok(tip.Produced() + [StartTag(a), StartTag(b), StartTag(c), StartTag(d)]))
  {
    MockRun(tip, [a, b, c, d], OrderFifo, p);
    ReverseFour(a, b, c, d);
    ReverseFour(d, c, b, a);
    TagsFour(d, c, b, a);
    StartsFour(d, c, b, a);
    TagsFour(a, b, c, d);
    ResumesFour(a, b, c, d);
  }

  /** LIFO over four mock middlewares registered as `a`, `b`, `c`, `d`. */
  lemma {:induction false} LifoOfFour(tip: MockMiddlewareTip, a: Middleware, b: Middleware, c: Middleware, d: Middleware, p: seq<string>)
    requires a.Mock? && b.Mock? && c.Mock? && d.Mock?
    ensures RunSpec(tip, [a, b, c, d], OrderLifo, p)
         == Run(p + [StartTag(a), StartTag(b), StartTag(c), StartTag(d)],
                [Started(a), Started(b), Started(c), Started(d)] + [TipRan] + [Resumed(d), Resumed(c), Resumed(b), Resumed(a)],
                Ok(tip.Produced() + [StartTag(d), StartTag(c), StartTag(b), StartTag(a)]))
  {
    MockRun(tip, [a, b, c, d], OrderLifo, p);
    ReverseFour(a, b, c, d);
    TagsFour(d, c, b, a);
    ResumesFour(d, c, b, a);
    TagsFour(a, b, c, d);
    StartsFour(a, b, c, d);
  }

  /** testFifo: the params collect middle4..middle1, the result middle1..middle4. */
  lemma FifoRun()
    ensures RunSpec(Tip, Middles, OrderFifo, ["initial"])
         == Run(["initial", "middle4", "middle3", "middle2", "middle1"],
                [Started(M4), Started(M3), Started(M2), Started(M1)] + [TipRan]
                + [Resumed(M1), Resumed(M2), Resumed(M3), Resumed(M4)],
                Ok(["result", "middle1", "middle2", "middle3", "middle4"]))
  {
    FifoOfFour(Tip, M1, M2, M3, M4, ["initial"]);
    assert Middles == [M1, M2, M3, M4];
    assert Tip.Produced() == ["result"];
    assert StartTag(M1) == "middle1" && StartTag(M2) == "middle2" && StartTag(M3) == "middle3" && StartTag(M4) == "middle4";
    var spec := RunSpec(Tip, Middles, OrderFifo, ["initial"]);
    assert spec.params == ["initial", "middle4", "middle3", "middle2", "middle1"];
    assert spec.outcome == Ok(Tip.Produced() + [StartTag(M1), StartTag(M2), StartTag(M3), StartTag(M4)]);
    assert Tip.Produced() + [StartTag(M1), StartTag(M2), StartTag(M3), StartTag(M4)] == ["result", "middle1", "middle2", "middle3", "middle4"];
    assert spec.outcome == Ok(["result", "middle1", "middle2", "middle3", "middle4"]);
  }

  /** testLifo: the params collect middle1..middle4, the result middle4..middle1. */
  lemma LifoRun()
    ensures RunSpec(Tip, Middles, OrderLifo, ["initial"])
         == Run(["initial", "middle1", "middle2", "middle3", "middle4"],
                [Started(M1), Started(M2), Started(M3), Started(M4)] + [TipRan]
                + [Resumed(M4), Resumed(M3), Resumed(M2), Resumed(M1)],
                Ok(["result", "middle4", "middle3", "middle2", "middle1"]))
  {
    LifoOfFour(Tip, M1, M2, M3, M4, ["initial"]);
    assert Middles == [M1, M2, M3, M4];
    assert Tip.Produced() == ["result"];
    assert StartTag(M1) == "middle1" && StartTag(M2) == "middle2" && StartTag(M3) == "middle3" && StartTag(M4) == "middle4";
    assert Tip.Produced() + [StartTag(M4), StartTag(M3), StartTag(M2), StartTag(M1)] == ["result", "middle4", "middle3", "middle2", "middle1"];
  }

  /** FIFO over four mock middlewares and, registered last, one that fails a descend check. */
  lemma DescendFailureOfFour(tip: MockMiddlewareTip, a: Middleware, b: Middleware, c: Middleware, d: Middleware, bad: Middleware, p: seq<string>)
    requires a.Mock? && b.Mock? && c.Mock? && d.Mock?
    requires !DescendPasses(bad)
    ensures RunSpec(tip, [a, b, c, d, bad], OrderFifo, p)
         == Run(p + [StartTag(bad)], [Started(bad)],
                Err(DescendCheck(Name(bad), StartSpec(bad), MockMiddlewareDataClass).value))
  {
    ReverseFive(a, b, c, d, bad);
    RunStopsDescending(tip, [a, b, c, d, bad], OrderFifo, p, 0);
    assert [bad, d, c, b, a][..0] == [];
  }

  /** FIFO over four mock middlewares and, registered last, one that fails an ascend check. */
  lemma AscendFailureOfFour(tip: MockMiddlewareTip, a: Middleware, b: Middleware, c: Middleware, d: Middleware, bad: Middleware, p: seq<string>)
    requires a.Mock? && b.Mock? && c.Mock? && d.Mock?
    requires DescendPasses(bad) && !AscendPasses(bad)
    ensures RunSpec(tip, [a, b, c, d, bad], OrderFifo, p)
         == Run(p + [StartTag(bad), StartTag(d), StartTag(c), StartTag(b), StartTag(a)],
                [Started(bad), Started(d), Started(c), Started(b), Started(a)] + [TipRan]
                + [Resumed(a), Resumed(b), Resumed(c), Resumed(d)] + [Resumed(bad)],
                Err(AscendCheck(Name(bad), ResumeShape(bad), MockMiddlewareDataClass).value))
  {
    var ms := [a, b, c, d, bad];
    ReverseFive(a, b, c, d, bad);
    ReverseFive(bad, d, c, b, a);
    RunStopsAscending(tip, ms, OrderFifo, p, 4);
    assert ms[..4] == [a, b, c, d];
    TagsFive(bad, d, c, b, a);
    StartsFive(bad, d, c, b, a);
    ResumesFour(a, b, c, d);
  }

  function BadOf(mode: string): Middleware
  {
    Bad(BadMiddleware(mode))
  }

  /** The violations the faulty middleware's descend-failing modes cause. */
  lemma BadDescendViolation(mode: string)
    requires mode == ModeNoYield || mode == ModeWrongYield
    ensures !DescendPasses(BadOf(mode))
    ensures DescendCheck(Name(BadOf(mode)), StartSpec(BadOf(mode)), MockMiddlewareDataClass).value
         == if mode == ModeNoYield then DidNotYield(BadMiddlewareClass)
            else YieldTypeMismatch(BadMiddlewareClass, MockMiddlewareDataClass, StdClassName)
  {
  }

  /** The violations the faulty middleware's ascend-failing modes cause. */
  lemma BadAscendViolation(mode: string)
    requires mode in {ModeExtraYield, ModeWrongReturn, ModeNoReturn}
    ensures DescendPasses(BadOf(mode)) && !AscendPasses(BadOf(mode))
    ensures AscendCheck(Name(BadOf(mode)), ResumeShape(BadOf(mode)), MockMiddlewareDataClass).value
         == if mode == ModeExtraYield then ExtraYield(BadMiddlewareClass)
            else if mode == ModeNoReturn then NoReturn(BadMiddlewareClass)
            else ReturnTypeMismatch(BadMiddlewareClass, MockMiddlewareDataClass, StdClassName)
  {
  }

  /**
   * testErrorNoYield, testErrorDifferentParams: the faulty middleware is registered last, so
   * under FIFO it descends first, and it is the only middleware started.
   */
  lemma DescendFailureRun(mode: string)
    requires mode == ModeNoYield || mode == ModeWrongYield
    ensures RunSpec(Tip, Middles + [BadOf(mode)], OrderFifo, ["initial"])
         == Run(["initial", "bad"], [Started(BadOf(mode))],
                Err(if mode == ModeNoYield then DidNotYield(BadMiddlewareClass)
                    else YieldTypeMismatch(BadMiddlewareClass, MockMiddlewareDataClass, StdClassName)))
  {
    BadDescendViolation(mode);
    DescendFailureOfFour(Tip, M1, M2, M3, M4, BadOf(mode), ["initial"]);
    assert Middles + [BadOf(mode)] == [M1, M2, M3, M4, BadOf(mode)];
  }

  /**
   * testErrorTooManyYields, testErrorNoReturn, testErrorDifferentResult: under FIFO the faulty
   * middleware ascends last, after every other middleware and the tip have run.
   */
  lemma AscendFailureRun(mode: string)
    requires mode in {ModeExtraYield, ModeWrongReturn, ModeNoReturn}
    ensures RunSpec(Tip, Middles + [BadOf(mode)], OrderFifo, ["initial"])
         == Run(["initial", "bad", "middle4", "middle3", "middle2", "middle1"],
                [Started(BadOf(mode)), Started(M4), Started(M3), Started(M2), Started(M1)] + [TipRan]
                + [Resumed(M1), Resumed(M2), Resumed(M3), Resumed(M4)] + [Resumed(BadOf(mode))],
                Err(if mode == ModeExtraYield then ExtraYield(BadMiddlewareClass)
                    else if mode == ModeNoReturn then NoReturn(BadMiddlewareClass)
                    else ReturnTypeMismatch(BadMiddlewareClass, MockMiddlewareDataClass, StdClassName)))
  {
    BadAscendViolation(mode);
    AscendFailureOfFour(Tip, M1, M2, M3, M4, BadOf(mode), ["initial"]);
    assert Middles + [BadOf(mode)] == [M1, M2, M3, M4, BadOf(mode)];
    assert StartTag(M1) == "middle1" && StartTag(M2) == "middle2" && StartTag(M3) == "middle3" && StartTag(M4) == "middle4";
    assert ["initial"] + [StartTag(BadOf(mode)), StartTag(M4), StartTag(M3), StartTag(M2), StartTag(M1)]
        == ["initial", "bad", "middle4", "middle3", "middle2", "middle1"];
  }

  /** setUp: a new collection, seeded with the tip, with middle1..middle4 added in turn. */
  method SetUp() returns (c: MiddlewareCollection)
    ensures c.Valid() && fresh(c.Repr)
    ensures c.order == OrderFifo && c.tip == Some(Tip)
    ensures c.middlewares == [Leaf(M1), Leaf(M2), Leaf(M3), Leaf(M4)]
  {
    c := new MiddlewareCollection();
    var self := c.SetTip(Tip);
    self := c.AddMiddleware(Leaf(M1));
    self := c.AddMiddleware(Leaf(M2));
    self := c.AddMiddleware(Leaf(M3));
    self := c.AddMiddleware(Leaf(M4));
  }

  /** The error tests' set-up: `BadMiddleware(mode)` added after middle4. */
  method SetUpWithBad(mode: string) returns (c: MiddlewareCollection)
    ensures c.Valid() && fresh(c.Repr)
    ensures c.order == OrderFifo && c.tip == Some(Tip)
    ensures c.middlewares == [Leaf(M1), Leaf(M2), Leaf(M3), Leaf(M4), Leaf(BadOf(mode))]
  {
    c := SetUp();
    var self := c.AddMiddleware(Leaf(BadOf(mode)));
  }

  /**
   * Runs a collection seeded with the tip and holding the middlewares `ms` on params holding
   * "initial": the params, the result or the exception's message agree with the reference run.
   */
  method RunOnInitial(c: MiddlewareCollection, ghost ms: seq<Middleware>)
    returns (message: string, paramsItems: seq<string>, resultItems: seq<string>)
    requires c.tip == Some(Tip)
    requires forall i :: 0 <= i < |c.middlewares| ==> c.middlewares[i].Leaf?
    requires Leaves(c.middlewares) == ms
    ensures var spec := RunSpec(Tip, ms, c.order, ["initial"]);
      && paramsItems == spec.params
      && (spec.outcome.Ok? ==> resultItems == spec.outcome.value)
      && (spec.outcome.Err? ==> message == Message(spec.outcome.error))
  {
    var params := new MockMiddlewareData(["initial"]);
    var r, trace := c.Run(params);
    paramsItems := params.GetItems();
    message, resultItems := "", [];
    if r.Ok? {
      resultItems := r.value.d.GetItems();
    } else {
      message := r.error.message;
    }
  }

  method TestFifo() returns (paramsItems: seq<string>, resultItems: seq<string>)
    ensures paramsItems == ["initial", "middle4", "middle3", "middle2", "middle1"]
    ensures resultItems == ["result", "middle1", "middle2", "middle3", "middle4"]
  {
    var c := SetUp();
    var message;
    message, paramsItems, resultItems := RunOnInitial(c, Middles);
    FifoRun();
  }

  method TestLifo() returns (paramsItems: seq<string>, resultItems: seq<string>)
    ensures paramsItems == ["initial", "middle1", "middle2", "middle3", "middle4"]
    ensures resultItems == ["result", "middle4", "middle3", "middle2", "middle1"]
  {
    var c := SetUp();
    c.SetOrder(OrderLifo);
    var message;
    message, paramsItems, resultItems := RunOnInitial(c, Middles);
    LifoRun();
  }

  /** Runs the error tests' collection; the run fails, and this is its exception's message. */
  method RunWithBad(mode: string) returns (message: string, paramsItems: seq<string>)
    requires mode in {ModeNoYield, ModeWrongYield, ModeExtraYield, ModeWrongReturn, ModeNoReturn}
    ensures mode == ModeNoYield || mode == ModeWrongYield ==>
      && paramsItems == ["initial", "bad"]
      && message == Message(if mode == ModeNoYield then DidNotYield(BadMiddlewareClass)
                            else YieldTypeMismatch(BadMiddlewareClass, MockMiddlewareDataClass, StdClassName))
    ensures mode in {ModeExtraYield, ModeWrongReturn, ModeNoReturn} ==>
      && paramsItems == ["initial", "bad", "middle4", "middle3", "middle2", "middle1"]
      && message == Message(if mode == ModeExtraYield then ExtraYield(BadMiddlewareClass)
                            else if mode == ModeNoReturn then NoReturn(BadMiddlewareClass)
                            else ReturnTypeMismatch(BadMiddlewareClass, MockMiddlewareDataClass, StdClassName))
  {
    var c := SetUpWithBad(mode);
    var resultItems;
    message, paramsItems, resultItems := RunOnInitial(c, Middles + [BadOf(mode)]);
    if mode == ModeNoYield || mode == ModeWrongYield {
      DescendFailureRun(mode);
    } else {
      AscendFailureRun(mode);
    }
  }

  /** testErrorDifferentParams: the message starts with the text the test expects. */
  method TestErrorDifferentParams() returns (message: string)
    ensures message == "Middleware did not yield the same type: " + BadMiddlewareClass
                     + ".\n" + ExpectedInstead(MockMiddlewareDataClass, StdClassName)
    ensures Contains(message, "Middleware did not yield the same type: " + BadMiddlewareClass)
  {
    var items;
    message, items := RunWithBad(ModeWrongYield);
    var expected := "Middleware did not yield the same type: " + BadMiddlewareClass;
    assert message == expected + ".\n" + ExpectedInstead(MockMiddlewareDataClass, StdClassName);
    assert message[0..|expected|] == expected;
  }

  /** testErrorDifferentResult: the message ends with the text the test expects. */
  method TestErrorDifferentResult() returns (message: string)
    ensures message == "Middleware did not return the correct type: " + BadMiddlewareClass
                     + ".\n" + ExpectedInstead(MockMiddlewareDataClass, StdClassName)
    ensures Contains(message, "Expected a " + MockMiddlewareDataClass + " instead got a " + StdClassName)
  {
    var items;
    message, items := RunWithBad(ModeWrongReturn);
    var prefix := "Middleware did not return the correct type: " + BadMiddlewareClass + ".\n";
    var expected := ExpectedInstead(MockMiddlewareDataClass, StdClassName);
    assert message == prefix + expected;
    assert message[|prefix|..|message|] == expected;
  }

  method TestErrorNoYield() returns (message: string)
    ensures message == "Middleware did not yield: " + BadMiddlewareClass
  {
    var items;
    message, items := RunWithBad(ModeNoYield);
  }

  method TestErrorNoReturn() returns (message: string)
    ensures message == "Middleware not return a result: " + BadMiddlewareClass
  {
    var items;
    message, items := RunWithBad(ModeNoReturn);
  }

  method TestErrorTooManyYields() returns (message: string)
    ensures message == "Middleware did not yield exactly once: " + BadMiddlewareClass
  {
    var items;
    message, items := RunWithBad(ModeExtraYield);
  }

  /** Without a tip the collection refuses to run and leaves the params alone. */
  method TestNotSeeded() returns (message: string, paramsItems: seq<string>)
    ensures message == "Cannot run middleware without seeding it."
    ensures paramsItems == ["initial"]
  {
    var c := new MiddlewareCollection();
    var self := c.AddMiddleware(Leaf(M1));
    var params := new MockMiddlewareData(["initial"]);
    var r, trace := c.Run(params);
    message := r.error.message;
    paramsItems := params.GetItems();
  }

  /** The seeding guard comes first, so it also applies to a collection holding a collection. */
  method NotSeededNested() returns (message: string, paramsItems: seq<string>)
    ensures message == "Cannot run middleware without seeding it."
    ensures paramsItems == ["initial"]
  {
    var inner := new MiddlewareCollection();
    var self := inner.AddMiddleware(Leaf(M1));
    var outer := new MiddlewareCollection();
    self := outer.AddMiddleware(Nested(inner));
    var params := new MockMiddlewareData(["initial"]);
    var r, trace := outer.Run(params);
    message := r.error.message;
    paramsItems := params.GetItems();
  }
}
