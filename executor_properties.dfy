/**
 * What `RunSpec`, and so `MiddlewareExecutor.Run`, guarantees: which middlewares are started
 * and resumed and in which order, where a failing check stops the run, what the params and
 * the result hold afterwards.
 */
module ExecutorProperties {
  import opened Wrappers
  import opened Sequences
  import opened Objects
  import opened Generator
  import opened Errors
  import opened Middlewares
  import opened MockTipFixture
  import opened Executor

  /** The tags the middlewares push onto the params, in list order. */
  function Tags(ms: seq<Middleware>): seq<string>
  {
    if ms == [] then [] else [StartTag(ms[0])] + Tags(ms[1..])
  }

  /** The stack frames of started middlewares, in list order. */
  function Frames(ms: seq<Middleware>): seq<Frame>
  {
    if ms == [] then [] else [Frame(Name(ms[0]), ms[0])] + Frames(ms[1..])
  }

  /** The start events of middlewares, in list order. */
  function Starts(ms: seq<Middleware>): seq<Event>
  {
    if ms == [] then [] else [Started(ms[0])] + Starts(ms[1..])
  }

  /** The resume events of generators, in list order. */
  function Resumes(ms: seq<Middleware>): seq<Event>
  {
    if ms == [] then [] else [Resumed(ms[0])] + Resumes(ms[1..])
  }

  /** `m` passes the three descend checks against data params. */
  predicate DescendPasses(m: Middleware)
  {
    DescendCheck(Name(m), StartSpec(m), MockMiddlewareDataClass).None?
  }

  /** The classes of `m`'s resume outcome, which do not depend on the result sent in. */
  function ResumeShape(m: Middleware): Resume<ClassName>
  {
    MapResume(ResumeSpec(m, []), StateClass)
  }

  lemma ResumeShapeIgnoresItems(m: Middleware, items: seq<string>)
    ensures MapResume(ResumeSpec(m, items), StateClass) == ResumeShape(m)
  {
  }

  /** `m` passes the three ascend checks against a data result. */
  predicate AscendPasses(m: Middleware)
  {
    AscendCheck(Name(m), ResumeShape(m), MockMiddlewareDataClass).None?
  }

  lemma {:induction false} TagsConcat(a: seq<Middleware>, b: seq<Middleware>)
    ensures Tags(a + b) == Tags(a) + Tags(b)
  {
    if a == [] {
      assert a + b == b;
    } else {
      assert (a + b)[1..] == a[1..] + b;
      TagsConcat(a[1..], b);
    }
  }

  lemma {:induction false} TagsReverse(s: seq<Middleware>)
    ensures Tags(Reverse(s)) == Reverse(Tags(s))
  {
    if s != [] {
      TagsReverse(s[1..]);
      TagsConcat(Reverse(s[1..]), [s[0]]);
      assert Tags(s)[1..] == Tags(s[1..]);
    }
  }

  lemma {:induction false} FramesConcat(a: seq<Middleware>, b: seq<Middleware>)
    ensures Frames(a + b) == Frames(a) + Frames(b)
  {
    if a == [] {
      assert a + b == b;
    } else {
      assert (a + b)[1..] == a[1..] + b;
      FramesConcat(a[1..], b);
    }
  }

  lemma {:induction false} FramesReverse(s: seq<Middleware>)
    ensures Frames(Reverse(s)) == Reverse(Frames(s))
  {
    if s != [] {
      FramesReverse(s[1..]);
      FramesConcat(Reverse(s[1..]), [s[0]]);
      assert Frames(s)[1..] == Frames(s[1..]);
    }
  }

  /** One descend step that passes its checks stacks the middleware and goes on. */
  lemma DescendStep(ds: seq<Middleware>, params: seq<string>, stack: seq<Frame>, trace: seq<Event>)
    requires ds != [] && DescendPasses(ds[0])
    ensures Descend(ds, MockMiddlewareDataClass, params, stack, trace)
         == Descend(ds[1..], MockMiddlewareDataClass, params + [StartTag(ds[0])],
                    stack + [Frame(Name(ds[0]), ds[0])], trace + [Started(ds[0])])
  {
  }

  /** One descend step that fails a check ends the descent with its violation. */
  lemma DescendStepFails(ds: seq<Middleware>, params: seq<string>, stack: seq<Frame>, trace: seq<Event>)
    requires ds != [] && !DescendPasses(ds[0])
    ensures Descend(ds, MockMiddlewareDataClass, params, stack, trace)
         == Descent(params + [StartTag(ds[0])], stack, trace + [Started(ds[0])],
                    DescendCheck(Name(ds[0]), StartSpec(ds[0]), MockMiddlewareDataClass))
  {
  }

  /** Descending through middlewares that all pass: each pushes its tag, is stacked and logged. */
  lemma {:induction false} DescendPass(ds: seq<Middleware>, params: seq<string>, stack: seq<Frame>, trace: seq<Event>)
    requires forall i :: 0 <= i < |ds| ==> DescendPasses(ds[i])
    ensures Descend(ds, MockMiddlewareDataClass, params, stack, trace)
         == Descent(params + Tags(ds), stack + Frames(ds), trace + Starts(ds), None)
  {
    if ds != [] {
      var m := ds[0];
      DescendStep(ds, params, stack, trace);
      DescendPass(ds[1..], params + [StartTag(m)], stack + [Frame(Name(m), m)], trace + [Started(m)]);
      assert params + [StartTag(m)] + Tags(ds[1..]) == params + Tags(ds);
      assert stack + [Frame(Name(m), m)] + Frames(ds[1..]) == stack + Frames(ds);
      assert trace + [Started(m)] + Starts(ds[1..]) == trace + Starts(ds);
    }
  }

  /**
   * Descending through `pre`, whose middlewares all pass, up to `bad`, which fails a check:
   * `bad` has still been started (its tag pushed, its start logged), nothing after it is,
   * and its violation ends the descent.
   */
  lemma {:induction false} DescendStops(ds: seq<Middleware>, pre: seq<Middleware>, bad: Middleware, post: seq<Middleware>,
                                        params: seq<string>, stack: seq<Frame>, trace: seq<Event>)
    requires ds == pre + [bad] + post
    requires forall i :: 0 <= i < |pre| ==> DescendPasses(pre[i])
    requires !DescendPasses(bad)
    ensures Descend(ds, MockMiddlewareDataClass, params, stack, trace)
         == Descent(params + Tags(pre) + [StartTag(bad)], stack + Frames(pre), trace + Starts(pre) + [Started(bad)],
                    DescendCheck(Name(bad), StartSpec(bad), MockMiddlewareDataClass))
  {
    if pre == [] {
      assert ds[0] == bad;
      DescendStepFails(ds, params, stack, trace);
      assert params + Tags(pre) == params && stack + Frames(pre) == stack && trace + Starts(pre) == trace;
    } else {
      var m := pre[0];
      assert ds[0] == m && ds[1..] == pre[1..] + [bad] + post;
      assert DescendPasses(pre[0]);
      DescendStep(ds, params, stack, trace);
      DescendStops(ds[1..], pre[1..], bad, post, params + [StartTag(m)], stack + [Frame(Name(m), m)], trace + [Started(m)]);
      assert params + [StartTag(m)] + Tags(pre[1..]) == params + Tags(pre);
      assert stack + [Frame(Name(m), m)] + Frames(pre[1..]) == stack + Frames(pre);
      assert trace + [Started(m)] + Starts(pre[1..]) == trace + Starts(pre);
    }
  }

  /** The items of the result a generator returns when resumed with `items`, if it returns data. */
  function Next(g: Middleware, items: seq<string>): seq<string>
  {
    var o := ResumeSpec(g, items);
    if o.Returned? && o.value.Some? && o.value.value.DataState? then o.value.value.items else []
  }

  /** One ascend step that passes its checks hands the generator's output to the next frame. */
  lemma AscendStep(gs: seq<Middleware>, result: seq<string>, trace: seq<Event>)
    requires gs != [] && AscendPasses(gs[0])
    ensures Ascend(Frames(gs), MockMiddlewareDataClass, result, trace)
         == Ascend(Frames(gs[1..]), MockMiddlewareDataClass, Next(gs[0], result), trace + [Resumed(gs[0])])
  {
    ResumeShapeIgnoresItems(gs[0], result);
    assert Frames(gs)[1..] == Frames(gs[1..]);
  }

  /** One ascend step that fails a check ends the ascent with its violation. */
  lemma AscendStepFails(gs: seq<Middleware>, result: seq<string>, trace: seq<Event>)
    requires gs != [] && !AscendPasses(gs[0])
    ensures Ascend(Frames(gs), MockMiddlewareDataClass, result, trace)
         == Ascent(trace + [Resumed(gs[0])],
                   Err(AscendCheck(Name(gs[0]), ResumeShape(gs[0]), MockMiddlewareDataClass).value))
  {
    ResumeShapeIgnoresItems(gs[0], result);
  }

  /** The items of the final result when every generator in `gs` returns data. */
  function Final(gs: seq<Middleware>, result: seq<string>): seq<string>
  {
    if gs == [] then result else Final(gs[1..], Next(gs[0], result))
  }

  /** Ascending through generators that all pass: each is resumed once, in order. */
  lemma {:induction false} AscendPass(gs: seq<Middleware>, result: seq<string>, trace: seq<Event>)
    requires forall i :: 0 <= i < |gs| ==> AscendPasses(gs[i])
    ensures Ascend(Frames(gs), MockMiddlewareDataClass, result, trace) == Ascent(trace + Resumes(gs), Ok(Final(gs, result)))
  {
    if gs != [] {
      var g := gs[0];
      AscendStep(gs, result, trace);
      AscendPass(gs[1..], Next(g, result), trace + [Resumed(g)]);
      assert trace + [Resumed(g)] + Resumes(gs[1..]) == trace + Resumes(gs);
    }
  }

  /**
   * Ascending through `pre`, whose generators all pass, up to `bad`, which fails a check:
   * the generators of `pre` and `bad` itself are resumed, none after it, and its violation is
   * the outcome.
   */
  lemma {:induction false} AscendStops(gs: seq<Middleware>, pre: seq<Middleware>, bad: Middleware, post: seq<Middleware>,
                                       result: seq<string>, trace: seq<Event>)
    requires gs == pre + [bad] + post
    requires forall i :: 0 <= i < |pre| ==> AscendPasses(pre[i])
    requires !AscendPasses(bad)
    ensures Ascend(Frames(gs), MockMiddlewareDataClass, result, trace)
         == Ascent(trace + Resumes(pre) + [Resumed(bad)],
                   Err(AscendCheck(Name(bad), ResumeShape(bad), MockMiddlewareDataClass).value))
  {
    if pre == [] {
      assert gs[0] == bad;
      AscendStepFails(gs, result, trace);
      assert trace + Resumes(pre) == trace;
    } else {
      var g := pre[0];
      assert gs[0] == g && gs[1..] == pre[1..] + [bad] + post;
      assert AscendPasses(pre[0]);
      AscendStep(gs, result, trace);
      AscendStops(gs[1..], pre[1..], bad, post, Next(g, result), trace + [Resumed(g)]);
      assert trace + [Resumed(g)] + Resumes(pre[1..]) == trace + Resumes(pre);
    }
  }

  lemma MockNext(g: Middleware, items: seq<string>)
    requires g.Mock?
    ensures Next(g, items) == items + [StartTag(g)]
  {
  }

  /** Mock middlewares each append their own tag to the result they are sent. */
  lemma {:induction false} MockFinal(gs: seq<Middleware>, result: seq<string>)
    requires forall i :: 0 <= i < |gs| ==> gs[i].Mock?
    ensures Final(gs, result) == result + Tags(gs)
  {
    if gs != [] {
      assert gs[0].Mock?;
      MockNext(gs[0], result);
      MockFinal(gs[1..], result + [StartTag(gs[0])]);
      assert result + [StartTag(gs[0])] + Tags(gs[1..]) == result + Tags(gs);
    }
  }

  /** Ascending through mock middlewares: each appends its tag to the result it is sent. */
  lemma MockAscend(gs: seq<Middleware>, result: seq<string>, trace: seq<Event>)
    requires forall i :: 0 <= i < |gs| ==> gs[i].Mock?
    ensures Ascend(Frames(gs), MockMiddlewareDataClass, result, trace)
         == Ascent(trace + Resumes(gs), Ok(result + Tags(gs)))
  {
    AscendPass(gs, result, trace);
    MockFinal(gs, result);
  }

  /** Every element of the descend order, and of its reverse, is a registered middleware. */
  lemma OrderMembers(order: string, ms: seq<Middleware>, m: Middleware)
    ensures m in DescendOrder(order, ms) <==> m in ms
    ensures m in Reverse(DescendOrder(order, ms)) <==> m in ms
  {
    DescendOrderPermutes(order, ms);
    ReversePermutes(DescendOrder(order, ms));
    assert m in DescendOrder(order, ms) <==> m in multiset(DescendOrder(order, ms));
    assert m in Reverse(DescendOrder(order, ms)) <==> m in multiset(Reverse(DescendOrder(order, ms)));
  }

  lemma StartsOnly(ms: seq<Middleware>)
    ensures forall e :: e in Starts(ms) ==> e.Started?
  {
    if ms != [] {
      StartsOnly(ms[1..]);
    }
  }

  /**
   * A run in which every middleware passes all six checks succeeds: every middleware is
   * started once in descend order, the tip runs once, and every middleware is resumed once
   * in the reverse order; the params end up with every middleware's tag in descend order.
   */
  lemma RunCompletes(tip: MockMiddlewareTip, ms: seq<Middleware>, order: string, params: seq<string>)
    requires forall m :: m in ms ==> DescendPasses(m) && AscendPasses(m)
    ensures var D := DescendOrder(order, ms);
      && RunSpec(tip, ms, order, params).outcome.Ok?
      && RunSpec(tip, ms, order, params).params == params + Tags(D)
      && RunSpec(tip, ms, order, params).trace == Starts(D) + [TipRan] + Resumes(Reverse(D))
  {
    var D := DescendOrder(order, ms);
    forall i | 0 <= i < |D|
      ensures DescendPasses(D[i])
    {
      OrderMembers(order, ms, D[i]);
    }
    forall i | 0 <= i < |Reverse(D)|
      ensures AscendPasses(Reverse(D)[i])
    {
      OrderMembers(order, ms, Reverse(D)[i]);
    }
    DescendPass(D, params, [], []);
    FramesReverse(D);
    AscendPass(Reverse(D), tip.Produced(), Starts(D) + [TipRan]);
    assert [] + Frames(D) == Frames(D);
    assert [] + Starts(D) == Starts(D);
  }

  /**
   * A run in which `D[k]` is the first middleware, in descend order `D`, to fail a descend
   * check throws that check's violation; the middlewares before it and it itself have been
   * started, none after it, the tip has not run and no generator has been resumed.
   */
  lemma RunStopsDescending(tip: MockMiddlewareTip, ms: seq<Middleware>, order: string, params: seq<string>, k: nat)
    requires k < |ms|
    requires forall i :: 0 <= i < k ==> DescendPasses(DescendOrder(order, ms)[i])
    requires !DescendPasses(DescendOrder(order, ms)[k])
    ensures var D := DescendOrder(order, ms);
      RunSpec(tip, ms, order, params)
        == Run(params + Tags(D[..k]) + [StartTag(D[k])], Starts(D[..k]) + [Started(D[k])],
               Err(DescendCheck(Name(D[k]), StartSpec(D[k]), MockMiddlewareDataClass).value))
    ensures forall e :: e in RunSpec(tip, ms, order, params).trace ==> e.Started?
  {
    var D := DescendOrder(order, ms);
    assert D == D[..k] + [D[k]] + D[k + 1..];
    DescendStops(D, D[..k], D[k], D[k + 1..], params, [], []);
    assert [] + Starts(D[..k]) == Starts(D[..k]);
    StartsOnly(D[..k]);
  }

  /**
   * A run in which every middleware passes the descend checks and `A[k]` is the first, in
   * ascend order `A`, to fail an ascend check throws that check's violation; the tip has run
   * once and the generators before it and it itself, none after it, have been resumed.
   */
  lemma RunStopsAscending(tip: MockMiddlewareTip, ms: seq<Middleware>, order: string, params: seq<string>, k: nat)
    requires forall m :: m in ms ==> DescendPasses(m)
    requires k < |ms|
    requires forall i :: 0 <= i < k ==> AscendPasses(Reverse(DescendOrder(order, ms))[i])
    requires !AscendPasses(Reverse(DescendOrder(order, ms))[k])
    ensures var D := DescendOrder(order, ms); var A := Reverse(D);
      RunSpec(tip, ms, order, params)
        == Run(params + Tags(D), Starts(D) + [TipRan] + Resumes(A[..k]) + [Resumed(A[k])],
               Err(AscendCheck(Name(A[k]), ResumeShape(A[k]), MockMiddlewareDataClass).value))
  {
    var D := DescendOrder(order, ms);
    var A := Reverse(D);
    forall i | 0 <= i < |D|
      ensures DescendPasses(D[i])
    {
      OrderMembers(order, ms, D[i]);
    }
    DescendPass(D, params, [], []);
    FramesReverse(D);
    assert A == A[..k] + [A[k]] + A[k + 1..];
    AscendStops(A, A[..k], A[k], A[k + 1..], tip.Produced(), Starts(D) + [TipRan]);
    assert [] + Frames(D) == Frames(D);
    assert [] + Starts(D) == Starts(D);
  }

  /**
   * A run of mock middlewares: the params collect the tags in descend order, and the result
   * is the tip's output followed by the tags in ascend order.
   */
  lemma MockRun(tip: MockMiddlewareTip, ms: seq<Middleware>, order: string, params: seq<string>)
    requires forall m :: m in ms ==> m.Mock?
    ensures var D := DescendOrder(order, ms);
      RunSpec(tip, ms, order, params)
        == Run(params + Tags(D), Starts(D) + [TipRan] + Resumes(Reverse(D)),
               Ok(tip.Produced() + Tags(Reverse(D))))
  {
    var D := DescendOrder(order, ms);
    forall i | 0 <= i < |D|
      ensures DescendPasses(D[i])
    {
      OrderMembers(order, ms, D[i]);
    }
    forall i | 0 <= i < |Reverse(D)|
      ensures Reverse(D)[i].Mock?
    {
      OrderMembers(order, ms, Reverse(D)[i]);
    }
    DescendPass(D, params, [], []);
    FramesReverse(D);
    MockAscend(Reverse(D), tip.Produced(), Starts(D) + [TipRan]);
    assert [] + Frames(D) == Frames(D);
    assert [] + Starts(D) == Starts(D);
  }

  /**
   * The same run by order: FIFO descends from the last registered to the first and returns
   * the tags in registration order; LIFO the other way round.
   */
  lemma MockRunOrder(tip: MockMiddlewareTip, ms: seq<Middleware>, order: string, params: seq<string>)
    requires forall m :: m in ms ==> m.Mock?
    ensures order != OrderLifo ==>
      && RunSpec(tip, ms, order, params).params == params + Reverse(Tags(ms))
      && RunSpec(tip, ms, order, params).outcome == Ok(tip.Produced() + Tags(ms))
    ensures order == OrderLifo ==>
      && RunSpec(tip, ms, order, params).params == params + Tags(ms)
      && RunSpec(tip, ms, order, params).outcome == Ok(tip.Produced() + Reverse(Tags(ms)))
  {
    MockRun(tip, ms, order, params);
    AscendOrder(order, ms);
    TagsReverse(ms);
  }

  /** Without middlewares a run is just the tip. */
  lemma RunWithoutMiddlewares(tip: MockMiddlewareTip, order: string, params: seq<string>)
    ensures RunSpec(tip, [], order, params) == Run(params, [TipRan], Ok(tip.Produced()))
  {
    assert Reverse<Middleware>([]) == [];
  }
}
