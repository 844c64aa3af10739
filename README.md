# garden-middleware, modelled in Dafny

This is a model of the middleware engine of `vanilla/garden-middleware`, with proofs about it.

A **middleware** is a coroutine. It gets the request **params**, does some work on them, and
suspends by yielding. Later it is resumed with a **result**, does some more work on it, and
returns a result of its own. The **tip** turns the params into the first result.

`MiddlewareExecutor::run` runs the engine in two phases:
- **Descend.** It starts every middleware in *descend order*, checking each suspension.
- **Ascend.** It calls the tip once. Then it resumes the suspended middlewares in the reverse of
  the order they were started, passing each one's output to the next and checking each return.

Six checks can abort a run with an `InvalidMiddlewareException`, each with an exact message.

`MiddlewareCollection` is the configuration object an application builds up: an order, a tip,
and the list of middlewares, which may include other collections. Running a collection checks
that it has a tip and then performs an executor run.

The model is closed-world. The middlewares are those of the test suite:
- `MockMiddleware` tags the params and the result;
- `BadMiddleware` breaks the protocol in one of five ways;
- the tip is `MockMiddlewareTip`;
- the params and results are `MockMiddlewareData` objects.

Every theorem about the executor holds for every list of such middlewares, with any tags and
any modes.

Layout, one Dafny module per file:

| file | module | models |
|---|---|---|
| `wrappers.dfy` | `Wrappers` | `Option` and `Result` |
| `sequences.dfy` | `Sequences` | reversal of sequences |
| `mock_data.dfy` | `MockData` | `MockMiddlewareData` as a class with an in-place item list |
| `objects.dfy` | `Objects` | class names, `is_a`, `stdClass`, and the objects a middleware can yield or return |
| `generator.dfy` | `Generator` | the two observations the executor makes of a generator |
| `errors.dfy` | `Errors` | the six violations, their messages, and the exception |
| `mock_middleware.dfy`, `bad_middleware.dfy`, `mock_tip.dfy` | fixtures | the test middlewares and the tip |
| `middlewares.dfy` | `Middlewares` | dispatch of `process` and of the generator's resumption |
| `executor.dfy` | `Executor` | the order helpers, the checks, the reference semantics `RunSpec`, and the imperative `MiddlewareExecutor.Run` proved equal to it |
| `executor_properties.dfy` | `ExecutorProperties` | what every run guarantees |
| `collection.dfy` | `Collection` | `MiddlewareCollection` as a class over a footprint of nested collections |
| `collection_tests.dfy` | `CollectionTests` | the scenarios of `tests/MiddlewareCollectionTest.php`, on the reference semantics and on the collection object |

How the PHP constructs are modelled:
- **Generators.** A generator is seen through two observations:
  - its start: it did not suspend, or it suspended with a possibly null value;
  - its resumption: it suspended again, or it returned a possibly null value.
  The suspended generator is represented by its middleware. Each fixture's second half uses
  its own fields and the value sent to it. The one exception is BadMiddleware's second yield
  of the params in MODE_EXTRA_YIELD; that value is never read (see "## Left out").
- **Classes.** A class is a fully qualified class-name string, and `is_a` is equality. None of
  the modelled classes extends another.
- **Events.** The ghost event trace (`Started`, `TipRan`, `Resumed`) records which middlewares
  are started and resumed, and in which order.

`MiddlewareExecutor.Run` passes one and the same params object to every middleware's start and
to the tip. The value a middleware yields is checked but not passed on. The class of the tip's
result is computed once, before the ascend loop, and every return is checked against it.

`MiddlewareCollection::process` (src/MiddlewareCollection.php:99-105) calls an executor API
split into `processParams`/`processResult`, and `MiddlewareCollection::run`
(src/MiddlewareCollection.php:95-96) calls a two-argument constructor and `process`. The
executor defines only a three-argument constructor and `run` (src/MiddlewareExecutor.php:39-53),
so the model follows the executor.

## Model

| member | source | states |
|---|---|---|
| MockData.MockMiddlewareData.constructor | tests/Fixtures/MockMiddlewareData.php:25-27 | the items are exactly the constructor arguments, in order |
| MockData.MockMiddlewareData.Push | tests/Fixtures/MockMiddlewareData.php:34-36 | the item is appended at the end; earlier items and everything else are unchanged |
| MockData.MockMiddlewareData.GetItems | tests/Fixtures/MockMiddlewareData.php:41-43 | returns the current items and changes nothing |
| Objects.Observe | src/MiddlewareExecutor.php:98-109 | reading a returned object: its observed state has the object's class, and a data object's state is its items |
| Objects.IsA | src/MiddlewareExecutor.php:73-104 | `is_a` with class names allowed: a class is-a another exactly when they are the same class, since no modelled class extends another |
| Objects.ClassOf | src/MiddlewareExecutor.php:72 | `get_class`: a data object has the MockMiddlewareData class, a stdClass object the class stdClass |
| Generator.ObserveResume | src/MiddlewareExecutor.php:93-98 | observing a resumption keeps its shape and the classes of what it returns |
| MockMiddlewareFixture.MockMiddleware.Process | tests/Fixtures/MockMiddleware.php:37-42 | pushes its tag onto the params, then suspends yielding the very params object |
| MockMiddlewareFixture.MockMiddleware.StartSpec | tests/Fixtures/MockMiddleware.php:37-42 | starting a mock always suspends, once, yielding a MockMiddlewareData object (the params) |
| MockMiddlewareFixture.MockMiddleware.ResumeSpec | tests/Fixtures/MockMiddleware.php:42-46 | resuming a mock on a result holding some items returns a data object holding those items followed by its tag |
| MockMiddlewareFixture.MockMiddleware.Send | tests/Fixtures/MockMiddleware.php:42-46 | pushes its tag onto the result it is sent and returns that same object |
| BadMiddlewareFixture.BadMiddleware.Process | tests/Fixtures/BadMiddleware.php:33-40 | always pushes "bad" first; MODE_NO_YIELD never suspends, MODE_WRONG_YIELD yields a newly allocated stdClass, every other mode yields the params |
| BadMiddlewareFixture.BadMiddleware.Suspends | tests/Fixtures/BadMiddleware.php:36 | the body reaches a `yield` exactly when the mode is not MODE_NO_YIELD |
| BadMiddlewareFixture.BadMiddleware.StartSpec | tests/Fixtures/BadMiddleware.php:33-40 | MODE_NO_YIELD finishes without suspending, MODE_WRONG_YIELD suspends with a stdClass, any other mode suspends with a MockMiddlewareData object (the params) |
| BadMiddlewareFixture.BadMiddleware.ResumeSpec | tests/Fixtures/BadMiddleware.php:40-56 | MODE_EXTRA_YIELD suspends again, MODE_WRONG_RETURN returns a stdClass, MODE_NO_RETURN returns null, any other mode returns data holding ["bad"]; the sent result is never returned |
| BadMiddlewareFixture.BadMiddleware.Send | tests/Fixtures/BadMiddleware.php:40-56 | pushes "bad" onto the result unless in MODE_WRONG_YIELD; MODE_EXTRA_YIELD suspends again, MODE_WRONG_RETURN returns a newly allocated stdClass, MODE_NO_RETURN returns null, and any other mode returns a new data object holding ["bad"] |
| MockTipFixture.MockMiddlewareTip.Produced | tests/Fixtures/MockMiddlewareTip.php:37 | the object the tip produces holds exactly its constructor argument |
| MockTipFixture.MockMiddlewareTip.Run | tests/Fixtures/MockMiddlewareTip.php:36-38 | returns a newly allocated data object holding [result]; the params are neither changed nor returned |
| Middlewares.Name | src/MiddlewareExecutor.php:59 | `get_class($middleware)`: the MockMiddleware or the BadMiddleware class name |
| Middlewares.StartTag | src/MiddlewareExecutor.php:60 | the one item starting a middleware pushes onto the params: a mock's tag, "bad" for a faulty one in every mode |
| Middlewares.StartSpec | src/MiddlewareExecutor.php:60-72 | the start outcome, as classes, of the middleware's own class |
| Middlewares.ResumeSpec | src/MiddlewareExecutor.php:92-98 | the resume outcome, as object states, of the middleware's own class on a result holding the given items |
| Middlewares.SentTag | src/MiddlewareExecutor.php:92 | what resuming pushes onto the sent result: a mock's tag; "bad" for a faulty one that suspended, except in MODE_WRONG_YIELD; nothing otherwise |
| Middlewares.Process | src/MiddlewareExecutor.php:60 | starting any middleware appends exactly its tag to the params, and the outcome has the classes its start specification gives |
| Middlewares.Send | src/MiddlewareExecutor.php:92-98 | resuming any middleware pushes exactly its sent tag onto the result (its own tag for a mock; "bad" for a faulty one that suspended, except in MODE_WRONG_YIELD) and gives the outcome its resume specification gives for the result's items; a returned data object is the result itself or newly allocated |
| Sequences.ReverseAt | src/MiddlewareExecutor.php:146-150 | walking from the end visits element k at position n-1-k |
| Sequences.ReverseReverse | src/MiddlewareExecutor.php:91 | reversing the reversed stack gives back the order the middlewares were stacked in |
| Sequences.ReversePermutes | src/MiddlewareExecutor.php:146-150 | reversal visits every element exactly as often as it occurs |
| Executor.DescendOrder | src/MiddlewareExecutor.php:127-135 | the order the descend loop visits: registration order for exactly "lifo", its reverse otherwise, of the same length |
| Executor.IterateReverse | src/MiddlewareExecutor.php:146-150 | the loop from the last element back to the first yields the reversal of its input |
| Executor.Iterate | src/MiddlewareExecutor.php:127-135 | exactly "lifo" keeps registration order; any other order string, "fifo" included, reverses it |
| Executor.AscendOrder | src/MiddlewareExecutor.php:127-135 | the ascend order, the reverse of the descend order, is registration order under FIFO and its reverse under LIFO |
| Executor.DescendOrderPermutes | src/MiddlewareExecutor.php:127-150 | the descend order holds every registered middleware exactly as often as it is registered |
| Executor.DescendCheck | src/MiddlewareExecutor.php:61-81 | the checks run in order (suspended, non-null, is-a the params' class), the first failure is reported with its violation, and no violation means all three hold |
| Executor.AscendCheck | src/MiddlewareExecutor.php:93-112 | the checks run in order (finished, non-null, is-a the tip result's class), the first failure is reported with its violation, and no violation means all three hold |
| Executor.Descend | src/MiddlewareExecutor.php:58-84 | reference descent: each middleware in turn pushes its tag and is logged as started; one that passes the three checks is stacked with its class, the first that fails stops the descent with its violation |
| Executor.Ascend | src/MiddlewareExecutor.php:91-113 | reference ascent: each stack entry in turn is resumed with the current result; one that passes the three checks hands its returned items on, the first that fails ends the ascent with its violation |
| Executor.RunSpec | src/MiddlewareExecutor.php:53-116 | reference run: descend in descend order; on a failure the run ends with its violation; otherwise the tip runs once and the stack is ascended in reverse |
| Executor.MiddlewareExecutor.constructor | src/MiddlewareExecutor.php:39-43 | stores the tip, the list and the order |
| Executor.MiddlewareExecutor.Run | src/MiddlewareExecutor.php:53-116 | the params' items, the events and the outcome are those of the reference semantics `RunSpec`; a violation is thrown as the exception carrying its message; a result is a data object allocated during the run |
| Executor.MiddlewareExecutor.DescendAll | src/MiddlewareExecutor.php:54-84 | the descend loop leaves the params, the stack of (class, generator) pairs, the events and the first violation that the reference descent `Descend` gives |
| Executor.MiddlewareExecutor.AscendAll | src/MiddlewareExecutor.php:88-113 | the ascend loop gives the events and the outcome of the reference ascent `Ascend`, checking every return against the tip result's class; a returned data object is the tip's result or allocated during the loop |
| ExecutorProperties.ResumeShapeIgnoresItems | tests/Fixtures/BadMiddleware.php:49-56 | which check a resumption passes does not depend on the items of the result sent in |
| ExecutorProperties.DescendPass | src/MiddlewareExecutor.php:58-84 | when every middleware passes, each pushes its tag, is stacked with its class and is logged as started, in order |
| ExecutorProperties.DescendStops | src/MiddlewareExecutor.php:58-84 | for a descend order `pre + [bad] + post` where all of `pre` pass and `bad` fails, `pre` and `bad` are started, only `pre` is stacked, `post` is never started, and `bad`'s violation ends the descent |
| ExecutorProperties.AscendPass | src/MiddlewareExecutor.php:91-113 | when every generator passes, each is resumed exactly once, in stack order, and the ascent succeeds |
| ExecutorProperties.AscendStops | src/MiddlewareExecutor.php:91-113 | for a stack `pre + [bad] + post` whose `pre` all pass and whose `bad` fails, `pre` and `bad` are resumed, `post` never, and `bad`'s violation is the outcome |
| ExecutorProperties.MockFinal | tests/Fixtures/MockMiddleware.php:42-46 | resuming mock middlewares one after another appends their tags to the result in resumption order |
| ExecutorProperties.MockAscend | src/MiddlewareExecutor.php:91-98 | through mock middlewares the result is passed on, each appending its tag |
| ExecutorProperties.OrderMembers | src/MiddlewareExecutor.php:127-150 | a middleware is in the descend order, and in the ascend order, exactly when it is registered |
| ExecutorProperties.RunCompletes | src/MiddlewareExecutor.php:53-116 | if every middleware passes all six checks, the run succeeds: each middleware is started once in descend order, then the tip runs once, then each is resumed once in reverse, and the params collect every tag in descend order |
| ExecutorProperties.RunStopsDescending | src/MiddlewareExecutor.php:56-87 | if entry k of the descend order is the first to fail, the run throws its violation, the params hold the tags of entries 0..k, only those are started, the tip never runs and nothing is resumed |
| ExecutorProperties.RunStopsAscending | src/MiddlewareExecutor.php:87-113 | if every middleware starts cleanly and entry k of the ascend order is the first to fail, the run throws its violation after all starts and one tip run; entries 0..k are resumed and none after |
| ExecutorProperties.MockRun | src/MiddlewareExecutor.php:53-116 | with mock middlewares the params get the tags in descend order, and the result is the tip's output followed by the tags in ascend order |
| ExecutorProperties.MockRunOrder | src/MiddlewareExecutor.php:127-135 | FIFO gives the result the tags in registration order and the params the tags reversed; LIFO the mirror image |
| ExecutorProperties.RunWithoutMiddlewares | src/MiddlewareExecutor.php:87-115 | with no middlewares the tip's result is returned unchanged and the params are untouched |
| Errors.Message | src/MiddlewareExecutor.php:62-106 | the six message formats, each with the middleware's class, and the expected and actual class for the two type mismatches |
| Errors.Exception | src/MiddlewareExecutor.php:62-111 | a violation is reported as an `InvalidMiddlewareException` carrying exactly its message |
| Errors.MessageNamesMiddleware | src/MiddlewareExecutor.php:62-106 | every one of the six messages contains the offending middleware's class |
| Errors.MessageNamesClasses | src/MiddlewareExecutor.php:74-110 | a type-mismatch message, on yield or on return, contains "Expected a X instead got a Y" with the expected and the actual class |
| Collection.MiddlewareCollection.constructor | src/MiddlewareCollection.php:40-42 | a new collection is empty, has no tip, and has order "fifo" unless another order is given |
| Collection.MiddlewareCollection.SetOrder | src/MiddlewareCollection.php:47-54 | this collection and every collection nested in it, at any depth, get the new order; only order fields change |
| Collection.MiddlewareCollection.SetTip | src/MiddlewareCollection.php:65-68 | stores the tip and returns the same collection; the list and the order are unchanged |
| Collection.MiddlewareCollection.AddMiddleware | src/MiddlewareCollection.php:77-80 | appends the entry at the end and returns the same collection; earlier entries, the order and the tip are unchanged |
| Collection.MiddlewareCollection.Run | src/MiddlewareCollection.php:90-96 | without a tip, whatever the list holds, it throws "Cannot run middleware without seeding it." and changes nothing; otherwise its outcome is an executor run over the current list and order; the collection is never changed |
| CollectionTests.FixtureChecks | tests/Fixtures/BadMiddleware.php:33-57 | the mock middleware passes all six checks; a faulty one fails the descend checks exactly in MODE_NO_YIELD and MODE_WRONG_YIELD, and the ascend checks exactly in MODE_EXTRA_YIELD, MODE_WRONG_RETURN and MODE_NO_RETURN |
| CollectionTests.FifoOfFour | tests/MiddlewareCollectionTest.php:47-52 | FIFO over any four mock middlewares: the full params, events and result |
| CollectionTests.LifoOfFour | tests/MiddlewareCollectionTest.php:57-63 | LIFO over any four mock middlewares: the full params, events and result |
| CollectionTests.FifoRun | tests/MiddlewareCollectionTest.php:47-52 | params [initial, middle4, middle3, middle2, middle1] and result [result, middle1, middle2, middle3, middle4] |
| CollectionTests.LifoRun | tests/MiddlewareCollectionTest.php:57-63 | params [initial, middle1, middle2, middle3, middle4] and result [result, middle4, middle3, middle2, middle1] |
| CollectionTests.DescendFailureOfFour | tests/MiddlewareCollectionTest.php:68-94 | under FIFO, a middleware registered last that fails a descend check is the only one started |
| CollectionTests.AscendFailureOfFour | tests/MiddlewareCollectionTest.php:78-115 | under FIFO, a middleware registered last that fails an ascend check is resumed last, after every other middleware and the tip |
| CollectionTests.DescendFailureRun | tests/MiddlewareCollectionTest.php:68-94 | MODE_NO_YIELD gives "did not yield" and MODE_WRONG_YIELD gives "did not yield the same type", with params [initial, bad] and no tip call |
| CollectionTests.BadDescendViolation | tests/Fixtures/BadMiddleware.php:33-38 | MODE_NO_YIELD fails the descend checks as "did not yield", MODE_WRONG_YIELD as a yield of stdClass instead of the params' class |
| CollectionTests.BadAscendViolation | tests/Fixtures/BadMiddleware.php:36-53 | MODE_EXTRA_YIELD, MODE_NO_RETURN and MODE_WRONG_RETURN start cleanly and fail the ascend checks with a second yield, a null return and a stdClass return |
| CollectionTests.AscendFailureRun | tests/MiddlewareCollectionTest.php:78-115 | MODE_EXTRA_YIELD, MODE_NO_RETURN and MODE_WRONG_RETURN fail at the last ascend step with their violations |
| CollectionTests.SetUp | tests/MiddlewareCollectionTest.php:30-42 | the collection has order "fifo", the tip "result" and middle1..middle4 in order |
| CollectionTests.SetUpWithBad | tests/MiddlewareCollectionTest.php:70 | the error tests' collection has the faulty middleware after middle4 |
| CollectionTests.RunOnInitial | tests/MiddlewareCollectionTest.php:47-52 | running a seeded collection of plain middlewares on params [initial] leaves the params, the result and the message that `RunSpec` gives |
| CollectionTests.TestFifo | tests/MiddlewareCollectionTest.php:47-52 | running the collection object leaves the params and result items the test asserts |
| CollectionTests.TestLifo | tests/MiddlewareCollectionTest.php:57-63 | after setOrder(LIFO), running the collection object leaves the mirrored items |
| CollectionTests.RunWithBad | tests/MiddlewareCollectionTest.php:68-115 | running the error tests' collection throws each mode's message and leaves the params the failure point implies |
| CollectionTests.TestErrorDifferentParams | tests/MiddlewareCollectionTest.php:68-73 | the full message, which contains the text the test expects |
| CollectionTests.TestErrorDifferentResult | tests/MiddlewareCollectionTest.php:78-83 | the full message, which contains "Expected a …MockMiddlewareData instead got a stdClass" |
| CollectionTests.TestErrorNoYield | tests/MiddlewareCollectionTest.php:88-94 | the message is "Middleware did not yield: " followed by BadMiddleware's class |
| CollectionTests.TestErrorNoReturn | tests/MiddlewareCollectionTest.php:99-105 | the message is "Middleware not return a result: " followed by BadMiddleware's class |
| CollectionTests.TestErrorTooManyYields | tests/MiddlewareCollectionTest.php:110-115 | the message is "Middleware did not yield exactly once: " followed by BadMiddleware's class |
| CollectionTests.NotSeededNested | src/MiddlewareCollection.php:91-93 | a tip-less collection holding another collection also throws the seeding message and leaves the params as they were |
| CollectionTests.TestNotSeeded | src/MiddlewareCollection.php:91-93 | a collection without a tip throws the seeding message and leaves the params as they were |

## Left out

- Arbitrary user middlewares and tips: Dafny has no open dispatch to unknown code here, so only the fixture middlewares and tip are modelled. Every executor theorem holds for every list of them.
- PHP generator mechanics (`valid`, `current`, `send`, `getReturn`): these are replaced by the two observations of a generator. The value of a second yield (MODE_EXTRA_YIELD) is never looked at, so it is not modelled.
- BadMiddlewareFixture.BadMiddleware.Process: in MODE_NO_YIELD the body runs to its end at once and allocates its return value. The model allocates nothing at start, because the executor never reads that value.
- Reflection (`get_class`, `is_a`): class names are strings and `is_a` is equality. The PHP `TypeError` that `get_class` raises on a non-object, and a call to `push` on a non-data object, cannot arise with the fixtures.
- `MiddlewareCollection::process` and running a collection nested inside another: both go through executor methods that the source does not define (`processParams`, `processResult`). So `Collection.MiddlewareCollection.Run` requires every entry to be a plain middleware when the collection has a tip. Without a tip the seeding error is thrown whatever the list holds. Only the propagation of `setOrder` into nested collections is modelled.
- Collection.MiddlewareCollection.SetOrder: requires `Valid()`, whose footprint of an outer collection only grows through the outer collection's own `AddMiddleware`. If a collection is nested and afterwards gets a collection of its own, the outer collection's footprint misses the new one and it is no longer valid. Keeping every ancestor valid would need links from a collection to the collections that hold it, which PHP does not have. So the model does not capture `setOrder` on such an outer collection, which in PHP still reaches the late-added collection.
- Collection.MiddlewareCollection.AddMiddleware: for the same reason it cannot be called on an outer collection after one of its nested collections got a collection of its own, which PHP allows.
- The collection's call into the executor uses a two-argument constructor and `process($tip, …)`, the executor calls `$this->tip->process`, and the test calls `seedCollection`. None of these exist in the source. The model uses the three-argument constructor with `run`, the tip's `run`, and `setTip`.
- Collection.MiddlewareCollection.AddMiddleware: adding a collection to itself, directly or through nesting, is excluded. PHP would accept the cycle and then recurse forever in `setOrder`.
- Sharing one generator object between two stack entries, and any aliasing between the params and a result, do not arise with the fixtures and are not modelled.
- Call-stack depth (the executor's two loops instead of recursion) is not a property in Dafny's terms and is not stated.
- Executor.MiddlewareExecutor.Run: for an empty list, the model states that the result holds the tip's items. It does not state that the result is the very object the tip returned.
