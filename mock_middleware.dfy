/**
 * The test middleware `MockMiddleware`: it pushes its tag onto the params, suspends with the
 * params, then pushes its tag onto the result it is sent and returns that same result.
 */
module MockMiddlewareFixture {
  import opened Wrappers
  import opened MockData
  import opened Objects
  import opened Generator

  const MockMiddlewareClass: ClassName := "Garden\\Middleware\\Tests\\Fixtures\\MockMiddleware"

  datatype MockMiddleware = MockMiddleware(toPush: string) {

    /** `process($params)` run to its one `yield`: push the tag, suspend with the params. */
    method Process(params: MockMiddlewareData) returns (s: Start<Value>)
      modifies params
      ensures params.items == old(params.items) + [toPush]
      ensures s == Yielded(Some(Data(params)))
    {
      params.Push(toPush);
      s := Yielded(Some(Data(params)));
    }

    /** Sending `result` to the suspended generator: push the tag onto it and return it. */
    method Send(result: MockMiddlewareData) returns (r: Resume<Value>)
      modifies result
      ensures result.items == old(result.items) + [toPush]
      ensures r == Returned(Some(Data(result)))
    {
      result.Push(toPush);
      r := Returned(Some(Data(result)));
    }

    /** The start step's outcome as classes: it suspends once with a data object. */
    function StartSpec(): Start<ClassName>
    {
      Yielded(Some(MockMiddlewareDataClass))
    }

    /** The resume step on a result holding `items`: it returns that result with the tag added. */
    function ResumeSpec(items: seq<string>): Resume<ObjState>
    {
      Returned(Some(DataState(items + [toPush])))
    }
  }
}
