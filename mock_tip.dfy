/** The test tip `MockMiddlewareTip`: it ignores the params and returns a new data object. */
module MockTipFixture {
  import opened MockData

  datatype MockMiddlewareTip = MockMiddlewareTip(result: string) {

    /** `run($params)`: neither reads nor changes the params; returns a fresh data object. */
    method Run(params: MockMiddlewareData) returns (r: MockMiddlewareData)
      ensures fresh(r)
      ensures r.items == Produced()
    {
      r := new MockMiddlewareData([result]);
    }

    /** The items of the object the tip produces. */
    function Produced(): seq<string>
    {
      [result]
    }
  }
}
