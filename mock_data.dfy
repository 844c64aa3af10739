/** The test data object `MockMiddlewareData`: a list of strings appended to in place. */
module MockData {

  class MockMiddlewareData {
    var items: seq<string>

    /** `new MockMiddlewareData(...$items)`: the items are the arguments, in order. */
    constructor (items: seq<string>)
      ensures this.items == items
    {
      this.items := items;
    }

    /** Appends one item at the end; nothing else changes. */
    method Push(item: string)
      modifies this
      ensures items == old(items) + [item]
    {
      items := items + [item];
    }

    /** Returns the current items and changes nothing. */
    method GetItems() returns (r: seq<string>)
      ensures r == items
    {
      r := items;
    }
  }
}
