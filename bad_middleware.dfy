/**
 * The test middleware `BadMiddleware`, which breaks the protocol in the way its mode names.
 * In every mode it first pushes "bad" onto the params.
 */
module BadMiddlewareFixture {
  import opened Wrappers
  import opened MockData
  import opened Objects
  import opened Generator

  const BadMiddlewareClass: ClassName := "Garden\\Middleware\\Tests\\Fixtures\\BadMiddleware"

  const ModeNoReturn := "noreturn"
  const ModeNoYield := "noyield"
  const ModeExtraYield := "extrayield"
  const ModeWrongReturn := "wrongreturn"
  const ModeWrongYield := "wrongyield"

  datatype BadMiddleware = BadMiddleware(mode: string) {

    /**
     * `process($params)` run to its first `yield`. The push of "bad" comes first; in
     * MODE_NO_YIELD the body runs to its end without suspending (its return value is never
     * looked at); in MODE_WRONG_YIELD it suspends with a new stdClass; otherwise with the params.
     */
    method Process(params: MockMiddlewareData) returns (s: Start<Value>)
      modifies params
      ensures params.items == old(params.items) + ["bad"]
      ensures mode == ModeNoYield ==> s == NoYield
      ensures mode == ModeWrongYield ==> s.Yielded? && s.value.Some? && s.value.value.Std? && fresh(s.value.value.s)
      ensures mode != ModeNoYield && mode != ModeWrongYield ==> s == Yielded(Some(Data(params)))
    {
      params.Push("bad");
      if mode != ModeNoYield {
        if mode == ModeWrongYield {
          var o := new StdClass();
          s := Yielded(Some(Std(o)));
        } else {
          s := Yielded(Some(Data(params)));
        }
      } else {
        s := NoYield;
      }
    }

    /**
     * Sending `result` to the generator. Outside MODE_WRONG_YIELD the generator pushes "bad"
     * onto the result; MODE_EXTRA_YIELD then suspends again; MODE_WRONG_RETURN returns a new
     * stdClass, MODE_NO_RETURN null, and the other modes a new data object holding ["bad"].
     * In MODE_NO_YIELD the generator has already finished: sending does nothing and the
     * return value read back is the one of its completed body.
     */
    method Send(result: MockMiddlewareData) returns (r: Resume<Value>)
      modifies result
      ensures result.items == old(result.items) + (if Suspends() && mode != ModeWrongYield then ["bad"] else [])
      ensures mode == ModeExtraYield ==> r == YieldedAgain
      ensures mode == ModeWrongReturn ==> r.Returned? && r.value.Some? && r.value.value.Std? && fresh(r.value.value.s)
      ensures mode == ModeNoReturn ==> r == Returned(None)
      ensures mode !in {ModeExtraYield, ModeWrongReturn, ModeNoReturn} ==>
        r.Returned? && r.value.Some? && r.value.value.Data? && fresh(r.value.value.d) && r.value.value.d.items == ["bad"]
    {
      if Suspends() {
        if mode != ModeWrongYield {
          result.Push("bad");
        }
        if mode == ModeExtraYield {
          r := YieldedAgain;
          return;
        }
      }
      if mode == ModeWrongReturn {
        var o := new StdClass();
        r := Returned(Some(Std(o)));
      } else if mode == ModeNoReturn {
        r := Returned(None);
      } else {
        var d := new MockMiddlewareData(["bad"]);
        r := Returned(Some(Data(d)));
      }
    }

    /** Whether `process` reaches a `yield` at all. */
    predicate Suspends()
    {
      mode != ModeNoYield
    }

    /** The start step's outcome as classes. */
    function StartSpec(): Start<ClassName>
    {
      if mode == ModeNoYield then NoYield
      else if mode == ModeWrongYield then Yielded(Some(StdClassName))
      else Yielded(Some(MockMiddlewareDataClass))
    }

    /** The resume step's outcome; the result that was sent is never returned. */
    function ResumeSpec(items: seq<string>): Resume<ObjState>
    {
      if mode == ModeExtraYield then YieldedAgain
      else if mode == ModeWrongReturn then Returned(Some(StdState))
      else if mode == ModeNoReturn then Returned(None)
      else Returned(Some(DataState(["bad"])))
    }
  }
}
