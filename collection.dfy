/**
 * `MiddlewareCollection`: the configuration an application builds up (order, tip, list of
 * middlewares, possibly other collections) and runs. Nesting is tracked by the ghost
 * footprint `Repr`: the collection itself and, recursively, every collection in its list.
 */
module Collection {
  import opened Wrappers
  import opened MockData
  import opened Objects
  import opened Errors
  import opened Middlewares
  import opened MockTipFixture
  import opened Executor

  /** An element of the list: a middleware, or a collection used as a middleware. */
  datatype Entry = Leaf(middleware: Middleware) | Nested(collection: MiddlewareCollection)

  /** The footprints of the nested collections in `es`, read within the set `within`. */
  ghost function ReprOf(es: seq<Entry>, within: set<MiddlewareCollection>): set<MiddlewareCollection>
    requires forall i :: 0 <= i < |es| && es[i].Nested? ==> es[i].collection in within
    reads within`Repr
  {
    if es == [] then {}
    else
      var last := es[|es| - 1];
      ReprOf(es[..|es| - 1], within) + (if last.Nested? then last.collection.Repr else {})
  }

  /** `ReprOf` depends only on the nested collections, not on the set they are read within. */
  lemma {:induction false} ReprOfWithin(es: seq<Entry>, w1: set<MiddlewareCollection>, w2: set<MiddlewareCollection>)
    requires forall i :: 0 <= i < |es| && es[i].Nested? ==> es[i].collection in w1
    requires w1 <= w2
    ensures ReprOf(es, w1) == ReprOf(es, w2)
  {
    if es != [] {
      ReprOfWithin(es[..|es| - 1], w1, w2);
    }
  }

  /** The middlewares of a list that holds no nested collection. */
  function Leaves(es: seq<Entry>): (ms: seq<Middleware>)
    requires forall i :: 0 <= i < |es| ==> es[i].Leaf?
    ensures |ms| == |es|
    ensures forall i :: 0 <= i < |es| ==> ms[i] == es[i].middleware
  {
    if es == [] then [] else [es[0].middleware] + Leaves(es[1..])
  }

  class MiddlewareCollection {
    var order: string
    var tip: Option<MockMiddlewareTip>
    var middlewares: seq<Entry>
    ghost var Repr: set<MiddlewareCollection>

    /** The nesting is acyclic and `Repr` is exactly this collection plus its nested footprints. */
    ghost predicate Valid()
      reads this`middlewares, this`Repr, Repr`middlewares, Repr`Repr
      decreases Repr
    {
      && this in Repr
      && (forall i :: 0 <= i < |middlewares| && middlewares[i].Nested? ==>
            && middlewares[i].collection in Repr
            && middlewares[i].collection.Repr <= Repr
            && this !in middlewares[i].collection.Repr
            && middlewares[i].collection.Valid())
      && Repr == {this} + ReprOf(middlewares, Repr - {this})
    }

    /** A new collection is empty, has no tip, and runs in `order`, FIFO unless given. */
    constructor (order: string := OrderFifo)
      ensures Valid() && fresh(Repr)
      ensures this.order == order && tip == None && middlewares == []
    {
      this.order := order;
      tip := None;
      middlewares := [];
      Repr := {this};
    }

    /**
     * Sets the order of this collection and of every collection nested in it, at any depth.
     * Only order fields of those collections change.
     */
    method SetOrder(order: string)
      requires Valid()
      modifies Repr`order
      ensures Valid()
      ensures forall c :: c in Repr ==> c.order == order
      decreases Repr
    {
      this.order := order;
      var i := 0;
      ghost var done: set<MiddlewareCollection> := {this};
      while i < |middlewares|
        invariant 0 <= i <= |middlewares|
        invariant Valid()
        invariant done == {this} + ReprOf(middlewares[..i], Repr - {this})
        invariant forall c :: c in done ==> c.order == order
      {
        assert middlewares[..i + 1][..i] == middlewares[..i];
        if middlewares[i].Nested? {
          var nested := middlewares[i].collection;
          assert nested in Repr && nested.Repr <= Repr && this !in nested.Repr;
          nested.SetOrder(order);
          done := done + nested.Repr;
        }
        i := i + 1;
      }
      assert middlewares[..i] == middlewares;
    }

    /** Stores the tip and returns this collection; the list and the order are kept. */
    method SetTip(tip: MockMiddlewareTip) returns (self: MiddlewareCollection)
      modifies this`tip
      ensures this.tip == Some(tip) && self == this
    {
      this.tip := Some(tip);
      self := this;
    }

    /**
     * Appends `entry` at the end of the list and returns this collection; the earlier
     * entries, the order and the tip are kept.
     */
    method AddMiddleware(entry: Entry) returns (self: MiddlewareCollection)
      requires Valid()
      requires entry.Nested? ==> entry.collection.Valid() && this !in entry.collection.Repr
      modifies this`middlewares, this`Repr
      ensures Valid() && self == this
      ensures middlewares == old(middlewares) + [entry]
      ensures Repr == old(Repr) + if entry.Nested? then entry.collection.Repr else {}
    {
      middlewares := middlewares + [entry];
      if entry.Nested? {
        Repr := Repr + entry.collection.Repr;
      }
      assert middlewares[..|middlewares| - 1] == old(middlewares);
      ReprOfWithin(old(middlewares), old(Repr) - {this}, Repr - {this});
      self := this;
    }

    /**
     * Runs the collection on `params`. Without a tip it throws the seeding error and touches
     * nothing, whatever the list holds; otherwise it is a fresh executor run over the current list and order. The
     * collection itself is not changed.
     */
    method Run(params: MockMiddlewareData) returns (r: Result<Value, InvalidMiddlewareException>, ghost trace: seq<Event>)
      requires tip.Some? ==> forall i :: 0 <= i < |middlewares| ==> middlewares[i].Leaf?
      modifies params
      ensures tip.None? ==>
        r == Err(InvalidMiddlewareException(NotSeededMessage)) && params.items == old(params.items) && trace == []
      ensures tip.Some? ==> Conforms(RunSpec(tip.value, Leaves(middlewares), order, old(params.items)), params, r, trace)
      ensures r.Ok? ==> r.value.Data? && fresh(r.value.d)
    {
      if tip.None? {
        r := Err(InvalidMiddlewareException(NotSeededMessage));
        trace := [];
        return;
      }
      var executor := new MiddlewareExecutor(tip.value, Leaves(middlewares), order);
      r, trace := executor.Run(params);
    }
  }
}
