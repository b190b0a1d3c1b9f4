/**
What a tree of iterator helpers means: the list of values that it still has to deliver.
*/
module HelperLists {
  import opened Options
  import opened HelperSteps

  /** A plain iterator over a finite list, or a native helper. */
  datatype Iter = Source(items: seq<Value>) | Native(helper: Helper<Iter, Callback>)

  type Link = Helper<Iter, Callback>

  /**
  A callback: a function of the item and its index. For a flat mapping its value picks the iterator
  that the callback returns; a finite list of items meets finitely many of them.
  */
  datatype Callback = Callback(apply: (Value, nat) -> Value, choices: seq<Iter>)

  function Chosen(callback: Callback, v: Value, counter: nat): (r: Iter)
    ensures r in callback.choices || r == Source([])
  {
    var k := callback.apply(v, counter);
    if 0 <= k < |callback.choices| then callback.choices[k] else Source([])
  }

  function MapList(callback: Callback, counter: nat, l: seq<Value>): (r: seq<Value>)
    decreases |l|
  {
    if l == [] then [] else [callback.apply(l[0], counter)] + MapList(callback, counter + 1, l[1..])
  }

  function FilterList(callback: Callback, counter: nat, l: seq<Value>): (r: seq<Value>)
    decreases |l|
  {
    if l == [] then []
    else (if Truthy(callback.apply(l[0], counter)) then [l[0]] else []) + FilterList(callback, counter + 1, l[1..])
  }

  function TakeList(limit: int, l: seq<Value>): (r: seq<Value>) {
    if limit <= 0 then [] else if limit < |l| then l[..limit] else l
  }

  function DropList(limit: int, l: seq<Value>): (r: seq<Value>) {
    if limit <= 0 then l else if limit < |l| then l[limit..] else []
  }

  function List(it: Iter): (r: seq<Value>)
    decreases it, 1, 0
  {
    match it
    case Source(items) => items
    case Native(h) => HelperList(h)
  }

  function RecordList(r: Record<Iter>): (l: seq<Value>)
    decreases r, 0, 0
  {
    if r.done || r.target.None? then [] else List(r.target.value)
  }

  function HelperList(h: Link): (r: seq<Value>)
    decreases h, 1, 0
  {
    if h.state.Completed? then [] else With(h, RecordList(h.outer), RecordList(h.inner))
  }

  function FlatList(callback: Callback, counter: nat, l: seq<Value>): (r: seq<Value>)
    decreases callback, 1, |l|
  {
    if l == [] then []
    else
      var k := callback.apply(l[0], counter);
      (if 0 <= k < |callback.choices| then List(callback.choices[k]) else []) + FlatList(callback, counter + 1, l[1..])
  }

  function ConcatList(its: seq<Iter>): (r: seq<Value>)
    decreases its, 0, 0
  {
    if its == [] then [] else List(its[0]) + ConcatList(its[1..])
  }

  /** The helper's list, when its records still have to deliver the given lists. */
  function With(h: Link, outer: seq<Value>, inner: seq<Value>): (r: seq<Value>)
    decreases h, 0, 0
  {
    match h.operation
    case Map => if h.callback.Some? then MapList(h.callback.value, h.counter, outer) else []
    case Filter => if h.callback.Some? then FilterList(h.callback.value, h.counter, outer) else []
    case Take => if h.infinite then outer else TakeList(h.remaining, outer)
    case Drop => if h.infinite then [] else DropList(h.remaining, outer)
    case FlatMap =>
      if h.callback.None? then []
      else if h.innerActive then inner + FlatList(h.callback.value, h.counter + 1, outer)
      else FlatList(h.callback.value, h.counter, outer)
    case Concat => if h.index <= |h.iterables| then outer + ConcatList(h.iterables[h.index..]) else outer
  }

  // ------------------------------------------------------ well-formed trees of helpers

  ghost predicate Sound(it: Iter)
    decreases it, 1
  {
    match it
    case Source(_) => true
    case Native(h) => !h.state.Executing? && (h.state.Completed? || SoundHelper(h))
  }

  ghost predicate SoundRecord(r: Record<Iter>)
    decreases r, 0
  {
    r.done || (r.target.Some? && Sound(r.target.value))
  }

  ghost predicate SoundHelper(h: Link)
    decreases h, 0
  {
    && h.remaining >= 0 && SoundRecord(h.outer)
    && (h.innerActive ==> h.operation == FlatMap && !h.inner.done && SoundRecord(h.inner))
    && (h.operation in {Map, Filter, FlatMap} ==> h.callback.Some?)
    && (h.callback.Some? ==> forall k :: 0 <= k < |h.callback.value.choices| ==> Sound(h.callback.value.choices[k]))
    && h.index <= |h.iterables| && (forall k :: 0 <= k < |h.iterables| ==> Sound(h.iterables[k]))
  }

  // ------------------------------------------- how many turns a tree can still take

  ghost function Budget(it: Iter): (r: nat)
    decreases it, 1, 0
  {
    match it
    case Source(_) => 0
    case Native(h) => HelperBudget(h)
  }

  /** An iterator costs what it spends itself, and eight turns for each result that it gives to its user. */
  ghost function Cost(it: Iter): (r: nat)
    decreases it, 2, 0
  {
    Budget(it) + 8 * (|List(it)| + 1)
  }

  ghost function RecordCost(r: Record<Iter>): (c: nat)
    decreases r, 0, 0
  {
    if r.done || r.target.None? then 0 else Cost(r.target.value)
  }

  ghost function HelperBudget(h: Link): (r: nat)
    decreases h, 1, 0
  {
    if h.state.Completed? then 1 else BudgetWith(h, RecordCost(h.outer), RecordCost(h.inner), RecordList(h.outer))
  }

  ghost function FlatCost(callback: Callback, counter: nat, l: seq<Value>): (r: nat)
    decreases callback, 1, |l|
  {
    if l == [] then 0
    else
      var k := callback.apply(l[0], counter);
      (if 0 <= k < |callback.choices| then Cost(callback.choices[k]) else 8) + FlatCost(callback, counter + 1, l[1..])
  }

  ghost function ConcatCost(its: seq<Iter>): (r: nat)
    decreases its, 0, 0
  {
    if its == [] then 0 else Cost(its[0]) + ConcatCost(its[1..])
  }

  ghost function BudgetWith(h: Link, outerCost: nat, innerCost: nat, outer: seq<Value>): (r: nat)
    decreases h, 0, 0
  {
    8 + outerCost + (if h.innerActive then innerCost else 0)
    + (if h.operation == FlatMap && h.callback.Some?
       then FlatCost(h.callback.value, if h.innerActive then h.counter + 1 else h.counter, outer) else 0)
    + (if h.operation == Concat && h.index <= |h.iterables| then ConcatCost(h.iterables[h.index..]) else 0)
  }
}
