/**
What a stack of activations means: the list that the call at its bottom still has to deliver, and a
bound on the turns that it can take. Every turn of one activation keeps the first and lowers the second.
*/
module HelperTurns {
  import opened Options
  import opened HelperSteps
  import opened HelperLists

  datatype Frame = Frame(helper: Link, activation: Activation)

  /** The list to deliver, and the turns that may be needed. */
  datatype Outlook = Outlook(list: seq<Value>, budget: int)

  ghost predicate Progress(before: Outlook, after: Outlook) {
    after.list == before.list && 0 <= after.budget < before.budget
  }

  // ------------------------------------------------------------------- meanings

  /** The list of a record whose last result has not been used yet. */
  ghost function ResultList(result: Result, r: Record<Iter>): (l: seq<Value>) {
    if !result.Plain? || result.done then [] else [result.value] + RecordList(r)
  }

  ghost function ResultCost(result: Result, r: Record<Iter>): (c: nat) {
    if r.done || r.target.None? then 0 else Budget(r.target.value) + 8 * (|ResultList(result, r)| + 1)
  }

  /** The helper before the item in hand was counted against its limit. */
  ghost function Uncounted(h: Link, a: Activation): (r: Link) {
    if !h.infinite && (h.operation == Take || a.skip) then h.(remaining := h.remaining + 1) else h
  }

  /** A helper whose current record has the given list and cost. */
  ghost function Stepped(h: Link, a: Activation, l: seq<Value>, cost: nat): (o: Outlook) {
    var u := Uncounted(h, a);
    if a.innerStep then
      Outlook(With(u, RecordList(h.outer), l), BudgetWith(u, RecordCost(h.outer), cost, RecordList(h.outer)))
    else
      Outlook(With(u, l, RecordList(h.inner)), BudgetWith(u, cost, RecordCost(h.inner), l))
  }

  ghost function Whole(h: Link): (r: nat) {
    BudgetWith(h, RecordCost(h.outer), RecordCost(h.inner), RecordList(h.outer))
  }

  /** The outlook of the topmost activation. */
  ghost function Top(f: Frame, left: Left): (o: Outlook) {
    var h, a := f.helper, f.activation;
    match a.phase
    case Starting => Outlook(if a.closeRequest then [] else HelperList(h), HelperBudget(h))
    case Stepping => Outlook(With(h, RecordList(h.outer), RecordList(h.inner)), Whole(h) - 1)
    case AwaitStep =>
      var o := Stepped(h, a, ResultList(left.result, Current(h, a)), ResultCost(left.result, Current(h, a)));
      o.(budget := o.budget - 3)
    case GotResult =>
      var o := Stepped(h, a, ResultList(a.result, Current(h, a)), ResultCost(a.result, Current(h, a)));
      o.(budget := o.budget - 4)
    case Calling =>
      Outlook(With(h, [a.value] + RecordList(h.outer), RecordList(h.inner)),
              BudgetWith(h, RecordCost(h.outer), RecordCost(h.inner), [a.value] + RecordList(h.outer)) + 3)
    case Closing => Outlook([], Whole(h) - 2 + a.closeIndex)
    case AwaitClose => Outlook([], Whole(h) - 1 + a.closeIndex)
    case Finishing => Outlook([], Whole(h) - 6)
  }

  /** The outlook of an activation that waits for the one above. */
  ghost function Under(f: Frame, above: Outlook): (o: Outlook)
    requires above.budget >= 0
  {
    var h, a := f.helper, f.activation;
    if a.phase.AwaitStep? then
      var o := Stepped(h, a, above.list, above.budget + 8 * (|above.list| + 1));
      o.(budget := o.budget - 2)
    else
      Outlook([], Whole(h) + above.budget + a.closeIndex)
  }

  // ----------------------------------------------------------------- invariants

  ghost predicate StepOk(h: Link, a: Activation) {
    && SoundHelper(h) && a.innerStep == (h.operation == FlatMap && h.innerActive)
    && a.record == (if a.innerStep then Inner else Outer)
    && (a.skip ==> h.operation == Drop) && (h.operation == Drop && !a.skip ==> !h.infinite && h.remaining == 0)
  }

  ghost predicate CloseOk(h: Link, a: Activation) {
    && -1 <= a.closeIndex <= 1 && SoundRecord(h.outer)
    && (a.closeIndex == 1 ==> h.innerActive && SoundRecord(h.inner))
  }

  ghost predicate FrameOk(f: Frame) {
    var h, a := f.helper, f.activation;
    && !a.failed && (a.entered <==> !a.phase.Starting?)
    && match a.phase
       case Starting => Sound(Native(h))
       case Stepping => h.state.Executing? && !a.closeRequest && SoundHelper(h)
       case AwaitStep => h.state.Executing? && !a.closeRequest && StepOk(h, a) && !Current(h, a).done
       case GotResult => h.state.Executing? && !a.closeRequest && StepOk(h, a) && a.result.Plain?
       && (Current(h, a).done ==> a.result.done && h.operation != Concat)
       case Calling => h.state.Executing? && !a.closeRequest && SoundHelper(h) && h.operation in {Map, Filter, FlatMap}
       && !h.innerActive
       case Closing => h.state.Executing? && CloseOk(h, a)
       case AwaitClose => h.state.Executing? && CloseOk(h, a) && a.closeIndex <= 0
       && (if a.closeIndex == 0 then h.inner.done else h.outer.done)
       case Finishing => h.state.Executing?
  }

  ghost predicate Waits(f: Frame) {
    f.activation.phase.AwaitStep? || f.activation.phase.AwaitClose?
  }

  lemma BudgetsArePositive(f: Frame, left: Left)
    requires FrameOk(f)
    ensures Top(f, left).budget >= 0
  {
  }

  lemma UnderIsPositive(f: Frame, above: Outlook)
    requires FrameOk(f) && Waits(f) && above.budget >= 0
    ensures Under(f, above).budget >= 0
  {
  }

  lemma UnderProgress(f: Frame, before: Outlook, after: Outlook)
    requires FrameOk(f) && Waits(f) && before.budget >= 0 && Progress(before, after)
    ensures Progress(Under(f, before), Under(f, after))
  {
  }

  // ------------------------------------------------------------ one turn, by phase

  lemma StateIsApart(h: Link, state: State)
    ensures SoundHelper(h.(state := state)) == SoundHelper(h)
    ensures forall outer, inner :: With(h.(state := state), outer, inner) == With(h, outer, inner)
    ensures Whole(h.(state := state)) == Whole(h)
  {
  }

  lemma StartTurn(f: Frame, left: Left, s: Step<Iter, Callback>)
    requires FrameOk(f) && f.activation.phase.Starting? && s == Iteration(f.helper, f.activation, left)
    ensures s.action == Continue || s.action == Complete(UNDEFINED, true)
    ensures s.action == Continue ==>
      FrameOk(Frame(s.helper, s.activation)) && Progress(Top(f, left), Top(Frame(s.helper, s.activation), left))
    ensures s.action.Complete? ==> f.helper.state.Completed? && s.helper == f.helper
  {
    StateIsApart(f.helper, Executing);
  }

  /** The record's iterator has moved on. */
  function Put(h: Link, inner: bool, it: Iter): (r: Link) {
    if inner then h.(inner := h.inner.(target := Some(it))) else h.(outer := h.outer.(target := Some(it)))
  }

  /** What `next` of a plain iterator gives, and what it leaves. */
  function NextResult(items: seq<Value>): (r: Result) {
    if items == [] then Plain(UNDEFINED, true) else Plain(items[0], false)
  }

  function NextItems(items: seq<Value>): (r: seq<Value>) {
    if items == [] then [] else items[1..]
  }

  ghost predicate AtStep(h: Link, a: Activation) {
    h.state.Executing? && a.phase.Stepping? && FrameOk(Frame(h, a))
  }

  lemma LimitReached(h: Link, a: Activation, left: Left, s: Step<Iter, Callback>)
    requires AtStep(h, a) && s == Iteration(h, a, left)
    requires (h.operation == Take && !h.infinite && h.remaining == 0)
             || (h.operation == Concat && h.outer.done && h.index == |h.iterables|)
    ensures s.action == Continue && FrameOk(Frame(s.helper, s.activation))
    ensures Progress(Top(Frame(h, a), left), Top(Frame(s.helper, s.activation), left))
  {
    if h.operation == Take {
      assert TakeList(0, RecordList(h.outer)) == [];
    } else {
      assert ConcatList(h.iterables[h.index..]) == [];
      assert RecordList(h.outer) == [];
      assert With(h, RecordList(h.outer), RecordList(h.inner)) == [];
    }
  }

  /** Opening the next iterable moves it from the list of iterables to the outer record. */
  lemma OpenTurn(h: Link, a: Activation, it: Iter, h': Link)
    requires AtStep(h, a) && h.operation == Concat && h.outer.done && h.index < |h.iterables|
             && it == h.iterables[h.index]
    requires h' == h.(index := h.index + 1, outer := Record(Some(it), false, 0))
    ensures AtStep(h', a)
            && With(h', RecordList(h'.outer), RecordList(h'.inner)) == With(h, RecordList(h.outer), RecordList(h.inner))
    ensures Whole(h') == Whole(h)
  {
    assert h.iterables[h.index..][1..] == h.iterables[h.index + 1..];
    assert ConcatCost(h.iterables[h.index..]) == Cost(it) + ConcatCost(h.iterables[h.index + 1..]);
  }

  ghost predicate CanAsk(h: Link) {
    !(h.operation == Take && !h.infinite && h.remaining == 0) && !(h.operation == Concat && h.outer.done)
  }

  lemma AskCounts(h: Link, a: Activation, s: Step<Iter, Callback>)
    requires AtStep(h, a) && s == StepAsk(h, a) && CanAsk(h)
    ensures s.action == Continue || s.action == Ask
    ensures s.helper.state.Executing? && StepOk(s.helper, s.activation) && Uncounted(s.helper, s.activation) == h
    ensures s.helper.outer == h.outer && s.helper.inner == h.inner
    ensures !s.activation.failed && s.activation.entered && !s.activation.closeRequest
  {
  }

  lemma AskDone(h: Link, a: Activation, left: Left, s: Step<Iter, Callback>)
    requires AtStep(h, a) && s == StepAsk(h, a) && CanAsk(h) && s.action == Continue
    ensures FrameOk(Frame(s.helper, s.activation))
            && Progress(Top(Frame(h, a), left), Top(Frame(s.helper, s.activation), left))
  {
  }

  lemma AskOpen(h: Link, a: Activation, s: Step<Iter, Callback>)
    requires AtStep(h, a) && s == StepAsk(h, a) && CanAsk(h) && s.action == Ask
    ensures !Current(s.helper, s.activation).done && Current(s.helper, s.activation).target.Some?
    ensures var it := Current(s.helper, s.activation).target.value;
            Sound(it)
            && Stepped(s.helper, s.activation, List(it), Cost(it)) ==
               Outlook(With(h, RecordList(h.outer), RecordList(h.inner)), Whole(h))
  {
    AskCounts(h, a, s);
    OpenCost(Current(s.helper, s.activation));
  }

  lemma PutSound(h: Link, inner: bool, it: Iter)
    requires SoundHelper(h) && Sound(it)
    ensures SoundHelper(Put(h, inner, it))
  {
  }

  /** One more item in front adds what the callback makes of it. */
  lemma FlatFirst(callback: Callback, counter: nat, v: Value, l: seq<Value>)
    ensures FlatList(callback, counter, [v] + l) ==
      List(Chosen(callback, v, counter)) + FlatList(callback, counter + 1, l)
    ensures FlatCost(callback, counter, [v] + l) ==
      Cost(Chosen(callback, v, counter)) + FlatCost(callback, counter + 1, l)
  {
  }

  /** Marking a record done saves its whole cost. */
  lemma DoneSaves(h: Link, which: Which)
    requires which != Unset
    ensures var r := if which == Inner then h.inner else h.outer;
            Whole(MarkDone(h, which)) <= Whole(h) - (if which == Inner && !h.innerActive then 0 else RecordCost(r))
  {
    assert RecordList(h.outer.(done := true)) == [] && RecordCost(h.outer.(done := true)) == 0
           && RecordCost(h.inner.(done := true)) == 0;
    assert h.callback.Some? ==>
      FlatCost(h.callback.value, h.counter, []) == 0 && FlatCost(h.callback.value, h.counter + 1, []) == 0;
  }

  lemma OpenCost(r: Record<Iter>)
    requires !r.done && SoundRecord(r)
    ensures r.target.Some? && Sound(r.target.value)
    ensures RecordCost(r) == Budget(r.target.value) + 8 * (|RecordList(r)| + 1)
  {
  }

  /** The record that is being stepped enters its helper's outlook by its list and its cost alone. */
  lemma SteppedPut(h: Link, a: Activation, it: Iter, l: seq<Value>, cost: nat)
    ensures Stepped(Put(h, a.innerStep, it), a, l, cost) == Stepped(h, a, l, cost)
  {
  }

  lemma SteppedCheaper(h: Link, a: Activation, l: seq<Value>, cost: nat, cost': nat)
    requires cost' <= cost && (a.innerStep ==> h.innerActive)
    ensures Stepped(h, a, l, cost').list == Stepped(h, a, l, cost).list
    ensures Stepped(h, a, l, cost).budget == Stepped(h, a, l, cost').budget + cost - cost'
  {
  }

  /** A plain iterator answers at once. */
  lemma AskSource(h: Link, a: Activation, before: Outlook, items: seq<Value>, f: Frame, left: Left)
    requires h.state.Executing? && StepOk(h, a) && !a.failed && a.entered && !a.closeRequest
    requires !Current(h, a).done && Current(h, a).target == Some(Source(items))
    requires Stepped(h, a, List(Source(items)), Cost(Source(items))) == before
    requires f == Frame(Put(h, a.innerStep, Source(NextItems(items))),
                        a.(result := NextResult(items), phase := GotResult))
    ensures FrameOk(f) && Top(f, left) == before.(budget := before.budget - 4)
  {
    PutSound(h, a.innerStep, Source(NextItems(items)));
    var r := Current(f.helper, f.activation);
    assert RecordList(r) == NextItems(items);
    assert ResultList(f.activation.result, r) == items;
    assert Cost(Source(items)) == 8 * (|items| + 1) == ResultCost(f.activation.result, r);
  }

  /** A helper is pushed, and its outlook is the one that the record promised. */
  lemma AskHelper(h: Link, a: Activation, before: Outlook, child: Link, f: Frame, c: Frame, left: Left)
    requires h.state.Executing? && StepOk(h, a) && !a.failed && a.entered && !a.closeRequest
    requires !Current(h, a).done && Current(h, a).target == Some(Native(child)) && Sound(Native(child))
    requires Stepped(h, a, List(Native(child)), Cost(Native(child))) == before
    requires f == Frame(h, a.(phase := AwaitStep)) && c == Frame(child, Pushed(false))
    ensures FrameOk(f) && FrameOk(c) && Waits(f)
    ensures Top(c, left).budget >= 0 && Under(f, Top(c, left)) == before.(budget := before.budget - 2)
  {
    assert Cost(Native(child)) == HelperBudget(child) + 8 * (|HelperList(child)| + 1);
    assert Top(c, left) == Outlook(List(Native(child)), HelperBudget(child));
  }

  /** The helper after a completed call, and what the call delivered. */
  ghost predicate Delivers(o: Outlook, h: Link, value: Value, done: bool) {
    && Sound(Native(h)) && HelperBudget(h) <= o.budget
    && o.list == (if done then [] else [value] + HelperList(h)) && (done ==> h.state.Completed?)
  }

  lemma LeftTurn(f: Frame, left: Left, s: Step<Iter, Callback>)
    requires FrameOk(f) && f.activation.phase.AwaitStep? && !left.failed && left.result.Plain?
             && s == Iteration(f.helper, f.activation, left)
    ensures s.action == Continue && FrameOk(Frame(s.helper, s.activation))
            && Progress(Top(f, left), Top(Frame(s.helper, s.activation), left))
  {
  }

  lemma DoneResult(f: Frame, left: Left, s: Step<Iter, Callback>)
    requires FrameOk(f) && f.activation.phase.GotResult? && f.activation.result.done
             && s == Iteration(f.helper, f.activation, left)
    ensures s.action == Continue && FrameOk(Frame(s.helper, s.activation))
            && Progress(Top(f, left), Top(Frame(s.helper, s.activation), left))
  {
    var h, a := f.helper, f.activation;
    if !Current(h, a).done { OpenCost(Current(h, a)); }
    assert a.innerStep ==> !h.inner.done;
    assert RecordCost(h.outer.(done := true)) == 0 && RecordList(h.outer.(done := true)) == [];
    assert With(Uncounted(h, a), [], RecordList(h.inner)) ==
      if h.operation == Concat then ConcatList(h.iterables[h.index..])
      else if a.innerStep then RecordList(h.inner) + FlatList(h.callback.value, h.counter + 1, [])
      else [];
  }

  lemma SkippedResult(f: Frame, left: Left, s: Step<Iter, Callback>)
    requires FrameOk(f) && f.activation.phase.GotResult? && !f.activation.result.done && f.activation.skip
             && s == Iteration(f.helper, f.activation, left)
    ensures s.action == Continue && FrameOk(Frame(s.helper, s.activation))
            && Progress(Top(f, left), Top(Frame(s.helper, s.activation), left))
  {
    var h, a := f.helper, f.activation;
    OpenCost(h.outer);
    assert ResultList(a.result, h.outer) == [a.result.value] + RecordList(h.outer);
  }

  lemma ItemResult(f: Frame, left: Left, s: Step<Iter, Callback>)
    requires FrameOk(f) && f.activation.phase.GotResult? && !f.activation.result.done && !f.activation.skip
             && s == Iteration(f.helper, f.activation, left)
    ensures s.action == Continue || s.action == Complete(f.activation.result.value, false)
    ensures s.action == Continue ==>
      FrameOk(Frame(s.helper, s.activation)) && Progress(Top(f, left), Top(Frame(s.helper, s.activation), left))
    ensures s.action.Complete? ==>
      Delivers(Top(f, left), Released(s.helper, s.activation, false), f.activation.result.value, false)
  {
    StateIsApart(s.helper, Suspended);
    var h, a := f.helper, f.activation;
    OpenCost(Current(h, a));
    assert ResultList(a.result, Current(h, a)) == [a.result.value] + RecordList(Current(h, a));
  }

  lemma CallTurn(f: Frame, left: Left, s: Step<Iter, Callback>, result: Value)
    requires FrameOk(f) && f.activation.phase.Calling? && f.helper.operation in {Map, Filter}
    requires result == f.helper.callback.value.apply(f.activation.value, f.helper.counter)
             && s == Called(f.helper, f.activation, result)
    ensures s.action == Continue || (s.action.Complete? && !s.action.done)
    ensures s.action == Continue ==>
      FrameOk(Frame(s.helper, s.activation)) && Progress(Top(f, left), Top(Frame(s.helper, s.activation), left))
    ensures s.action.Complete? ==>
      Delivers(Top(f, left), Released(s.helper, s.activation, false), s.action.value, false)
  {
    StateIsApart(s.helper, Suspended);
    assert ([f.activation.value] + RecordList(f.helper.outer))[1..] == RecordList(f.helper.outer);
  }

  lemma EnterTurn(f: Frame, left: Left, s: Step<Iter, Callback>, it: Iter)
    requires FrameOk(f) && f.activation.phase.Calling? && f.helper.operation == FlatMap
    requires it == Chosen(f.helper.callback.value, f.activation.value, f.helper.counter)
             && s == Entered(f.helper, f.activation, it, 0)
    ensures FrameOk(Frame(s.helper, s.activation)) && Progress(Top(f, left), Top(Frame(s.helper, s.activation), left))
  {
    FlatFirst(f.helper.callback.value, f.helper.counter, f.activation.value, RecordList(f.helper.outer));
    assert RecordList(s.helper.inner) == List(it) && RecordCost(s.helper.inner) == Cost(it);
  }

  lemma CloseTurn(f: Frame, left: Left, s: Step<Iter, Callback>)
    requires FrameOk(f) && f.activation.phase.Closing? && s == Iteration(f.helper, f.activation, left)
    ensures s.action == Continue || s.action.Shut?
    ensures FrameOk(Frame(s.helper, s.activation)) && Progress(Top(f, left), Top(Frame(s.helper, s.activation), left))
  {
    var h, a := f.helper, f.activation;
    if s.action.Shut? {
      OpenCost(if s.action.which == Inner then h.inner else h.outer);
      DoneSaves(h, s.action.which);
    }
  }

  lemma CloseHelper(f: Frame, left: Left, s: Step<Iter, Callback>, child: Link, f': Frame, c: Frame)
    requires FrameOk(f) && f.activation.phase.Closing? && s == Iteration(f.helper, f.activation, left) && s.action.Shut?
    requires (if s.action.which == Inner then f.helper.inner else f.helper.outer).target == Some(Native(child))
    requires f' == Frame(s.helper, s.activation.(phase := AwaitClose)) && c == Frame(child, Pushed(true))
    ensures FrameOk(f') && FrameOk(c) && Waits(f') && Top(c, left).budget >= 0
            && Progress(Top(f, left), Under(f', Top(c, left)))
  {
    var h, a := f.helper, f.activation;
    OpenCost(if s.action.which == Inner then h.inner else h.outer);
    DoneSaves(h, s.action.which);
  }

  lemma ClosedTurn(f: Frame, left: Left, s: Step<Iter, Callback>)
    requires FrameOk(f) && f.activation.phase.AwaitClose? && !left.failed
             && s == Iteration(f.helper, f.activation, left)
    ensures s.action == Continue && FrameOk(Frame(s.helper, s.activation))
            && Progress(Top(f, left), Top(Frame(s.helper, s.activation), left))
  {
  }

  lemma FinishTurn(f: Frame, left: Left, s: Step<Iter, Callback>)
    requires FrameOk(f)
             && (f.activation.phase.Finishing? || (f.activation.phase.Starting? && f.helper.state.Completed?))
             && s == Iteration(f.helper, f.activation, left)
    ensures s.action == Complete(UNDEFINED, true)
            && Delivers(Top(f, left), Released(s.helper, s.activation, true), UNDEFINED, true)
  {
  }

  /** The record that a waiting activation waits for is its inner one. */
  function WaitsInner(a: Activation): (r: bool) {
    if a.phase.AwaitClose? then a.closeIndex == 0 else a.innerStep
  }

  /** The activation below takes over where the finished one promised. */
  lemma PopStep(f: Frame, o: Outlook, h: Link, value: Value, done: bool, f': Frame, left: Left)
    requires FrameOk(f) && f.activation.phase.AwaitStep? && Delivers(o, h, value, done)
    requires f' == Frame(Put(f.helper, f.activation.innerStep, Native(h)), f.activation)
             && left.result == Plain(value, done) && !left.failed
    ensures FrameOk(f') && Progress(Under(f, o), Top(f', left))
  {
    var a := f.activation;
    PutSound(f.helper, a.innerStep, Native(h));
    var r := Current(f'.helper, a);
    assert RecordList(r) == List(Native(h)) == HelperList(h) && Budget(Native(h)) == HelperBudget(h);
    assert ResultList(left.result, r) == o.list;
    SteppedPut(f.helper, a, Native(h), o.list, ResultCost(left.result, r));
    SteppedCheaper(f.helper, a, o.list, o.budget + 8 * (|o.list| + 1), ResultCost(left.result, r));
  }

  lemma PopClose(f: Frame, o: Outlook, h: Link, value: Value, done: bool, f': Frame, left: Left)
    requires FrameOk(f) && f.activation.phase.AwaitClose? && Delivers(o, h, value, done)
    requires f' == Frame(Put(f.helper, f.activation.closeIndex == 0, Native(h)), f.activation)
    ensures FrameOk(f') && Progress(Under(f, o), Top(f', left))
  {
  }

  lemma PopTurn(f: Frame, o: Outlook, h: Link, value: Value, done: bool, f': Frame, left: Left)
    requires FrameOk(f) && Waits(f) && Delivers(o, h, value, done)
    requires f' == Frame(Put(f.helper, WaitsInner(f.activation), Native(h)), f.activation)
             && left.result == Plain(value, done) && !left.failed
    ensures FrameOk(f') && Progress(Under(f, o), Top(f', left))
  {
    if f.activation.phase.AwaitStep? {
      PopStep(f, o, h, value, done, f', left);
    } else {
      PopClose(f, o, h, value, done, f', left);
    }
  }

  // ------------------------------------------------------------- turns in summary

  /** The step either goes on with its activation or completes the call. */
  ghost predicate Settles(f: Frame, left: Left, s: Step<Iter, Callback>) {
    && (s.action == Continue || s.action.Complete?)
    && (s.action == Continue ==>
          && FrameOk(Frame(s.helper, s.activation)) && !s.activation.phase.AwaitStep?
          && Progress(Top(f, left), Top(Frame(s.helper, s.activation), left)))
    && (s.action.Complete? ==>
          && !s.activation.failed
          && Delivers(Top(f, left), Released(s.helper, s.activation, s.action.done), s.action.value, s.action.done))
  }

  /** The phases that ask nothing of anyone. */
  lemma QuietTurn(f: Frame, left: Left, s: Step<Iter, Callback>)
    requires FrameOk(f) && !left.failed && (f.activation.phase.AwaitStep? ==> left.result.Plain?)
             && s == Iteration(f.helper, f.activation, left)
    requires f.activation.phase in {Starting, AwaitStep, GotResult, AwaitClose, Finishing}
    ensures Settles(f, left, s)
  {
    match f.activation.phase {
      case Starting =>
        StartTurn(f, left, s);
        if s.action.Complete? { FinishTurn(f, left, s); }
      case AwaitStep => LeftTurn(f, left, s);
      case GotResult =>
        if f.activation.result.done {
          DoneResult(f, left, s);
        } else if f.activation.skip {
          SkippedResult(f, left, s);
        } else {
          ItemResult(f, left, s);
        }
      case AwaitClose => ClosedTurn(f, left, s);
      case Finishing => FinishTurn(f, left, s);
    }
  }

  /** A record is about to be asked for its next result. */
  ghost predicate Asks(h: Link, a: Activation, before: Outlook) {
    && h.state.Executing? && StepOk(h, a) && !a.failed && a.entered && !a.closeRequest
    && !Current(h, a).done && Current(h, a).target.Some? && Sound(Current(h, a).target.value)
    && Stepped(h, a, List(Current(h, a).target.value), Cost(Current(h, a).target.value)) == before
  }

  ghost function AtStepOutlook(h: Link): (o: Outlook) {
    Outlook(With(h, RecordList(h.outer), RecordList(h.inner)), Whole(h))
  }

  lemma AskAfterOpening(h: Link, a: Activation, left: Left, s: Step<Iter, Callback>, next: Step<Iter, Callback>)
    requires AtStep(h, a) && s == Iteration(h, a, left) && s.action == Open
    requires h.index < |h.iterables| && next == Opened(s.helper, s.activation, h.iterables[h.index], 0)
    ensures Asks(next.helper, next.activation, AtStepOutlook(h))
  {
    var it := h.iterables[h.index];
    var h' := h.(index := h.index + 1, outer := Record(Some(it), false, 0));
    OpenTurn(h, a, it, h');
    AskCounts(h', a, next);
    AskOpen(h', a, next);
  }

  lemma AskDirectly(h: Link, a: Activation, left: Left, s: Step<Iter, Callback>)
    requires AtStep(h, a) && s == Iteration(h, a, left)
    ensures s.action in {Continue, Ask, Open} && (s.action == Open ==> h.index < |h.iterables|)
    ensures s.action == Ask ==> Asks(s.helper, s.activation, AtStepOutlook(h))
    ensures s.action == Continue ==> Settles(Frame(h, a), left, s)
  {
    if CanAsk(h) {
      AskCounts(h, a, s);
      if s.action == Ask { AskOpen(h, a, s); } else { AskDone(h, a, left, s); }
    } else if s.action == Continue {
      LimitReached(h, a, left, s);
    }
  }
}
