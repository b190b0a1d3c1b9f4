/**
The activation worklist of `helper_resume`, over callbacks without effects and finite sources. An
activation holds its helper; a helper that has been called goes back into its user's record when it
completes.
*/
module HelperWorklist {
  import opened Options
  import opened HelperSteps
  import opened HelperLists
  import opened HelperTurns

  ghost predicate AllWait(frames: seq<Frame>) {
    forall i :: 0 <= i < |frames| ==> FrameOk(frames[i]) && Waits(frames[i])
  }

  /** The outlook of the bottom activation, from that of the one above all of these. */
  ghost function Fold(frames: seq<Frame>, o: Outlook): (r: Outlook)
    requires AllWait(frames) && o.budget >= 0
    ensures r.budget >= 0
  {
    if frames == [] then o
    else
      var f := frames[|frames| - 1];
      UnderIsPositive(f, o);
      Fold(frames[..|frames| - 1], Under(f, o))
  }

  lemma {:induction false} FoldProgress(frames: seq<Frame>, before: Outlook, after: Outlook)
    requires AllWait(frames) && before.budget >= 0 && Progress(before, after)
    ensures Progress(Fold(frames, before), Fold(frames, after))
    decreases |frames|
  {
    if frames != [] {
      var f := frames[|frames| - 1];
      UnderProgress(f, before, after);
      UnderIsPositive(f, before);
      FoldProgress(frames[..|frames| - 1], Under(f, before), Under(f, after));
    }
  }

  ghost predicate Good(stack: seq<Frame>, left: Left) {
    && |stack| > 0 && AllWait(stack[..|stack| - 1]) && FrameOk(stack[|stack| - 1]) && !left.failed
    && (stack[|stack| - 1].activation.phase.AwaitStep? ==> left.result.Plain?)
  }

  ghost function View(stack: seq<Frame>, left: Left): (o: Outlook)
    requires Good(stack, left)
    ensures o.budget >= 0
  {
    BudgetsArePositive(stack[|stack| - 1], left);
    Fold(stack[..|stack| - 1], Top(stack[|stack| - 1], left))
  }

  lemma Replaced(stack: seq<Frame>, left: Left, f: Frame)
    requires Good(stack, left) && FrameOk(f) && !f.activation.phase.AwaitStep?
    requires Progress(Top(stack[|stack| - 1], left), Top(f, left))
    ensures Good(stack[|stack| - 1 := f], left) && Progress(View(stack, left), View(stack[|stack| - 1 := f], left))
  {
    var rest := stack[..|stack| - 1];
    assert stack[|stack| - 1 := f][..|stack| - 1] == rest;
    BudgetsArePositive(stack[|stack| - 1], left);
    FoldProgress(rest, Top(stack[|stack| - 1], left), Top(f, left));
  }

  lemma PushedOn(stack: seq<Frame>, left: Left, f: Frame, c: Frame)
    requires Good(stack, left) && FrameOk(f) && Waits(f) && FrameOk(c) && !Waits(c)
    requires Top(c, left).budget >= 0 && Progress(Top(stack[|stack| - 1], left), Under(f, Top(c, left)))
    ensures Good(stack[|stack| - 1 := f] + [c], left)
            && Progress(View(stack, left), View(stack[|stack| - 1 := f] + [c], left))
  {
    var rest := stack[..|stack| - 1];
    var stack' := stack[|stack| - 1 := f] + [c];
    assert stack'[..|stack|] == rest + [f] && (rest + [f])[..|rest|] == rest;
    BudgetsArePositive(stack[|stack| - 1], left);
    FoldProgress(rest, Top(stack[|stack| - 1], left), Under(f, Top(c, left)));
    assert Fold(rest + [f], Top(c, left)) == Fold(rest, Under(f, Top(c, left)));
  }

  lemma Popped(stack: seq<Frame>, left: Left, h: Link, value: Value, done: bool, f: Frame, left': Left)
    requires Good(stack, left) && |stack| > 1 && Delivers(Top(stack[|stack| - 1], left), h, value, done)
    requires f == (var p := stack[|stack| - 2]; Frame(Put(p.helper, WaitsInner(p.activation), Native(h)), p.activation))
    requires left'.result == Plain(value, done) && !left'.failed
    ensures Good(stack[..|stack| - 2] + [f], left')
            && Progress(View(stack, left), View(stack[..|stack| - 2] + [f], left'))
  {
    var rest, p, o := stack[..|stack| - 2], stack[|stack| - 2], Top(stack[|stack| - 1], left);
    var stack' := rest + [f];
    assert stack[..|stack| - 1] == rest + [p] && (rest + [p])[..|rest|] == rest && stack'[..|rest|] == rest;
    assert AllWait(rest + [p]) && (rest + [p])[|rest|] == p;
    BudgetsArePositive(stack[|stack| - 1], left);
    PopTurn(p, o, h, value, done, f, left');
    UnderIsPositive(p, o);
    assert Fold(rest + [p], o) == Fold(rest, Under(p, o));
    FoldProgress(rest, Under(p, o), Top(f, left'));
  }

  lemma AskedSource(stack: seq<Frame>, left: Left, h: Link, a: Activation, before: Outlook, items: seq<Value>, f: Frame)
    requires Good(stack, left) && Asks(h, a, before) && Current(h, a).target.value == Source(items)
    requires Top(stack[|stack| - 1], left) == before.(budget := before.budget - 1)
    requires f == Frame(Put(h, a.innerStep, Source(NextItems(items))),
                        a.(result := NextResult(items), phase := GotResult))
    ensures Good(stack[|stack| - 1 := f], left) && Progress(View(stack, left), View(stack[|stack| - 1 := f], left))
  {
    AskSource(h, a, before, items, f, left);
    BudgetsArePositive(f, left);
    Replaced(stack, left, f);
  }

  lemma AskedHelper(stack: seq<Frame>, left: Left, h: Link, a: Activation, before: Outlook, child: Link, f: Frame,
                    c: Frame)
    requires Good(stack, left) && Asks(h, a, before) && Current(h, a).target.value == Native(child)
    requires Top(stack[|stack| - 1], left) == before.(budget := before.budget - 1)
    requires f == Frame(h, a.(phase := AwaitStep)) && c == Frame(child, Pushed(false))
    ensures Good(stack[|stack| - 1 := f] + [c], left)
            && Progress(View(stack, left), View(stack[|stack| - 1 := f] + [c], left))
  {
    AskHelper(h, a, before, child, f, c, left);
    UnderIsPositive(f, Top(c, left));
    PushedOn(stack, left, f, c);
  }

  lemma ShutHelper(stack: seq<Frame>, left: Left, s: Step<Iter, Callback>, child: Link, f: Frame, c: Frame)
    requires Good(stack, left) && stack[|stack| - 1].activation.phase.Closing? && s.action.Shut?
    requires s == Iteration(stack[|stack| - 1].helper, stack[|stack| - 1].activation, left)
    requires (var h := stack[|stack| - 1].helper; if s.action.which == Inner then h.inner else h.outer).target ==
      Some(Native(child))
    requires f == Frame(s.helper, s.activation.(phase := AwaitClose)) && c == Frame(child, Pushed(true))
    ensures Good(stack[|stack| - 1 := f] + [c], left)
            && Progress(View(stack, left), View(stack[|stack| - 1 := f] + [c], left))
  {
    CloseHelper(stack[|stack| - 1], left, s, child, f, c);
    PushedOn(stack, left, f, c);
  }

  class Work {
    var stack: seq<Frame>
    var left: Left
    /** The helper at the bottom, once its activation is gone. */
    var finished: Link

    constructor (h: Link, close: bool)
      ensures stack == [Frame(h, Pushed(close))] && left == Left(NonObject, false, 0)
    {
      finished, left := h, Left(NonObject, false, 0);
      stack := [Frame(h, Pushed(close))];
    }

    method SetTop(h: Link, a: Activation)
      requires |stack| > 0
      modifies this`stack
      ensures stack == old(stack)[|old(stack)| - 1 := Frame(h, a)]
    {
      stack := stack[|stack| - 1 := Frame(h, a)];
    }

    method Push(h: Link, close: bool)
      modifies this`stack
      ensures stack == old(stack) + [Frame(h, Pushed(close))]
    {
      stack := stack + [Frame(h, Pushed(close))];
    }

    /** The topmost call is over; its helper goes back to the one that called it. */
    method Complete(h: Link, a: Activation, value: Value, done: bool)
      requires Good(stack, left) && !a.failed
               && Delivers(Top(stack[|stack| - 1], left), Released(h, a, done), value, done)
      modifies this
      ensures |old(stack)| > 1 ==> Good(stack, left) && Progress(old(View(stack, left)), View(stack, left))
      ensures |old(stack)| == 1 ==>
        stack == [] && left.result == Plain(value, done) && !left.failed
        && Delivers(old(View(stack, left)), finished, value, done)
    {
      ghost var stack0, left0 := stack, left;
      var released := Released(h, a, done);
      left := Left(Plain(value, done), a.failed, a.error);
      stack := stack[..|stack| - 1];
      if |stack| > 0 {
        var p := stack[|stack| - 1];
        var f := Frame(Put(p.helper, WaitsInner(p.activation), Native(released)), p.activation);
        stack := stack[..|stack| - 1] + [f];
        Popped(stack0, left0, released, value, done, f, left);
        assert stack0[..|stack0| - 1][..|stack0| - 2] == stack0[..|stack0| - 2];
      } else {
        finished := released;
      }
    }

    /** The current record's iterator is asked for its next result. */
    method AskFor(h: Link, a: Activation, ghost before: Outlook)
      requires Good(stack, left) && Asks(h, a, before)
      requires Top(stack[|stack| - 1], left) == before.(budget := before.budget - 1)
      modifies this`stack
      ensures Good(stack, left) && Progress(old(View(stack, left)), View(stack, left))
    {
      match Current(h, a).target.value {
        case Source(items) =>
          AskedSource(stack, left, h, a, before, items,
                      Frame(Put(h, a.innerStep, Source(NextItems(items))),
                            a.(result := NextResult(items), phase := GotResult)));
          SetTop(Put(h, a.innerStep, Source(NextItems(items))), a.(result := NextResult(items), phase := GotResult));
        case Native(child) =>
          AskedHelper(stack, left, h, a, before, child, Frame(h, a.(phase := AwaitStep)), Frame(child, Pushed(false)));
          SetTop(h, a.(phase := AwaitStep));
          Push(child, false);
      }
    }

    /** The phase in which the next item is asked for. */
    method StepTurn(s: Step<Iter, Callback>)
      requires Good(stack, left) && stack[|stack| - 1].activation.phase.Stepping?
      requires s == Iteration(stack[|stack| - 1].helper, stack[|stack| - 1].activation, left)
      modifies this`stack
      ensures Good(stack, left) && Progress(old(View(stack, left)), View(stack, left))
    {
      var h, a := stack[|stack| - 1].helper, stack[|stack| - 1].activation;
      AskDirectly(h, a, left, s);
      if s.action == Open {
        var next := Opened(s.helper, s.activation, h.iterables[h.index], 0);
        AskAfterOpening(h, a, left, s, next);
        AskFor(next.helper, next.activation, AtStepOutlook(h));
      } else if s.action == Ask {
        AskFor(s.helper, s.activation, AtStepOutlook(h));
      } else {
        Replaced(stack, left, Frame(s.helper, s.activation));
        SetTop(s.helper, s.activation);
      }
    }

    /** The callback runs on the item in hand. */
    method CallbackTurn()
      requires Good(stack, left) && stack[|stack| - 1].activation.phase.Calling?
      modifies this
      ensures |stack| > 0 ==> Good(stack, left) && Progress(old(View(stack, left)), View(stack, left))
      ensures |stack| == 0 ==>
        left.result.Plain? && !left.failed
        && Delivers(old(View(stack, left)), finished, left.result.value, left.result.done)
    {
      var f := stack[|stack| - 1];
      var h, a := f.helper, f.activation;
      if h.operation == FlatMap {
        var it := Chosen(h.callback.value, a.value, h.counter);
        var s := Entered(h, a, it, 0);
        EnterTurn(f, left, s, it);
        Replaced(stack, left, Frame(s.helper, s.activation));
        SetTop(s.helper, s.activation);
      } else {
        var result := h.callback.value.apply(a.value, h.counter);
        var s := Called(h, a, result);
        CallTurn(f, left, s, result);
        Finish(s);
      }
    }

    /** The phase in which the records are closed. */
    method CloseRecords(s: Step<Iter, Callback>)
      requires Good(stack, left) && stack[|stack| - 1].activation.phase.Closing?
      requires s == Iteration(stack[|stack| - 1].helper, stack[|stack| - 1].activation, left)
      modifies this`stack
      ensures Good(stack, left) && Progress(old(View(stack, left)), View(stack, left))
    {
      var f := stack[|stack| - 1];
      CloseTurn(f, left, s);
      if s.action.Shut? {
        var record := if s.action.which == Inner then f.helper.inner else f.helper.outer;
        OpenCost(record);
        if record.target.value.Native? {
          ShutHelper(stack, left, s, record.target.value.helper, Frame(s.helper, s.activation.(phase := AwaitClose)),
                     Frame(record.target.value.helper, Pushed(true)));
          SetTop(s.helper, s.activation.(phase := AwaitClose));
          Push(record.target.value.helper, true);
          return;
        }
      }
      Replaced(stack, left, Frame(s.helper, s.activation));
      SetTop(s.helper, s.activation);
    }

    /** The step either completes the call or goes on with the same activation. */
    method Finish(s: Step<Iter, Callback>)
      requires Good(stack, left) && Settles(stack[|stack| - 1], left, s)
      modifies this
      ensures |stack| > 0 ==> Good(stack, left) && Progress(old(View(stack, left)), View(stack, left))
      ensures |stack| == 0 ==>
        left.result.Plain? && !left.failed
        && Delivers(old(View(stack, left)), finished, left.result.value, left.result.done)
    {
      if s.action.Complete? {
        Complete(s.helper, s.activation, s.action.value, s.action.done);
      } else {
        Replaced(stack, left, Frame(s.helper, s.activation));
        SetTop(s.helper, s.activation);
      }
    }

    /** One turn of the worklist. */
    method Iterate()
      requires Good(stack, left)
      modifies this
      ensures |stack| > 0 ==> Good(stack, left) && Progress(old(View(stack, left)), View(stack, left))
      ensures |stack| == 0 ==>
        left.result.Plain? && !left.failed
        && Delivers(old(View(stack, left)), finished, left.result.value, left.result.done)
    {
      var f := stack[|stack| - 1];
      var s := Iteration(f.helper, f.activation, left);
      match f.activation.phase {
        case Stepping => StepTurn(s);
        case Calling => CallbackTurn();
        case Closing => CloseRecords(s);
        case _ =>
          QuietTurn(f, left, s);
          Finish(s);
      }
    }
  }

  /** One call of `next` or `return` on a helper. */
  method Resume(h: Link, close: bool) returns (value: Value, done: bool, h': Link)
    requires Sound(Native(h))
    ensures Sound(Native(h')) && (done ==> h'.state.Completed? && HelperList(h') == [])
    ensures close ==> done
    ensures !close ==> HelperList(h) == if done then [] else [value] + HelperList(h')
  {
    var work := new Work(h, close);
    ghost var promised := if close then [] else HelperList(h);
    while |work.stack| > 0
      invariant |work.stack| > 0 ==> Good(work.stack, work.left) && View(work.stack, work.left).list == promised
      invariant |work.stack| == 0 ==>
        work.left.result.Plain? && exists o: Outlook ::
          o.list == promised && Delivers(o, work.finished, work.left.result.value, work.left.result.done)
      decreases |work.stack| > 0, if |work.stack| > 0 then View(work.stack, work.left).budget else 0
    {
      work.Iterate();
    }
    value, done, h' := work.left.result.value, work.left.result.done, work.finished;
  }

  /** A whole run delivers the list of the helper, item by item. */
  method Collect(h: Link) returns (items: seq<Value>)
    requires Sound(Native(h))
    ensures items == HelperList(h)
  {
    items := [];
    var h, done := h, false;
    ghost var all := HelperList(h);
    while !done
      invariant Sound(Native(h)) && all == items + HelperList(h) && (done ==> HelperList(h) == [])
      decreases !done, |HelperList(h)|
    {
      var value, end, h' := Resume(h, false);
      OneMore(all, items, HelperList(h), value, HelperList(h'), end);
      items := if end then items else items + [value];
      h, done := h', end;
    }
  }

  lemma OneMore(all: seq<Value>, items: seq<Value>, rest: seq<Value>, value: Value, rest': seq<Value>, end: bool)
    requires all == items + rest && rest == (if end then [] else [value] + rest') && (end ==> rest' == [])
    ensures all == (if end then items else items + [value]) + rest' && (!end ==> |rest'| < |rest|)
  {
  }

  // ------------------------------------------------------------------- creation

  /** What comes of `helper_create`: a helper, or an error and the iterators that have been closed. */
  datatype Creation = Created(helper: Link) | Refused(error: Error, closed: seq<Iter>)

  /** `unreadable` is the error, if any, of reading the receiver's `next`, which comes last and closes nothing. */
  function Create(operation: Operation, argument: Argument<Callback>, receiver: Iter,
                  unreadable: Option<Error>): (r: Creation)
    requires operation != Concat
  {
    var refusal := Refusal(operation, argument);
    if refusal.Some? then Refused(refusal.value, [receiver])
    else if unreadable.Some? then Refused(unreadable.value, [])
    else Created(Fresh(operation, argument, receiver, 0))
  }

  /**
  A helper is created exactly if its callback is callable, or its limit is a number that is not negative, and `next` can
  be read; it means its list function, applied to the list of its receiver. For a bad argument the receiver is closed.
  */
  lemma CreatedMeans(operation: Operation, argument: Argument<Callback>, receiver: Iter, unreadable: Option<Error>)
    requires operation != Concat && Sound(receiver)
    requires argument.Callable? ==>
      forall k :: 0 <= k < |argument.callback.choices| ==> Sound(argument.callback.choices[k])
    ensures var creation := Create(operation, argument, receiver, unreadable);
            var accepted := if operation == Take || operation == Drop
              then argument.Number?
                   && (argument.limit == Infinite(true) || (argument.limit.Finite? && argument.limit.truncated >= 0))
              else argument.Callable?;
            && (creation.Created? <==> accepted && unreadable == None)
            && (!accepted ==>
                  creation == Refused(if operation != Take && operation != Drop then TYPE_ERROR
                                      else if argument.Unusable? then argument.error else RANGE_ERROR, [receiver]))
            && (accepted && unreadable.Some? ==> creation == Refused(unreadable.value, []))
    ensures var creation := Create(operation, argument, receiver, unreadable);
            var list := List(receiver);
            creation.Created? ==>
              && Sound(Native(creation.helper))
              && HelperList(creation.helper) ==
                 match operation
                 case Map => MapList(argument.callback, 0, list)
                 case Filter => FilterList(argument.callback, 0, list)
                 case FlatMap => FlatList(argument.callback, 0, list)
                 case Take => if argument.limit.Infinite? then list else TakeList(argument.limit.truncated, list)
                 case Drop => if argument.limit.Infinite? then [] else DropList(argument.limit.truncated, list)
  {
  }

  /** A concatenation is refused exactly if an argument cannot be iterated; it means the concatenated lists. */
  lemma CreatedConcatMeans(arguments: seq<Option<Iter>>)
    requires forall k :: 0 <= k < |arguments| && arguments[k].Some? ==> Sound(arguments[k].value)
    ensures var h: Option<Link> := FreshConcat(arguments);
            && (h.None? <==> exists k :: 0 <= k < |arguments| && arguments[k].None?)
            && (h.Some? ==> Sound(Native(h.value)) && HelperList(h.value) == ConcatList(Usable(arguments).value))
  {
    var created: Option<Link> := FreshConcat(arguments);
    if created.Some? {
      var h := created.value;
      assert forall k :: 0 <= k < |h.iterables| ==> arguments[k] == Some(h.iterables[k]);
      assert SoundHelper(h);
      assert HelperList(h) == With(h, [], RecordList(h.inner));
      ConcatFromStart(h, RecordList(h.inner));
    }
  }

  lemma ConcatFromStart(h: Link, inner: seq<Value>)
    requires h.operation == Concat && h.index == 0
    ensures With(h, [], inner) == ConcatList(h.iterables)
  {
    assert h.iterables[0..] == h.iterables;
  }

  lemma {:induction false} MapListAt(callback: Callback, counter: nat, l: seq<Value>, i: nat)
    requires i < |l|
    ensures |MapList(callback, counter, l)| == |l|
            && MapList(callback, counter, l)[i] == callback.apply(l[i], counter + i)
    decreases |l|
  {
    if |l| > 1 { MapListAt(callback, counter + 1, l[1..], if i == 0 then 0 else i - 1); }
  }

  /** A filtered list has item i in its place, exactly if the callback says so for that item and index i. */
  lemma {:induction false} FilterListAt(callback: Callback, counter: nat, l: seq<Value>, i: nat)
    requires i < |l|
    ensures FilterList(callback, counter, l) ==
      FilterList(callback, counter, l[..i]) + (if callback.apply(l[i], counter + i) != 0 then [l[i]] else [])
      + FilterList(callback, counter + i + 1, l[i + 1..])
    ensures FilterList(callback, counter, []) == []
    decreases i
  {
    if i > 0 {
      var front, rest := l[..i], l[1..];
      FilterListAt(callback, counter + 1, rest, i - 1);
      assert rest[..i - 1] == front[1..] && rest[i..] == l[i + 1..] && rest[i - 1] == l[i] && front[0] == l[0];
      var head := if Truthy(callback.apply(l[0], counter)) then [l[0]] else [];
      Regroup(head, FilterList(callback, counter + 1, rest[..i - 1]),
              if callback.apply(l[i], counter + i) != 0 then [l[i]] else [],
              FilterList(callback, counter + i + 1, rest[i..]));
      assert FilterList(callback, counter, l) == head + FilterList(callback, counter + 1, rest);
      assert FilterList(callback, counter, front) == head + FilterList(callback, counter + 1, front[1..]);
    }
  }

  lemma Regroup(a: seq<Value>, b: seq<Value>, c: seq<Value>, d: seq<Value>)
    ensures a + (b + c + d) == (a + b) + c + d && a + (b + c) == (a + b) + c
  {
  }

  /** What is taken and what is dropped make up the list, and the limit says where it is divided. */
  lemma TakeAndDrop(limit: int, l: seq<Value>)
    ensures TakeList(limit, l) + DropList(limit, l) == l
    ensures |TakeList(limit, l)| == if limit <= 0 then 0 else if |l| <= limit then |l| else limit
  {
  }

  /** Item i of a flat mapping stands for the list that the callback picks for that item and index i, in its place. */
  lemma FlatListAt(callback: Callback, counter: nat, l: seq<Value>, i: nat)
    requires i < |l|
    ensures var k := callback.apply(l[i], counter + i);
      FlatList(callback, counter, l) ==
        FlatList(callback, counter, l[..i]) + (if 0 <= k < |callback.choices| then List(callback.choices[k]) else [])
        + FlatList(callback, counter + i + 1, l[i + 1..])
    ensures FlatList(callback, counter, []) == []
  {
    FlatAround(callback, counter, l, i);
  }

  lemma FlatAround(callback: Callback, counter: nat, l: seq<Value>, i: nat)
    requires i < |l|
    ensures FlatList(callback, counter, l) ==
      FlatList(callback, counter, l[..i]) + List(Chosen(callback, l[i], counter + i))
      + FlatList(callback, counter + i + 1, l[i + 1..])
  {
    var a, b, c := FlatList(callback, counter, l[..i]), List(Chosen(callback, l[i], counter + i)),
                   FlatList(callback, counter + i + 1, l[i + 1..]);
    Around(l, i);
    FlatSplit(callback, counter, l[..i], l[i..]);
    FlatHead(callback, counter + i, l[i..]);
    Regroup(a, b, c, []);
  }

  lemma Around(l: seq<Value>, i: nat)
    requires i < |l|
    ensures l[..i] + l[i..] == l && l[i..][0] == l[i] && l[i..][1..] == l[i + 1..]
  {
  }

  lemma {:induction false} FlatSplit(callback: Callback, counter: nat, a: seq<Value>, b: seq<Value>)
    ensures FlatList(callback, counter, a + b) ==
      FlatList(callback, counter, a) + FlatList(callback, counter + |a|, b)
    decreases |a|
  {
    if a == [] {
      assert a + b == b;
    } else {
      var head := List(Chosen(callback, a[0], counter));
      HeadAndTail(a, b);
      FlatSplit(callback, counter + 1, a[1..], b);
      FlatHead(callback, counter, a + b);
      FlatHead(callback, counter, a);
      Regroup(head, FlatList(callback, counter + 1, a[1..]), FlatList(callback, counter + |a|, b), []);
    }
  }

  lemma HeadAndTail(a: seq<Value>, b: seq<Value>)
    requires a != []
    ensures (a + b)[0] == a[0] && (a + b)[1..] == a[1..] + b
  {
  }

  lemma FlatHead(callback: Callback, counter: nat, l: seq<Value>)
    requires l != []
    ensures FlatList(callback, counter, l) ==
      List(Chosen(callback, l[0], counter)) + FlatList(callback, counter + 1, l[1..])
  {
  }

  /** Each iterable of a concatenation has its list in its place. */
  lemma {:induction false} ConcatListAt(its: seq<Iter>, i: nat)
    requires i < |its|
    ensures ConcatList(its) == ConcatList(its[..i]) + List(its[i]) + ConcatList(its[i + 1..]) && ConcatList([]) == []
    decreases i
  {
    if i > 0 {
      ConcatListAt(its[1..], i - 1);
      assert its[1..][..i - 1] == its[..i][1..] && its[1..][i..] == its[i + 1..];
    }
  }
}
