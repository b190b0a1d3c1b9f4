/**
The request queue of an async generator (`tsc_iterator.c`). Wherever the generator hands control to other
code (its own body, the settling of a promise, the reading of an awaited value), that code may call
the generator's methods again; a plan says what it does each time.
*/
module AsyncGenerator {
  import opened Options
  import opened Sealing

  type Value = int

  const UNDEFINED: Value := 0

  datatype State = SuspendedStart | Executing | SuspendedYield | DrainingQueue | Completed

  datatype Kind = Next | Return | Throw

  datatype Completion = Completion(kind: Kind, value: Value)

  /** A queued call; `id` counts the calls in the order in which they were made. */
  datatype Request = Request(id: nat, completion: Completion, unwrapped: bool)

  /** A resumption of the body for a call. */
  datatype Delivery = Delivery(id: nat, completion: Completion)

  /** How the promise of a call was settled. */
  datatype Settlement = Settlement(id: nat, rejected: bool, value: Value, done: bool)

  /** How a stretch of the body ends. */
  datatype Ending = Yields(value: Value) | Returns(value: Value) | Throws(value: Value) | Awaits

  /** What other code does with control: calls of the generator's methods, and an ending. */
  datatype Turn = Turn(calls: seq<Completion>, ending: Ending)

  // ------------------------------------------------------------------- history

  /** Calls are settled once each, in the order in which they were made; the others wait in that order. */
  ghost predicate InOrder(calls: seq<Completion>, settled: seq<Settlement>, queue: seq<Request>) {
    && |calls| == |settled| + |queue|
    && (forall i :: 0 <= i < |settled| ==> settled[i].id == i)
    && (forall i :: 0 <= i < |queue| ==> queue[i].id == |settled| + i && Waits(calls[|settled| + i], queue[i]))
  }

  /** A waiting call is as it was made; only the value of a return may have been awaited since. */
  ghost predicate Waits(call: Completion, r: Request) {
    if r.unwrapped then call.kind == Return && r.completion.kind != Next else r.completion == call
  }

  /**
  What the body is resumed with for a call: the first call starts it, and a return comes with its awaited outcome.
  */
  ghost predicate Suits(call: Completion, given: Completion, starts: bool) {
    match call.kind
    case Next => given == Completion(Next, if starts then UNDEFINED else call.value)
    case Throw => given == call
    case Return => given.kind != Next
  }

  /** Each call resumes the body at most once, in the order of the calls, all of them before `bound`. */
  ghost predicate Resumed(calls: seq<Completion>, delivered: seq<Delivery>, bound: nat) {
    && (forall i :: 0 <= i < |delivered| ==>
          delivered[i].id < bound && delivered[i].id < |calls|
          && Suits(calls[delivered[i].id], delivered[i].completion, i == 0))
    && (forall i, j :: 0 <= i < j < |delivered| ==> delivered[i].id < delivered[j].id)
    && (delivered != [] ==> delivered[0].id == 0)
  }

  ghost predicate IsYield(s: Settlement) {
    !s.rejected && !s.done
  }

  /** A call that meets a finished generator is settled by its own completion. */
  ghost predicate AnswersItself(call: Completion, s: Settlement) {
    && s.done
    && (call.kind == Next ==> !s.rejected && s.value == UNDEFINED)
    && (call.kind == Throw ==> s.rejected && s.value == call.value)
  }

  ghost predicate IsFinal(e: Ending) {
    e.Returns? || e.Throws?
  }

  /** What the end of a stretch of the body settles. */
  ghost function Outcome(ending: Ending, id: nat): (r: seq<Settlement>) {
    match ending
    case Yields(value) => [Settlement(id, false, value, false)]
    case Returns(value) => [Settlement(id, false, value, true)]
    case Throws(value) => [Settlement(id, true, value, true)]
    case Awaits => []
  }

  /** What all the stretches of the body settle, one call after the other. */
  ghost function Outcomes(stretches: seq<Ending>): (r: seq<Settlement>) {
    if stretches == [] then []
    else
      var before := Outcomes(stretches[..|stretches| - 1]);
      before + Outcome(stretches[|stretches| - 1], |before|)
  }

  /** The body has come to its end. */
  ghost predicate Over(stretches: seq<Ending>) {
    stretches != [] && IsFinal(stretches[|stretches| - 1])
  }

  /**
  The first calls are settled by what the body gives, in order, and by nothing else; once the generator is finished, by
  the end of the body or by a first call that is no `next`, calls answer themselves.
  */
  ghost predicate Told(calls: seq<Completion>, settled: seq<Settlement>, stretches: seq<Ending>, finished: bool) {
    var outcomes := Outcomes(stretches);
    && |outcomes| <= |settled| <= |calls| && settled[..|outcomes|] == outcomes
    && (forall i :: 0 <= i < |stretches| - 1 ==> !IsFinal(stretches[i]))
    && (Over(stretches) ==> finished)
    && (finished && !Over(stretches) ==> stretches == [] && calls != [] && calls[0].kind != Next)
    && (!finished ==> |settled| == |outcomes|)
    && (forall i :: |outcomes| <= i < |settled| ==> AnswersItself(calls[i], settled[i]))
  }

  /**
  The books: the calls, which of them are settled, which wait, and which the body has been resumed with, all of these
  before `bound`.
  */
  ghost predicate Books(calls: seq<Completion>, settled: seq<Settlement>, queue: seq<Request>, resumed: seq<Delivery>,
                        bound: nat, stretches: seq<Ending>, finished: bool) {
    forall b {:trigger Unfold(b)} :: Unfold(b) ==>
      && InOrder(calls, settled, queue) && Told(calls, settled, stretches, finished) && Resumed(calls, resumed, bound)
      && forall i :: 0 < i < |queue| ==> !queue[i].unwrapped
  }

  /** The resumptions of the body, with the one that has been announced. */
  ghost function All(delivered: seq<Delivery>, current: seq<Delivery>): (r: seq<Delivery>) {
    if current == [] then delivered else delivered + current
  }

  /** The first call is past only while the body works on it. */
  ghost function Bound(settled: seq<Settlement>, state: State, awaitingReturn: bool): (b: nat) {
    |settled| + if state.Executing? && !awaitingReturn then 1 else 0
  }

  lemma CallBooks(calls: seq<Completion>, settled: seq<Settlement>, queue: seq<Request>, resumed: seq<Delivery>,
                  bound: nat, stretches: seq<Ending>, finished: bool, call: Completion)
    requires Books(calls, settled, queue, resumed, bound, stretches, finished)
    ensures Books(calls + [call], settled, queue + [Request(|calls|, call, false)], resumed, bound, stretches, finished)
    ensures queue == [] ==> !(queue + [Request(|calls|, call, false)])[0].unwrapped
  {
    assert Unfold(true);
  }

  /** The first call is settled: by a stretch of the body, or by itself. */
  lemma SettleBooks(calls: seq<Completion>, settled: seq<Settlement>, queue: seq<Request>, resumed: seq<Delivery>,
                    stretches: seq<Ending>, finished: bool, s: Settlement, ending: Option<Ending>)
    requires Books(calls, settled, queue, resumed, |settled| + 1, stretches, finished) && queue != []
             && s.id == |settled|
    requires match ending
             case None => finished && !queue[0].unwrapped && AnswersItself(queue[0].completion, s)
             case Some(e) => !finished && Outcome(e, |settled|) == [s]
    ensures queue[0].id == |settled| && (|queue| > 1 ==> !queue[1].unwrapped)
    ensures Books(calls, settled + [s], queue[1..], resumed, |settled| + 1, Longer(stretches, ending),
                  finished || (ending.Some? && IsFinal(ending.value)))
  {
    assert Unfold(true);
    assert Waits(calls[|settled|], queue[0]);
    SettleTold(calls, settled, stretches, finished, s, ending);
    SettleOrder(calls, settled, queue, s);
  }

  lemma SettleOrder(calls: seq<Completion>, settled: seq<Settlement>, queue: seq<Request>, s: Settlement)
    requires InOrder(calls, settled, queue) && queue != [] && s.id == |settled|
    ensures InOrder(calls, settled + [s], queue[1..])
  {
  }

  lemma SettleTold(calls: seq<Completion>, settled: seq<Settlement>, stretches: seq<Ending>, finished: bool,
                   s: Settlement, ending: Option<Ending>)
    requires Told(calls, settled, stretches, finished) && |settled| < |calls| && s.id == |settled|
    requires match ending
             case None => finished && AnswersItself(calls[|settled|], s)
             case Some(e) => !finished && Outcome(e, |settled|) == [s]
    ensures Told(calls, settled + [s], Longer(stretches, ending),
                 finished || (ending.Some? && IsFinal(ending.value)))
  {
    if ending.Some? {
      assert Longer(stretches, ending)[..|stretches|] == stretches;
      assert settled == Outcomes(stretches);
    } else {
      assert (settled + [s])[..|Outcomes(stretches)|] == settled[..|Outcomes(stretches)|];
    }
  }

  ghost function Longer(stretches: seq<Ending>, ending: Option<Ending>): (r: seq<Ending>) {
    if ending.Some? then stretches + [ending.value] else stretches
  }

  /** The body awaits, which settles nothing. */
  lemma AwaitBooks(calls: seq<Completion>, settled: seq<Settlement>, queue: seq<Request>, resumed: seq<Delivery>,
                   bound: nat, stretches: seq<Ending>, finished: bool)
    requires Books(calls, settled, queue, resumed, bound, stretches, finished) && !finished
    ensures Books(calls, settled, queue, resumed, bound, stretches + [Awaits], finished)
  {
    assert Unfold(true);
    assert (stretches + [Awaits])[..|stretches|] == stretches;
    assert Outcomes(stretches + [Awaits]) == Outcomes(stretches);
  }

  /** The first call resumes the body. */
  lemma DeliverBooks(calls: seq<Completion>, settled: seq<Settlement>, queue: seq<Request>, resumed: seq<Delivery>,
                     stretches: seq<Ending>, finished: bool, given: Completion)
    requires Books(calls, settled, queue, resumed, |settled|, stretches, finished) && queue != []
    requires given == if resumed == [] then Completion(Next, UNDEFINED) else queue[0].completion
    requires resumed == [] ==> stretches == [] && !finished
    requires if resumed == [] then queue[0].completion.kind == Next
             else queue[0].completion.kind == Return ==> queue[0].unwrapped
    ensures Books(calls, settled, queue, resumed + [Delivery(queue[0].id, given)], |settled| + 1, stretches, finished)
  {
    assert Unfold(true);
    assert Waits(calls[|settled|], queue[0]);
    assert Suits(calls[|settled|], given, resumed == []);
  }

  /** The first call, a return, is given the outcome of its value. */
  lemma UnwrapBooks(calls: seq<Completion>, settled: seq<Settlement>, queue: seq<Request>, resumed: seq<Delivery>,
                    bound: nat, stretches: seq<Ending>, finished: bool, outcome: Completion)
    requires Books(calls, settled, queue, resumed, bound, stretches, finished) && queue != []
    requires queue[0].completion.kind == Return && !queue[0].unwrapped && outcome.kind != Next
    ensures Books(calls, settled, [queue[0].(completion := outcome, unwrapped := true)] + queue[1..], resumed, bound,
                  stretches, finished)
  {
    assert Unfold(true);
  }

  /** The generator is finished before its body has run, by a first call that is no `next`. */
  lemma EndBooks(calls: seq<Completion>, settled: seq<Settlement>, queue: seq<Request>, resumed: seq<Delivery>,
                 bound: nat)
    requires Books(calls, settled, queue, resumed, bound, [], false)
    requires queue != [] && !queue[0].unwrapped && queue[0].completion.kind != Next
    ensures Books(calls, settled, queue, resumed, bound, [], true)
  {
    assert Unfold(true);
    assert settled == [] && Waits(calls[0], queue[0]);
  }

  lemma WidenBooks(calls: seq<Completion>, settled: seq<Settlement>, queue: seq<Request>, resumed: seq<Delivery>,
                   bound: nat, bound': nat, stretches: seq<Ending>, finished: bool)
    requires Books(calls, settled, queue, resumed, bound, stretches, finished) && bound <= bound'
    ensures Books(calls, settled, queue, resumed, bound', stretches, finished)
  {
    assert Unfold(true);
  }

  class Generator {
    var state: State
    var processing: bool
    var awaitingReturn: bool
    /** Whether the awaited value of a return goes to the body. */
    var resuming: bool
    var queue: seq<Request>
    /** Whether the body can still be resumed. */
    var resumable: bool
    /** Whether the body waits for a promise of its own. */
    var bodyAwaits: bool
    /** The completion that the body was last resumed with. */
    var request: Completion
    /** What other code will do with control. */
    var plan: seq<Turn>
    var made: nat
    ghost var inBody: bool
    ghost var calls: seq<Completion>
    ghost var settled: seq<Settlement>
    /** What the body has been resumed with, noted where it gets control. */
    ghost var delivered: seq<Delivery>
    /** The resumption that has been announced and in which the body has not got control yet. */
    ghost var current: seq<Delivery>
    ghost var finished: bool
    /** How the stretches of the body have ended. */
    ghost var stretches: seq<Ending>

    ghost predicate History()
      reads this
    {
      made == |calls|
      && Books(calls, settled, queue, All(delivered, current), Bound(settled, state, awaitingReturn), stretches,
               finished)
    }

    /** The body has been started, and the call that it works on is the last one that it was given. */
    ghost predicate Given()
      reads this
    {
      && (state.SuspendedStart? ==> All(delivered, current) == [])
      && (state.SuspendedYield? || state.Executing? ==> All(delivered, current) != [])
      && (All(delivered, current) == [] ==> stretches == [])
    }

    /** A resumption is announced for the first call, with the completion that the body will find. */
    ghost predicate Announced()
      reads this
    {
      current != [] ==>
        && processing && state.Executing? && !awaitingReturn && !bodyAwaits && !inBody && queue != []
        && current == [Delivery(queue[0].id, request)]
    }

    ghost predicate Consistent()
      reads this
    {
      && History() && Given() && Announced()
      && (state.Executing? ==> queue != [])
      && (awaitingReturn ==> queue != [] && queue[0].completion.kind == Return && !queue[0].unwrapped)
      && (awaitingReturn ==> (if resuming then state.Executing? else state.DrainingQueue?))
      && (bodyAwaits ==> state.Executing?)
      && !(awaitingReturn && bodyAwaits) && !(awaitingReturn && inBody) && !(bodyAwaits && inBody)
      && resumable == !(state.DrainingQueue? || state.Completed?)
      && (finished <==> state.DrainingQueue? || state.Completed?)
      && (inBody ==> processing)
      && (queue != [] && queue[0].unwrapped ==> state.SuspendedYield? || state.Executing?)
    }

    /** What holds wherever other code may run: an executing generator is in its body, or waits for a promise. */
    ghost predicate Valid()
      reads this
    {
      Consistent() && current == [] && (state.Executing? ==> awaitingReturn || bodyAwaits || inBody)
    }

    /** No stretch of the generator's own code is under way: nothing is left undone. */
    ghost predicate Idle()
      reads this
    {
      !processing ==> (queue == [] || state.Executing? || awaitingReturn) && (state.DrainingQueue? ==> awaitingReturn)
    }

    constructor (plan: seq<Turn>)
      ensures Valid() && Idle() && !processing && calls == [] && settled == []
    {
      state, processing, awaitingReturn, resuming := SuspendedStart, false, false, false;
      queue, resumable, bodyAwaits := [], true, false;
      request, this.plan, made := Completion(Next, UNDEFINED), plan, 0;
      inBody, calls, settled, delivered, current, finished, stretches := false, [], [], [], [], false, [];
    }

    /** What nothing but the settling of a call and the making of one changes. */
    twostate predicate OnlyMoreCalls()
      reads this
    {
      && state == old(state) && processing == old(processing) && awaitingReturn == old(awaitingReturn)
      && resuming == old(resuming)
      && resumable == old(resumable) && bodyAwaits == old(bodyAwaits) && request == old(request)
      && inBody == old(inBody) && current == old(current)
      && settled == old(settled) && delivered == old(delivered) && finished == old(finished)
      && stretches == old(stretches) && old(queue) <= queue && old(calls) <= calls
    }

    /** The first call of the queue can go to the body, which it starts or resumes. */
    ghost predicate Deliverable()
      reads this
    {
      && queue != []
      && (|| (state.SuspendedStart? && queue[0].completion.kind == Next)
          || (state.SuspendedYield? && (queue[0].completion.kind == Return ==> queue[0].unwrapped)))
    }

    /** What the body will have been resumed with once the first call of the queue has been given to it. */
    ghost function NextDelivered(): (r: seq<Delivery>)
      reads this
    {
      if !Deliverable() then delivered
      else
        var given := if state.SuspendedStart? then Completion(Next, UNDEFINED) else queue[0].completion;
        delivered + [Delivery(queue[0].id, given)]
    }

    /** The first call of the queue is a return that meets a suspended body, and its value has not been awaited. */
    ghost predicate Returning()
      reads this
    {
      state.SuspendedYield? && queue != [] && queue[0].completion.kind == Return && !queue[0].unwrapped
    }

    /** What the body will have been resumed with once the value of the return could not be awaited. */
    ghost function ThrowDelivered(): (r: seq<Delivery>)
      reads this
    {
      if queue == [] || plan == [] || !plan[0].ending.Throws? then delivered
      else delivered + [Delivery(queue[0].id, Completion(Throw, plan[0].ending.value))]
    }

    /** The value of the first call, a return, is awaited for the body, which has not been resumed. */
    twostate predicate ReturnAwaited()
      reads this
    {
      && awaitingReturn && resuming && old(queue) != [] && old(queue) <= queue
      && delivered == old(delivered) && settled == old(settled) && stretches == old(stretches)
    }

    /** The first call has gone where it belongs: to the body, at once or after its value has been awaited. */
    twostate predicate FirstTaken()
      reads this
    {
      && (old(Deliverable()) ==> old(NextDelivered()) <= delivered)
      && (old(Returning()) ==>
            || (ReturnAwaited() && (old(plan) == [] || !old(plan)[0].ending.Throws?))
            || (old(plan) != [] && old(plan)[0].ending.Throws? && old(ThrowDelivered()) <= delivered))
    }

    /** Neither the calls made nor the settlements are ever taken back. */
    twostate predicate Grows()
      reads this
    {
      && old(calls) <= calls && old(settled) <= settled && old(delivered) <= delivered && old(stretches) <= stretches
    }

    /** A call of `next`, `return` or `throw`: it waits for its turn, and takes it at once if it can. */
    method Apply(completion: Completion)
      requires Valid() && (processing || Idle())
      modifies this
      ensures Valid() && Idle() && processing == old(processing)
      ensures old(calls) + [completion] <= calls && old(settled) <= settled && old(delivered) <= delivered
      ensures processing ==> OnlyMoreCalls() && plan == old(plan) && calls == old(calls) + [completion]
      ensures !processing && old(state).SuspendedStart? && completion.kind == Next ==>
        [Delivery(|old(calls)|, Completion(Next, UNDEFINED))] <= delivered
      ensures !processing && old(state).SuspendedYield? && completion.kind != Return ==>
        old(delivered) + [Delivery(|old(calls)|, completion)] <= delivered
      ensures !processing && old(state).SuspendedYield? && completion.kind == Return ==>
        if old(plan) == [] || !old(plan)[0].ending.Throws?
        then awaitingReturn && resuming && delivered == old(delivered) && settled == old(settled)
        else old(delivered) + [Delivery(|old(calls)|, Completion(Throw, old(plan)[0].ending.value))] <= delivered
      decreases if processing then 0 else 1, 2
    {
      CallBooks(calls, settled, queue, All(delivered, current), Bound(settled, state, awaitingReturn), stretches,
                finished, completion);
      queue := queue + [Request(made, completion, false)];
      made, calls := made + 1, calls + [completion];
      Drain();
    }

    /** Other code has control. */
    method Interject() returns (ending: Ending)
      requires Valid() && processing
      modifies this
      ensures Valid() && OnlyMoreCalls()
      ensures if |old(plan)| == 0 then plan == [] && ending == Awaits && queue == old(queue)
              else |plan| < |old(plan)| && ending == old(plan)[0].ending
                   && |calls| == |old(calls)| + |old(plan)[0].calls|
      decreases 0, 3
    {
      if |plan| == 0 { return Awaits; }
      var turn := plan[0];
      plan := plan[1..];
      for i := 0 to |turn.calls|
        invariant Valid() && OnlyMoreCalls() && |plan| == |old(plan)| - 1 && |calls| == |old(calls)| + i
      {
        Apply(turn.calls[i]);
      }
      ending := turn.ending;
    }

    /** The first call is taken out and its promise settled: by the stretch of the body that ends so, or by itself. */
    method CompleteStep(rejected: bool, value: Value, done: bool, ghost ending: Option<Ending>)
      requires queue != [] && processing && !awaitingReturn && !bodyAwaits && !state.Executing? && current == []
      requires made == |calls|
               && Books(calls, settled, queue, All(delivered, current), |settled| + 1, stretches, finished)
      requires (var s := Settlement(|settled|, rejected, value, done);
                match ending
                case None => finished && !queue[0].unwrapped && AnswersItself(queue[0].completion, s)
                case Some(e) => !finished && Outcome(e, |settled|) == [s])
      requires resumable == !(state.DrainingQueue? || state.Completed?)
      requires !state.SuspendedStart? && (state.SuspendedYield? ==> delivered != []) && (inBody ==> processing)
      requires finished || (ending.Some? && IsFinal(ending.value)) <==> state.DrainingQueue? || state.Completed?
      requires delivered == [] ==> stretches == [] && ending == None
      modifies this
      ensures Valid() && processing && !awaitingReturn && !bodyAwaits && state == old(state) && inBody == old(inBody)
      ensures settled == old(settled) + [Settlement(|old(settled)|, rejected, value, done)] && old(calls) <= calls
              && delivered == old(delivered) && stretches == Longer(old(stretches), ending)
      ensures |plan| < |old(plan)| || (plan == old(plan) && |queue| == |old(queue)| - 1)
      decreases 0, 4
    {
      ghost var size := |settled| + 1;
      SettleBooks(calls, settled, queue, All(delivered, current), stretches, finished,
                  Settlement(|settled|, rejected, value, done), ending);
      TakeFirst(rejected, value, done, ending);
      assert Bound(settled, state, awaitingReturn) == size;
      assert History();
      var _ := Interject();
    }

    method TakeFirst(rejected: bool, value: Value, done: bool, ghost ending: Option<Ending>)
      requires queue != []
      modifies this`queue, this`request, this`settled, this`finished, this`stretches
      ensures queue == old(queue)[1..] && request == Completion(Next, UNDEFINED)
      ensures settled == old(settled) + [Settlement(old(queue)[0].id, rejected, value, done)]
      ensures stretches == Longer(old(stretches), ending)
      ensures finished == (old(finished) || (ending.Some? && IsFinal(ending.value)))
    {
      var head := queue[0];
      queue := queue[1..];
      request := Completion(Next, UNDEFINED);
      settled := settled + [Settlement(head.id, rejected, value, done)];
      finished := finished || (ending.Some? && IsFinal(ending.value));
      stretches := Longer(stretches, ending);
    }

    /** A stretch of the body, up to its next yield, its end or an await; it takes a turn. */
    method RunBody()
      requires Consistent() && processing && state.Executing? && !awaitingReturn && !inBody
               && (current != [] || bodyAwaits)
      modifies this
      ensures Grows()
      ensures Valid() && processing && !inBody && !awaitingReturn && delivered == old(delivered) + old(current)
      ensures (var ending := if old(plan) == [] then Awaits else old(plan)[0].ending;
               && settled == old(settled) + Outcome(ending, |old(settled)|) && bodyAwaits == ending.Awaits?
               && stretches == old(stretches) + [ending])
      ensures if old(plan) != [] then |plan| < |old(plan)|
              else plan == [] && queue == old(queue) && state.Executing?
      decreases 0, 7
    {
      EnterBody();
      var ending := Interject();
      EndStretch(ending);
    }

    method EndStretch(ending: Ending)
      requires Valid() && processing && state.Executing? && inBody
      modifies this
      ensures Grows()
      ensures Valid() && processing && !inBody && !awaitingReturn && delivered == old(delivered)
      ensures settled == old(settled) + Outcome(ending, |old(settled)|) && |plan| <= |old(plan)|
      ensures ending.Awaits? ==> state.Executing? && queue == old(queue) && plan == old(plan)
      ensures bodyAwaits == ending.Awaits? && stretches == old(stretches) + [ending]
      decreases 0, 6
    {
      match ending {
        case Yields(value) =>
          Suspend(value);
          LeaveBody(false);
        case Returns(value) =>
          Finish(false, value);
          LeaveBody(false);
        case Throws(value) =>
          Finish(true, value);
          LeaveBody(false);
        case Awaits =>
          AwaitBooks(calls, settled, queue, All(delivered, current), Bound(settled, state, awaitingReturn), stretches,
                     finished);
          stretches := stretches + [Awaits];
          LeaveBody(true);
      }
    }

    /** The body gets control: for the call that was announced, or because a promise of its own has been settled. */
    method EnterBody()
      requires Consistent() && processing && state.Executing? && !awaitingReturn && !inBody
               && (current != [] || bodyAwaits)
      modifies this`bodyAwaits, this`inBody, this`delivered, this`current
      ensures Valid() && inBody && !bodyAwaits && delivered == old(delivered) + old(current)
    {
      ghost var all := All(delivered, current);
      assert all == delivered + current;
      bodyAwaits, inBody := false, true;
      delivered, current := all, [];
      assert All(delivered, current) == all;
    }

    /** Control leaves the body, which either has been suspended or has ended, or waits for a promise. */
    method LeaveBody(awaits: bool)
      requires Valid() && inBody && awaits == state.Executing?
      modifies this`bodyAwaits, this`inBody
      ensures Valid() && !inBody && bodyAwaits == awaits
    {
      inBody, bodyAwaits := false, awaits;
    }

    /** The body yields a value. */
    method Suspend(value: Value)
      requires Valid() && processing && state.Executing? && inBody
      modifies this
      ensures Grows()
      ensures Valid() && processing && state == SuspendedYield && inBody && !awaitingReturn && |plan| <= |old(plan)|
      ensures settled == old(settled) + [Settlement(|old(settled)|, false, value, false)] && delivered == old(delivered)
      ensures stretches == old(stretches) + [Yields(value)]
      decreases 0, 5
    {
      state := SuspendedYield;
      CompleteStep(false, value, false, Some(Yields(value)));
    }

    /** The body has come to its end. */
    method Finish(rejected: bool, value: Value)
      requires Valid() && processing && state.Executing? && inBody
      modifies this
      ensures Grows()
      ensures Valid() && processing && state == DrainingQueue && inBody && !awaitingReturn && |plan| <= |old(plan)|
      ensures settled == old(settled) + [Settlement(|old(settled)|, rejected, value, true)]
              && delivered == old(delivered)
      ensures stretches == old(stretches) + [if rejected then Throws(value) else Returns(value)]
      decreases 0, 5
    {
      state := DrainingQueue;
      resumable := false;
      CompleteStep(rejected, value, true, Some(if rejected then Throws(value) else Returns(value)));
    }

    /** The body is resumed: from the queue, for the call announced, or by a promise that it awaited. */
    method Resume()
      requires Consistent() && state.Executing? && !awaitingReturn && !inBody
      requires if current == [] then bodyAwaits && !processing else processing
      modifies this
      ensures Grows() && old(delivered) + old(current) <= delivered
      ensures Valid() && !inBody && processing == old(processing) && (processing ==> !awaitingReturn)
      ensures !processing ==> Idle()
      ensures old(settled) + Outcome(if old(plan) == [] then Awaits else old(plan)[0].ending, |old(settled)|) <= settled
      ensures processing ==> delivered == old(delivered) + old(current)
      ensures old(stretches) + [if old(plan) == [] then Awaits else old(plan)[0].ending] <= stretches
      ensures processing ==> |stretches| == |old(stretches)| + 1
      ensures processing && old(plan) != [] ==> |plan| < |old(plan)|
      ensures processing && old(plan) == [] ==> plan == [] && queue == old(queue) && state.Executing? && bodyAwaits
      decreases if processing then 0 else 1, 8
    {
      var wasProcessing := processing;
      processing := true;
      RunBody();
      processing := wasProcessing;
      if !wasProcessing { Drain(); }
    }

    /** The first call of the queue, a return, gets the outcome of its value, for the body. */
    method Unwrap(completion: Completion)
      requires Consistent() && !awaitingReturn && !bodyAwaits && !inBody && queue != []
               && queue[0].completion.kind == Return && !queue[0].unwrapped && completion.kind != Next
      requires Books(calls, settled, queue, All(delivered, current), |settled|, stretches, finished) && delivered != []
      requires (state.SuspendedYield? || state.Executing?) && current == []
      modifies this`queue, this`state
      ensures Valid() && state == SuspendedYield
              && queue == [old(queue)[0].(completion := completion, unwrapped := true)] + old(queue)[1..]
    {
      UnwrapBooks(calls, settled, queue, All(delivered, current), |settled|, stretches, finished, completion);
      queue := [queue[0].(completion := completion, unwrapped := true)] + queue[1..];
      state := SuspendedYield;
    }

    /** The value of a return could not be awaited: the error goes to the body, or settles the call. */
    method FailReturn(toBody: bool, error: Value)
      requires Valid() && processing && !awaitingReturn && !bodyAwaits && !inBody && queue != []
      requires queue[0].completion.kind == Return && !queue[0].unwrapped
               && (if toBody then state.SuspendedYield? else state.DrainingQueue?)
      modifies this
      ensures Grows() && delivered == old(delivered) && |plan| <= |old(plan)|
      ensures Valid() && processing && !bodyAwaits && !inBody && !awaitingReturn
      ensures toBody ==>
        && state == SuspendedYield && settled == old(settled) && queue != []
        && queue[0] == Request(old(queue)[0].id, Completion(Throw, error), true)
      ensures !toBody ==> settled == old(settled) + [Settlement(|old(settled)|, true, error, true)]
      ensures stretches == old(stretches) && finished == old(finished)
      decreases 0, 5
    {
      if toBody {
        Unwrap(Completion(Throw, error));
      } else {
        WidenBooks(calls, settled, queue, All(delivered, current), |settled|, |settled| + 1, stretches, finished);
        CompleteStep(true, error, true, None);
      }
    }

    /** The value of a return is awaited; false if the attempt throws. */
    method AwaitReturn(toBody: bool) returns (awaits: bool)
      requires Valid() && processing && !awaitingReturn && !bodyAwaits && !inBody && queue != []
      requires queue[0].completion.kind == Return && !queue[0].unwrapped
               && (if toBody then state.SuspendedYield? else state.DrainingQueue?)
      modifies this
      ensures Grows()
      ensures Valid() && processing && !bodyAwaits && !inBody && awaits == awaitingReturn
      ensures |plan| < |old(plan)| || (awaits && plan == old(plan) && queue == old(queue))
      ensures awaits <==> old(plan) == [] || !old(plan)[0].ending.Throws?
      ensures awaits ==> resuming == toBody && settled == old(settled) && old(queue) <= queue
      ensures !awaits && toBody ==>
        && state == SuspendedYield && settled == old(settled) && queue != []
        && queue[0] == Request(old(queue)[0].id, Completion(Throw, old(plan)[0].ending.value), true)
      ensures !awaits && !toBody ==>
        settled == old(settled) + [Settlement(|old(settled)|, true, old(plan)[0].ending.value, true)]
      ensures delivered == old(delivered)
      ensures stretches == old(stretches) && finished == old(finished)
      decreases 0, 6
    {
      var ending := Interject();
      if ending.Throws? {
        FailReturn(toBody, ending.value);
        return false;
      }
      awaitingReturn, resuming := true, toBody;
      state := if toBody then Executing else DrainingQueue;
      awaits := true;
    }

    /** A call that meets a finished generator. */
    method AnswerFinished() returns (stop: bool)
      requires Valid() && processing && !inBody && !awaitingReturn && queue != []
               && (state.DrainingQueue? || state.Completed?)
      modifies this
      ensures Grows()
      ensures Valid() && processing && !inBody && stop == awaitingReturn
      ensures !stop ==> |plan| < |old(plan)| || (plan == old(plan) && |queue| < |old(queue)|)
      ensures stop ==> |plan| < |old(plan)| || (plan == old(plan) && queue == old(queue))
      ensures delivered == old(delivered)
              && (stop ==> settled == old(settled) && old(queue)[0].completion.kind == Return && !resuming)
      ensures !stop ==>
        |settled| == |old(settled)| + 1 && AnswersItself(old(queue)[0].completion, settled[|old(settled)|])
      ensures !stop && old(queue)[0].completion.kind == Return ==>
        old(plan) != [] && old(plan)[0].ending.Throws? && settled[|old(settled)|].value == old(plan)[0].ending.value
      ensures stretches == old(stretches) && finished == old(finished)
      decreases 0, 9
    {
      var completion := queue[0].completion;
      state := DrainingQueue;
      if completion.kind == Return {
        stop := AwaitReturn(false);
      } else {
        WidenBooks(calls, settled, queue, All(delivered, current), |settled|, |settled| + 1, stretches, finished);
        var value := if completion.kind == Throw then completion.value else UNDEFINED;
        CompleteStep(completion.kind == Throw, value, true, None);
        stop := false;
      }
    }

    /** The first call of the queue goes to the body; a return only after its value has been awaited. */
    method Deliver()
      requires Valid() && processing && !inBody && !awaitingReturn && queue != []
      requires state.SuspendedStart? || state.SuspendedYield?
      requires if state.SuspendedStart? then queue[0].completion.kind == Next
               else queue[0].completion.kind == Return ==> queue[0].unwrapped
      modifies this
      ensures Grows()
      ensures Valid() && processing && !inBody && !awaitingReturn
      ensures (var starts := old(state).SuspendedStart?;
               var given := if starts then Completion(Next, UNDEFINED) else old(queue)[0].completion;
               delivered == old(delivered) + [Delivery(old(queue)[0].id, given)])
      ensures if old(plan) != [] then |plan| < |old(plan)|
              else plan == [] && queue == old(queue) && state.Executing? && bodyAwaits
      ensures (var ending := if old(plan) == [] then Awaits else old(plan)[0].ending;
               && stretches == old(stretches) + [ending]
               && old(settled) + Outcome(ending, |old(settled)|) <= settled)
      decreases 0, 9
    {
      Prepare();
      Announce();
      Resume();
    }

    /** The body will find the completion of the first call, or undefined if that starts it. */
    method Prepare()
      requires Valid() && processing && !inBody && !awaitingReturn && queue != []
      requires state.SuspendedStart? || state.SuspendedYield?
      requires state.SuspendedStart? ==> queue[0].completion.kind == Next
      modifies this`request
      ensures Valid()
      ensures request == if state.SuspendedStart? then Completion(Next, UNDEFINED) else queue[0].completion
    {
      request := if state.SuspendedStart? then queue[0].completion.(value := UNDEFINED) else queue[0].completion;
    }

    /** The body is about to be resumed for the first call. */
    method Announce()
      requires Valid() && processing && !inBody && !awaitingReturn && queue != []
      requires state.SuspendedStart? || state.SuspendedYield?
      requires if state.SuspendedStart? then queue[0].completion.kind == Next
               else queue[0].completion.kind == Return ==> queue[0].unwrapped
      requires request == if state.SuspendedStart? then Completion(Next, UNDEFINED) else queue[0].completion
      modifies this`state, this`current
      ensures Consistent() && state == Executing && current == [Delivery(queue[0].id, request)]
    {
      ghost var next := Delivery(queue[0].id, request);
      ghost var all := delivered + [next];
      DeliverBooks(calls, settled, queue, delivered, stretches, finished, request);
      state := Executing;
      current := [next];
      assert All(delivered, current) == all && |all| > 0;
      assert History();
    }

    /** One round of the worklist; true if a return value is awaited now. */
    method DrainOne() returns (stop: bool)
      requires Valid() && processing && !inBody && !awaitingReturn && queue != [] && !state.Executing?
      modifies this
      ensures Grows() && old(NextDelivered()) <= delivered
      ensures Valid() && processing && !inBody && stop == awaitingReturn
      ensures !stop ==>
        |plan| < |old(plan)|
        || (plan == old(plan) && (|queue| < |old(queue)| || (queue == old(queue) && state.Executing?)))
      ensures stop ==> |plan| < |old(plan)| || (plan == old(plan) && queue == old(queue))
      ensures old(Deliverable()) ==> !stop && delivered == old(NextDelivered())
      ensures !old(Deliverable()) ==> delivered == old(delivered) && stretches == old(stretches)
      ensures old(Returning()) ==>
        if old(plan) == [] || !old(plan)[0].ending.Throws? then stop && ReturnAwaited()
        else !stop && Deliverable() && state.SuspendedYield? && NextDelivered() == old(ThrowDelivered())
      ensures !old(Deliverable()) && !old(Returning()) ==>
        && (stop ==> !resuming && settled == old(settled) && old(queue)[0].completion.kind == Return)
        && (!stop ==> |settled| == |old(settled)| + 1
                      && AnswersItself(old(queue)[0].completion, settled[|old(settled)|]))
      decreases 0, 10
    {
      if state.SuspendedStart? && queue[0].completion.kind != Next {
        state := DrainingQueue;
        resumable := false;
        EndBooks(calls, settled, queue, All(delivered, current), |settled|);
        finished := true;
      }
      if state.DrainingQueue? || state.Completed? {
        stop := AnswerFinished();
      } else if state.SuspendedYield? && queue[0].completion.kind == Return && !queue[0].unwrapped {
        stop := AwaitReturn(true);
      } else {
        Deliver();
        stop := false;
      }
    }

    /** Works through the queue, unless that is under way or a return value is awaited. */
    method Drain()
      requires Valid()
      modifies this
      ensures Grows() && (!processing && !old(awaitingReturn) ==> FirstTaken())
      ensures Valid() && Idle() && processing == old(processing)
      ensures processing ==> OnlyMoreCalls() && queue == old(queue) && calls == old(calls) && plan == old(plan)
      decreases if processing then 0 else 1, 1
    {
      if processing || awaitingReturn { return; }
      DrainQueue();
    }

    method DrainLoop()
      requires Valid() && processing && !inBody && !awaitingReturn
      modifies this
      ensures Grows() && FirstTaken()
      ensures Valid() && processing && !inBody && (queue == [] || state.Executing? || awaitingReturn)
      decreases 0, 11
    {
      var stop := false;
      while !stop && queue != [] && !state.Executing?
        invariant Grows() && Valid() && processing && !inBody && stop == awaitingReturn
        invariant || FirstTaken()
                  || (!stop && state == old(state) && queue == old(queue) && plan == old(plan)
                      && delivered == old(delivered) && settled == old(settled) && stretches == old(stretches))
                  || (old(Returning()) && old(plan) != [] && old(plan)[0].ending.Throws? && Deliverable()
                      && state.SuspendedYield? && !stop && NextDelivered() == old(ThrowDelivered()))
        decreases |plan|, |queue|, if stop || state.Executing? then 0 else 1
      {
        stop := DrainOne();
      }
    }

    method DrainQueue()
      requires Valid() && !processing && !awaitingReturn
      modifies this
      ensures Grows() && FirstTaken()
      ensures Valid() && Idle() && !processing
      decreases 1, 0
    {
      processing := true;
      DrainLoop();
      StopDraining();
    }

    /** A finished generator with an empty queue is completed. */
    method StopDraining()
      requires Valid() && processing && !inBody && (queue == [] || state.Executing? || awaitingReturn)
      modifies this`state, this`processing
      ensures Valid() && Idle() && !processing
      ensures state == if old(state).DrainingQueue? && queue == [] then Completed else old(state)
    {
      if queue == [] && state.DrainingQueue? {
        state := Completed;
      }
      processing := false;
    }

    /** A return that met a finished generator is settled with its awaited value. */
    method SettleReturn(rejected: bool, value: Value)
      requires Consistent() && !processing && !awaitingReturn && !bodyAwaits && !inBody && state.DrainingQueue?
               && current == []
      requires queue != [] && queue[0].completion.kind == Return && !queue[0].unwrapped
      modifies this
      ensures Grows()
      ensures Valid() && !processing && !awaitingReturn
      ensures settled == old(settled) + [Settlement(|old(settled)|, rejected, value, true)]
    {
      var wasProcessing := processing;
      processing := true;
      WidenBooks(calls, settled, queue, All(delivered, current), |settled|, |settled| + 1, stretches, finished);
      CompleteStep(rejected, value, true, None);
      processing := wasProcessing;
    }

    /** The awaited value of a return has arrived. */
    method ReturnCallback(rejected: bool, value: Value)
      requires Valid() && !processing && awaitingReturn
      modifies this
      ensures Grows()
      ensures Valid() && Idle() && !processing
      ensures !old(resuming) ==> old(settled) + [Settlement(|old(settled)|, rejected, value, true)] <= settled
      ensures old(resuming) ==>
        var given := Completion(if rejected then Throw else Return, value);
        old(delivered) + [Delivery(old(queue)[0].id, given)] <= delivered
    {
      awaitingReturn := false;
      if resuming {
        Unwrap(Completion(if rejected then Throw else Return, value));
      } else {
        SettleReturn(rejected, value);
      }
      Drain();
    }
  }

  /** What reaches the generator from outside when nothing of it runs. */
  datatype Event = Call(completion: Completion) | BodyContinues | ReturnArrives(rejected: bool, value: Value)

  /** Every run: whatever is called, and whatever other code does when it has control. */
  method Run(plan: seq<Turn>, events: seq<Event>) returns (g: Generator)
    ensures g.Valid() && g.Idle() && !g.processing
    ensures InOrder(g.calls, g.settled, g.queue) && Told(g.calls, g.settled, g.stretches, g.finished)
    ensures Resumed(g.calls, g.delivered, |g.calls|)
    ensures g.calls != [] && g.calls[0].kind == Next ==>
      g.delivered != [] && g.delivered[0] == Delivery(0, Completion(Next, UNDEFINED))
    ensures g.calls != [] && g.delivered == [] ==> g.calls[0].kind != Next && g.finished
  {
    g := new Generator(plan);
    for i := 0 to |events|
      invariant g.Valid() && g.Idle() && !g.processing
    {
      match events[i] {
        case Call(completion) => g.Apply(completion);
        case BodyContinues =>
          if g.bodyAwaits { g.Resume(); }
        case ReturnArrives(rejected, value) =>
          if g.awaitingReturn { g.ReturnCallback(rejected, value); }
      }
    }
    assert Unfold(true);
    if g.calls != [] && g.calls[0].kind == Next {
      StartedByNext(g);
    }
  }

  /** A first call that is a `next` gives the body control. */
  lemma StartedByNext(g: Generator)
    requires g.Valid() && g.Idle() && !g.processing && g.calls != [] && g.calls[0].kind == Next
    ensures g.delivered != []
  {
    assert Unfold(true);
    assert Outcomes([]) == [];
  }

  /** All stretches but the last settle a call with a yield, or nothing. */
  lemma {:induction false} OnlyLastEnds(stretches: seq<Ending>, i: nat)
    requires forall k :: 0 <= k < |stretches| - 1 ==> !IsFinal(stretches[k])
    requires i < |Outcomes(stretches)|
    ensures !IsYield(Outcomes(stretches)[i]) ==> Over(stretches) && i == |Outcomes(stretches)| - 1
  {
    var front := stretches[..|stretches| - 1];
    if i < |Outcomes(front)| {
      OnlyLastEnds(front, i);
      assert front != [] ==> front[|front| - 1] == stretches[|front| - 1];
    }
  }

  /** Once a call has been told that the generator is done, no later call is given an item. */
  lemma DoneStaysDone(calls: seq<Completion>, settled: seq<Settlement>, stretches: seq<Ending>, finished: bool, i: nat,
                      j: nat)
    requires Told(calls, settled, stretches, finished) && i < j < |settled| && !IsYield(settled[i])
    ensures finished && AnswersItself(calls[j], settled[j]) && !IsYield(settled[j])
  {
    var outcomes := Outcomes(stretches);
    if i < |outcomes| {
      assert settled[..|outcomes|][i] == settled[i];
      OnlyLastEnds(stretches, i);
    }
  }

  /** When nothing is under way and nothing awaited, every call has been settled, in the order of the calls. */
  lemma AllSettledWhenIdle(calls: seq<Completion>, settled: seq<Settlement>, queue: seq<Request>, i: nat)
    requires InOrder(calls, settled, queue) && queue == [] && i < |calls|
    ensures |settled| == |calls| && settled[i].id == i
    ensures forall j :: 0 <= j < |settled| && settled[j].id == i ==> j == i
  {
  }
}
