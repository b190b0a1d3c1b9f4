/**
What becomes of the world with a turn of the innermost activation, and with each answer of foreign
code: item by item and error by error, in the terms of the records and activations that change.
*/
module HelperAnswers {
  import opened Options
  import opened HelperSteps
  import opened HelperRecords
  import opened HelperReentry

  /** What foreign code answers: it throws, returns a result, gives an item or the end, a value, or an iterator. */
  datatype Reply =
    | Threw(error: Error)
    | Returned(isObject: bool)
    | Item(value: Value)
    | Exhausted
    | Gave(value: Value)
    | Opening(target: Target)

  /** How a call of `next` or `return` has ended. */
  datatype Outcome = Going | Normal(value: Value, done: bool) | Thrown(error: Error)

  ghost predicate Topped(w: World) {
    |w.works| > 0 && |TopWork(w).stack| > 0 && TopFrame(w).helper < |w.helpers|
  }

  ghost function TopHelper(w: World): (h: Shared)
    requires Topped(w)
  {
    w.helpers[TopFrame(w).helper]
  }

  /** The topmost activation has gone on to another state, with its helper. */
  ghost predicate GoesOn(w: World, h: Shared, a: Activation, outcome: Outcome, w': World)
    requires Topped(w)
  {
    outcome.Going? && w' == Moved(w, h, a, w'.log, w.owners, None, TopWork(w).raised)
  }

  /** The topmost activation has given an item: to whoever made the call, or to the activation below, which waits. */
  ghost predicate Gives(w: World, h: Shared, item: Value, outcome: Outcome, w': World)
    requires Topped(w)
  {
    var work, n := TopWork(w), |w.works| - 1;
    && w'.helpers == w.helpers[TopFrame(w).helper := h.(state := Suspended)]
    && w'.holders == w.holders && w'.owners == w.owners
    && if |work.stack| == 1 then
         outcome == Normal(item, false) && w'.works == w.works[..n]
       else
         outcome.Going?
         && w'.works == w.works[n := Work(work.stack[..|work.stack| - 1],
                                          Left(Plain(item, false), false, TopFrame(w).activation.error), None,
                                          work.raised)]
  }

  /** An error has come: a record that was being stepped is at its end, and what is still open is to be closed. */
  ghost predicate Breaks(w: World, request: Action, error: Error, outcome: Outcome, w': World)
    requires Topped(w)
  {
    var h, a := TopHelper(w), TopFrame(w).activation;
    var h' := if request.Open? || request.Invoke? || request.Shut? then h
              else if a.innerStep then h.(inner := h.inner.(done := true))
              else h.(outer := h.outer.(done := true));
    var a' := a.(failed := true, error := if a.failed then a.error else error, phase := Closing,
                 closeIndex := if request.Shut? then a.closeIndex
                               else if request.Invoke? || (!request.Open? && a.innerStep) then 0 else -1);
    outcome.Going? && w' == Moved(w, h', a', w'.log, w.owners, None, TopWork(w).raised + [error])
  }

  /** `next` has returned something, which is to be looked at. */
  ghost predicate ResultTaken(w: World, isObject: bool, outcome: Outcome, w': World)
    requires Topped(w)
  {
    GoesOn(w, TopHelper(w),
           TopFrame(w).activation.(result := if isObject then Opaque else NonObject, phase := GotResult), outcome, w')
  }

  /** An item is passed over, given on as it is, or kept for the callback. */
  ghost predicate ItemTaken(w: World, item: Value, outcome: Outcome, w': World)
    requires Topped(w)
  {
    var h, a := TopHelper(w), TopFrame(w).activation;
    if a.skip then GoesOn(w, h, a.(phase := Stepping), outcome, w')
    else if a.innerStep || h.operation == Take || h.operation == Drop || h.operation == Concat then
      Gives(w, h, item, outcome, w')
    else GoesOn(w, h, a.(value := item, phase := Calling), outcome, w')
  }

  /** The end of an inner iterator or of one iterable is followed by another step; any other is that of the helper. */
  ghost predicate EndTaken(w: World, outcome: Outcome, w': World)
    requires Topped(w)
  {
    var h, a := TopHelper(w), TopFrame(w).activation;
    if a.innerStep then
      GoesOn(w, h.(inner := h.inner.(done := true), innerActive := false, counter := h.counter + 1),
             a.(phase := Stepping), outcome, w')
    else
      GoesOn(w, h.(outer := h.outer.(done := true)),
             a.(phase := if h.operation == Concat then Stepping else Finishing), outcome, w')
  }

  /** The callback's value is the item of a mapping, and tells for any other whether to give the item in hand. */
  ghost predicate ValueTaken(w: World, value: Value, outcome: Outcome, w': World)
    requires Topped(w)
  {
    var a := TopFrame(w).activation;
    var h := TopHelper(w).(counter := TopHelper(w).counter + 1);
    if h.operation == Map then Gives(w, h, value, outcome, w')
    else if value != 0 then Gives(w, h, a.value, outcome, w')
    else GoesOn(w, h, a.(phase := Stepping), outcome, w')
  }

  /** The next iterable of a concatenation is open, and is asked at once. */
  ghost predicate IterableTaken(w: World, target: Target, outcome: Outcome, w': World)
    requires Topped(w)
  {
    var g, raised, owners' := TopFrame(w).helper, TopWork(w).raised, w.owners + [Owner(TopFrame(w).helper, Outer)];
    var h := TopHelper(w).(outer := Record(Some(target), false, |w.owners|));
    var a := TopFrame(w).activation.(innerStep := false, record := Outer, skip := false);
    && outcome.Going?
    && if target.Native? then
         w' == Descended(Moved(w, h, a, w'.log, owners', None, raised), a.(phase := AwaitStep), target.id, false)
       else w' == Moved(w, h, a, w'.log, owners', Some(Ask), raised)
  }

  /** The callback of a flat mapping has returned an iterator, whose items come first. */
  ghost predicate InnerTaken(w: World, target: Target, outcome: Outcome, w': World)
    requires Topped(w)
  {
    var h := TopHelper(w).(inner := Record(Some(target), false, |w.owners|), innerActive := true);
    && outcome.Going?
    && w' == Moved(w, h, TopFrame(w).activation.(phase := Stepping), w'.log,
                   w.owners + [Owner(TopFrame(w).helper, Inner)], None, TopWork(w).raised)
  }

  /** The request can have this answer. */
  ghost predicate Meets(w: World, request: Action, reply: Reply)
    requires Topped(w)
  {
    match reply
    case Threw(_) => true
    case Item(_) => request.Inspect?
    case Exhausted => request.Inspect?
    case Gave(_) => request.Invoke?
    case Opening(_) => request.Open? || (request.Invoke? && TopHelper(w).operation == FlatMap)
    case Returned(_) => request.Ask? || request.Shut?
  }

  /** What becomes of an answer, once its request is out of the way. */
  ghost predicate Taken(w: World, request: Action, reply: Reply, outcome: Outcome, w': World)
    requires Topped(w) && Meets(w, request, reply)
  {
    match reply
    case Threw(error) => Breaks(w, request, error, outcome, w')
    case Item(value) => ItemTaken(w, value, outcome, w')
    case Exhausted => EndTaken(w, outcome, w')
    case Gave(value) =>
      if TopHelper(w).operation == FlatMap then Breaks(w, request, TYPE_ERROR, outcome, w')
      else ValueTaken(w, value, outcome, w')
    case Opening(target) =>
      if request.Open? then IterableTaken(w, target, outcome, w') else InnerTaken(w, target, outcome, w')
    case Returned(isObject) =>
      if request.Ask? then ResultTaken(w, isObject, outcome, w')
      else if isObject then outcome.Going? && w' == w
      else Breaks(w, request, TYPE_ERROR, outcome, w')
  }

  // ------------------------------------------------------------- what a turn comes to

  /** The topmost activation is gone, and the call with it if it was the last one: with its first error, if any. */
  ghost predicate Over(w: World, value: Value, done: bool, outcome: Outcome, w': World)
    requires Topped(w)
  {
    var work := TopWork(w);
    && w' == Popped(w, TopHelper(w), value, done)
    && outcome == if |work.stack| > 1 then Going
                  else if work.raised == [] then Normal(value, done) else Thrown(work.raised[0])
  }

  /** A record's iterator has been asked: a helper has got an activation, and foreign code a request. */
  ghost predicate Puts(w: World, s: Step<Target, nat>, record: Record<Target>, waiting: Phase, e: Event,
                       outcome: Outcome, w': World)
    requires Topped(w)
  {
    var moved := Moved(w, s.helper, s.activation, w.log + [e], w.owners, None, TopWork(w).raised);
    && outcome.Going? && record.target.Some?
    && if record.target.value.Native? then
         w' == Descended(moved, s.activation.(phase := waiting), record.target.value.id, waiting.AwaitClose?)
       else
         w' == Moved(w, s.helper, s.activation, w.log + [e], w.owners, Some(s.action), TopWork(w).raised)
  }

  /** What has been asked for at the end of a step has been done. */
  ghost predicate Acts(w: World, s: Step<Target, nat>, outcome: Outcome, w': World)
    requires Topped(w) && |w.holders| == |w.helpers|
  {
    match s.action
    case Continue =>
      if TopFrame(w).activation.phase.Starting? then outcome.Going? && w' == Begun(w, s)
      else w'.log == w.log && GoesOn(w, s.helper, s.activation, outcome, w')
    case Raise(error) =>
      if TopFrame(w).activation.phase.Starting? then Refuses(w, error, outcome, w')
      else w'.log == w.log && Breaks(w, Continue, error, outcome, w')
    case Complete(value, done) => Over(w, value, done, outcome, w')
    case Ask =>
      var record := Current(s.helper, s.activation);
      Puts(w, s, record, AwaitStep, Asked(record.number), outcome, w')
    case Shut(which) =>
      var record := if which == Inner then TopHelper(w).inner else TopHelper(w).outer;
      Puts(w, s, record, AwaitClose, Closed(record.number), outcome, w')
    case _ =>
      outcome.Going?
      && w' == Moved(w, s.helper, s.activation, w.log, w.owners, Some(s.action), TopWork(w).raised)
  }

  /** A call that fails before it has begun: its activation is left to end. */
  ghost predicate Refuses(w: World, error: Error, outcome: Outcome, w': World)
    requires Topped(w)
  {
    && outcome.Going?
    && w' == Moved(w, TopHelper(w), TopFrame(w).activation.(failed := true, error := error, phase := Finishing), w.log,
                   w.owners, None, TopWork(w).raised + [error])
  }

  /** A turn does what the iteration asks for. */
  ghost predicate Turns(w: World, outcome: Outcome, w': World) {
    && Topped(w) && |w.holders| == |w.helpers|
    && Acts(w, Iteration(TopHelper(w), TopFrame(w).activation, TopWork(w).left), outcome, w')
  }

  /** A call that has ended is gone. */
  lemma CallEnds(w: World, outcome: Outcome, w': World)
    requires Turns(w, outcome, w') && !outcome.Going? && |TopWork(w).stack| == 1
    ensures |w'.works| == |w.works| - 1
  {
  }

  // -------------------------------------------------------- what the steps of an answer do

  /** The error of a request, or of an activation's own: the one that came first stays. */
  lemma FailTaken(w: World, request: Action, error: Error, s: Step<Target, nat>, outcome: Outcome, w': World)
    requires Topped(w) && Running(w) && PhaseOk(TopHelper(w), TopFrame(w).activation)
    requires PendingOk(TopHelper(w), TopFrame(w).activation, request)
             || (request == Continue && TopFrame(w).activation.phase.GotResult?)
    requires s == FailCurrent(TopHelper(w), TopFrame(w).activation, error) && outcome.Going?
    requires w' == Moved(w, s.helper, s.activation, w'.log, w.owners, None, TopWork(w).raised + [error])
    ensures Breaks(w, request, error, outcome, w')
  {
  }

  /** A result that has been read is the end of the record, or an item. */
  lemma ResultTakes(w: World, item: Value, done: bool, s: Step<Target, nat>, outcome: Outcome, w': World)
    requires Topped(w) && Running(w) && PhaseOk(TopHelper(w), TopFrame(w).activation) && WorkShape(TopWork(w))
             && TopWork(w).pending.None?
    requires TopFrame(w).activation.phase.GotResult?
    requires s == TakeResult(TopHelper(w), TopFrame(w).activation, item, done)
    requires if s.action.Complete? then w' == Popped(w, s.helper, item, false)
             else w' == Moved(w, s.helper, s.activation, w'.log, w.owners, None, TopWork(w).raised)
    requires outcome == if s.action.Complete? && |TopWork(w).stack| == 1
                        then (if TopWork(w).raised == [] then Normal(item, false) else Thrown(TopWork(w).raised[0]))
                        else Going
    ensures if done then EndTaken(w, outcome, w') else ItemTaken(w, item, outcome, w')
  {
    if s.action.Complete? && |TopWork(w).stack| == 1 { FirstDelivered(TopWork(w)); }
  }

  /** The callback of a mapping or of a filter has returned a value. */
  lemma CallTakes(w: World, value: Value, s: Step<Target, nat>, outcome: Outcome, w': World)
    requires Topped(w) && Running(w) && PhaseOk(TopHelper(w), TopFrame(w).activation) && WorkShape(TopWork(w))
             && TopWork(w).pending.None?
    requires TopFrame(w).activation.phase.Calling?
    requires s == Called(TopHelper(w), TopFrame(w).activation, value)
    requires if s.action.Complete? then w' == Popped(w, s.helper, s.action.value, false)
             else w' == Moved(w, s.helper, s.activation, w'.log, w.owners, None, TopWork(w).raised)
    requires outcome ==
      if s.action.Complete? && |TopWork(w).stack| == 1
      then (if TopWork(w).raised == [] then Normal(s.action.value, false) else Thrown(TopWork(w).raised[0]))
      else Going
    ensures ValueTaken(w, value, outcome, w')
  {
    if s.action.Complete? && |TopWork(w).stack| == 1 { FirstDelivered(TopWork(w)); }
  }

  lemma MovedTwice(w: World, h: Shared, a: Activation, log: seq<Event>, owners: seq<Owner>, pending: Option<Action>,
                   raised: seq<Error>, h': Shared, a': Activation, log': seq<Event>, owners': seq<Owner>,
                   pending': Option<Action>, raised': seq<Error>)
    requires Topped(w)
    ensures Moved(Moved(w, h, a, log, owners, pending, raised), h', a', log', owners', pending', raised') ==
            Moved(w, h', a', log', owners', pending', raised')
  {
    var n, t := |w.works| - 1, |TopWork(w).stack| - 1;
    var stack := TopWork(w).stack;
    assert stack[t := Frame(TopFrame(w).helper, a)][t := Frame(TopFrame(w).helper, a')] ==
           stack[t := Frame(TopFrame(w).helper, a')];
    assert w.helpers[TopFrame(w).helper := h][TopFrame(w).helper := h'] == w.helpers[TopFrame(w).helper := h'];
    var x := Moved(w, h, a, log, owners, pending, raised).works[n];
    var y := Moved(w, h', a', log', owners', pending', raised').works[n];
    assert w.works[n := x][n := y] == w.works[n := y];
  }

  /** An iterable is opened into its record, and asked. */
  lemma OpenTakes(w: World, target: Target, w1: World, s: Step<Target, nat>, outcome: Outcome, w': World)
    requires Topped(w) && Running(w) && PhaseOk(TopHelper(w), TopFrame(w).activation) && outcome.Going?
    requires PendingOk(TopHelper(w), TopFrame(w).activation, Open)
    requires w1 == Moved(w, TopHelper(w).(outer := Record(Some(target), false, |w.owners|)), TopFrame(w).activation,
                         w.log, w.owners + [Owner(TopFrame(w).helper, Outer)], None, TopWork(w).raised)
    requires s == StepAsk(TopHelper(w1), TopFrame(w1).activation)
    requires if target.Native? then
               w' == Descended(Moved(w1, s.helper, s.activation, w'.log, w1.owners, None, TopWork(w1).raised),
                               s.activation.(phase := AwaitStep), target.id, false)
             else w' == Moved(w1, s.helper, s.activation, w'.log, w1.owners, Some(Ask), TopWork(w1).raised)
    ensures IterableTaken(w, target, outcome, w')
  {
    var pending := if target.Native? then None else Some(Ask);
    MovedTwice(w, w1.helpers[TopFrame(w).helper], TopFrame(w).activation, w.log, w1.owners, None, TopWork(w).raised,
               s.helper, s.activation, w'.log, w1.owners, pending, TopWork(w).raised);
  }
}
