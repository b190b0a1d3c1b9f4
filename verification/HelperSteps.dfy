/**
One activation of an iterator helper (`tsc_iterator_helpers.c`): the phases of `helper_iteration`
up to the point where the activation asks something of another iterator or of a callback.
Kind `I` is what a record's iterator is, kind `C` what a callback is.
*/
module HelperSteps {
  import opened Options

  type Value = int
  type Error = int

  const UNDEFINED: Value := 0
  const TYPE_ERROR: Error := 1
  const RANGE_ERROR: Error := 2

  predicate Truthy(v: Value) { v != 0 }

  datatype Operation = Map | Filter | Take | Drop | FlatMap | Concat

  datatype State = Start | Suspended | Executing | Completed

  /** An iterator record; `number` tells one opening from another. */
  datatype Record<I> = Record(target: Option<I>, done: bool, number: nat)

  datatype Helper<I, C> = Helper(
    operation: Operation,
    state: State,
    outer: Record<I>,
    inner: Record<I>,
    innerActive: bool,
    infinite: bool,
    callback: Option<C>,
    counter: nat,
    remaining: int,
    iterables: seq<I>,
    index: nat)

  // ------------------------------------------------------------------- creation

  /** A limit as `trunc` leaves it. */
  datatype Limit = NotANumber | Infinite(positive: bool) | Finite(truncated: int)

  /** The argument of a helper: a callback, what its conversion to a number gives, or the error of that conversion. */
  datatype Argument<C> = NotCallable | Callable(callback: C) | Number(limit: Limit) | Unusable(error: Error)

  /** Why a helper is refused for its argument, if it is. */
  function Refusal<C>(operation: Operation, argument: Argument<C>): (e: Option<Error>) {
    if operation == Take || operation == Drop then
      match argument
      case Number(limit) =>
        if limit.NotANumber? || (limit.Infinite? && !limit.positive) || (limit.Finite? && limit.truncated < 0)
        then Some(RANGE_ERROR) else None
      case Unusable(error) => Some(error)
      case _ => Some(RANGE_ERROR)
    else if argument.Callable? then None
    else Some(TYPE_ERROR)
  }

  /** A helper over an iterator, before its first step. */
  function Fresh<I, C>(operation: Operation, argument: Argument<C>, receiver: I, number: nat): (h: Helper<I, C>)
    requires operation != Concat && Refusal(operation, argument) == None
    ensures h.remaining >= 0
  {
    var blank := Helper(operation, Start, Record(Some(receiver), false, number), NoRecord(false), false, false,
                        None, 0, 0, [], 0);
    if operation == Take || operation == Drop then
      if argument.limit.Infinite? then blank.(infinite := true)
      else blank.(remaining := argument.limit.truncated)
    else blank.(callback := Some(argument.callback))
  }

  /** A concatenation, before its first step; an argument without an iterator method is None. */
  function FreshConcat<I, C>(arguments: seq<Option<I>>): (h: Option<Helper<I, C>>) {
    var iterables := Usable(arguments);
    if iterables.None? then None
    else Some(Helper(Concat, Start, NoRecord(true), NoRecord(false), false, false, None, 0, 0,
                     iterables.value, 0))
  }

  /** All arguments, if each of them can be iterated. */
  function Usable<I>(arguments: seq<Option<I>>): (r: Option<seq<I>>)
    ensures r.None? <==> exists k :: 0 <= k < |arguments| && arguments[k].None?
    ensures r.Some? ==>
      |r.value| == |arguments| && forall k :: 0 <= k < |arguments| ==> arguments[k] == Some(r.value[k])
  {
    if arguments == [] then Some([])
    else if arguments[0].None? then None
    else
      var rest := Usable(arguments[1..]);
      if rest.None? then None else Some([arguments[0].value] + rest.value)
  }

  datatype Phase = Starting | Stepping | AwaitStep | GotResult | Calling | Closing | AwaitClose | Finishing

  /** What `next` gave back: not an object, an object whose properties are still to be read, or a plain result. */
  datatype Result = NonObject | Opaque | Plain(value: Value, done: bool)

  datatype Which = Unset | Inner | Outer

  datatype Activation = Activation(
    closeRequest: bool,
    phase: Phase,
    innerStep: bool,
    skip: bool,
    entered: bool,
    closeIndex: int,
    record: Which,
    result: Result,
    value: Value,
    failed: bool,
    error: Error)

  /** What the activation above has left behind. */
  datatype Left = Left(result: Result, failed: bool, error: Error)

  /** What an activation asks for at the end of a step. */
  datatype Action =
    | Continue
    | Raise(error: Error)
    | Complete(value: Value, done: bool)
    | Open
    | Ask
    | Inspect
    | Invoke
    | Shut(which: Which)

  datatype Step<I, C> = Step(helper: Helper<I, C>, activation: Activation, action: Action)

  function NoRecord<I>(done: bool): (r: Record<I>) { Record(None, done, 0) }

  function Pushed(close: bool): (a: Activation) {
    Activation(close, Starting, false, false, false, 0, Unset, NonObject, UNDEFINED, false, 0)
  }

  function Current<I, C>(h: Helper<I, C>, a: Activation): (r: Record<I>) {
    if a.innerStep then h.inner else h.outer
  }

  /** The record that the activation works on becomes done. */
  function MarkDone<I, C>(h: Helper<I, C>, which: Which): (r: Helper<I, C>) {
    match which
    case Unset => h
    case Inner => h.(inner := h.inner.(done := true))
    case Outer => h.(outer := h.outer.(done := true))
  }

  function SetError(a: Activation, error: Error): (r: Activation) {
    if a.failed then a else a.(failed := true, error := error)
  }

  function FailCurrent<I, C>(h: Helper<I, C>, a: Activation, error: Error): (r: Step<I, C>) {
    var a := SetError(a, error);
    if !a.entered then
      Step(h, a.(phase := Finishing), Continue)
    else if a.phase.Closing? || a.phase.AwaitClose? then
      Step(h, a.(phase := Closing), Continue)
    else if a.phase.Stepping? || a.phase.AwaitStep? || a.phase.GotResult? then
      Step(MarkDone(h, a.record), a.(closeIndex := if a.innerStep then 0 else -1, phase := Closing), Continue)
    else
      Step(h, a.(closeIndex := if a.phase.Calling? then 0 else -1, phase := Closing), Continue)
  }

  /** Chooses the record to step, and accounts for the item in the limits. */
  function StepAsk<I, C>(h: Helper<I, C>, a: Activation): (r: Step<I, C>) {
    var innerStep := h.operation == FlatMap && h.innerActive;
    var skip := h.operation == Drop && (h.infinite || h.remaining > 0);
    var a := a.(innerStep := innerStep, record := if innerStep then Inner else Outer, skip := skip);
    var counts := !h.infinite && (h.operation == Take || skip);
    var h := h.(remaining := if counts then h.remaining - 1 else h.remaining);
    if Current(h, a).done then
      Step(h, a.(result := Plain(UNDEFINED, true), phase := GotResult), Continue)
    else
      Step(h, a, Ask)
  }

  /** The next iterable of a concatenation has been opened. */
  function Opened<I, C>(h: Helper<I, C>, a: Activation, target: I, number: nat): (r: Step<I, C>) {
    StepAsk(h.(outer := Record(Some(target), false, number)), a)
  }

  function TakeResult<I, C>(h: Helper<I, C>, a: Activation, value: Value, done: bool): (r: Step<I, C>) {
    if done then
      var h := MarkDone(h, a.record);
      if a.innerStep then
        Step(h.(innerActive := false, counter := h.counter + 1), a.(phase := Stepping), Continue)
      else if h.operation == Concat then
        Step(h, a.(phase := Stepping), Continue)
      else
        Step(h, a.(phase := Finishing), Continue)
    else if a.skip then
      Step(h, a.(phase := Stepping), Continue)
    else
      var a := a.(value := value);
      if a.innerStep || h.operation == Take || h.operation == Drop || h.operation == Concat then
        Step(h, a, Complete(value, false))
      else
        Step(h, a.(phase := Calling), Continue)
  }

  /** The callback of a mapping or a filter has returned. */
  function Called<I, C>(h: Helper<I, C>, a: Activation, result: Value): (r: Step<I, C>) {
    var h := h.(counter := h.counter + 1);
    if h.operation == Map then
      Step(h, a, Complete(result, false))
    else if Truthy(result) then
      Step(h, a, Complete(a.value, false))
    else
      Step(h, a.(phase := Stepping), Continue)
  }

  /** The callback of a flat mapping has returned an iterator. */
  function Entered<I, C>(h: Helper<I, C>, a: Activation, target: I, number: nat): (r: Step<I, C>) {
    Step(h.(inner := Record(Some(target), false, number), innerActive := true), a.(phase := Stepping), Continue)
  }

  function CloseStep<I, C>(h: Helper<I, C>, a: Activation): (r: Step<I, C>) {
    if a.closeIndex < 0 then
      Step(h, a.(phase := Finishing), Continue)
    else
      var which := if a.closeIndex == 1 then Inner else Outer;
      var a := a.(closeIndex := a.closeIndex - 1);
      if (if which == Inner then h.inner.done else h.outer.done) then
        Step(h, a, Continue)
      else
        Step(MarkDone(h, which), a, Shut(which))
  }

  /** One turn of the worklist. */
  function Iteration<I, C>(h: Helper<I, C>, a: Activation, left: Left): (r: Step<I, C>) {
    match a.phase
    case Starting =>
      if h.state.Executing? then
        Step(h, a, Raise(TYPE_ERROR))
      else if h.state.Completed? then
        Step(h, a, Complete(UNDEFINED, true))
      else
        var a := a.(entered := true);
        Step(h.(state := Executing),
             if a.closeRequest then a.(phase := Closing, closeIndex := if h.innerActive then 1 else 0)
             else a.(phase := Stepping),
             Continue)
    case Stepping =>
      if h.operation == Take && !h.infinite && h.remaining == 0 then
        Step(h, a.(closeIndex := 0, phase := Closing), Continue)
      else if h.operation == Concat && h.outer.done then
        if h.index == |h.iterables| then
          Step(h, a.(phase := Finishing), Continue)
        else
          Step(h.(index := h.index + 1), a, Open)
      else
        StepAsk(h, a)
    case AwaitStep =>
      if left.failed then FailCurrent(h, a, left.error)
      else Step(h, a.(result := left.result, phase := GotResult), Continue)
    case GotResult =>
      (match a.result
       case NonObject => Step(h, a, Raise(TYPE_ERROR))
       case Opaque => Step(h, a, Inspect)
       case Plain(value, done) => TakeResult(h, a, value, done))
    case Calling => Step(h, a, Invoke)
    case Closing => CloseStep(h, a)
    case AwaitClose => Step(h, (if left.failed then SetError(a, left.error) else a).(phase := Closing), Continue)
    case Finishing => Step(h, a, Complete(UNDEFINED, true))
  }

  /** The helper after its activation is gone. */
  function Released<I, C>(h: Helper<I, C>, a: Activation, done: bool): (r: Helper<I, C>) {
    if !a.entered then
      h
    else if done then
      Helper(h.operation, Completed, NoRecord(false), NoRecord(false), false, false, None, 0, 0, [], 0)
    else
      h.(state := Suspended)
  }
}
