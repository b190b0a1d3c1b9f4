/**
The iterator helpers of a running program: `helper_resume` turn by turn, with the calls to foreign code
and their answers as separate steps, so that anything may happen in between.
*/
module HelperEngine {
  import opened Options
  import opened HelperSteps
  import opened HelperRecords
  import opened HelperReentry
  import opened HelperTermination
  import opened HelperAnswers

  /** The reply is one that the request can have. */
  predicate Fits(request: Action, operation: Operation, reply: Reply) {
    reply.Threw? || match request
                    case Open => reply.Opening?
                    case Ask => reply.Returned?
                    case Inspect => reply.Item? || reply.Exhausted?
                    case Invoke => reply.Gave? || (operation == FlatMap && reply.Opening?)
                    case Shut(_) => reply.Returned?
                    case _ => false
  }

  /** The answer of foreign code is the end of the record that is being stepped. */
  predicate SaysEnd(request: Action, reply: Reply) {
    || (request == Ask && (reply.Threw? || (reply.Returned? && !reply.isObject)))
    || (request == Inspect && (reply.Threw? || reply.Exhausted?))
  }

  ghost predicate Asking(w: World) {
    |w.works| > 0 && TopWork(w).pending.Some? && |TopWork(w).stack| > 0 && TopFrame(w).helper < |w.helpers|
  }

  /** What an answer adds to the log: the end that it tells of, or the first step of a record that it opens. */
  ghost function Told(w: World, request: Action, reply: Reply): (events: seq<Event>)
    requires |w.works| > 0 && |TopWork(w).stack| > 0 && TopFrame(w).helper < |w.helpers|
  {
    var f := TopFrame(w);
    if !Fits(request, w.helpers[f.helper].operation, reply) then []
    else if SaysEnd(request, reply) then [Ended(Current(w.helpers[f.helper], f.activation).number)]
    else if request == Open && reply.Opening? then [Asked(|w.owners|)]
    else []
  }

  /** A call that has ended has ended with the first error that was raised in it, or normally if none was. */
  ghost predicate EndedAs(outcome: Outcome, work: Work) {
    !outcome.Going? ==>
      |work.stack| == 1 && if work.raised == [] then outcome.Normal? && (outcome.done ==> outcome.value == UNDEFINED)
                           else outcome == Thrown(work.raised[0])
  }

  /** A turn adds at most one event; an end only for the caller's record, when the callee comes to its end. */
  ghost predicate TurnLog(w: World, log: seq<Event>)
    requires |w.works| > 0
  {
    || log == w.log
    || (|log| == |w.log| + 1 && log[..|w.log|] == w.log
        && (log[|w.log|].Ended? ==> Caller(w) == Some(log[|w.log|].number)))
  }

  /** A call of `next` or `return` from outside, before its first turn. */
  function Entry(x: nat, close: bool): (work: Work) {
    Work([Frame(x, Pushed(close))], Left(NonObject, false, 0), None, [])
  }

  class Engine {
    var helpers: seq<Shared>
    var works: seq<Work>
    var owners: seq<Owner>
    ghost var holders: seq<Place>
    /** Everything that was asked of the records, in order. */
    ghost var log: seq<Event>

    ghost function Snapshot(): (w: World)
      reads this
    {
      World(helpers, holders, log, owners, works)
    }

    constructor ()
      ensures Valid(Snapshot()) && helpers == [] && works == [] && log == []
    {
      helpers, works, owners := [], [], [];
      holders, log := [], [];
    }

    // ---------------------------------------------------------------- primitives

    method MoveTop(h: Shared, a: Activation, pending: Option<Action>, raised: seq<Error>, ghost log': seq<Event>)
      requires |works| > 0 && |TopWork(Snapshot()).stack| > 0 && TopFrame(Snapshot()).helper < |helpers|
      modifies this`helpers, this`works, this`log
      ensures Snapshot() == Moved(old(Snapshot()), h, a, log', owners, pending, raised)
    {
      var work := works[|works| - 1];
      var f := work.stack[|work.stack| - 1];
      helpers := helpers[f.helper := h];
      works := works[|works| - 1 := work.(stack := work.stack[|work.stack| - 1 := Frame(f.helper, a)],
                                          pending := pending, raised := raised)];
      log := log';
    }

    method Push(a: Activation, x: nat, close: bool)
      requires |works| > 0 && |TopWork(Snapshot()).stack| > 0
      modifies this`works
      ensures Snapshot() == Descended(old(Snapshot()), a, x, close)
    {
      var work := works[|works| - 1];
      var f := work.stack[|work.stack| - 1];
      works := works[|works| - 1 := work.(
        stack := work.stack[|work.stack| - 1 := f.(activation := a)] + [Frame(x, Pushed(close))],
        pending := None)];
    }

    /**
    The topmost activation ends, which is an answer to its caller; below the last one, the call ends with what it left.
    */
    method Leave(h: Shared, value: Value, done: bool) returns (outcome: Outcome)
      requires Leaves(Snapshot(), h, done)
      modifies this`helpers, this`works, this`log
      ensures Valid(Snapshot()) && Snapshot() == Popped(old(Snapshot()), h, value, done)
      ensures outcome.Going? <==> |old(TopWork(Snapshot()).stack)| > 1
      ensures !outcome.Going? ==> var raised := old(TopWork(Snapshot()).raised);
        outcome == if raised == [] then Normal(value, done) else Thrown(raised[0])
    {
      ghost var w := Snapshot();
      TopFacts(w);
      PoppedKeeps(w, h, value, done, Popped(w, h, value, done));
      var work := works[|works| - 1];
      var f := work.stack[|work.stack| - 1];
      helpers := helpers[f.helper := Released(h, f.activation, done)];
      log := LogAfter(w, done);
      if |work.stack| == 1 {
        FirstDelivered(work);
        works := works[..|works| - 1];
        outcome := if f.activation.failed then Thrown(f.activation.error) else Normal(value, done);
      } else {
        works := works[|works| - 1 := work.(
          stack := work.stack[..|work.stack| - 1],
          left := Left(Plain(value, done), f.activation.failed, f.activation.error))];
        outcome := Going;
      }
    }

    // --------------------------------------------------------------------- turns

    /** The first turn of an activation. */
    method StartTurn() returns (outcome: Outcome)
      requires Ready(Snapshot()) && |TopWork(Snapshot()).stack| > 0 && TopFrame(Snapshot()).activation.phase.Starting?
      modifies this
      ensures Valid(Snapshot()) && EndedAs(outcome, old(TopWork(Snapshot()))) && TurnLog(old(Snapshot()), log)
      ensures outcome.Going? ==> Turned(old(Snapshot()), Snapshot())
      ensures Turns(old(Snapshot()), outcome, Snapshot())
    {
      ghost var w := Snapshot();
      TopFacts(w);
      var work := works[|works| - 1];
      var f := work.stack[|work.stack| - 1];
      var s := Iteration(helpers[f.helper], f.activation, work.left);
      if s.action == Continue {
        BegunKeeps(w, work.left, s, Begun(w, s));
        MoveTop(s.helper, s.activation, None, work.raised, log);
        holders := holders[f.helper := Place(|works| - 1, |work.stack| - 1)];
        assert Snapshot() == Begun(w, s);
        EnterFalls(w, s, Snapshot());
        outcome := Going;
      } else if s.action.Raise? {
        var failed := FailCurrent(helpers[f.helper], f.activation, s.action.error);
        RefusedKeeps(w, s.action.error, failed,
                     Moved(w, failed.helper, failed.activation, log, owners, None, work.raised + [s.action.error]));
        MoveTop(failed.helper, failed.activation, None, work.raised + [s.action.error], log);
        RefuseFalls(w, failed, work.raised + [s.action.error], Snapshot());
        outcome := Going;
      } else {
        outcome := Leave(helpers[f.helper], UNDEFINED, true);
        if outcome.Going? { PopFalls(w, w.helpers[f.helper], UNDEFINED, true, Snapshot()); }
      }
    }

    /** The current record's iterator is asked: a helper is called in turn, foreign code through a request. */
    method AskRecord(s: Step<Target, nat>)
      requires Ready(Snapshot()) && Running(Snapshot()) && TopFrame(Snapshot()).activation.phase.Stepping?
      requires s == StepAsk(helpers[TopFrame(Snapshot()).helper], TopFrame(Snapshot()).activation) && s.action == Ask
      modifies this`helpers, this`works, this`log
      ensures Valid(Snapshot()) && log == old(log) + [Asked(Current(s.helper, s.activation).number)]
      ensures Puts(old(Snapshot()), s, Current(s.helper, s.activation), AwaitStep,
                   Asked(Current(s.helper, s.activation).number), Going, Snapshot())
    {
      ghost var w := Snapshot();
      var work := works[|works| - 1];
      var h := helpers[work.stack[|work.stack| - 1].helper];
      var record := Current(s.helper, s.activation);
      ghost var log' := log + [Asked(record.number)];
      AskKeeps(w, h, s, Some(Ask), Moved(w, s.helper, s.activation, log', owners, Some(Ask), work.raised));
      if record.target.value.Native? {
        MoveTop(s.helper, s.activation, None, work.raised, log');
        AskHelperKeeps(w, s, log', record.target.value.id,
                       Descended(Snapshot(), s.activation.(phase := AwaitStep), record.target.value.id, false));
        Push(s.activation.(phase := AwaitStep), record.target.value.id, false);
      } else {
        MoveTop(s.helper, s.activation, Some(Ask), work.raised, log');
      }
    }

    /** An open record is marked done and its iterator is closed. */
    method ShutRecord(s: Step<Target, nat>)
      requires Ready(Snapshot()) && Running(Snapshot())
      requires s == Iteration(helpers[TopFrame(Snapshot()).helper], TopFrame(Snapshot()).activation,
                              TopWork(Snapshot()).left) && s.action.Shut?
      modifies this`helpers, this`works, this`log
      ensures Valid(Snapshot())
      ensures (var g := old(TopFrame(Snapshot()).helper); var h := old(helpers)[g];
               var record := if s.action.which == Inner then h.inner else h.outer;
               && log == old(log) + [Closed(record.number)]
               && g < |helpers| && (if s.action.which == Inner then helpers[g].inner else helpers[g].outer).done
               && Puts(old(Snapshot()), s, record, AwaitClose, Closed(record.number), Going, Snapshot()))
    {
      ghost var w := Snapshot();
      TopFacts(w);
      var work := works[|works| - 1];
      var h := helpers[work.stack[|work.stack| - 1].helper];
      var record := if s.action.which == Inner then h.inner else h.outer;
      ghost var log' := log + [Closed(record.number)];
      ShutKeeps(w, h, s, Some(s.action), Moved(w, s.helper, s.activation, log', owners, Some(s.action), work.raised));
      if record.target.value.Native? {
        MoveTop(s.helper, s.activation, None, work.raised, log');
        ShutHelperKeeps(w, h, s, log', record.target.value.id,
                        Descended(Snapshot(), s.activation.(phase := AwaitClose), record.target.value.id, true));
        Push(s.activation.(phase := AwaitClose), record.target.value.id, true);
      } else {
        MoveTop(s.helper, s.activation, Some(s.action), work.raised, log');
      }
    }

    /**
    The topmost activation meets an error, in answer to a request or (with `Continue`) of its own. If foreign code has
    failed in a step of a record, that record has ended; if a callback has failed, none has, and the outer one is to be
    closed.
    */
    method Fail(error: Error, request: Action)
      requires Ready(Snapshot()) && Running(Snapshot()) && !Waits(TopFrame(Snapshot()).activation)
      requires (var f := TopFrame(Snapshot());
                PendingOk(helpers[f.helper], f.activation, request)
                || (request == Continue && f.activation.phase.GotResult? && f.activation.result.NonObject?))
      modifies this`helpers, this`works, this`log
      ensures Valid(Snapshot()) && |works| == |old(works)|
              && TopWork(Snapshot()).raised == old(TopWork(Snapshot()).raised) + [error]
      ensures (var current := old(Current(helpers[TopFrame(Snapshot()).helper], TopFrame(Snapshot()).activation));
               log == old(log) + if request == Ask || request == Inspect then [Ended(current.number)] else [])
      ensures |TopWork(Snapshot()).stack| == |old(TopWork(Snapshot()).stack)| > 0
              && TopFrame(Snapshot()).activation.phase.Closing?
      ensures (ghost var w := old(Snapshot());
               var s := FailCurrent(old(helpers)[TopFrame(w).helper], TopFrame(w).activation, error);
               Snapshot() == Moved(w, s.helper, s.activation, log, owners, None, TopWork(w).raised + [error]))
      ensures Breaks(old(Snapshot()), request, error, Going, Snapshot())
    {
      ghost var w := Snapshot();
      TopFacts(w);
      var work := works[|works| - 1];
      var f := work.stack[|work.stack| - 1];
      var s := FailCurrent(helpers[f.helper], f.activation, error);
      ghost var current := Current(helpers[f.helper], f.activation);
      ghost var log' := log + if request == Ask || request == Inspect then [Ended(current.number)] else [];
      FailKeeps(w, request, error, s, log',
                Moved(w, s.helper, s.activation, log', owners, None, work.raised + [error]));
      MoveTop(s.helper, s.activation, None, work.raised + [error], log');
      FailTaken(w, request, error, s, Going, Snapshot());
    }

    /** A step within the helper is recorded. */
    method GoOn(s: Step<Target, nat>)
      requires Ready(Snapshot()) && Running(Snapshot()) && !Waits(s.activation) && s.activation.entered
      requires (var f := TopFrame(Snapshot()); var h := helpers[f.helper];
                && Advances(h, s.helper) && PhaseOk(s.helper, s.activation)
                && TakesIn(h, f.activation, TopWork(Snapshot()).left, s)
                && (Settled(f.activation) ==> Settled(s.activation)))
      requires (var a0 := TopFrame(Snapshot()).activation; var left := TopWork(Snapshot()).left;
                var b := if Waits(a0) && left.failed then SetError(a0, left.error) else a0;
                s.activation.failed == b.failed && s.activation.error == b.error)
      modifies this`helpers, this`works, this`log
      ensures log == old(log)
      ensures Valid(Snapshot())
      ensures (ghost var w := old(Snapshot());
               Snapshot() == Moved(w, s.helper, s.activation, log, owners, None, TopWork(w).raised))
    {
      ghost var w := Snapshot();
      var work := works[|works| - 1];
      ContinueKeeps(w, s, Moved(w, s.helper, s.activation, log, owners, None, work.raised));
      MoveTop(s.helper, s.activation, None, work.raised, log);
    }

    /** A later turn of an activation. */
    method RunTurn() returns (outcome: Outcome)
      requires Ready(Snapshot()) && |TopWork(Snapshot()).stack| > 0 && TopFrame(Snapshot()).activation.entered
      modifies this`helpers, this`works, this`log
      ensures Valid(Snapshot()) && EndedAs(outcome, old(TopWork(Snapshot()))) && TurnLog(old(Snapshot()), log)
      ensures outcome.Going? ==> Turned(old(Snapshot()), Snapshot())
      ensures Turns(old(Snapshot()), outcome, Snapshot())
    {
      ghost var w := Snapshot();
      TopFacts(w);
      var work := works[|works| - 1];
      var f := work.stack[|work.stack| - 1];
      var h := helpers[f.helper];
      var s := Iteration(h, f.activation, work.left);
      outcome := Going;
      TurnErrors(h, f.activation, work.left, s);
      if s.action == Complete(UNDEFINED, true) {
        outcome := Conclude(s);
      } else if s.action.Shut? {
        ShutRecord(s);
        ShutFalls(w, s, h, log, Snapshot());
      } else {
        TurnAdvances(h, f.activation, work.left, s);
        outcome := ActOn(s);
      }
    }

    /** The activation has come to its end. */
    method Conclude(s: Step<Target, nat>) returns (outcome: Outcome)
      requires Ready(Snapshot()) && Running(Snapshot())
      requires s == Iteration(helpers[TopFrame(Snapshot()).helper], TopFrame(Snapshot()).activation,
                              TopWork(Snapshot()).left) && s.action == Complete(UNDEFINED, true)
      modifies this`helpers, this`works, this`log
      ensures Valid(Snapshot()) && EndedAs(outcome, old(TopWork(Snapshot()))) && TurnLog(old(Snapshot()), log)
      ensures outcome.Going? ==> Turned(old(Snapshot()), Snapshot())
      ensures Turns(old(Snapshot()), outcome, Snapshot())
    {
      ghost var w := Snapshot();
      TopFacts(w);
      var work := works[|works| - 1];
      var f := work.stack[|work.stack| - 1];
      var h := helpers[f.helper];
      TurnErrors(h, f.activation, work.left, s);
      RankFalls(h, f.activation, work.left, s);
      outcome := Leave(h, UNDEFINED, true);
      if outcome.Going? { PopFalls(w, h, UNDEFINED, true, Snapshot()); }
    }

    /** What a turn asks for is done, or put to foreign code. */
    method ActOn(s: Step<Target, nat>) returns (outcome: Outcome)
      requires Ready(Snapshot()) && Running(Snapshot())
      requires s == Iteration(helpers[TopFrame(Snapshot()).helper], TopFrame(Snapshot()).activation,
                              TopWork(Snapshot()).left)
      requires TurnOk(helpers[TopFrame(Snapshot()).helper], TopFrame(Snapshot()).activation, TopWork(Snapshot()).left,
                      s)
      requires ErrorsOk(TopFrame(Snapshot()).activation, TopWork(Snapshot()).left, s) && !s.action.Shut?
      modifies this`helpers, this`works, this`log
      ensures Valid(Snapshot()) && EndedAs(outcome, old(TopWork(Snapshot()))) && TurnLog(old(Snapshot()), log)
      ensures outcome.Going? ==> Turned(old(Snapshot()), Snapshot())
      ensures Turns(old(Snapshot()), outcome, Snapshot())
    {
      outcome := Going;
      if s.action == Continue || s.action.Raise? {
        MoveOn(s);
      } else if s.action.Complete? {
        outcome := Deliver(s);
      } else {
        AskFor(s);
      }
    }

    /** The activation goes on, with an error of its own or without. */
    method MoveOn(s: Step<Target, nat>)
      requires Ready(Snapshot()) && Running(Snapshot())
      requires s == Iteration(helpers[TopFrame(Snapshot()).helper], TopFrame(Snapshot()).activation,
                              TopWork(Snapshot()).left)
      requires TurnOk(helpers[TopFrame(Snapshot()).helper], TopFrame(Snapshot()).activation, TopWork(Snapshot()).left,
                      s)
      requires ErrorsOk(TopFrame(Snapshot()).activation, TopWork(Snapshot()).left, s)
      requires s.action == Continue || s.action.Raise?
      modifies this`helpers, this`works, this`log
      ensures Valid(Snapshot()) && log == old(log) && Turned(old(Snapshot()), Snapshot())
      ensures Turns(old(Snapshot()), Going, Snapshot())
    {
      ghost var w := Snapshot();
      TopFacts(w);
      ghost var work, f := TopWork(w), TopFrame(w);
      RankFalls(helpers[f.helper], f.activation, work.left, s);
      if s.action == Continue {
        GoOn(s);
        MoveFalls(w, s.helper, s.activation, log, owners, work.raised, Snapshot());
      } else {
        Fail(s.action.error, Continue);
        RaiseFalls(w, s.action.error, log, Snapshot());
      }
    }

    /** The activation gives an item to its caller. */
    method Deliver(s: Step<Target, nat>) returns (outcome: Outcome)
      requires Ready(Snapshot()) && Running(Snapshot())
      requires s == Iteration(helpers[TopFrame(Snapshot()).helper], TopFrame(Snapshot()).activation,
                              TopWork(Snapshot()).left)
      requires TurnOk(helpers[TopFrame(Snapshot()).helper], TopFrame(Snapshot()).activation, TopWork(Snapshot()).left,
                      s)
      requires s.action.Complete?
      modifies this`helpers, this`works, this`log
      ensures Valid(Snapshot()) && EndedAs(outcome, old(TopWork(Snapshot()))) && TurnLog(old(Snapshot()), log)
      ensures outcome.Going? ==> Turned(old(Snapshot()), Snapshot())
      ensures Turns(old(Snapshot()), outcome, Snapshot())
    {
      ghost var w := Snapshot();
      TopFacts(w);
      var work := works[|works| - 1];
      var h := helpers[work.stack[|work.stack| - 1].helper];
      RankFalls(h, TopFrame(w).activation, work.left, s);
      outcome := Leave(h, s.action.value, s.action.done);
      if outcome.Going? { PopFalls(w, h, s.action.value, s.action.done, Snapshot()); }
    }

    /** The activation asks a record, or foreign code. */
    method AskFor(s: Step<Target, nat>)
      requires Ready(Snapshot()) && Running(Snapshot())
      requires s == Iteration(helpers[TopFrame(Snapshot()).helper], TopFrame(Snapshot()).activation,
                              TopWork(Snapshot()).left)
      requires TurnOk(helpers[TopFrame(Snapshot()).helper], TopFrame(Snapshot()).activation, TopWork(Snapshot()).left,
                      s)
      requires ErrorsOk(TopFrame(Snapshot()).activation, TopWork(Snapshot()).left, s)
      requires s.action == Open || s.action == Ask || s.action == Inspect || s.action == Invoke
      modifies this`helpers, this`works, this`log
      ensures Valid(Snapshot()) && TurnLog(old(Snapshot()), log) && Turned(old(Snapshot()), Snapshot())
      ensures Turns(old(Snapshot()), Going, Snapshot())
    {
      ghost var w := Snapshot();
      TopFacts(w);
      var work := works[|works| - 1];
      if s.action == Ask {
        AskRecord(s);
        AskFalls(w, s, log, Snapshot());
      } else {
        PendKeeps(w, s, Moved(w, s.helper, s.activation, log, owners, Some(s.action), work.raised));
        MoveTop(s.helper, s.activation, Some(s.action), work.raised, log);
        AskedTurned(w, s, Snapshot());
      }
    }

    /**
    One turn of the innermost worklist; a call that ends with an error ends with the first one raised in it. A turn says
    nothing about the end of a record, unless the helper that was asked for it comes to its own end.
    */
    method Turn() returns (outcome: Outcome)
      requires Ready(Snapshot())
      modifies this
      ensures Valid(Snapshot()) && EndedAs(outcome, old(TopWork(Snapshot()))) && TurnLog(old(Snapshot()), log)
      ensures outcome.Going? ==> Turned(old(Snapshot()), Snapshot())
      ensures Turns(old(Snapshot()), outcome, Snapshot())
      ensures !outcome.Going? ==> |works| == |old(works)| - 1
    {
      ghost var w := Snapshot();
      TopFacts(w);
      var work := works[|works| - 1];
      var f := work.stack[|work.stack| - 1];
      if f.activation.phase.Starting? {
        outcome := StartTurn();
      } else if f.activation.entered {
        outcome := RunTurn();
      } else {
        outcome := Leave(helpers[f.helper], UNDEFINED, true);
        if outcome.Going? { PopFalls(w, w.helpers[f.helper], UNDEFINED, true, Snapshot()); }
      }
      if !outcome.Going? { CallEnds(w, outcome, Snapshot()); }
    }

    /** Turns of the innermost worklist until it asks foreign code or its call ends: there are finitely many. */
    method Proceed() returns (outcome: Outcome)
      requires Ready(Snapshot())
      modifies this
      ensures Valid(Snapshot()) && (outcome.Going? ==> |works| == |old(works)| && TopWork(Snapshot()).pending.Some?)
      ensures !outcome.Going? ==> |works| == |old(works)| - 1
    {
      outcome := Turn();
      while outcome.Going? && works[|works| - 1].pending.None?
        invariant Valid(Snapshot()) && (outcome.Going? ==> |works| == |old(works)| > 0)
        invariant !outcome.Going? ==> |works| == |old(works)| - 1
        decreases if outcome.Going? && TopWork(Snapshot()).pending.None? then 1 else 0,
                  if outcome.Going? then Flag(TopWork(Snapshot())) else 0,
                  if outcome.Going? then Reach(helpers, TopWork(Snapshot())) else 0,
                  if outcome.Going? then Rest(helpers, TopWork(Snapshot())) else 0
      {
        outcome := Turn();
      }
    }

    // ------------------------------------------------------------------- answers

    method AnswerOpen(target: Target)
      requires Ready(Snapshot()) && Running(Snapshot())
      requires PendingOk(helpers[TopFrame(Snapshot()).helper], TopFrame(Snapshot()).activation, Open)
               && (target.Native? ==> target.id < |helpers|)
      modifies this`helpers, this`works, this`log, this`owners
      ensures Valid(Snapshot()) && log == old(log) + [Asked(|old(owners)|)]
      ensures IterableTaken(old(Snapshot()), target, Going, Snapshot())
    {
      ghost var w := Snapshot();
      TopFacts(w);
      var work := works[|works| - 1];
      var f := work.stack[|work.stack| - 1];
      var h := helpers[f.helper];
      var h' := h.(outer := Record(Some(target), false, |owners|));
      OpenKeeps(w, h, h', f.activation, Outer, target,
                Moved(w, h', f.activation, log, owners + [Owner(f.helper, Outer)], None, work.raised));
      MoveTop(h', f.activation, None, work.raised, log);
      owners := owners + [Owner(f.helper, Outer)];
      assert Snapshot() == Moved(w, h', f.activation, w.log, w.owners + [Owner(f.helper, Outer)], None, work.raised);
      ghost var w1 := Snapshot();
      var s := Opened(h, f.activation, target, |owners| - 1);
      AskRecord(s);
      OpenTakes(w, target, w1, s, Going, Snapshot());
    }

    method AnswerCallback(reply: Reply) returns (outcome: Outcome)
      requires Ready(Snapshot()) && Running(Snapshot())
      requires PendingOk(helpers[TopFrame(Snapshot()).helper], TopFrame(Snapshot()).activation, Invoke)
      requires if helpers[TopFrame(Snapshot()).helper].operation == FlatMap then reply.Opening? || reply.Gave?
               else reply.Gave?
      requires reply.Opening? && reply.target.Native? ==> reply.target.id < |helpers|
      modifies this`helpers, this`works, this`log, this`owners
      ensures Valid(Snapshot()) && EndedAs(outcome, old(TopWork(Snapshot()))) && log == old(log)
      ensures (ghost var w := old(Snapshot());
               if reply.Opening? then InnerTaken(w, reply.target, outcome, Snapshot())
               else if TopHelper(w).operation == FlatMap then Breaks(w, Invoke, TYPE_ERROR, outcome, Snapshot())
               else ValueTaken(w, reply.value, outcome, Snapshot()))
    {
      ghost var w := Snapshot();
      TopFacts(w);
      var work := works[|works| - 1];
      var f := work.stack[|work.stack| - 1];
      var h := helpers[f.helper];
      outcome := Going;
      if reply.Opening? {
        var s := Entered(h, f.activation, reply.target, |owners|);
        OpenKeeps(w, h, s.helper, s.activation, Inner, reply.target,
                  Moved(w, s.helper, s.activation, log, owners + [Owner(f.helper, Inner)], None, work.raised));
        MoveTop(s.helper, s.activation, None, work.raised, log);
        owners := owners + [Owner(f.helper, Inner)];
        assert Snapshot() == Moved(w, s.helper, s.activation, w.log, w.owners + [Owner(f.helper, Inner)], None,
                                   work.raised);
      } else if h.operation == FlatMap {
        Fail(TYPE_ERROR, Invoke);
      } else {
        var s := HelperSteps.Called(h, f.activation, reply.value);
        CallAdvances(h, f.activation, reply.value, s);
        if s.action == Continue {
          GoOn(s);
        } else {
          QuietKeeps(log, owners, |helpers|, f.helper, h, s.helper, None);
          outcome := Leave(s.helper, s.action.value, false);
        }
        CallTakes(w, reply.value, s, outcome, Snapshot());
      }
    }

    method AnswerInspect(value: Value, done: bool) returns (outcome: Outcome)
      requires Ready(Snapshot()) && Running(Snapshot())
      requires PendingOk(helpers[TopFrame(Snapshot()).helper], TopFrame(Snapshot()).activation, Inspect)
      modifies this`helpers, this`works, this`log
      ensures (var current := old(Current(helpers[TopFrame(Snapshot()).helper], TopFrame(Snapshot()).activation));
               log == old(log) + if done then [Ended(current.number)] else [])
      ensures Valid(Snapshot()) && EndedAs(outcome, old(TopWork(Snapshot())))
      ensures if done then EndTaken(old(Snapshot()), outcome, Snapshot())
              else ItemTaken(old(Snapshot()), value, outcome, Snapshot())
    {
      ghost var w := Snapshot();
      TopFacts(w);
      var work := works[|works| - 1];
      var f := work.stack[|work.stack| - 1];
      var h := helpers[f.helper];
      var s := TakeResult(h, f.activation, value, done);
      outcome := Going;
      ResultAdvances(h, f.activation, value, done, s);
      if s.action == Continue {
        ghost var log' := log + if done then [Ended(Current(h, f.activation).number)] else [];
        InspectKeeps(w, value, done, s, log', Moved(w, s.helper, s.activation, log', owners, None, work.raised));
        MoveTop(s.helper, s.activation, None, work.raised, log');
      } else {
        outcome := Leave(s.helper, value, false);
      }
      ResultTakes(w, value, done, s, outcome, Snapshot());
    }

    /** The result of `next` has come, or something that is no object. */
    method AnswerNext(isObject: bool)
      requires Ready(Snapshot()) && Running(Snapshot())
      requires PendingOk(helpers[TopFrame(Snapshot()).helper], TopFrame(Snapshot()).activation, Ask)
      modifies this`helpers, this`works, this`log
      ensures Valid(Snapshot())
      ensures ResultTaken(old(Snapshot()), isObject, Going, Snapshot())
      ensures (var current := old(Current(helpers[TopFrame(Snapshot()).helper], TopFrame(Snapshot()).activation));
               log == old(log) + if isObject then [] else [Ended(current.number)])
    {
      ghost var w := Snapshot();
      var work := works[|works| - 1];
      var f := work.stack[|work.stack| - 1];
      var a := f.activation.(result := if isObject then Opaque else NonObject, phase := GotResult);
      ghost var log' := log + if isObject then [] else [Ended(Current(helpers[f.helper], f.activation).number)];
      ResultKeeps(w, isObject, a, log', Moved(w, helpers[f.helper], a, log', owners, None, work.raised));
      MoveTop(helpers[f.helper], a, None, work.raised, log');
    }

    /**
    Foreign code answers the innermost request. The record that is being stepped ends exactly if `next` throws, returns
    no object, or returns a result that cannot be read or is done.
    */
    method Answer(reply: Reply) returns (outcome: Outcome)
      requires Valid(Snapshot()) && |works| > 0 && TopWork(Snapshot()).pending.Some?
      requires reply.Opening? && reply.target.Native? ==> reply.target.id < |helpers|
      modifies this`helpers, this`works, this`log, this`owners
      ensures Valid(Snapshot()) && EndedAs(outcome, old(TopWork(Snapshot())))
      ensures (ghost var w := old(Snapshot()); Asking(w) && log == w.log + Told(w, TopWork(w).pending.value, reply))
      ensures (ghost var w := old(Snapshot()); var request := TopWork(w).pending.value;
               if Meets(w, request, reply) then Taken(Answered(w), request, reply, outcome, Snapshot())
               else outcome.Going? && Snapshot() == w)
    {
      ghost var w := Snapshot();
      TopFacts(w);
      var work := works[|works| - 1];
      var f := work.stack[|work.stack| - 1];
      var request := work.pending.value;
      outcome := Going;
      if Fits(request, helpers[f.helper].operation, reply) {
        AnsweredKeeps(w, Answered(w));
        works := works[|works| - 1 := work.(pending := None)];
        assert Snapshot() == Answered(w);
        outcome := TakeAnswer(request, reply);
      }
    }

    method TakeAnswer(request: Action, reply: Reply) returns (outcome: Outcome)
      requires Ready(Snapshot()) && Running(Snapshot())
      requires (var f := TopFrame(Snapshot());
                PendingOk(helpers[f.helper], f.activation, request)
                && Fits(request, helpers[f.helper].operation, reply))
      requires reply.Opening? && reply.target.Native? ==> reply.target.id < |helpers|
      modifies this`helpers, this`works, this`log, this`owners
      ensures Valid(Snapshot()) && EndedAs(outcome, old(TopWork(Snapshot())))
      ensures log == old(log) + Told(old(Snapshot()), request, reply)
      ensures Meets(old(Snapshot()), request, reply) && Taken(old(Snapshot()), request, reply, outcome, Snapshot())
    {
      outcome := Going;
      if reply.Threw? {
        Fail(reply.error, request);
      } else if request == Open {
        AnswerOpen(reply.target);
      } else if request == Ask {
        AnswerNext(reply.isObject);
      } else if request == Inspect {
        outcome := AnswerInspect(if reply.Item? then reply.value else UNDEFINED, reply.Exhausted?);
      } else if request == Invoke {
        outcome := AnswerCallback(reply);
      } else if !reply.isObject {
        Fail(TYPE_ERROR, request);
      }
    }

    // ------------------------------------------------------------- code outside

    /** `next` or `return` of a helper is called, at any time that foreign code runs. */
    method Call(x: nat, close: bool)
      requires Valid(Snapshot()) && x < |helpers|
      modifies this`works
      ensures Valid(Snapshot()) && works == old(works) + [Entry(x, close)]
    {
      ghost var w := Snapshot();
      works := works + [Entry(x, close)];
      CallKeeps(w, x, close, Snapshot());
    }

    /** A helper over an iterator; for a bad argument the receiver is closed, which for a helper is a call. */
    method Create(operation: Operation, target: Target, argument: Argument<nat>, unreadable: Option<Error>)
      returns (refusal: Option<Error>)
      requires Valid(Snapshot()) && (target.Native? ==> target.id < |helpers|) && operation != Concat
      modifies this`helpers, this`owners, this`holders, this`works
      ensures Valid(Snapshot())
      ensures refusal == if Refusal(operation, argument).Some? then Refusal(operation, argument) else unreadable
      ensures works == old(works) +
        if Refusal(operation, argument).Some? && target.Native? then [Entry(target.id, true)] else []
      ensures refusal.Some? ==> helpers == old(helpers) && owners == old(owners)
      ensures refusal.None? ==>
        && owners == old(owners) + [Owner(|old(helpers)|, Outer)]
        && helpers == old(helpers) + [Fresh(operation, argument, target, |old(owners)|)]
    {
      refusal := Refusal(operation, argument);
      if refusal.Some? {
        if target.Native? { Call(target.id, true); }
      } else if unreadable.Some? {
        refusal := unreadable;
      } else {
        ghost var w := Snapshot();
        var h: Shared := Fresh(operation, argument, target, |owners|);
        owners := owners + [Owner(|helpers|, Outer)];
        helpers := helpers + [h];
        holders := holders + [Place(0, 0)];
        CreateKeeps(w, h, Snapshot());
      }
    }

    /** A concatenation; refused, without closing anything, if an argument has no iterator method. */
    method CreateConcat(arguments: seq<Option<Target>>) returns (created: bool)
      requires Valid(Snapshot())
      modifies this`helpers, this`holders
      ensures Valid(Snapshot()) && (created <==> forall k :: 0 <= k < |arguments| ==> arguments[k].Some?)
      ensures created ==> FreshConcat<Target, nat>(arguments).Some?
                          && helpers == old(helpers) + [FreshConcat<Target, nat>(arguments).value]
      ensures !created ==> FreshConcat<Target, nat>(arguments).None? && Snapshot() == old(Snapshot())
    {
      ghost var w := Snapshot();
      var h: Option<Shared> := FreshConcat(arguments);
      created := h.Some?;
      if h.Some? {
        helpers := helpers + [h.value];
        holders := holders + [Place(0, 0)];
        CreateKeeps(w, h.value, Snapshot());
      }
    }

    /** Anything that can happen next; what cannot is passed over. */
    method Perform(move: Move)
      requires Valid(Snapshot())
      modifies this
      ensures Valid(Snapshot()) && Performed(old(Snapshot()), move, Snapshot())
    {
      var waiting := |works| > 0 && works[|works| - 1].pending.Some?;
      match move {
        case Proceed =>
          if |works| > 0 && !waiting { var _ := Proceed(); }
        case Respond(reply) =>
          if waiting && (reply.Opening? && reply.target.Native? ==> reply.target.id < |helpers|) {
            var outcome := Answer(reply);
            assert Replied(old(Snapshot()), reply, outcome, Snapshot());
          }
        case Resume(x, close) =>
          if (|works| == 0 || waiting) && x < |helpers| { Call(x, close); }
        case Make(operation, target, argument, unreadable) =>
          if (|works| == 0 || waiting) && (target.Native? ==> target.id < |helpers|) && operation != Concat {
            var _ := Create(operation, target, argument, unreadable);
          }
        case Join(arguments) =>
          if |works| == 0 || waiting { var _ := CreateConcat(arguments); }
      }
    }
  }

  datatype Move =
    | Proceed
    | Respond(reply: Reply)
    | Resume(x: nat, close: bool)
    | Make(operation: Operation, target: Target, argument: Argument<nat>, unreadable: Option<Error>)
    | Join(arguments: seq<Option<Target>>)

  /** Foreign code has control: no call is in progress, or the innermost one waits for an answer. */
  ghost predicate Outside(w: World) {
    w.works == [] || TopWork(w).pending.Some?
  }

  /** A helper can be an iterator only once it has been created. */
  ghost predicate Created(w: World, target: Target) {
    target.Native? ==> target.id < |w.helpers|
  }

  ghost predicate Replied(w: World, reply: Reply, outcome: Outcome, w': World) {
    && Asking(w)
    && if Meets(w, TopWork(w).pending.value, reply) then
         Taken(Answered(w), TopWork(w).pending.value, reply, outcome, w')
       else outcome.Going? && w' == w
  }

  /** A move does what it says wherever it is possible: foreign code acts when it has control, and helpers otherwise. */
  ghost predicate Performed(w: World, move: Move, w': World) {
    match move
    case Proceed =>
      if Outside(w) then w' == w
      else |w'.works| == |w.works| - 1 || (|w'.works| == |w.works| && TopWork(w').pending.Some?)
    case Respond(reply) =>
      if w.works != [] && Outside(w) && (reply.Opening? ==> Created(w, reply.target)) then
        exists outcome :: Replied(w, reply, outcome, w')
      else w' == w
    case Resume(x, close) =>
      w' == if Outside(w) && x < |w.helpers| then w.(works := w.works + [Entry(x, close)]) else w
    case Make(operation, target, argument, unreadable) =>
      if Outside(w) && Created(w, target) && operation != Concat then
        w'.helpers == w.helpers + if Refusal(operation, argument).None? && unreadable.None?
                                  then [Fresh(operation, argument, target, |w.owners|)] else []
      else w' == w
    case Join(arguments) =>
      var h: Option<Shared> := FreshConcat(arguments);
      if Outside(w) && h.Some? then w'.helpers == w.helpers + [h.value] else w' == w
  }

  /** Every run, whatever foreign code does. */
  method Run(moves: seq<Move>) returns (engine: Engine)
    ensures Valid(engine.Snapshot())
    ensures EndsLast(engine.log) && InRange(engine.log, engine.owners) && OuterLast(engine.log, engine.owners)
            && InnerFirst(engine.log, engine.owners)
  {
    engine := new Engine();
    for i := 0 to |moves|
      invariant Valid(engine.Snapshot())
    {
      engine.Perform(moves[i]);
    }
  }

  /** `return` is called at most once for a record, and neither it nor `next` after its iterator has told of its end. */
  lemma ClosesAtMostOnce(w: World, i: nat, j: nat)
    requires Valid(w) && i < j < |w.log| && w.log[i].number == w.log[j].number
    ensures w.log[i].Asked?
  {
  }

  /** Each record of a completed helper has come to its end, and was closed if its iterator did not tell of that end. */
  lemma NothingLeftOpen(w: World, n: nat)
    requires Valid(w) && n < |w.owners|
    ensures w.owners[n].helper < |w.helpers|
    ensures w.helpers[w.owners[n].helper].state.Completed? ==> Ended(n) in w.log || Closed(n) in w.log
    ensures !w.helpers[w.owners[n].helper].state.Executing? ==>
      (!Dead(w.log, n) <==> Held(w.helpers[w.owners[n].helper], w.owners[n].role, n))
  {
    assert HelperAt(w, w.owners[n].helper);
  }

  /** Two calls of one helper never run at the same time. */
  lemma RunsAlone(w: World, k: nat, i: nat, k': nat, i': nat)
    requires Valid(w) && Slot(w, k, i) && Slot(w, k', i') && w.works[k].stack[i].helper == w.works[k'].stack[i'].helper
    requires w.works[k].stack[i].activation.entered && w.works[k'].stack[i'].activation.entered
    ensures k == k' && i == i'
  {
    assert FrameAt(w, k, i) && FrameAt(w, k', i');
  }
}
