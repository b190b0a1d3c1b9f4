/**
Between two answers of foreign code a call makes finitely many turns. An item that has been given goes down the stack;
without one, a turn starts a helper that was idle, or lowers the weight of the stack.
*/
module HelperTermination {
  import opened Options
  import opened HelperSteps
  import opened HelperRecords
  import opened HelperReentry

  // ----------------------------------------------------------------- the measure

  /** The records that the helper goes on with when the current one has come to its end. */
  function Levels(h: Shared): (n: nat) {
    (if h.innerActive then 1 else 0) + (if h.operation == Concat && !h.outer.done then 1 else 0)
  }

  /** How far an entered activation is from its end, as long as it is given no item. */
  function Rank(h: Shared, a: Activation): (n: nat) {
    match a.phase
    case Starting => 2
    case Stepping => 11 + 5 * Levels(h)
    case AwaitStep => 8 + 5 * Levels(h)
    case GotResult => 7 + 5 * Levels(h)
    case Calling => 1
    case Closing => if a.closeIndex < 0 then 2 else 4 * a.closeIndex + 6
    case AwaitClose => if a.closeIndex < 0 then 3 else 4 * a.closeIndex + 7
    case Finishing => 1
  }

  function FrameRank(helpers: seq<Shared>, f: Frame): (n: nat) {
    if f.activation.entered && f.helper < |helpers| then Rank(helpers[f.helper], f.activation)
    else if f.activation.phase.Starting? then 2 else 1
  }

  function Weight(helpers: seq<Shared>, stack: seq<Frame>): (n: nat) {
    if stack == [] then 0 else Weight(helpers, stack[..|stack| - 1]) + FrameRank(helpers, stack[|stack| - 1])
  }

  predicate IsIdle(h: Shared) {
    h.state.Start? || h.state.Suspended?
  }

  /** The helpers that can still be entered. */
  function Idle(helpers: seq<Shared>): (n: nat) {
    if helpers == [] then 0 else Idle(helpers[..|helpers| - 1]) + if IsIdle(helpers[|helpers| - 1]) then 1 else 0
  }

  /** The activation has been given an item that it has not passed on or dropped. */
  predicate HasItem(a: Activation, left: Left) {
    || (a.phase.AwaitStep? && !left.failed && left.result.Plain? && !left.result.done)
    || (a.phase.GotResult? && a.result.Plain? && !a.result.done)
  }

  predicate Carries(work: Work) {
    |work.stack| > 0 && HasItem(work.stack[|work.stack| - 1].activation, work.left)
  }

  function Flag(work: Work): (n: nat) {
    if Carries(work) then 1 else 0
  }

  function Reach(helpers: seq<Shared>, work: Work): (n: nat) {
    if Carries(work) then |work.stack| else Idle(helpers)
  }

  function Rest(helpers: seq<Shared>, work: Work): (n: nat) {
    if Carries(work) then FrameRank(helpers, work.stack[|work.stack| - 1]) else Weight(helpers, work.stack)
  }

  /** The measure is lower, unless foreign code is asked. */
  predicate Falls(w: World, w': World) {
    && |w'.works| == |w.works| > 0
    && var work, work' := TopWork(w), TopWork(w');
    && (work'.pending.None? ==>
          || Flag(work') < Flag(work)
          || (Flag(work') == Flag(work) && Reach(w'.helpers, work') < Reach(w.helpers, work))
          || (Flag(work') == Flag(work) && Reach(w'.helpers, work') == Reach(w.helpers, work)
              && Rest(w'.helpers, work') < Rest(w.helpers, work)))
  }

  /** A turn raises a TypeError for a helper that is executing already, and for a result of `next` that is no object. */
  ghost function ErrorsOf(w: World): (errors: seq<Error>)
    requires |w.works| > 0 && |TopWork(w).stack| > 0 && TopFrame(w).helper < |w.helpers|
  {
    var a := TopFrame(w).activation;
    if (a.phase.Starting? && w.helpers[TopFrame(w).helper].state.Executing?)
       || (a.phase.GotResult? && a.result.NonObject?)
    then [TYPE_ERROR] else []
  }

  /** What every turn does, unless the call ends with it. */
  ghost predicate Turned(w: World, w': World) {
    && Falls(w, w') && |w.works| > 0 && |TopWork(w).stack| > 0 && TopFrame(w).helper < |w.helpers|
    && TopWork(w').raised == TopWork(w).raised + ErrorsOf(w)
  }

  // ------------------------------------------------------------- what changes it

  lemma {:induction false} IdleAfter(helpers: seq<Shared>, g: nat, h: Shared)
    requires g < |helpers|
    ensures Idle(helpers[g := h]) ==
      Idle(helpers) - (if IsIdle(helpers[g]) then 1 else 0) + (if IsIdle(h) then 1 else 0)
    decreases |helpers|
  {
    var last := |helpers| - 1;
    if g < last {
      assert helpers[g := h][..last] == helpers[..last][g := h];
      IdleAfter(helpers[..last], g, h);
    } else {
      assert helpers[g := h][..last] == helpers[..last];
    }
  }

  lemma {:induction false} WeightApart(helpers: seq<Shared>, g: nat, h: Shared, stack: seq<Frame>)
    requires g < |helpers| && forall i :: 0 <= i < |stack| && stack[i].activation.entered ==> stack[i].helper != g
    ensures Weight(helpers[g := h], stack) == Weight(helpers, stack)
  {
    if stack != [] { WeightApart(helpers, g, h, stack[..|stack| - 1]); }
  }

  /** The activations below the topmost one run other helpers. */
  lemma BelowApart(w: World)
    requires Valid(w) && |w.works| > 0 && |TopWork(w).stack| > 0 && TopFrame(w).helper < |w.helpers|
    requires TopFrame(w).activation.entered || !w.helpers[TopFrame(w).helper].state.Executing?
    ensures var below := TopWork(w).stack[..|TopWork(w).stack| - 1];
            forall i :: 0 <= i < |below| && below[i].activation.entered ==> below[i].helper != TopFrame(w).helper
  {
    var n, t := |w.works| - 1, |TopWork(w).stack| - 1;
    LevelIsAlone(w, t);
    forall i | 0 <= i < t && TopWork(w).stack[i].activation.entered
      ensures TopWork(w).stack[i].helper != TopFrame(w).helper
    {
      assert Slot(w, n, i);
    }
  }

  // --------------------------------------------------------- one step of an activation

  /** What a step does to the rank. */
  ghost predicate StepFalls(h: Shared, a: Activation, left: Left, s: Step<Target, nat>) {
    && s.helper.state == h.state && s.activation.entered
    && (s.action == Continue ==> HasItem(a, left) || !HasItem(s.activation, left))
    && (s.action == Continue && (HasItem(a, left) ==> HasItem(s.activation, left)) ==>
          Rank(s.helper, s.activation) < Rank(h, a))
    && (s.action == Ask ==>
          !HasItem(a, left) && Rank(s.helper, s.activation.(phase := AwaitStep)) + 2 < Rank(h, a))
    && (s.action.Shut? ==>
          !HasItem(a, left) && Rank(s.helper, s.activation.(phase := AwaitClose)) + 2 < Rank(h, a))
    && (s.action.Complete? ==> (HasItem(a, left) <==> !s.action.done))
  }

  lemma StepAskFalls(h: Shared, a: Activation, left: Left)
    requires PhaseOk(h, a) && a.entered && a.phase.Stepping? && !(h.operation == Concat && h.outer.done)
    ensures StepFalls(h, a, left, StepAsk(h, a))
  {
    var s := StepAsk(h, a);
    assert Levels(s.helper) == Levels(h);
  }

  lemma TakeResultFalls(h: Shared, a: Activation, left: Left)
    requires PhaseOk(h, a) && a.entered && a.phase.GotResult? && a.result.Plain?
    ensures StepFalls(h, a, left, TakeResult(h, a, a.result.value, a.result.done))
  {
  }

  lemma CloseStepFalls(h: Shared, a: Activation, left: Left)
    requires PhaseOk(h, a) && a.entered && a.phase.Closing?
    ensures StepFalls(h, a, left, CloseStep(h, a))
  {
  }

  /** The rank falls with every step that neither is given an item nor takes one. */
  lemma RankFalls(h: Shared, a: Activation, left: Left, s: Step<Target, nat>)
    requires PhaseOk(h, a) && a.entered && s == Iteration(h, a, left)
    ensures StepFalls(h, a, left, s)
  {
    if a.phase.Stepping? && !(h.operation == Concat && h.outer.done) && s == StepAsk(h, a) {
      StepAskFalls(h, a, left);
    } else if a.phase.GotResult? && a.result.Plain? {
      TakeResultFalls(h, a, left);
    } else if a.phase.Closing? {
      CloseStepFalls(h, a, left);
    } else if a.phase.AwaitStep? {
      AwaitFalls(h, a, left);
    }
  }

  lemma AwaitFalls(h: Shared, a: Activation, left: Left)
    requires PhaseOk(h, a) && a.entered && a.phase.AwaitStep?
    ensures StepFalls(h, a, left, Iteration(h, a, left))
  {
  }

  lemma FailureFalls(h: Shared, a: Activation, left: Left, error: Error)
    requires PhaseOk(h, a) && a.entered && a.phase.GotResult? && a.result.NonObject?
    ensures var s := FailCurrent(h, a, error);
            && s.helper.state == h.state && s.activation.entered && !HasItem(s.activation, left) && !HasItem(a, left)
            && Rank(s.helper, s.activation) < Rank(h, a)
  {
  }

  // ------------------------------------------------------------------ turns of a call

  /** The topmost activation has moved to a lower rank, or has dropped its item. */
  lemma MoveFalls(w: World, h: Shared, a: Activation, log: seq<Event>, owners: seq<Owner>, raised: seq<Error>,
                  w': World)
    requires Valid(w) && Running(w) && a.entered && w' == Moved(w, h, a, log, owners, None, raised)
             && raised == TopWork(w).raised + ErrorsOf(w)
    requires var g, f, left := w.helpers[TopFrame(w).helper], TopFrame(w), TopWork(w).left;
      && h.state == g.state && (HasItem(f.activation, left) || !HasItem(a, left))
      && ((HasItem(f.activation, left) ==> HasItem(a, left)) ==> Rank(h, a) < Rank(g, f.activation))
    ensures Turned(w, w')
  {
    var x, stack, stack' := TopFrame(w).helper, TopWork(w).stack, TopWork(w').stack;
    BelowApart(w);
    IdleAfter(w.helpers, x, h);
    WeightApart(w.helpers, x, h, stack[..|stack| - 1]);
    assert stack'[..|stack| - 1] == stack[..|stack| - 1];
  }

  /** A native helper has been called by the topmost activation. */
  lemma CallFalls(w: World, h: Shared, a0: Activation, log: seq<Event>, raised: seq<Error>, a: Activation, x: nat,
                  close: bool, w': World)
    requires Valid(w) && Running(w) && a.entered && raised == TopWork(w).raised + ErrorsOf(w)
    requires w' == Descended(Moved(w, h, a0, log, w.owners, None, raised), a, x, close)
    requires var g, f, left := w.helpers[TopFrame(w).helper], TopFrame(w), TopWork(w).left;
      h.state == g.state && !HasItem(f.activation, left) && Rank(h, a) + 2 < Rank(g, f.activation)
    ensures Turned(w, w')
  {
    var y, stack, stack' := TopFrame(w).helper, TopWork(w).stack, TopWork(w').stack;
    var t := |stack| - 1;
    BelowApart(w);
    IdleAfter(w.helpers, y, h);
    WeightApart(w.helpers, y, h, stack[..t]);
    assert stack'[..t + 1][..t] == stack[..t];
    assert Weight(w'.helpers, stack'[..t + 1]) == Weight(w'.helpers, stack[..t]) + Rank(h, a);
  }

  /** The topmost activation has come to its end, and its caller goes on. */
  lemma PopFalls(w: World, h: Shared, value: Value, done: bool, w': World)
    requires Valid(w) && |w.works| > 0 && |TopWork(w).stack| > 1 && TopFrame(w).helper < |w.helpers|
    requires TopFrame(w).activation.entered ==> w.helpers[TopFrame(w).helper].state.Executing?
    requires !TopFrame(w).activation.entered ==> done && h == w.helpers[TopFrame(w).helper]
    requires w' == Popped(w, h, value, done) && (HasItem(TopFrame(w).activation, TopWork(w).left) <==> !done)
    requires !Waits(TopFrame(w).activation) && ErrorsOf(w) == []
    ensures Turned(w, w')
  {
    var f, stack := TopFrame(w), TopWork(w).stack;
    var t := |stack| - 1;
    var h' := Released(h, f.activation, done);
    IdleAfter(w.helpers, f.helper, h');
    if f.activation.entered {
      BelowApart(w);
      WeightApart(w.helpers, f.helper, h', stack[..t]);
    } else {
      assert w.helpers[f.helper := h'] == w.helpers;
    }
    assert Weight(w.helpers, stack) == Weight(w.helpers, stack[..t]) + FrameRank(w.helpers, f);
    assert WorkAt(w, |w.works| - 1);
    var caller := stack[t - 1].activation;
    assert Waits(caller);
    if done { assert !Carries(TopWork(w')); }
  }

  /** The topmost activation begins to run its helper, which was idle. */
  lemma EnterFalls(w: World, s: Step<Target, nat>, w': World)
    requires Valid(w) && |w.works| > 0 && |TopWork(w).stack| > 0 && TopFrame(w).helper < |w.helpers| == |w.holders|
    requires TopFrame(w).activation.phase.Starting? && s.action == Continue && w' == Begun(w, s)
             && !w.helpers[TopFrame(w).helper].state.Executing?
    requires s == Iteration(w.helpers[TopFrame(w).helper], TopFrame(w).activation, TopWork(w).left)
    ensures Turned(w, w')
  {
    IdleAfter(w.helpers, TopFrame(w).helper, s.helper);
  }

  /** The helper of the topmost activation is executing already. */
  lemma RefuseFalls(w: World, s: Step<Target, nat>, raised: seq<Error>, w': World)
    requires Valid(w) && |w.works| > 0 && |TopWork(w).stack| > 0 && TopFrame(w).helper < |w.helpers|
    requires TopFrame(w).activation.phase.Starting? && !TopFrame(w).activation.entered
             && s.helper == w.helpers[TopFrame(w).helper]
    requires s.activation.phase.Finishing? && !s.activation.entered && raised == TopWork(w).raised + ErrorsOf(w)
    requires w' == Moved(w, s.helper, s.activation, w.log, w.owners, None, raised)
    ensures Turned(w, w')
  {
    var stack := TopWork(w).stack;
    assert TopWork(w').stack[..|stack| - 1] == stack[..|stack| - 1];
    assert w'.helpers == w.helpers;
  }

  /** The record in turn is closed. */
  lemma ShutFalls(w: World, s: Step<Target, nat>, h: Shared, log: seq<Event>, w': World)
    requires Ready(w) && Running(w) && h == w.helpers[TopFrame(w).helper] && s.action.Shut? && |w'.works| == |w.works|
    requires s == Iteration(h, TopFrame(w).activation, TopWork(w).left)
    requires var target := (if s.action.which == Inner then h.inner else h.outer).target;
      target.Some? &&
      if target.value.Native? then
        var moved := Moved(w, s.helper, s.activation, log, w.owners, None, TopWork(w).raised);
        w' == Descended(moved, s.activation.(phase := AwaitClose), target.value.id, true)
      else w' == Moved(w, s.helper, s.activation, log, w.owners, Some(s.action), TopWork(w).raised)
    ensures Turned(w, w')
  {
    TopFacts(w);
    RankFalls(h, TopFrame(w).activation, TopWork(w).left, s);
    var target := (if s.action.which == Inner then h.inner else h.outer).target;
    if target.value.Native? {
      CallFalls(w, s.helper, s.activation, log, TopWork(w).raised, s.activation.(phase := AwaitClose), target.value.id,
                true, w');
    }
  }

  /** The current record is asked. */
  lemma AskFalls(w: World, s: Step<Target, nat>, log: seq<Event>, w': World)
    requires Ready(w) && Running(w) && s.action == Ask && |w'.works| == |w.works|
    requires s == Iteration(w.helpers[TopFrame(w).helper], TopFrame(w).activation, TopWork(w).left)
    requires var target := Current(s.helper, s.activation).target;
      target.Some? &&
      if target.value.Native? then
        var moved := Moved(w, s.helper, s.activation, log, w.owners, None, TopWork(w).raised);
        w' == Descended(moved, s.activation.(phase := AwaitStep), target.value.id, false)
      else w' == Moved(w, s.helper, s.activation, log, w.owners, Some(Ask), TopWork(w).raised)
    ensures Turned(w, w')
  {
    TopFacts(w);
    RankFalls(w.helpers[TopFrame(w).helper], TopFrame(w).activation, TopWork(w).left, s);
    var target := Current(s.helper, s.activation).target;
    if target.value.Native? {
      CallFalls(w, s.helper, s.activation, log, TopWork(w).raised, s.activation.(phase := AwaitStep), target.value.id,
                false, w');
    }
  }

  /** The result of `next` is no object. */
  lemma RaiseFalls(w: World, error: Error, log: seq<Event>, w': World)
    requires Ready(w) && Running(w)
    requires var a := TopFrame(w).activation; a.phase.GotResult? && a.result.NonObject?
    requires var s := FailCurrent(w.helpers[TopFrame(w).helper], TopFrame(w).activation, error);
      w' == Moved(w, s.helper, s.activation, log, w.owners, None, TopWork(w).raised + [error])
      && error == TYPE_ERROR
    ensures Turned(w, w')
  {
    TopFacts(w);
    var h, a := w.helpers[TopFrame(w).helper], TopFrame(w).activation;
    var s := FailCurrent(h, a, error);
    FailureFalls(h, a, TopWork(w).left, error);
    MoveFalls(w, s.helper, s.activation, log, w.owners, TopWork(w).raised + [error], w');
  }

  /** Foreign code is asked. */
  lemma AskedTurned(w: World, s: Step<Target, nat>, w': World)
    requires Ready(w) && Running(w) && s.action != Continue && !s.action.Raise? && !s.action.Complete?
    requires s == Iteration(w.helpers[TopFrame(w).helper], TopFrame(w).activation, TopWork(w).left)
    requires w' == Moved(w, s.helper, s.activation, w.log, w.owners, Some(s.action), TopWork(w).raised)
    ensures Turned(w, w')
  {
    TopFacts(w);
  }
}
