/**
All helpers of a program at once. Foreign code may call back into any helper while a call is in
progress, create helpers, throw, and answer as it likes; helpers may share the iterators they use.
*/
module HelperReentry {
  import opened Options
  import opened HelperSteps
  import opened HelperRecords

  datatype Frame = Frame(helper: nat, activation: Activation)

  /** One `helper_resume`: its activations, and the request to foreign code that it waits for. */
  datatype Work = Work(stack: seq<Frame>, left: Left, pending: Option<Action>, raised: seq<Error>)

  /** Where the activation of an executing helper is. */
  datatype Place = Place(work: nat, level: nat)

  datatype World = World(helpers: seq<Shared>, holders: seq<Place>, log: seq<Event>, owners: seq<Owner>,
                         works: seq<Work>)

  predicate Waits(a: Activation) {
    a.phase.AwaitStep? || a.phase.AwaitClose?
  }

  // ---------------------------------------------------------------- the first error

  ghost predicate NoneFailed(stack: seq<Frame>) {
    forall i :: 0 <= i < |stack| ==> !stack[i].activation.failed
  }

  ghost predicate FirstFailed(stack: seq<Frame>, k: nat, error: Error) {
    && k < |stack| && stack[k].activation.failed && stack[k].activation.error == error
    && forall i :: 0 <= i < k ==> !stack[i].activation.failed
  }

  /** The lowest activation that has failed carries the first error of the call, or it is on its way there. */
  ghost predicate CarriesFirst(work: Work)
    requires |work.stack| > 0
  {
    var top := work.stack[|work.stack| - 1].activation;
    if work.raised == [] then
      NoneFailed(work.stack) && (Waits(top) ==> !work.left.failed)
    else
      || (exists k: nat :: FirstFailed(work.stack, k, work.raised[0]))
      || (NoneFailed(work.stack) && Waits(top) && work.left.failed && work.left.error == work.raised[0])
  }

  ghost predicate WorkShape(work: Work) {
    && |work.stack| > 0 && (forall i :: 0 <= i < |work.stack| - 1 ==> Waits(work.stack[i].activation))
    && CarriesFirst(work)
  }

  /** The topmost activation goes on; an error that was on its way has arrived. */
  lemma FirstGoesOn(work: Work, work': Work, f: Frame)
    requires WorkShape(work) && !Waits(f.activation) && work'.raised == work.raised
    requires work'.stack == work.stack[|work.stack| - 1 := f]
    requires (var a := work.stack[|work.stack| - 1].activation;
              var b := if Waits(a) && work.left.failed then SetError(a, work.left.error) else a;
              f.activation.failed == b.failed && f.activation.error == b.error)
    ensures WorkShape(work')
  {
    FirstMoves(work, work', f);
  }

  lemma FirstMoves(work: Work, work': Work, f: Frame)
    requires WorkShape(work) && work'.raised == work.raised && work'.stack == work.stack[|work.stack| - 1 := f]
    requires (var a := work.stack[|work.stack| - 1].activation;
              var b := if Waits(a) && work.left.failed then SetError(a, work.left.error) else a;
              f.activation.failed == b.failed && f.activation.error == b.error)
    ensures work.raised == [] ==> NoneFailed(work'.stack)
    ensures work.raised != [] ==> exists k: nat :: FirstFailed(work'.stack, k, work'.raised[0])
  {
    if work.raised != [] {
      if k: nat :| FirstFailed(work.stack, k, work.raised[0]) {
        assert FirstFailed(work'.stack, k, work.raised[0]);
      } else {
        assert FirstFailed(work'.stack, |work.stack| - 1, work.raised[0]);
      }
    }
  }

  /** A new error: the topmost activation takes it, unless it has one. */
  lemma FirstRaised(work: Work, work': Work, f: Frame, error: Error)
    requires WorkShape(work) && !Waits(work.stack[|work.stack| - 1].activation) && !Waits(f.activation)
    requires work'.raised == work.raised + [error] && work'.stack == work.stack[|work.stack| - 1 := f]
    requires (var b := SetError(work.stack[|work.stack| - 1].activation, error);
              f.activation.failed == b.failed && f.activation.error == b.error)
    ensures WorkShape(work')
  {
    if work.raised == [] {
      assert work'.raised[0] == error;
      assert FirstFailed(work'.stack, |work.stack| - 1, error);
    } else {
      var k: nat :| FirstFailed(work.stack, k, work.raised[0]);
      assert work'.raised[0] == work.raised[0];
      assert FirstFailed(work'.stack, k, work.raised[0]);
    }
  }

  lemma FirstPushed(work: Work, work': Work, f: Frame, c: Frame)
    requires WorkShape(work) && !Waits(work.stack[|work.stack| - 1].activation) && Waits(f.activation)
    requires work'.raised == work.raised && work'.stack == work.stack[|work.stack| - 1 := f] + [c]
             && !c.activation.failed && !Waits(c.activation)
    requires (var a := work.stack[|work.stack| - 1].activation;
              f.activation.failed == a.failed && f.activation.error == a.error)
    ensures WorkShape(work')
  {
    if work.raised != [] {
      var k: nat :| FirstFailed(work.stack, k, work.raised[0]);
      assert FirstFailed(work'.stack, k, work.raised[0]);
    }
  }

  lemma FirstPopped(work: Work, work': Work)
    requires WorkShape(work) && |work.stack| > 1 && !Waits(work.stack[|work.stack| - 1].activation)
    requires work'.raised == work.raised && work'.stack == work.stack[..|work.stack| - 1]
    requires (var a := work.stack[|work.stack| - 1].activation;
              work'.left.failed == a.failed && work'.left.error == a.error)
    ensures WorkShape(work')
  {
    if work.raised != [] {
      var k: nat :| FirstFailed(work.stack, k, work.raised[0]);
      if k < |work.stack| - 1 { assert FirstFailed(work'.stack, k, work.raised[0]); }
    }
  }

  /** The call ends with the first error that was raised in it, and only then with an error. */
  lemma FirstDelivered(work: Work)
    requires WorkShape(work) && |work.stack| == 1 && !Waits(work.stack[0].activation)
    ensures work.stack[0].activation.failed <==> work.raised != []
    ensures work.raised != [] ==> work.stack[0].activation.error == work.raised[0]
  {
  }

  // ------------------------------------------------------------------ the invariant

  /** A helper that is not executing holds open exactly the records that have not come to an end. */
  ghost predicate HelperAt(w: World, x: nat) {
    x < |w.helpers| && !w.helpers[x].state.Executing? ==>
      && Books(w.log, w.owners, |w.helpers|, x, w.helpers[x], None)
      && (!w.helpers[x].state.Completed? ==>
            !Sealed(w.log, w.owners, x) && (w.helpers[x].innerActive ==> !w.helpers[x].inner.done))
  }

  ghost predicate Slot(w: World, k: nat, i: nat) {
    k < |w.works| && i < |w.works[k].stack|
  }

  /** The books of an executing helper, which also tell what has been reported to its activation. */
  ghost predicate FrameBooks(w: World, f: Frame, top: bool, left: Left)
    requires f.helper < |w.helpers|
  {
    && Books(w.log, w.owners, |w.helpers|, f.helper, w.helpers[f.helper],
             Known(w.helpers[f.helper], f.activation, top, left))
    && (!Settled(f.activation) ==> !Sealed(w.log, w.owners, f.helper))
  }

  ghost predicate FrameOk(w: World, k: nat, i: nat, f: Frame, top: bool, left: Left) {
    && f.helper < |w.helpers| == |w.holders|
    && if f.activation.entered then
         && w.helpers[f.helper].state.Executing? && w.holders[f.helper] == Place(k, i)
         && PhaseOk(w.helpers[f.helper], f.activation) && FrameBooks(w, f, top, left)
       else
         f.activation == Pushed(f.activation.closeRequest) || f.activation.phase.Finishing?
  }

  ghost predicate FrameAt(w: World, k: nat, i: nat) {
    Slot(w, k, i) ==> FrameOk(w, k, i, w.works[k].stack[i], i == |w.works[k].stack| - 1, w.works[k].left)
  }

  ghost predicate WorkAt(w: World, k: nat) {
    k < |w.works| ==>
      var work := w.works[k];
      && WorkShape(work)
      && (work.pending.Some? ==>
            var f := work.stack[|work.stack| - 1];
            f.activation.entered && f.helper < |w.helpers|
            && PendingOk(w.helpers[f.helper], f.activation, work.pending.value))
  }

  ghost predicate OwnersInRange(w: World) {
    forall n :: 0 <= n < |w.owners| ==> w.owners[n].helper < |w.helpers|
  }

  ghost predicate Valid(w: World) {
    && LogGood(w.log, w.owners) && |w.holders| == |w.helpers| && OwnersInRange(w)
    && (forall x {:trigger HelperAt(w, x)} :: HelperAt(w, x))
    && (forall k, i {:trigger FrameAt(w, k, i)} :: FrameAt(w, k, i))
    && (forall k {:trigger WorkAt(w, k)} :: WorkAt(w, k))
  }

  // --------------------------------------------------------------- steps of the top

  function TopWork(w: World): (r: Work)
    requires |w.works| > 0
  {
    w.works[|w.works| - 1]
  }

  function TopFrame(w: World): (f: Frame)
    requires |w.works| > 0 && |TopWork(w).stack| > 0
  {
    TopWork(w).stack[|TopWork(w).stack| - 1]
  }

  /** No activation below level `cut` of the topmost call, nor of any other call, is running one of these helpers. */
  ghost predicate Alone(w: World, group: set<nat>, cut: nat) {
    forall k: nat, i: nat ::
      Slot(w, k, i) && (k < |w.works| - 1 || i < cut) && w.works[k].stack[i].activation.entered ==>
        w.works[k].stack[i].helper !in group
  }

  /** An activation of the topmost call is the only one that runs its helper. */
  lemma LevelIsAlone(w: World, i: nat)
    requires Valid(w) && |w.works| > 0 && i < |TopWork(w).stack|
    requires (var f := TopWork(w).stack[i];
              f.activation.entered || (f.helper < |w.helpers| && !w.helpers[f.helper].state.Executing?))
    ensures Alone(w, {TopWork(w).stack[i].helper}, i)
  {
    var n, f := |w.works| - 1, TopWork(w).stack[i];
    assert FrameAt(w, n, i);
    forall k: nat, j: nat | Slot(w, k, j) && (k < n || j < i) && w.works[k].stack[j].activation.entered
      ensures w.works[k].stack[j].helper !in {f.helper}
    {
      assert FrameAt(w, k, j);
    }
  }

  /** Only the helpers of a group and their records have changed. */
  ghost predicate Elsewhere(w: World, w': World, group: set<nat>) {
    && |w'.helpers| == |w.helpers| && |w'.holders| == |w.holders|
    && (forall x :: 0 <= x < |w.helpers| && x !in group ==> w'.helpers[x] == w.helpers[x])
    && (forall x :: 0 <= x < |w.holders| && x !in group ==> w'.holders[x] == w.holders[x])
    && (forall x: nat {:trigger Unaffected(w.log, w.owners, w'.log, w'.owners, x)} :: x !in group ==>
          Unaffected(w.log, w.owners, w'.log, w'.owners, x))
  }

  lemma FrameElsewhere(w: World, w': World, group: set<nat>, k: nat, i: nat)
    requires Valid(w) && Slot(w, k, i) && Slot(w', k, i) && w'.works[k].stack[i] == w.works[k].stack[i]
             && Elsewhere(w, w', group)
    requires w.works[k].stack[i].activation.entered ==> w.works[k].stack[i].helper !in group
    requires w'.works[k] == w.works[k] || (i < |w.works[k].stack| - 1 && i < |w'.works[k].stack| - 1)
    ensures FrameAt(w', k, i)
  {
    assert FrameAt(w, k, i);
    var f := w.works[k].stack[i];
    if f.activation.entered {
      var h, top := w.helpers[f.helper], i == |w.works[k].stack| - 1;
      assert Known(h, f.activation, top, w'.works[k].left) == Known(h, f.activation, top, w.works[k].left);
      BooksStay(w.log, w.owners, w'.log, w'.owners, |w.helpers|, |w.helpers|, f.helper, h,
                Known(h, f.activation, top, w.works[k].left));
    }
  }

  lemma WorkElsewhere(w: World, w': World, group: set<nat>, cut: nat, k: nat)
    requires Valid(w) && k < |w.works| - 1 && k < |w'.works| && w'.works[k] == w.works[k] && Elsewhere(w, w', group)
             && Alone(w, group, cut)
    ensures WorkAt(w', k)
  {
    assert WorkAt(w, k);
    var t := |w.works[k].stack| - 1;
    assert FrameAt(w, k, t) && Slot(w, k, t);
  }

  lemma HelperElsewhere(w: World, w': World, group: set<nat>, x: nat)
    requires Valid(w) && Elsewhere(w, w', group) && x !in group
    ensures HelperAt(w', x)
  {
    assert HelperAt(w, x);
    if x < |w.helpers| && !w.helpers[x].state.Executing? {
      BooksStay(w.log, w.owners, w'.log, w'.owners, |w.helpers|, |w.helpers|, x, w.helpers[x], None);
    }
  }

  /** The topmost call has moved on; below level `cut` its stack is as before. */
  lemma TopMoves(w: World, w': World, group: set<nat>, cut: nat, n: nat)
    requires Valid(w) && |w.works| > 0 && n == |w.works| - 1 && |w'.works| == |w.works| && w'.works[..n] == w.works[..n]
    requires cut < |TopWork(w).stack| && cut < |TopWork(w').stack|
             && TopWork(w').stack[..cut] == TopWork(w).stack[..cut]
    requires Elsewhere(w, w', group) && Alone(w, group, cut) && LogGood(w'.log, w'.owners) && OwnersInRange(w')
    requires forall x: nat :: x in group ==> HelperAt(w', x)
    requires forall i: nat :: cut <= i < |TopWork(w').stack| ==> FrameAt(w', n, i)
    requires WorkAt(w', n)
    ensures Valid(w')
  {
    forall x: nat ensures HelperAt(w', x) {
      if x !in group { HelperElsewhere(w, w', group, x); }
    }
    forall k: nat, i: nat ensures FrameAt(w', k, i) {
      if Slot(w', k, i) && (k < n || i < cut) {
        assert k < n ==> w'.works[..n][k] == w.works[..n][k];
        assert k == n ==> TopWork(w').stack[..cut][i] == TopWork(w).stack[..cut][i];
        FrameElsewhere(w, w', group, k, i);
      }
    }
    forall k: nat ensures WorkAt(w', k) {
      if k < n {
        assert w'.works[..n][k] == w.works[..n][k];
        WorkElsewhere(w, w', group, cut, k);
      }
    }
  }

  /** The topmost call is over. */
  lemma WorkGone(w: World, w': World, group: set<nat>, n: nat)
    requires Valid(w) && n == |w.works| - 1 && w'.works == w.works[..n]
    requires Elsewhere(w, w', group) && Alone(w, group, 0) && LogGood(w'.log, w'.owners) && OwnersInRange(w')
    requires forall x: nat :: x in group ==> HelperAt(w', x)
    ensures Valid(w')
  {
    forall x: nat ensures HelperAt(w', x) {
      if x !in group { HelperElsewhere(w, w', group, x); }
    }
    forall k: nat, i: nat ensures FrameAt(w', k, i) {
      if Slot(w', k, i) { FrameElsewhere(w, w', group, k, i); }
    }
    forall k: nat ensures WorkAt(w', k) {
      if k < n { WorkElsewhere(w, w', group, 0, k); }
    }
  }

  lemma SameElsewhere(w: World, w': World)
    requires w'.helpers == w.helpers && w'.holders == w.holders && w'.log == w.log && w'.owners == w.owners
    ensures Elsewhere(w, w', {})
  {
  }

  // ------------------------------------------------------------ the world after a step

  /** The world with a new topmost activation, helper and request. */
  function Moved(w: World, h: Shared, a: Activation, log: seq<Event>, owners: seq<Owner>, pending: Option<Action>,
                 raised: seq<Error>): (r: World)
    requires |w.works| > 0 && |TopWork(w).stack| > 0 && TopFrame(w).helper < |w.helpers|
  {
    var work, f := TopWork(w), TopFrame(w);
    w.(helpers := w.helpers[f.helper := h], log := log, owners := owners,
       works := w.works[|w.works| - 1 := work.(stack := work.stack[|work.stack| - 1 := Frame(f.helper, a)],
                                               pending := pending, raised := raised)])
  }

  ghost predicate Running(w: World) {
    && |w.works| > 0 && |TopWork(w).stack| > 0 && TopFrame(w).helper < |w.helpers|
    && TopFrame(w).activation.entered && w.helpers[TopFrame(w).helper].state.Executing?
  }

  /** What has been reported to the topmost activation. */
  function TopKnown(w: World): (n: Option<nat>)
    requires Running(w)
  {
    Known(w.helpers[TopFrame(w).helper], TopFrame(w).activation, true, TopWork(w).left)
  }

  /** New books that differ from the old ones in helper `g` alone. */
  ghost predicate NewBooks(w: World, g: nat, h: Shared, log: seq<Event>, owners: seq<Owner>, known: Option<nat>) {
    && g < |w.helpers| && Books(log, owners, |w.helpers|, g, h, known) && LogGood(log, owners)
    && (forall n :: 0 <= n < |owners| ==> owners[n].helper < |w.helpers|)
    && (forall x: nat {:trigger Unaffected(w.log, w.owners, log, owners, x)} :: x != g ==>
          Unaffected(w.log, w.owners, log, owners, x))
  }

  lemma BooksElsewhere(w: World, w': World, g: nat, known: Option<nat>)
    requires Valid(w) && g < |w.helpers| == |w'.helpers| && |w'.holders| == |w.holders|
    requires w'.helpers == w.helpers[g := w'.helpers[g]] && w'.holders == w.holders[g := w'.holders[g]]
    requires NewBooks(w, g, w'.helpers[g], w'.log, w'.owners, known)
    ensures Elsewhere(w, w', {g}) && OwnersInRange(w')
  {
  }

  /** The log grows by an event on a record of `g`. */
  lemma LogOfOne(w: World, g: nat, h: Shared, log: seq<Event>, known: Option<nat>)
    requires Valid(w) && g < |w.helpers| && Books(log, w.owners, |w.helpers|, g, h, known) && LogGood(log, w.owners)
    requires log == w.log || exists e: Event ::
      log == w.log + [e] && e.number < |w.owners| && w.owners[e.number].helper == g
    ensures NewBooks(w, g, h, log, w.owners, known)
  {
    forall x: nat | x != g ensures Unaffected(w.log, w.owners, log, w.owners, x) {
      if log != w.log {
        var e: Event :| log == w.log + [e] && e.number < |w.owners| && w.owners[e.number].helper == g;
        UnaffectedAppend(w.log, w.owners, e, x);
      }
    }
  }

  /** The running activation takes a step within its helper. */
  lemma MovedKeeps(w: World, h: Shared, a: Activation, log: seq<Event>, owners: seq<Owner>, pending: Option<Action>,
                   raised: seq<Error>, w': World)
    requires Valid(w) && Running(w) && w' == Moved(w, h, a, log, owners, pending, raised)
    requires NewBooks(w, TopFrame(w).helper, h, log, owners, Known(h, a, true, TopWork(w).left)) && h.state.Executing?
             && a.entered && PhaseOk(h, a)
    requires !Settled(a) ==> !Sealed(log, owners, TopFrame(w).helper)
    requires WorkShape(TopWork(w')) && (pending.Some? ==> PendingOk(h, a, pending.value))
    ensures Valid(w') && Running(w')
  {
    var n, t, g := |w.works| - 1, |TopWork(w).stack| - 1, TopFrame(w).helper;
    assert FrameAt(w, n, t);
    LevelIsAlone(w, t);
    BooksElsewhere(w, w', g, Known(h, a, true, TopWork(w).left));
    assert TopWork(w').stack[..t] == TopWork(w).stack[..t];
    assert FrameAt(w', n, t) && WorkAt(w', n) && HelperAt(w', g);
    TopMoves(w, w', {g}, t, n);
  }

  /** The world with one more activation on the topmost call. */
  function Descended(w: World, a: Activation, x: nat, close: bool): (r: World)
    requires |w.works| > 0 && |TopWork(w).stack| > 0
  {
    var work, f := TopWork(w), TopFrame(w);
    w.(works := w.works[|w.works| - 1 := work.(
      stack := work.stack[|work.stack| - 1 := f.(activation := a)] + [Frame(x, Pushed(close))],
      pending := None)])
  }

  lemma DescendedKeeps(w: World, a: Activation, x: nat, close: bool, w': World)
    requires Valid(w) && Running(w) && w' == Descended(w, a, x, close) && x < |w.helpers|
    requires a.entered && PhaseOk(w.helpers[TopFrame(w).helper], a) && Waits(a) && !Waits(TopFrame(w).activation)
             && TopKnown(w) == None
    requires a.failed == TopFrame(w).activation.failed && a.error == TopFrame(w).activation.error
    requires !Settled(a) ==> !Sealed(w.log, w.owners, TopFrame(w).helper)
    ensures Valid(w')
  {
    var n, t, f := |w.works| - 1, |TopWork(w).stack| - 1, TopFrame(w);
    var f', c := f.(activation := a), Frame(x, Pushed(close));
    assert FrameAt(w, n, t) && WorkAt(w, n);
    FirstPushed(TopWork(w), TopWork(w'), f', c);
    assert TopWork(w').stack[..t] == TopWork(w).stack[..t];
    assert FrameAt(w', n, t) && FrameAt(w', n, t + 1) && WorkAt(w', n);
    SameElsewhere(w, w');
    TopMoves(w, w', {}, t, n);
  }

  /** The record that the activation below the topmost one is stepping. */
  function Caller(w: World): (n: Option<nat>)
    requires |w.works| > 0
  {
    var stack := TopWork(w).stack;
    if |stack| > 1 && stack[|stack| - 2].activation.phase.AwaitStep? && stack[|stack| - 2].helper < |w.helpers|
    then Some(Current(w.helpers[stack[|stack| - 2].helper], stack[|stack| - 2].activation).number)
    else None
  }

  /**
  The log after the topmost activation has come to its end: its caller's record has ended if it is done or has failed.
  */
  function LogAfter(w: World, done: bool): (log: seq<Event>)
    requires |w.works| > 0 && |TopWork(w).stack| > 0
  {
    w.log + (if Caller(w).Some? && (done || TopFrame(w).activation.failed) then [Ended(Caller(w).value)] else [])
  }

  /** The world after the topmost activation has come to its end. */
  function Popped(w: World, h: Shared, value: Value, done: bool): (r: World)
    requires |w.works| > 0 && |TopWork(w).stack| > 0 && TopFrame(w).helper < |w.helpers|
  {
    var work, f := TopWork(w), TopFrame(w);
    var a := f.activation;
    w.(helpers := w.helpers[f.helper := Released(h, a, done)], log := LogAfter(w, done),
       works := if |work.stack| == 1 then w.works[..|w.works| - 1]
                else w.works[|w.works| - 1 := work.(stack := work.stack[..|work.stack| - 1],
                                                    left := Left(Plain(value, done), a.failed, a.error))])
  }

  /** A helper may be released: with all its records at their end, or ready for its next call. */
  ghost predicate Releasable(w: World, g: nat, h: Shared, a: Activation, done: bool) {
    if !a.entered then
      done
    else if done then
      h.outer.done && (h.innerActive ==> h.inner.done)
    else
      !Sealed(w.log, w.owners, g) && (h.innerActive ==> !h.inner.done)
  }

  lemma ReleasedBooks(log: seq<Event>, owners: seq<Owner>, size: nat, g: nat, h: Shared, a: Activation, done: bool)
    requires Books(log, owners, size, g, h, None) && h.state.Executing? && a.entered
    requires done ==> h.outer.done && (h.innerActive ==> h.inner.done)
    ensures Books(log, owners, size, g, Released(h, a, done), None)
  {
  }

  /** What the end of a call does to the record of its caller. */
  lemma CallerBooks(w: World, p: Frame, done: bool, log': seq<Event>, left: Left, level: nat)
    requires Valid(w) && |w.works| > 0 && |TopWork(w).stack| > 1 && level == |TopWork(w).stack| - 2
             && p == TopWork(w).stack[level]
    requires log' == LogAfter(w, done) && left.result.Plain? && left.result.done == done
             && left.failed == TopFrame(w).activation.failed
    ensures p.activation.entered && p.helper < |w.helpers| && w.helpers[p.helper].state.Executing?
            && PhaseOk(w.helpers[p.helper], p.activation)
    ensures LogGood(log', w.owners)
            && Books(log', w.owners, |w.helpers|, p.helper, w.helpers[p.helper],
                     Known(w.helpers[p.helper], p.activation, true, left))
    ensures !Settled(p.activation) ==> !Sealed(log', w.owners, p.helper)
    ensures forall x: nat :: x != p.helper ==> Unaffected(w.log, w.owners, log', w.owners, x)
  {
    assert FrameAt(w, |w.works| - 1, level) && WorkAt(w, |w.works| - 1);
    assert Waits(p.activation);
    var h, a := w.helpers[p.helper], p.activation;
    if log' != w.log {
      ReportKeeps(w.log, w.owners, |w.helpers|, p.helper, h, RoleOf(a));
      forall x: nat | x != p.helper ensures Unaffected(w.log, w.owners, log', w.owners, x) {
        UnaffectedAppend(w.log, w.owners, Ended(NumberOf(h, RoleOf(a))), x);
      }
    } else {
      assert w.log + [] == w.log;
    }
  }

  /** What may be assumed of the topmost activation when it comes to its end. */
  ghost predicate Leaves(w: World, h: Shared, done: bool) {
    && Valid(w) && |w.works| > 0 && |TopWork(w).stack| > 0 && TopFrame(w).helper < |w.helpers|
    && (TopFrame(w).activation.entered ==>
          Books(w.log, w.owners, |w.helpers|, TopFrame(w).helper, h, None) && h.state.Executing?)
    && (!TopFrame(w).activation.entered ==> h == w.helpers[TopFrame(w).helper])
    && Releasable(w, TopFrame(w).helper, h, TopFrame(w).activation, done) && TopWork(w).pending.None?
    && !Waits(TopFrame(w).activation)
  }

  lemma PoppedLast(w: World, h: Shared, value: Value, done: bool, w': World)
    requires Leaves(w, h, done) && |TopWork(w).stack| == 1 && w' == Popped(w, h, value, done)
    ensures Valid(w')
  {
    var n, f := |w.works| - 1, TopFrame(w);
    assert FrameAt(w, n, 0);
    assert w.log + [] == w.log;
    if f.activation.entered {
      ReleasedBooks(w.log, w.owners, |w.helpers|, f.helper, h, f.activation, done);
      LevelIsAlone(w, 0);
      assert HelperAt(w', f.helper);
      WorkGone(w, w', {f.helper}, n);
    } else {
      SameElsewhere(w, w');
      WorkGone(w, w', {}, n);
    }
  }

  lemma PoppedInner(w: World, h: Shared, value: Value, done: bool, w': World, group: set<nat>)
    requires Leaves(w, h, done) && |TopWork(w).stack| > 1 && w' == Popped(w, h, value, done)
    requires group ==
      {TopWork(w).stack[|TopWork(w).stack| - 2].helper} +
      (if TopFrame(w).activation.entered then {TopFrame(w).helper} else {})
    ensures Elsewhere(w, w', group) && Alone(w, group, |TopWork(w).stack| - 2) && LogGood(w'.log, w'.owners)
            && OwnersInRange(w')
    ensures forall x: nat :: x in group ==> HelperAt(w', x)
    ensures FrameAt(w', |w.works| - 1, |TopWork(w).stack| - 2)
  {
    var n, t, f := |w.works| - 1, |TopWork(w).stack| - 1, TopFrame(w);
    var p, left := TopWork(w).stack[t - 1], TopWork(w').left;
    assert FrameAt(w, n, t) && FrameAt(w, n, t - 1);
    CallerBooks(w, p, done, w'.log, left, t - 1);
    LevelIsAlone(w, t - 1);
    if f.activation.entered {
      LevelIsAlone(w, t);
      assert p.helper != f.helper;
      ReleasedBooks(w.log, w.owners, |w.helpers|, f.helper, h, f.activation, done);
      BooksStay(w.log, w.owners, w'.log, w'.owners, |w.helpers|, |w.helpers|, f.helper, w'.helpers[f.helper], None);
    }
  }

  lemma PoppedKeeps(w: World, h: Shared, value: Value, done: bool, w': World)
    requires Leaves(w, h, done) && w' == Popped(w, h, value, done)
    ensures Valid(w')
  {
    var n, t := |w.works| - 1, |TopWork(w).stack| - 1;
    if t == 0 {
      PoppedLast(w, h, value, done, w');
    } else {
      var group := {TopWork(w).stack[t - 1].helper} + (if TopFrame(w).activation.entered then {TopFrame(w).helper}
                                                       else {});
      assert WorkAt(w, n);
      PoppedInner(w, h, value, done, w', group);
      FirstPopped(TopWork(w), TopWork(w'));
      assert TopWork(w').stack[..t - 1] == TopWork(w).stack[..t - 1];
      assert WorkAt(w', n);
      TopMoves(w, w', group, t - 1, n);
    }
  }

  // ---------------------------------------------------------------- kinds of steps

  ghost predicate Ready(w: World) {
    Valid(w) && |w.works| > 0 && TopWork(w).pending.None?
  }

  lemma TopFacts(w: World)
    requires Valid(w) && |w.works| > 0
    ensures |TopWork(w).stack| > 0 && TopFrame(w).helper < |w.helpers| && WorkShape(TopWork(w))
            && |w.holders| == |w.helpers|
    ensures FrameOk(w, |w.works| - 1, |TopWork(w).stack| - 1, TopFrame(w), true, TopWork(w).left)
    ensures TopFrame(w).activation.entered ==> Running(w)
    ensures TopWork(w).pending.Some? ==>
      Running(w) && PendingOk(w.helpers[TopFrame(w).helper], TopFrame(w).activation, TopWork(w).pending.value)
  {
    var n := |w.works| - 1;
    assert WorkAt(w, n);
    assert FrameAt(w, n, |TopWork(w).stack| - 1);
  }

  /** The topmost activation goes on by itself, and takes in what has been reported to it. */
  lemma ContinueKeeps(w: World, s: Step<Target, nat>, w': World)
    requires Ready(w) && Running(w) && !Waits(s.activation) && s.activation.entered
    requires (var f := TopFrame(w); var h := w.helpers[f.helper];
              && Advances(h, s.helper) && PhaseOk(s.helper, s.activation)
              && TakesIn(h, f.activation, TopWork(w).left, s)
              && (Settled(f.activation) ==> Settled(s.activation)))
    requires (var a := TopFrame(w).activation;
              var b := if Waits(a) && TopWork(w).left.failed then SetError(a, TopWork(w).left.error) else a;
              s.activation.failed == b.failed && s.activation.error == b.error)
    requires w' == Moved(w, s.helper, s.activation, w.log, w.owners, None, TopWork(w).raised)
    ensures Valid(w')
  {
    TopFacts(w);
    var g := TopFrame(w).helper;
    var h := w.helpers[g];
    if Flipped(h, s.helper) == Unset {
      QuietKeeps(w.log, w.owners, |w.helpers|, g, h, s.helper, TopKnown(w));
    } else {
      TakenInKeeps(w.log, w.owners, |w.helpers|, g, h, s.helper);
    }
    LogOfOne(w, g, s.helper, w.log, Known(s.helper, s.activation, true, TopWork(w).left));
    FirstGoesOn(TopWork(w), TopWork(w'), Frame(g, s.activation));
    MovedKeeps(w, s.helper, s.activation, w.log, w.owners, None, TopWork(w).raised, w');
  }

  /** What an error does to the books: foreign code that fails in a step of a record has ended it. */
  lemma FailBooks(w: World, request: Action, error: Error, s: Step<Target, nat>, log': seq<Event>)
    requires Ready(w) && Running(w) && !Waits(TopFrame(w).activation)
    requires (var f := TopFrame(w); var h := w.helpers[f.helper];
              && (PendingOk(h, f.activation, request)
                  || (request == Continue && f.activation.phase.GotResult? && f.activation.result.NonObject?))
              && s == FailCurrent(h, f.activation, error)
              && log' == w.log +
                   if request == Ask || request == Inspect then [Ended(Current(h, f.activation).number)] else [])
    ensures NewBooks(w, TopFrame(w).helper, s.helper, log', w.owners, None)
    ensures !Settled(s.activation) ==> !Sealed(log', w.owners, TopFrame(w).helper)
  {
    TopFacts(w);
    var g, a := TopFrame(w).helper, TopFrame(w).activation;
    var h := w.helpers[g];
    FailAdvances(h, a, request, error, s);
    if request == Ask || request == Inspect {
      ReportKeeps(w.log, w.owners, |w.helpers|, g, h, RoleOf(a));
      TakenInKeeps(log', w.owners, |w.helpers|, g, h, s.helper);
    } else {
      assert log' == w.log;
      if Flipped(h, s.helper) == Unset {
        QuietKeeps(w.log, w.owners, |w.helpers|, g, h, s.helper, TopKnown(w));
      } else {
        TakenInKeeps(w.log, w.owners, |w.helpers|, g, h, s.helper);
      }
    }
    LogOfOne(w, g, s.helper, log', None);
  }

  /** The topmost activation meets an error. */
  lemma FailKeeps(w: World, request: Action, error: Error, s: Step<Target, nat>, log': seq<Event>, w': World)
    requires Ready(w) && Running(w) && !Waits(TopFrame(w).activation)
    requires (var f := TopFrame(w); var h := w.helpers[f.helper];
              && (PendingOk(h, f.activation, request)
                  || (request == Continue && f.activation.phase.GotResult? && f.activation.result.NonObject?))
              && s == FailCurrent(h, f.activation, error)
              && log' == w.log +
                   if request == Ask || request == Inspect then [Ended(Current(h, f.activation).number)] else [])
    requires w' == Moved(w, s.helper, s.activation, log', w.owners, None, TopWork(w).raised + [error])
    ensures Valid(w') && s.activation.phase.Closing?
    ensures TopFrame(w).activation.phase.Calling? ==>
      s.helper == w.helpers[TopFrame(w).helper] && s.activation.closeIndex == 0
  {
    TopFacts(w);
    var g := TopFrame(w).helper;
    FailBooks(w, request, error, s, log');
    FailAdvances(w.helpers[g], TopFrame(w).activation, request, error, s);
    FirstRaised(TopWork(w), TopWork(w'), Frame(g, s.activation), error);
    MovedKeeps(w, s.helper, s.activation, log', w.owners, None, TopWork(w').raised, w');
  }

  /** The answer of `next` has come: an object that is still to be read, or something that ends the record. */
  lemma ResultKeeps(w: World, isObject: bool, a': Activation, log': seq<Event>, w': World)
    requires Ready(w) && Running(w) && PendingOk(w.helpers[TopFrame(w).helper], TopFrame(w).activation, Ask)
    requires a' == TopFrame(w).activation.(result := if isObject then Opaque else NonObject, phase := GotResult)
    requires log' ==
      w.log + if isObject then [] else [Ended(Current(w.helpers[TopFrame(w).helper], TopFrame(w).activation).number)]
    requires w' == Moved(w, w.helpers[TopFrame(w).helper], a', log', w.owners, None, TopWork(w).raised)
    ensures Valid(w')
  {
    TopFacts(w);
    var g, a := TopFrame(w).helper, TopFrame(w).activation;
    var h := w.helpers[g];
    if isObject {
      assert log' == w.log;
    } else {
      ReportKeeps(w.log, w.owners, |w.helpers|, g, h, RoleOf(a));
    }
    LogOfOne(w, g, h, log', Known(h, a', true, TopWork(w).left));
    FirstGoesOn(TopWork(w), TopWork(w'), Frame(g, a'));
    MovedKeeps(w, h, a', log', w.owners, None, TopWork(w).raised, w');
  }

  /** A result has been read: an item, or the end of the record. */
  lemma InspectKeeps(w: World, value: Value, done: bool, s: Step<Target, nat>, log': seq<Event>, w': World)
    requires Ready(w) && Running(w) && PendingOk(w.helpers[TopFrame(w).helper], TopFrame(w).activation, Inspect)
    requires s == TakeResult(w.helpers[TopFrame(w).helper], TopFrame(w).activation, value, done) && s.action == Continue
    requires log' ==
      w.log + if done then [Ended(Current(w.helpers[TopFrame(w).helper], TopFrame(w).activation).number)] else []
    requires w' == Moved(w, s.helper, s.activation, log', w.owners, None, TopWork(w).raised)
    ensures Valid(w')
  {
    TopFacts(w);
    var g, a := TopFrame(w).helper, TopFrame(w).activation;
    var h := w.helpers[g];
    ResultAdvances(h, a, value, done, s);
    ResultErrors(h, a, value, done, s);
    if done {
      ReportKeeps(w.log, w.owners, |w.helpers|, g, h, RoleOf(a));
      TakenInKeeps(log', w.owners, |w.helpers|, g, h, s.helper);
    } else {
      assert log' == w.log;
      QuietKeeps(w.log, w.owners, |w.helpers|, g, h, s.helper, None);
    }
    LogOfOne(w, g, s.helper, log', None);
    FirstGoesOn(TopWork(w), TopWork(w'), Frame(g, s.activation));
    MovedKeeps(w, s.helper, s.activation, log', w.owners, None, TopWork(w).raised, w');
  }

  /** The helper begins to execute. */
  function Begun(w: World, s: Step<Target, nat>): (r: World)
    requires |w.works| > 0 && |TopWork(w).stack| > 0 && TopFrame(w).helper < |w.helpers| == |w.holders|
  {
    Moved(w, s.helper, s.activation, w.log, w.owners, None, TopWork(w).raised)
    .(holders := w.holders[TopFrame(w).helper := Place(|w.works| - 1, |TopWork(w).stack| - 1)])
  }

  lemma BegunBooks(w: World, g: nat, h': Shared)
    requires Valid(w) && g < |w.helpers| && !w.helpers[g].state.Executing? && !w.helpers[g].state.Completed?
             && h' == w.helpers[g].(state := Executing)
    ensures NewBooks(w, g, h', w.log, w.owners, None) && !Sealed(w.log, w.owners, g)
  {
    assert HelperAt(w, g);
    var h := w.helpers[g];
    forall n | 0 <= n < |w.owners| && w.owners[n].helper == g
      ensures Held(h', w.owners[n].role, n) <==> Held(h, w.owners[n].role, n)
    {
    }
    LogOfOne(w, g, h', w.log, None);
  }

  lemma BegunKeeps(w: World, left: Left, s: Step<Target, nat>, w': World)
    requires Ready(w) && |TopWork(w).stack| > 0 && TopFrame(w).helper < |w.helpers| == |w.holders|
             && TopFrame(w).activation.phase.Starting?
    requires s == Iteration(w.helpers[TopFrame(w).helper], TopFrame(w).activation, left) && s.action == Continue
             && w' == Begun(w, s)
    ensures Valid(w')
  {
    TopFacts(w);
    var n, t, f := |w.works| - 1, |TopWork(w).stack| - 1, TopFrame(w);
    var g := f.helper;
    assert HelperAt(w, g);
    BegunBooks(w, g, s.helper);
    LevelIsAlone(w, t);
    BooksElsewhere(w, w', g, None);
    FirstGoesOn(TopWork(w), TopWork(w'), Frame(g, s.activation));
    assert TopWork(w').stack[..t] == TopWork(w).stack[..t];
    assert FrameAt(w', n, t) && WorkAt(w', n) && HelperAt(w', g);
    TopMoves(w, w', {g}, t, n);
  }

  /** A call of a helper that is executing fails before it begins. */
  lemma RefusedKeeps(w: World, error: Error, s: Step<Target, nat>, w': World)
    requires Ready(w) && |TopWork(w).stack| > 0 && TopFrame(w).helper < |w.helpers|
             && TopFrame(w).activation.phase.Starting?
    requires s == FailCurrent(w.helpers[TopFrame(w).helper], TopFrame(w).activation, error)
    requires w' == Moved(w, s.helper, s.activation, w.log, w.owners, None, TopWork(w).raised + [error])
    ensures Valid(w') && w'.helpers == w.helpers
  {
    TopFacts(w);
    var n, t, f := |w.works| - 1, |TopWork(w).stack| - 1, TopFrame(w);
    FirstRaised(TopWork(w), TopWork(w'), Frame(f.helper, s.activation), error);
    assert TopWork(w').stack[..t] == TopWork(w).stack[..t];
    assert FrameAt(w', n, t) && WorkAt(w', n);
    SameElsewhere(w, w');
    TopMoves(w, w', {}, t, n);
  }

  /** The current record is asked for its next result. */
  lemma AskKeeps(w: World, h: Shared, s: Step<Target, nat>, pending: Option<Action>, w': World)
    requires Ready(w) && Running(w) && h == w.helpers[TopFrame(w).helper] && TopFrame(w).activation.phase.Stepping?
    requires s == StepAsk(h, TopFrame(w).activation) && s.action == Ask && (pending == None || pending == Some(Ask))
    requires w' == Moved(w, s.helper, s.activation, w.log + [Asked(Current(s.helper, s.activation).number)], w.owners,
                         pending, TopWork(w).raised)
    ensures Valid(w') && Running(w') && TopFrame(w') == Frame(TopFrame(w).helper, s.activation)
            && w'.helpers[TopFrame(w).helper] == s.helper
    ensures PhaseOk(s.helper, s.activation.(phase := AwaitStep)) && !Sealed(w'.log, w'.owners, TopFrame(w').helper)
            && TopKnown(w') == None
    ensures RecordOk(Current(s.helper, s.activation), w.owners, |w.helpers|,
                     Owner(TopFrame(w).helper, s.activation.record))
  {
    TopFacts(w);
    var g := TopFrame(w).helper;
    AskAdvances(h, TopFrame(w).activation, s);
    AskErrors(h, TopFrame(w).activation, s);
    QuietKeeps(w.log, w.owners, |w.helpers|, g, h, s.helper, None);
    AskedKeeps(w.log, w.owners, |w.helpers|, g, s.helper, RoleOf(s.activation));
    LogOfOne(w, g, s.helper, w'.log, None);
    FirstGoesOn(TopWork(w), TopWork(w'), Frame(g, s.activation));
    MovedKeeps(w, s.helper, s.activation, w'.log, w.owners, pending, TopWork(w).raised, w');
  }

  /** Asking a record to close takes in an error that was on its way, and raises none. */
  lemma ShutShape(w: World, h: Shared, s: Step<Target, nat>, pending: Option<Action>, w': World)
    requires Ready(w) && Running(w) && h == w.helpers[TopFrame(w).helper]
    requires s == Iteration(h, TopFrame(w).activation, TopWork(w).left) && s.action.Shut?
             && (pending == None || pending == Some(s.action))
    requires w' == Moved(w, s.helper, s.activation, w.log + [Closed(NumberOf(h, s.action.which))], w.owners, pending,
                         TopWork(w).raised)
    ensures WorkShape(TopWork(w'))
  {
    TopFacts(w);
    ShutLocal(h, TopFrame(w).activation, TopWork(w).left, s);
    FirstGoesOn(TopWork(w), TopWork(w'), Frame(TopFrame(w).helper, s.activation));
  }

  /** An open record is asked to close. */
  lemma ShutKeeps(w: World, h: Shared, s: Step<Target, nat>, pending: Option<Action>, w': World)
    requires Ready(w) && Running(w) && h == w.helpers[TopFrame(w).helper]
    requires s == Iteration(h, TopFrame(w).activation, TopWork(w).left) && s.action.Shut?
             && (pending == None || pending == Some(s.action))
    requires w' == Moved(w, s.helper, s.activation, w.log + [Closed(NumberOf(h, s.action.which))], w.owners, pending,
                         TopWork(w).raised)
    ensures Valid(w') && Running(w') && TopFrame(w') == Frame(TopFrame(w).helper, s.activation)
            && w'.helpers[TopFrame(w).helper] == s.helper
    ensures PhaseOk(s.helper, s.activation.(phase := AwaitClose)) && TopKnown(w') == None
    ensures !Settled(s.activation) ==> !Sealed(w'.log, w'.owners, TopFrame(w').helper)
    ensures s.action.which != Unset
            && RecordOk(if s.action.which == Inner then h.inner
                        else h.outer, w.owners, |w.helpers|, Owner(TopFrame(w).helper, s.action.which))
    ensures (if s.action.which == Inner then s.helper.inner else s.helper.outer).done
  {
    TopFacts(w);
    var g, e := TopFrame(w).helper, Closed(NumberOf(h, s.action.which));
    ShutLocal(h, TopFrame(w).activation, TopWork(w).left, s);
    ClosedKeeps(w.log, w.owners, |w.helpers|, g, h, s.helper, e);
    LogOfOne(w, g, s.helper, w'.log, None);
    ShutShape(w, h, s, pending, w');
    MovedKeeps(w, s.helper, s.activation, w'.log, w.owners, pending, TopWork(w).raised, w');
  }

  /** A record has been opened for the topmost activation's helper. */
  lemma OpenKeeps(w: World, h: Shared, h': Shared, a': Activation, role: Which, target: Target, w': World)
    requires Ready(w) && Running(w) && !Waits(TopFrame(w).activation) && TopKnown(w) == None
    requires h == w.helpers[TopFrame(w).helper] && !Settled(TopFrame(w).activation)
             && (target.Native? ==> target.id < |w.helpers|)
    requires || (role == Outer && h.outer.done && h' == h.(outer := Record(Some(target), false, |w.owners|)))
             || (role == Inner && h.operation == FlatMap && !h.innerActive
                 && h' == h.(inner := Record(Some(target), false, |w.owners|), innerActive := true))
    requires PhaseOk(h', a') && a'.entered && a'.phase.Stepping? && a'.failed == TopFrame(w).activation.failed
             && a'.error == TopFrame(w).activation.error
    requires w' == Moved(w, h', a', w.log, w.owners + [Owner(TopFrame(w).helper, role)], None, TopWork(w).raised)
    ensures Valid(w') && Running(w')
  {
    TopFacts(w);
    var g := TopFrame(w).helper;
    OpenedKeeps(w.log, w.owners, |w.helpers|, g, h, h', role, target);
    forall x: nat | x != g ensures Unaffected(w.log, w.owners, w.log, w'.owners, x) {
      UnaffectedOpened(w.log, w.owners, Owner(g, role), x);
    }
    FirstGoesOn(TopWork(w), TopWork(w'), Frame(g, a'));
    MovedKeeps(w, h', a', w.log, w'.owners, None, TopWork(w).raised, w');
  }

  /** Code outside calls a helper. */
  lemma CallKeeps(w: World, x: nat, close: bool, w': World)
    requires Valid(w) && x < |w.helpers|
    requires w' == w.(works := w.works + [Work([Frame(x, Pushed(close))], Left(NonObject, false, 0), None, [])])
    ensures Valid(w')
  {
    forall y: nat ensures HelperAt(w', y) {
      assert HelperAt(w, y);
    }
    forall k: nat, i: nat ensures FrameAt(w', k, i) {
      assert FrameAt(w, k, i);
    }
    forall k: nat ensures WorkAt(w', k) {
      assert WorkAt(w, k);
    }
  }

  /** Code outside creates a helper: over an iterator, or over iterables that are still to be opened. */
  lemma CreateKeeps(w: World, h: Shared, w': World)
    requires Valid(w) && h.state.Start? && !h.innerActive
    requires h.outer.done
             || (h.outer.target.Some? && (h.outer.target.value.Native? ==> h.outer.target.value.id < |w.helpers|)
                 && h.outer.number == |w.owners|)
    requires w' == w.(helpers := w.helpers + [h], holders := w.holders + [Place(0, 0)],
                      owners := if h.outer.done then w.owners else w.owners + [Owner(|w.helpers|, Outer)])
    ensures Valid(w')
  {
    var o := Owner(|w.helpers|, Outer);
    LogOpened(w.log, w.owners, o);
    forall x: nat | x < |w.helpers|
      ensures Unaffected(w.log, w.owners, w.log, w'.owners, x) && w'.helpers[x] == w.helpers[x]
    {
      UnaffectedOpened(w.log, w.owners, o, x);
    }
    forall x: nat ensures HelperAt(w', x) {
      assert HelperAt(w, x);
      if x < |w.helpers| && !w.helpers[x].state.Executing? {
        BooksStay(w.log, w.owners, w.log, w'.owners, |w.helpers|, |w'.helpers|, x, w.helpers[x], None);
      }
    }
    forall k: nat, i: nat ensures FrameAt(w', k, i) {
      assert FrameAt(w, k, i);
      if Slot(w, k, i) && w.works[k].stack[i].activation.entered {
        var f := w.works[k].stack[i];
        BooksStay(w.log, w.owners, w.log, w'.owners, |w.helpers|, |w'.helpers|, f.helper, w.helpers[f.helper],
                  Known(w.helpers[f.helper], f.activation, i == |w.works[k].stack| - 1, w.works[k].left));
      }
    }
    forall k: nat ensures WorkAt(w', k) {
      assert WorkAt(w, k);
      if k < |w.works| { assert FrameAt(w, k, |w.works[k].stack| - 1); }
    }
  }

  /** Errors and waiting, across a turn that completes nothing. */
  ghost predicate ErrorsOk(a: Activation, left: Left, s: Step<Target, nat>) {
    var b := if Waits(a) && left.failed then SetError(a, left.error) else a;
    && (!s.action.Raise? && !s.action.Complete? ==> !Waits(s.activation))
    && (!s.action.Raise? ==> s.activation.failed == b.failed && s.activation.error == b.error)
    && (s.action != Continue ==> !Waits(a))
  }

  lemma AskErrors(h: Shared, a: Activation, s: Step<Target, nat>)
    requires s == StepAsk(h, a) && a.phase.Stepping?
    ensures s.activation.failed == a.failed && s.activation.error == a.error && !Waits(s.activation)
  {
  }

  lemma ResultErrors(h: Shared, a: Activation, value: Value, done: bool, s: Step<Target, nat>)
    requires s == TakeResult(h, a, value, done) && a.phase.GotResult?
    ensures s.activation.failed == a.failed && s.activation.error == a.error && !Waits(s.activation)
  {
  }

  lemma TurnErrors(h: Shared, a: Activation, left: Left, s: Step<Target, nat>)
    requires s == Iteration(h, a, left) && a.entered && !a.phase.Starting?
    ensures ErrorsOk(a, left, s)
  {
    if a.phase.Stepping? {
      AskErrors(h, a, StepAsk(h, a));
    } else if a.phase.GotResult? {
      if a.result.Plain? { ResultErrors(h, a, a.result.value, a.result.done, s); }
    } else {
      OtherErrors(h, a, left, s);
    }
  }

  lemma OtherErrors(h: Shared, a: Activation, left: Left, s: Step<Target, nat>)
    requires s == Iteration(h, a, left) && a.entered && !a.phase.Starting? && !a.phase.Stepping? && !a.phase.GotResult?
    ensures ErrorsOk(a, left, s)
  {
  }

  /** A request to foreign code is made. */
  lemma PendKeeps(w: World, s: Step<Target, nat>, w': World)
    requires Ready(w) && Running(w)
    requires s == Iteration(w.helpers[TopFrame(w).helper], TopFrame(w).activation, TopWork(w).left)
             && s.action in {Open, Inspect, Invoke}
    requires w' == Moved(w, s.helper, s.activation, w.log, w.owners, Some(s.action), TopWork(w).raised)
    ensures Valid(w')
  {
    TopFacts(w);
    var g, h, a := TopFrame(w).helper, w.helpers[TopFrame(w).helper], TopFrame(w).activation;
    TurnAdvances(h, a, TopWork(w).left, s);
    TurnErrors(h, a, TopWork(w).left, s);
    QuietKeeps(w.log, w.owners, |w.helpers|, g, h, s.helper, TopKnown(w));
    LogOfOne(w, g, s.helper, w.log, Known(s.helper, s.activation, true, TopWork(w).left));
    FirstGoesOn(TopWork(w), TopWork(w'), Frame(g, s.activation));
    MovedKeeps(w, s.helper, s.activation, w.log, w.owners, Some(s.action), TopWork(w).raised, w');
  }

  /** Asking or closing a record whose iterator is a helper calls that helper. */
  lemma AskHelperKeeps(w: World, s: Step<Target, nat>, log: seq<Event>, x: nat, w': World)
    requires Ready(w) && Running(w) && TopFrame(w).activation.phase.Stepping?
    requires s == StepAsk(w.helpers[TopFrame(w).helper], TopFrame(w).activation) && s.action == Ask
    requires Current(s.helper, s.activation).target == Some(Native(x))
             && log == w.log + [Asked(Current(s.helper, s.activation).number)]
    requires w' == Descended(Moved(w, s.helper, s.activation, log, w.owners, None, TopWork(w).raised),
                             s.activation.(phase := AwaitStep), x, false)
    ensures Valid(w')
  {
    var w1 := Moved(w, s.helper, s.activation, log, w.owners, None, TopWork(w).raised);
    AskKeeps(w, w.helpers[TopFrame(w).helper], s, None, w1);
    AskAdvances(w.helpers[TopFrame(w).helper], TopFrame(w).activation, s) by { TopFacts(w); }
    DescendedKeeps(w1, s.activation.(phase := AwaitStep), x, false, w');
  }

  lemma ShutHelperKeeps(w: World, h: Shared, s: Step<Target, nat>, log: seq<Event>, x: nat, w': World)
    requires Ready(w) && Running(w)
    requires h == w.helpers[TopFrame(w).helper] && s == Iteration(h, TopFrame(w).activation, TopWork(w).left)
             && s.action.Shut?
    requires (if s.action.which == Inner then h.inner else h.outer).target == Some(Native(x))
    requires log == w.log + [Closed(NumberOf(h, s.action.which))]
    requires w' == Descended(Moved(w, s.helper, s.activation, log, w.owners, None, TopWork(w).raised),
                             s.activation.(phase := AwaitClose), x, true)
    ensures Valid(w')
  {
    TopFacts(w);
    var w1 := Moved(w, s.helper, s.activation, log, w.owners, None, TopWork(w).raised);
    ShutKeeps(w, h, s, None, w1);
    ShutLocal(h, TopFrame(w).activation, TopWork(w).left, s);
    DescendedKeeps(w1, s.activation.(phase := AwaitClose), x, true, w');
  }

  /** The request has been answered. */
  function Answered(w: World): (r: World)
    requires |w.works| > 0
  {
    w.(works := w.works[|w.works| - 1 := TopWork(w).(pending := None)])
  }

  lemma AnsweredKeeps(w: World, w': World)
    requires Valid(w) && |w.works| > 0 && w' == Answered(w)
    ensures Ready(w') && TopWork(w') == TopWork(w).(pending := None)
  {
    TopFacts(w);
    var n, t := |w.works| - 1, |TopWork(w).stack| - 1;
    assert FrameAt(w, n, t) && WorkAt(w, n);
    assert FrameAt(w', n, t) && WorkAt(w', n);
    SameElsewhere(w, w');
    TopMoves(w, w', {}, t, n);
  }
}
