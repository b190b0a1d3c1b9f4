/** A call with no request left: its body may start, it becomes complete, and its component may close. */
module ModuleWalkFinish {
  import opened Options
  import opened ModuleRequests
  import opened ModuleState
  import opened ModuleWalk
  import opened ModuleWalkSteps

  /** The innermost call has looked back at all its requests. */
  ghost predicate Exhausted(p: seq<Definition>, k: Walk) {
    |k.frames| > 0 && Top(k).entered && !Top(k).waiting && Top(k).m < |p| && Top(k).next == |p[Top(k).m].requests|
  }

  /** With a zero count nothing holds the innermost call back. */
  lemma TopUnregistered(p: seq<Definition>, w: World, u: nat, y: nat)
    requires |w.rs| == |p| && RegistrationsOk(w) && WalkCounts(w)
    requires u < |p| && w.rs[u].status == Evaluating && w.rs[u].pending == 0 && y < |p|
    ensures u !in w.rs[y].asyncParents
  {
    RegistrationsZero(w.rs, Active(w.rs), u, |w.rs|);
    assert u in w.rs[y].asyncParents ==> RegistrationOk(w, y, u);
  }

  /** So its body may start: everything below each request that leaves its component has finished. */
  lemma TopReady(p: seq<Definition>, w: World, k: Walk)
    requires Settled(p, w) && StackOk(p, w, k) && FramesOk(p, w, k) && EdgesOk(p, w, k) && ReachOk(p, w, k)
             && LowStrict(w, k) && WalkCounts(w)
    requires Exhausted(p, k) && w.rs[Top(k).m].pending == 0
    ensures Ready(p, Top(k).m, w.finished)
  {
    var u := Top(k).m;
    assert FrameOk(p, w, k, |k.frames| - 1) && FrameEdgesOk(p, w, k, k.frames[|k.frames| - 1]);
    forall r, x | r in p[u].requests && !SameComponent(p, u, r) && Reaches(p, r, x)
      ensures x in w.finished
    {
      var j :| 0 <= j < |p[u].requests| && p[u].requests[j] == r;
      assert EdgeOk(w, k, u, p[u].requests[j]);
      RequestDone(p, w, k, r, x);
    }
  }

  lemma RequestDone(p: seq<Definition>, w: World, k: Walk, r: nat, x: nat)
    requires Settled(p, w) && StackOk(p, w, k) && FramesOk(p, w, k) && ReachOk(p, w, k) && LowStrict(w, k)
             && WalkCounts(w)
    requires |k.frames| > 0 && Top(k).entered && w.rs[Top(k).m].pending == 0
    requires r in p[Top(k).m].requests && EdgeOk(w, k, Top(k).m, r)
    requires !SameComponent(p, Top(k).m, r) && Reaches(p, r, x)
    ensures x in w.finished
  {
    var u := Top(k).m;
    assert FrameOk(p, w, k, |k.frames| - 1);
    ReachesRequest(p, u, r);
    if w.rs[r].status == Evaluating {
      OpenReachesTop(p, w, k, r);
      assert false;
    }
    TopUnregistered(p, w, u, w.rs[r].cycleRoot);
    BelowFinishedRoot(p, w, r, x);
  }

  // -------------------------------------------------------------- completion

  /** A body that the walk ran to completion. */
  function RanWorld(w: World, u: nat): (w': World) {
    w.(started := w.started + {u}, finished := w.finished + {u})
  }

  /** A module that goes on asynchronously; its body starts now when nothing is pending. */
  function AwaitingWorld(w: World, u: nat): (w': World)
    requires u < |w.rs|
  {
    Put(w, u, w.rs[u].(asyncActive := true, asyncOrder := w.clock))
    .(clock := w.clock + 1,
      started := if w.rs[u].pending == 0 then w.started + {u} else w.started,
      inFlight := if w.rs[u].pending == 0 then w.inFlight + {u} else w.inFlight)
  }

  /** A body that was started and threw at once. */
  function ThrewWorld(w: World, u: nat, hasTla: bool): (w': World)
    requires u < |w.rs|
  {
    if hasTla then AwaitingWorld(w, u).(inFlight := w.inFlight) else w.(started := w.started + {u})
  }

  /** What the innermost call u can come to once it has no request left. */
  ghost predicate Completes(w: World, w': World, u: nat) {
    && u < |w.rs| && w.rs[u].status == Evaluating && !w.rs[u].asyncActive && w.rs[u].asyncParents == []
    && u !in w.started && u !in w.popped
    && (|| w' == AwaitingWorld(w, u)
        || (w.rs[u].pending == 0
            && (w' == RanWorld(w, u) || w' == ThrewWorld(w, u, true) || w' == ThrewWorld(w, u, false))))
  }

  lemma CompleteRecords(p: seq<Definition>, w: World, w': World, u: nat)
    requires Shape(p, w) && Statuses(w) && RegistrationsOk(w) && WalkCounts(w) && Completes(w, w', u)
    ensures Shape(p, w') && Statuses(w') && RegistrationsOk(w')
  {
    forall m | 0 <= m < |w'.rs| ensures RecordOk(w', m) { assert RecordOk(w, m); }
    forall y, q | 0 <= y < |w'.rs| && q in w'.rs[y].asyncParents ensures RegistrationOk(w', y, q) {
      CompleteRegistration(p, w, w', u, y, q);
    }
  }

  lemma CompleteRegistration(p: seq<Definition>, w: World, w': World, u: nat, y: nat, q: nat)
    requires |w.rs| == |p| && RegistrationsOk(w) && WalkCounts(w) && Completes(w, w', u)
    requires y < |w.rs| && q in w.rs[y].asyncParents
    ensures RegistrationOk(w', y, q)
  {
    assert RegistrationOk(w, y, q);
    if w.rs[u].pending == 0 {
      TopUnregistered(p, w, u, y);
    }
  }

  lemma CompleteLinks(w: World, w': World, u: nat)
    requires Completes(w, w', u)
    ensures KeepsLinks(w, w')
  {
  }

  lemma CompleteCount(w: World, w': World, u: nat, q: nat)
    requires Completes(w, w', u)
    ensures Registrations(w'.rs, Active(w'.rs), q, |w'.rs|) == Registrations(w.rs, Active(w.rs), q, |w.rs|)
  {
    RegistrationsSame(w.rs, Active(w.rs), w'.rs, Active(w'.rs), q, |w.rs|);
  }

  lemma CompleteCounts(w: World, w': World, u: nat)
    requires Completes(w, w', u) && WalkCounts(w) && PendingCounts(w, Active(w.rs)) && ZeroMeansRunning(w, {})
    ensures WalkCounts(w') && PendingCounts(w', Active(w'.rs)) && ZeroMeansRunning(w', {})
  {
    forall m: nat | m < |w'.rs| && w'.rs[m].status == Evaluating
      ensures w'.rs[m].pending == Registrations(w'.rs, Active(w'.rs), m, |w'.rs|)
    {
      CompleteCount(w, w', u, m);
    }
    forall m: nat | Live(w', m)
      ensures Live(w, m) && w'.rs[m].pending == w.rs[m].pending == Registrations(w'.rs, Active(w'.rs), m, |w'.rs|)
    {
      CompleteCount(w, w', u, m);
    }
  }

  lemma CompleteSettled(p: seq<Definition>, w: World, w': World, u: nat)
    requires Settled(p, w) && WalkCounts(w) && Completes(w, w', u)
    ensures Settled(p, w') && WalkCounts(w')
  {
    CompleteRecords(p, w, w', u);
    CompleteLinks(w, w', u);
    LinksKept(p, w, w');
    CompleteCounts(w, w', u);
  }

  lemma CompleteFields(w: World, w': World, u: nat)
    requires Completes(w, w', u)
    ensures SameShape(w, w') && SameOutcomes(w, w')
  {
  }

  lemma CompleteEdges(p: seq<Definition>, w: World, w': World, k: Walk, u: nat)
    requires Shape(p, w) && EdgesOk(p, w, k) && Completes(w, w', u)
    ensures EdgesOk(p, w', k)
  {
    forall v, x: nat | 0 <= v < |p| && EdgeOk(w, k, v, x) ensures EdgeOk(w', k, v, x) {}
    forall i | 0 <= i < |k.frames| && k.frames[i].entered ensures FrameEdgesOk(p, w', k, k.frames[i]) {
      assert FrameEdgesOk(p, w, k, k.frames[i]);
    }
    forall y: nat | Black(w', k, y) ensures BlackEdgesOk(p, w', k, y) {
      assert Black(w, k, y) && BlackEdgesOk(p, w, k, y);
    }
  }

  /** The waits of everything but the innermost call u, which is complete. */
  ghost predicate DoneWaits(p: seq<Definition>, w: World, k: Walk, u: nat)
    requires |w.rs| == |p| == |w.via|
  {
    && u < |p|
    && (if w.rs[u].asyncActive then (w.rs[u].pending == 0 ==> u in w.started) && (u in w.started ==> u in w.inFlight)
        else u in w.finished)
    && w.rs[u].asyncParents == []
    && (forall m: nat :: m < |p| && Gray(k, m) && m != u ==> GrayWaits(w, m))
    && (forall y: nat :: Black(w, k, y) ==> BlackWaits(p, w, k, y))
    && (forall y, q: nat :: 0 <= y < |p| && w.rs[y].status == Evaluating && q in w.rs[y].asyncParents && q < |p| ==>
          NestedIn(w, k, q, y))
  }

  lemma CompleteWaits(p: seq<Definition>, w: World, w': World, k: Walk, u: nat)
    requires Shape(p, w) && WaitsOk(p, w, k) && Completes(w, w', u) && Gray(k, u)
    requires w' == RanWorld(w, u) || w' == AwaitingWorld(w, u)
    ensures DoneWaits(p, w', k, u)
  {
    forall m: nat | m < |p| && Gray(k, m) && m != u ensures GrayWaits(w', m) { assert GrayWaits(w, m); }
    forall y: nat | Black(w', k, y) ensures BlackWaits(p, w', k, y) {
      assert Black(w, k, y) && BlackWaits(p, w, k, y);
    }
    forall y, q: nat | 0 <= y < |p| && w'.rs[y].status == Evaluating && q in w'.rs[y].asyncParents && q < |p|
      ensures NestedIn(w', k, q, y)
    {
      assert NestedIn(w, k, q, y);
    }
  }

  /** The walk's invariant with the innermost call complete but not yet left. */
  ghost predicate DoneOk(p: seq<Definition>, w: World, k: Walk, root: nat) {
    && Settled(p, w) && Exhausted(p, k)
    && StackOk(p, w, k) && FramesOk(p, w, k) && EdgesOk(p, w, k) && ReachOk(p, w, k)
    && LowStrict(w, k) && LowCover(p, w, k) && DoneWaits(p, w, k, Top(k).m) && WalkCounts(w)
    && WalkCapabilities(w, root)
    && k.frames[0].m == root
  }

  lemma CompleteKeeps(p: seq<Definition>, w: World, w': World, k: Walk, root: nat)
    requires WalkOk(p, w, k, root) && Exhausted(p, k)
    requires (w' == RanWorld(w, Top(k).m) && w.rs[Top(k).m].pending == 0) || w' == AwaitingWorld(w, Top(k).m)
    ensures DoneOk(p, w', k, root)
  {
    var u := Top(k).m;
    assert FrameOk(p, w, k, |k.frames| - 1);
    assert Gray(k, u) && GrayWaits(w, u) && RecordOk(w, u);
    CompleteSettled(p, w, w', u);
    CompleteEdges(p, w, w', k, u);
    CompleteWaits(p, w, w', k, u);
    CompleteFields(w, w', u);
    SameShapeStack(p, w, w', k);
    SameShapeReach(p, w, w', k);
    SameShapeLow(p, w, w', k);
    SameCapabilities(w, w', root);
  }

  // ------------------------------------------------------------ the walk fails

  function Settle(t: Option<Promise>, outcome: Promise): (t': Option<Promise>) {
    if t == Some(Pending) then Some(outcome) else t
  }

  function FailedRecord(r: Record, error: Value): (r': Record) {
    r.(status := Evaluated, asyncActive := false, hasError := true, error := error,
       topLevel := Settle(r.topLevel, Rejected(error)))
  }

  /** Every module on the stack fails together. */
  ghost predicate Aborts(w: World, w': World, error: Value) {
    && |w'.rs| == |w.rs| && w' == w.(rs := w'.rs)
    && forall y :: 0 <= y < |w.rs| ==>
         w'.rs[y] == if w.rs[y].status == Evaluating then FailedRecord(w.rs[y], error) else w.rs[y]
  }

  lemma AbortRecords(p: seq<Definition>, w: World, w': World, error: Value)
    requires Shape(p, w) && Statuses(w) && RegistrationsOk(w) && Aborts(w, w', error)
    ensures Shape(p, w') && Statuses(w') && RegistrationsOk(w')
  {
    forall m | 0 <= m < |w'.rs| ensures RecordOk(w', m) { assert RecordOk(w, m); }
    forall y, q | 0 <= y < |w'.rs| && q in w'.rs[y].asyncParents ensures RegistrationOk(w', y, q) {
      assert RegistrationOk(w, y, q) && RecordOk(w, q);
    }
  }

  lemma AbortCounts(p: seq<Definition>, w: World, w': World, error: Value)
    requires Shape(p, w) && Statuses(w) && RegistrationsOk(w) && Components(p, w) && PendingCounts(w, Active(w.rs))
             && ZeroMeansRunning(w, {}) && Aborts(w, w', error)
    ensures PendingCounts(w', Active(w'.rs)) && ZeroMeansRunning(w', {})
  {
    forall m: nat | Live(w', m)
      ensures Live(w, m) && w'.rs[m] == w.rs[m] && w'.rs[m].pending == Registrations(w'.rs, Active(w'.rs), m, |w'.rs|)
    {
      assert RecordOk(w, m) && RecordOk(w, w.rs[m].cycleRoot);
      forall y | 0 <= y < |w.rs|
        ensures y in Active(w.rs) && m in w.rs[y].asyncParents <==> y in Active(w'.rs) && m in w'.rs[y].asyncParents
      {
        assert m in w.rs[y].asyncParents ==> RegistrationOk(w, y, m);
      }
      RegistrationsSame(w.rs, Active(w.rs), w'.rs, Active(w'.rs), m, |w.rs|);
    }
  }

  /** A synchronous error leaves a stable graph in which the failed modules, and no others, carry it. */
  lemma AbortKeeps(p: seq<Definition>, w: World, w': World, error: Value, root: nat)
    requires Settled(p, w) && WalkCapabilities(w, root) && w.rs[root].status == Evaluating && Aborts(w, w', error)
    ensures Stable(p, w') && w'.rs[root].topLevel == Some(Rejected(error))
  {
    AbortRecords(p, w, w', error);
    assert KeepsLinks(w, w');
    LinksKept(p, w, w');
    AbortCounts(p, w, w', error);
    AbortCapabilities(w, w', error, root);
  }

  lemma AbortCapabilities(w: World, w': World, error: Value, root: nat)
    requires Statuses(w) && WalkCapabilities(w, root) && w.rs[root].status == Evaluating && Aborts(w, w', error)
    ensures Capabilities(w') && Quiet(w')
  {
  }

  lemma ThrowKeeps(p: seq<Definition>, w: World, w': World, k: Walk, root: nat, hasTla: bool)
    requires WalkOk(p, w, k, root) && Exhausted(p, k) && w.rs[Top(k).m].pending == 0
             && w' == ThrewWorld(w, Top(k).m, hasTla)
    ensures Settled(p, w') && WalkCapabilities(w', root) && SameShape(w, w')
  {
    var u := Top(k).m;
    assert FrameOk(p, w, k, |k.frames| - 1);
    assert Gray(k, u) && GrayWaits(w, u) && RecordOk(w, u);
    CompleteSettled(p, w, w', u);
    CompleteFields(w, w', u);
    SameCapabilities(w, w', root);
  }

  // ------------------------------------------------------------- the walk ends

  function EndedWorld(w: World, root: nat): (w': World)
    requires root < |w.rs|
  {
    if w.rs[root].asyncActive then w else Put(w, root, w.rs[root].(topLevel := Settle(w.rs[root].topLevel, Fulfilled)))
  }

  lemma EndKeeps(p: seq<Definition>, w: World, k: Walk, root: nat)
    requires WalkOk(p, w, k, root) && k.frames == []
    ensures Stable(p, EndedWorld(w, root))
    ensures EndedWorld(w, root).rs[root].topLevel == Some(if w.rs[root].asyncActive then Pending else Fulfilled)
  {
    var w' := EndedWorld(w, root);
    assert RecordOk(w, root);
    EndSettled(p, w, w', root);
  }

  /** Worlds whose records differ at most in a capability. */
  ghost predicate OnlyCapabilities(w: World, w': World) {
    && |w'.rs| == |w.rs| && w' == w.(rs := w'.rs)
    && forall y :: 0 <= y < |w.rs| ==> w'.rs[y] == w.rs[y].(topLevel := w'.rs[y].topLevel)
  }

  /** Settling a capability touches nothing that the rest of the invariant speaks of. */
  lemma EndSettled(p: seq<Definition>, w: World, w': World, root: nat)
    requires Settled(p, w) && OnlyCapabilities(w, w')
    ensures Settled(p, w')
  {
    EndRecords(p, w, w');
    assert KeepsLinks(w, w');
    LinksKept(p, w, w');
    EndCounts(w, w');
  }

  lemma EndRecords(p: seq<Definition>, w: World, w': World)
    requires Shape(p, w) && Statuses(w) && RegistrationsOk(w) && OnlyCapabilities(w, w')
    ensures Shape(p, w') && Statuses(w') && RegistrationsOk(w')
  {
    forall m | 0 <= m < |w'.rs| ensures RecordOk(w', m) { assert RecordOk(w, m); }
    forall y, q | 0 <= y < |w'.rs| && q in w'.rs[y].asyncParents
      ensures RegistrationOk(w', y, q)
    {
      assert RegistrationOk(w, y, q);
    }
  }

  lemma EndCounts(w: World, w': World)
    requires PendingCounts(w, Active(w.rs)) && ZeroMeansRunning(w, {}) && OnlyCapabilities(w, w')
    ensures PendingCounts(w', Active(w'.rs)) && ZeroMeansRunning(w', {})
  {
    assert Active(w'.rs) == Active(w.rs);
    forall m: nat | Live(w', m)
      ensures Live(w, m) && w'.rs[m].pending == Registrations(w'.rs, Active(w'.rs), m, |w'.rs|)
    {
      RegistrationsSame(w.rs, Active(w.rs), w'.rs, Active(w'.rs), m, |w.rs|);
    }
  }
}
