/**
The invariants of the walk, sealed: each is carried as one fact that unfolds only where a
proof names it, so that the methods of the walk need not look inside.
*/
module ModuleWalkSealed {
  import opened Options
  import opened Sealing
  import opened ModuleRequests
  import opened ModuleState
  import opened ModuleWalk
  import opened ModuleWalkSteps
  import opened ModuleWalkWaits
  import opened ModuleWalkFinish
  import opened ModuleWalkClose

  ghost predicate Walking(p: seq<Definition>, w: World, k: Walk, root: nat) {
    forall b {:trigger Unfold(b)} :: Unfold(b) ==> WalkOk(p, w, k, root)
  }

  /** The invariant between calls. */
  ghost predicate Resting(p: seq<Definition>, w: World) {
    forall b {:trigger Unfold(b)} :: Unfold(b) ==> Stable(p, w)
  }

  ghost predicate Done(p: seq<Definition>, w: World, k: Walk, root: nat) {
    forall b {:trigger Unfold(b)} :: Unfold(b) ==> DoneOk(p, w, k, root)
  }

  /** An error has been raised; the stack holds exactly the modules that share it. */
  ghost predicate FailOk(p: seq<Definition>, w: World, k: Walk, root: nat) {
    Settled(p, w) && WalkCapabilities(w, root) && StackOk(p, w, k) && w.rs[root].status == Evaluating
  }

  ghost predicate Failing(p: seq<Definition>, w: World, k: Walk, root: nat) {
    forall b {:trigger Unfold(b)} :: Unfold(b) ==> FailOk(p, w, k, root)
  }

  lemma TopFacts(p: seq<Definition>, w: World, k: Walk, root: nat)
    requires Walking(p, w, k, root) && |k.frames| > 0
    ensures Closed(p) && |w.rs| == |p| == |w.via| && FrameOk(p, w, k, |k.frames| - 1)
    ensures Exhausted(p, k) <==> Top(k).entered && !Top(k).waiting && Top(k).next == |p[Top(k).m].requests|
  {
    assert Unfold(true);
  }

  lemma EnterStep(p: seq<Definition>, w: World, k: Walk, root: nat)
    requires Walking(p, w, k, root) && |k.frames| > 0
    ensures |w.rs| == |p| == |w.via| && FrameOk(p, w, k, |k.frames| - 1)
    ensures !Top(k).entered ==> Walking(p, EnteredWorld(w, k), EnteredWalk(k), root)
  {
    assert Unfold(true);
    assert FrameOk(p, w, k, |k.frames| - 1);
    if !Top(k).entered { EnterKeeps(p, w, k, root); }
  }

  /** While some call is open, so is the root. */
  lemma RootOpen(p: seq<Definition>, w: World, k: Walk, root: nat)
    requires WalkOk(p, w, k, root) && |k.frames| > 0 && Top(k).entered
    ensures w.rs[root].status == Evaluating
  {
    assert FrameOk(p, w, k, 0);
  }

  lemma LookBackFacts(p: seq<Definition>, w: World, k: Walk, root: nat)
    requires Walking(p, w, k, root) && |k.frames| > 0 && Top(k).entered
    ensures |w.rs| == |p| == |w.via| && FrameOk(p, w, k, |k.frames| - 1) && !w.rs[Top(k).m].asyncActive
    ensures Top(k).waiting ==> Requested(p, k) < |p| && w.rs[Requested(p, k)].cycleRoot < |p|
  {
    assert Unfold(true);
    assert FrameOk(p, w, k, |k.frames| - 1) && Gray(k, Top(k).m) && GrayWaits(w, Top(k).m);
  }

  lemma LowerStep(p: seq<Definition>, w: World, k: Walk, root: nat)
    requires Walking(p, w, k, root) && |k.frames| > 0 && Top(k).waiting && |w.rs| == |p|
             && FrameOk(p, w, k, |k.frames| - 1)
    ensures Walking(p, LoweredWorld(w, Top(k).m, Requested(p, k)), k, root)
  {
    assert Unfold(true);
    LowerKeeps(p, w, k, root);
  }

  lemma RegisterStep(p: seq<Definition>, w: World, k: Walk, root: nat)
    requires Walking(p, w, k, root) && |k.frames| > 0 && Top(k).waiting && |w.rs| == |p| == |w.via|
             && FrameOk(p, w, k, |k.frames| - 1)
    requires w.rs[Requested(p, k)].cycleRoot < |p| && !w.rs[Target(w, Requested(p, k))].hasError
    requires w.rs[Requested(p, k)].status == Evaluating ==>
      w.rs[Top(k).m].ancestorIndex <= w.rs[Requested(p, k)].ancestorIndex
    ensures Walking(p, RegisteredWorld(w, Top(k).m, Requested(p, k)), k, root)
  {
    assert Unfold(true);
    RegisterKeeps(p, w, k, root);
  }

  lemma ForwardStep(p: seq<Definition>, w: World, k: Walk, root: nat)
    requires Walking(p, w, k, root) && |k.frames| > 0 && Top(k).waiting
    requires Top(k).m < |p| && 0 < Top(k).next <= |p[Top(k).m].requests| && LookedBack(w, Top(k).m, Requested(p, k))
    ensures Walking(p, w, ForwardWalk(k), root)
  {
    assert Unfold(true);
    ForwardKeeps(p, w, k, root);
  }

  lemma FailStep(p: seq<Definition>, w: World, k: Walk, root: nat)
    requires Walking(p, w, k, root) && |k.frames| > 0 && Top(k).entered
    ensures Failing(p, w, ForwardWalk(k), root)
  {
    assert Unfold(true);
    RootOpen(p, w, k, root);
    ForwardFrames(p, w, k);
  }

  lemma LookBackStep(p: seq<Definition>, w: World, k: Walk, root: nat)
    requires Walking(p, w, k, root) && |k.frames| > 0 && Top(k).waiting
    requires |w.rs| == |p| == |w.via| && FrameOk(p, w, k, |k.frames| - 1) && w.rs[Requested(p, k)].cycleRoot < |p|
    requires !w.rs[Top(k).m].asyncActive
    ensures if w.rs[Target(w, Requested(p, k))].hasError
            then Failing(p, LookedWorld(w, Top(k).m, Requested(p, k)), ForwardWalk(k), root)
            else Walking(p, LookedWorld(w, Top(k).m, Requested(p, k)), ForwardWalk(k), root)
  {
    var u, r := Top(k).m, Requested(p, k);
    var w1 := LoweredWorld(w, u, r);
    LowerStep(p, w, k, root);
    if w.rs[Target(w, r)].hasError {
      FailStep(p, w1, k, root);
    } else {
      RegisterStep(p, w1, k, root);
      LookedBackHolds(w, u, r);
      ForwardStep(p, RegisteredWorld(w1, u, r), k, root);
    }
  }

  lemma NextStep(p: seq<Definition>, w: World, k: Walk, root: nat)
    requires Walking(p, w, k, root) && |k.frames| > 0 && Top(k).entered && !Top(k).waiting
    requires Top(k).m < |p| && Top(k).next < |p[Top(k).m].requests|
    ensures Closed(p) && |w.rs| == |p| && Walking(p, w, NextWalk(p, w, k), root)
  {
    assert Unfold(true);
    NextKeeps(p, w, k, root);
  }

  lemma LeaveFacts(p: seq<Definition>, w: World, k: Walk, root: nat)
    requires Walking(p, w, k, root) && Exhausted(p, k)
    ensures |w.rs| == |p| && Top(k).m !in w.started && Top(k).m !in w.finished
    ensures w.rs[Top(k).m].pending == 0 ==> Ready(p, Top(k).m, w.finished)
    ensures |k.frames| > 1 ==> k.frames[|k.frames| - 2].entered
  {
    assert Unfold(true);
    assert FrameOk(p, w, k, |k.frames| - 1);
    assert |k.frames| > 1 ==> FrameOk(p, w, k, |k.frames| - 2);
    assert Gray(k, Top(k).m) && GrayWaits(w, Top(k).m) && RecordOk(w, Top(k).m);
    if w.rs[Top(k).m].pending == 0 { TopReady(p, w, k); }
  }

  lemma LeaveStep(p: seq<Definition>, w: World, w': World, k: Walk, root: nat, threw: bool, async: bool)
    requires Walking(p, w, k, root) && Exhausted(p, k) && |w.rs| == |p|
    requires async <==> w.rs[Top(k).m].pending > 0 || p[Top(k).m].hasTla
    requires threw ==> w.rs[Top(k).m].pending == 0 && w' == ThrewWorld(w, Top(k).m, async)
    requires !threw ==> w' == if async then AwaitingWorld(w, Top(k).m) else RanWorld(w, Top(k).m)
    ensures SameShape(w, w')
    ensures threw ==> Failing(p, w', k, root)
    ensures !threw ==> Done(p, w', k, root)
  {
    assert Unfold(true);
    if threw {
      ThrowKeeps(p, w, w', k, root, async);
      SameShapeStack(p, w, w', k);
      RootOpen(p, w, k, root);
    } else {
      CompleteKeeps(p, w, w', k, root);
    }
  }

  lemma DoneFacts(p: seq<Definition>, w: World, k: Walk, root: nat)
    requires Done(p, w, k, root)
    ensures |w.rs| == |p| && Stacked(k.stack, |p|) && Exhausted(p, k) && Top(k).m in k.stack
  {
    assert Unfold(true);
    StackIsStacked(p, w, k);
    assert FrameOk(p, w, k, |k.frames| - 1);
  }

  lemma CloseStep(p: seq<Definition>, w: World, w': World, k: Walk, pos: nat, root: nat)
    requires Done(p, w, k, root) && |k.frames| > 0 && Top(k).m < |w.rs|
    requires w.rs[Top(k).m].ancestorIndex == w.rs[Top(k).m].dfsIndex
    requires PoppedTo(w.rs, w'.rs, k.stack, pos, Top(k).m)
             && w' == w.(rs := w'.rs, popped := w.popped + MemberSet(w, Top(k).m))
    requires pos < |k.stack| && k.stack[pos] == Top(k).m
    ensures Walking(p, w', ClosedWalk(k, pos), root)
    ensures forall y :: 0 <= y < |w.rs| ==> (w'.rs[y].status == Linked <==> w.rs[y].status == Linked)
  {
    assert Unfold(true);
    PoppedCloses(p, w, k, w'.rs, pos);
    assert Closes(w, w', Top(k).m);
    CloseKeeps(p, w, w', k, pos, root);
  }

  lemma StayStep(p: seq<Definition>, w: World, k: Walk, root: nat)
    requires Done(p, w, k, root) && |k.frames| > 0 && Top(k).m < |w.rs|
    requires w.rs[Top(k).m].ancestorIndex != w.rs[Top(k).m].dfsIndex
    ensures Walking(p, w, LeftWalk(k), root)
  {
    assert Unfold(true);
    LeaveKeeps(p, w, k, root);
  }

  lemma FailingFacts(p: seq<Definition>, w: World, k: Walk, root: nat)
    requires Failing(p, w, k, root)
    ensures |w.rs| == |p| && StackOk(p, w, k) && root < |p| && w.rs[root].status == Evaluating
  {
    assert Unfold(true);
  }

  lemma AbortStep(p: seq<Definition>, w: World, w': World, k: Walk, error: Value, root: nat)
    requires Failing(p, w, k, root) && Aborts(w, w', error)
    ensures Resting(p, w') && root < |w'.rs| == |p| && w'.rs[root].topLevel == Some(Rejected(error))
  {
    assert Unfold(true);
    AbortKeeps(p, w, w', error, root);
  }

  lemma EndStep(p: seq<Definition>, w: World, k: Walk, root: nat)
    requires Walking(p, w, k, root) && k.frames == []
    ensures root < |w.rs| == |p| && Resting(p, EndedWorld(w, root))
    ensures EndedWorld(w, root).rs[root].topLevel == Some(if w.rs[root].asyncActive then Pending else Fulfilled)
  {
    assert Unfold(true);
    EndKeeps(p, w, k, root);
  }
}
