/**
The depth-first walk of `tsc_module_evaluate`: its two worklists, the invariant they
keep, and why a record whose ancestor index is its own index heads exactly one
strongly connected component.
*/
module ModuleWalk {
  import opened Options
  import opened ModuleRequests
  import opened ModuleState

  datatype Frame = Frame(m: nat, next: nat, entered: bool, waiting: bool)

  /** `frames` is the call chain, `stack` the entered modules whose component is still open. */
  datatype Walk = Walk(frames: seq<Frame>, stack: seq<nat>, index: nat)

  ghost predicate StackOk(p: seq<Definition>, w: World, k: Walk)
    requires |w.rs| == |p|
  {
    && (forall i :: 0 <= i < |k.stack| ==> k.stack[i] < |p|)
    && (forall m :: m in k.stack ==> OpenOk(w, k, m))
    && (forall m: nat :: m < |p| && w.rs[m].status == Evaluating ==> m in k.stack)
    && (forall i, j :: 0 <= i < j < |k.stack| ==>
          w.rs[k.stack[i]].dfsIndex < w.rs[k.stack[j]].dfsIndex)
  }

  ghost predicate OpenOk(w: World, k: Walk, m: nat)
    requires m < |w.rs|
  {
    w.rs[m].status == Evaluating && w.rs[m].ancestorIndex <= w.rs[m].dfsIndex < k.index
  }

  ghost predicate FrameOk(p: seq<Definition>, w: World, k: Walk, i: int)
    requires |w.rs| == |p|
  {
    && 0 <= i < |k.frames|
    && var f := k.frames[i];
    && f.m < |p| && f.next <= |p[f.m].requests|
    && (f.waiting ==> f.entered && f.next > 0)
    && (f.entered ==> w.rs[f.m].status == Evaluating)
    && (!f.entered ==> i == |k.frames| - 1 && f.next == 0 && w.rs[f.m].status == Linked)
    && (i + 1 < |k.frames| ==> f.waiting && p[f.m].requests[f.next - 1] == k.frames[i + 1].m)
    && (i + 1 == |k.frames| && f.waiting ==>
          p[f.m].requests[f.next - 1] < |p| && w.rs[p[f.m].requests[f.next - 1]].status != Linked)
  }

  ghost predicate FramesOk(p: seq<Definition>, w: World, k: Walk)
    requires |w.rs| == |p|
  {
    && (forall i :: 0 <= i < |k.frames| ==> k.frames[i].m < |p|)
    && (forall i :: 0 <= i < |k.frames| ==> FrameOk(p, w, k, i))
    && (forall i, j :: 0 <= i < j < |k.frames| ==>
          (k.frames[j].entered ==> w.rs[k.frames[i].m].dfsIndex < w.rs[k.frames[j].m].dfsIndex))
    && (k.stack != [] ==> k.frames != [] && k.frames[0].entered && k.frames[0].m == k.stack[0])
  }

  ghost predicate Gray(k: Walk, m: nat) {
    exists i :: 0 <= i < |k.frames| && k.frames[i].entered && k.frames[i].m == m
  }

  /** Entered and completed, with its component still open. */
  ghost predicate Black(w: World, k: Walk, m: nat) {
    m < |w.rs| && w.rs[m].status == Evaluating && !Gray(k, m)
  }

  /** y was entered before every open call that u was completed before. */
  ghost predicate NestedIn(w: World, k: Walk, u: nat, y: nat)
    requires u < |w.rs| && y < |w.rs|
  {
    forall g: nat :: Gray(k, g) && g < |w.rs| && w.rs[u].dfsIndex < w.rs[g].dfsIndex ==>
      w.rs[y].dfsIndex < w.rs[g].dfsIndex
  }

  /** What u has learned from looking back at its request r. */
  ghost predicate EdgeOk(w: World, k: Walk, u: nat, r: nat)
    requires u < |w.rs|
  {
    && r < |w.rs|
    && (w.rs[r].status == Evaluating ==> w.rs[u].ancestorIndex <= w.rs[r].dfsIndex && NestedIn(w, k, u, r))
    && (w.rs[r].status != Evaluating ==> r in w.popped && w.rs[r].cycleRoot < |w.rs| && Served(w, u, w.rs[r].cycleRoot))
  }

  /** How many requests of an open call have been looked back at. */
  ghost function Looked(f: Frame): int {
    if f.waiting then f.next - 1 else f.next
  }

  ghost predicate FrameEdgesOk(p: seq<Definition>, w: World, k: Walk, f: Frame)
    requires |w.rs| == |p|
  {
    f.m < |p| && forall j :: 0 <= j < Looked(f) && j < |p[f.m].requests| ==> EdgeOk(w, k, f.m, p[f.m].requests[j])
  }

  ghost predicate BlackEdgesOk(p: seq<Definition>, w: World, k: Walk, u: nat)
    requires |w.rs| == |p|
  {
    u < |p| && forall r :: r in p[u].requests ==> EdgeOk(w, k, u, r)
  }

  ghost predicate EdgesOk(p: seq<Definition>, w: World, k: Walk)
    requires |w.rs| == |p|
  {
    && (forall i :: 0 <= i < |k.frames| && k.frames[i].entered ==> FrameEdgesOk(p, w, k, k.frames[i]))
    && (forall u: nat :: Black(w, k, u) ==> BlackEdgesOk(p, w, k, u))
  }

  ghost predicate LowWitness(p: seq<Definition>, w: World, y: nat, z: nat)
    requires y < |w.rs|
  {
    z < |w.rs| && w.rs[z].status == Evaluating && w.rs[z].dfsIndex == w.rs[y].ancestorIndex && Reaches(p, y, z)
  }

  ghost predicate HasLow(p: seq<Definition>, w: World, y: nat)
    requires y < |w.rs|
  {
    exists z: nat :: LowWitness(p, w, y, z)
  }

  ghost predicate ReachesAbove(p: seq<Definition>, w: World, g: nat)
    requires |w.rs| == |p|
  {
    && g < |p|
    && forall y: nat :: y < |p| && w.rs[y].status == Evaluating && w.rs[g].dfsIndex <= w.rs[y].dfsIndex ==>
         Reaches(p, g, y)
  }

  ghost predicate ReachOk(p: seq<Definition>, w: World, k: Walk)
    requires |w.rs| == |p|
  {
    && (forall i :: 0 <= i < |k.frames| && k.frames[i].entered ==> ReachesAbove(p, w, k.frames[i].m))
    && (forall y: nat {:trigger HasLow(p, w, y)} :: y < |p| && w.rs[y].status == Evaluating ==> HasLow(p, w, y))
  }

  /** Frame i is the innermost open call around y. */
  ghost predicate Around(w: World, k: Walk, i: int, y: nat) {
    && 0 <= i < |k.frames| && k.frames[i].entered && k.frames[i].m < |w.rs| && y < |w.rs|
    && w.rs[k.frames[i].m].dfsIndex < w.rs[y].dfsIndex
    && (i + 1 < |k.frames| && k.frames[i + 1].entered && k.frames[i + 1].m < |w.rs| ==>
          w.rs[y].dfsIndex < w.rs[k.frames[i + 1].m].dfsIndex)
  }

  /** The request that the innermost frame has made and not yet looked back at. */
  ghost predicate JustReturned(p: seq<Definition>, w: World, k: Walk, r: nat)
  {
    && |k.frames| > 0 && |p| == |w.rs|
    && var f := k.frames[|k.frames| - 1];
    && f.entered && f.waiting && f.m < |p| && 0 < f.next <= |p[f.m].requests| && p[f.m].requests[f.next - 1] == r
    && r < |p| && w.rs[r].status == Evaluating && w.rs[f.m].dfsIndex < w.rs[r].dfsIndex
  }

  /** Every completed open module can go lower than itself. */
  ghost predicate LowStrict(w: World, k: Walk) {
    forall y: nat :: Black(w, k, y) ==> w.rs[y].ancestorIndex < w.rs[y].dfsIndex
  }

  /**
  The innermost call around y knows how low y can go, or is about to learn it from the request that just returned.
  */
  ghost predicate CoverOk(p: seq<Definition>, w: World, k: Walk, i: int, y: nat) {
    Around(w, k, i, y) ==>
      || w.rs[k.frames[i].m].ancestorIndex <= w.rs[y].ancestorIndex
      || (i == |k.frames| - 1 && exists r: nat ::
            JustReturned(p, w, k, r) && w.rs[r].dfsIndex <= w.rs[y].dfsIndex
            && w.rs[r].ancestorIndex <= w.rs[y].ancestorIndex)
  }

  ghost predicate LowCover(p: seq<Definition>, w: World, k: Walk) {
    forall i, y: nat :: 0 <= i < |k.frames| && Black(w, k, y) ==> CoverOk(p, w, k, i, y)
  }

  /** y is waited for by an open module inside the innermost call around y. */
  ghost predicate ViaOk(w: World, k: Walk, y: nat)
    requires y < |w.rs| == |w.via|
  {
    var v := w.via[y];
    && v < |w.rs| && w.rs[v].status == Evaluating && w.rs[v].dfsIndex < w.rs[y].dfsIndex && v in w.rs[y].asyncParents
    && (forall g: nat :: Gray(k, g) && g < |w.rs| && w.rs[g].dfsIndex < w.rs[y].dfsIndex ==>
          w.rs[g].dfsIndex <= w.rs[v].dfsIndex)
  }

  ghost predicate BlackWaits(p: seq<Definition>, w: World, k: Walk, y: nat)
    requires y < |w.rs| == |w.via|
  {
    if w.rs[y].asyncActive then
      && (ViaOk(w, k, y) || JustReturned(p, w, k, y))
      && (w.rs[y].pending == 0 ==> y in w.started)
      && (y in w.started ==> y in w.inFlight)
    else y in w.finished
  }

  ghost predicate GrayWaits(w: World, m: nat)
    requires m < |w.rs|
  {
    !w.rs[m].asyncActive && w.rs[m].asyncParents == [] && m !in w.started
  }

  ghost predicate WaitsOk(p: seq<Definition>, w: World, k: Walk)
    requires |w.rs| == |p| == |w.via|
  {
    && (forall m: nat :: m < |p| && Gray(k, m) ==> GrayWaits(w, m))
    && (forall y: nat :: Black(w, k, y) ==> BlackWaits(p, w, k, y))
    && (forall y, q: nat :: 0 <= y < |p| && w.rs[y].status == Evaluating && q in w.rs[y].asyncParents && q < |p| ==>
          NestedIn(w, k, q, y))
  }

  ghost predicate WalkCounts(w: World) {
    forall m: nat :: m < |w.rs| && w.rs[m].status == Evaluating ==>
      w.rs[m].pending == Registrations(w.rs, Active(w.rs), m, |w.rs|)
  }

  ghost predicate WalkCapabilities(w: World, root: nat) {
    && root < |w.rs| && w.rs[root].topLevel == Some(Pending) && w.rs[root].cycleRoot == root && !w.rs[root].hasError
    && (forall m: nat :: m < |w.rs| ==> !w.rs[m].inExecutionList)
    && (forall m: nat :: m < |w.rs| && m != root ==>
          && CapabilityOk(w.rs[m])
          && (w.rs[m].topLevel.Some? ==>
                w.rs[m].cycleRoot == m && w.rs[m].status != Linked && w.rs[m].status != Evaluating))
  }

  ghost predicate Settled(p: seq<Definition>, w: World) {
    && Shape(p, w) && Statuses(w) && PoppedClosed(p, w) && Components(p, w)
    && RegistrationsOk(w) && RequestsServed(p, w) && MembersOk(w)
    && PendingCounts(w, Active(w.rs)) && ZeroMeansRunning(w, {})
  }

  ghost predicate WalkOk(p: seq<Definition>, w: World, k: Walk, root: nat) {
    && Settled(p, w)
    && StackOk(p, w, k) && FramesOk(p, w, k) && EdgesOk(p, w, k) && ReachOk(p, w, k)
    && LowStrict(w, k) && LowCover(p, w, k) && WaitsOk(p, w, k) && WalkCounts(w) && WalkCapabilities(w, root)
    && (k.frames != [] ==> k.frames[0].m == root)
    && (k.frames == [] ==> w.rs[root].status != Linked)
  }

  // ------------------------------------------------------------------ reaching

  /** Every open module reaches the innermost call. */
  lemma {:induction false} OpenReachesTop(p: seq<Definition>, w: World, k: Walk, y: nat)
    requires Shape(p, w) && StackOk(p, w, k) && FramesOk(p, w, k) && ReachOk(p, w, k) && LowStrict(w, k)
    requires |k.frames| > 0 && k.frames[|k.frames| - 1].entered
    requires y < |p| && w.rs[y].status == Evaluating
    ensures Reaches(p, y, k.frames[|k.frames| - 1].m)
    decreases w.rs[y].dfsIndex
  {
    var n := |k.frames| - 1;
    var top := k.frames[n].m;
    assert FrameOk(p, w, k, n);
    if Gray(k, y) {
      var i :| 0 <= i < |k.frames| && k.frames[i].entered && k.frames[i].m == y;
      assert w.rs[y].dfsIndex <= w.rs[top].dfsIndex;
      assert ReachesAbove(p, w, k.frames[i].m);
    } else {
      assert Black(w, k, y);
      assert HasLow(p, w, y);
      var z: nat :| LowWitness(p, w, y, z);
      assert w.rs[z].dfsIndex < w.rs[y].dfsIndex;
      OpenReachesTop(p, w, k, z);
      ReachesTransitive(p, y, z, top);
    }
  }

  lemma IndexIdentifies(p: seq<Definition>, w: World, k: Walk, a: nat, b: nat)
    requires |w.rs| == |p| && StackOk(p, w, k)
    requires a < |p| && b < |p| && w.rs[a].status == w.rs[b].status == Evaluating
    ensures w.rs[a].dfsIndex == w.rs[b].dfsIndex ==> a == b
  {
  }

  lemma GrayUpToTop(p: seq<Definition>, w: World, k: Walk, y: nat)
    requires |w.rs| == |p| && FramesOk(p, w, k)
    requires |k.frames| > 0 && k.frames[|k.frames| - 1].entered && Gray(k, y)
    ensures y < |p| && w.rs[y].dfsIndex <= w.rs[k.frames[|k.frames| - 1].m].dfsIndex
  {
  }

  /**
  With all requests of the innermost call looked at and its ancestor index its own, nothing above it escapes below it.
  */
  lemma AboveStaysAbove(p: seq<Definition>, w: World, k: Walk, y: nat)
    requires |w.rs| == |p| && StackOk(p, w, k) && FramesOk(p, w, k) && LowCover(p, w, k)
    requires |k.frames| > 0
    requires var f := k.frames[|k.frames| - 1]; f.entered && !f.waiting && w.rs[f.m].ancestorIndex == w.rs[f.m].dfsIndex
    requires y < |p| && w.rs[y].status == Evaluating && w.rs[k.frames[|k.frames| - 1].m].dfsIndex <= w.rs[y].dfsIndex
    ensures w.rs[k.frames[|k.frames| - 1].m].dfsIndex <= w.rs[y].ancestorIndex
  {
    var n := |k.frames| - 1;
    assert FrameOk(p, w, k, n);
    if y != k.frames[n].m {
      IndexIdentifies(p, w, k, k.frames[n].m, y);
      if Gray(k, y) {
        GrayUpToTop(p, w, k, y);
      }
      assert Around(w, k, n, y) && Black(w, k, y);
      assert CoverOk(p, w, k, n, y);
    }
  }
}
